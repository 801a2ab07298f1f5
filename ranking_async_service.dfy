/** The post-commit handler that refreshes leaderboards after a progress
    entry is recorded, with its five-minute staleness throttle
    (service/RankingAsyncService.java). */
module RankingAsync {
  import opened Comum

  /** The ranking scope the handler checks; the enum's other constants
      are not part of this model. */
  datatype TipoRanking = GERAL

  datatype PeriodoRanking = SEMANAL | MENSAL | ANUAL | TOTAL

  /** The key a leaderboard snapshot is stored under. */
  datatype Chave = Chave(tipo: TipoRanking, periodo: PeriodoRanking)

  /** What the repository lookup for a key produced: no snapshot, a
      snapshot with its `updatedAt` (which may be null), or an exception. */
  datatype Consulta = Ausente | Encontrado(updatedAt: Option<int>) | Falha

  /** The repository lookup: a key with no stored entry has no snapshot. */
  function Buscar(repositorio: map<Chave, Consulta>, k: Chave): Consulta {
    if k in repositorio then repositorio[k] else Ausente
  }

  /** The clock readings, one per staleness check (each check reads the
      clock itself). */
  datatype Relogio = Relogio(semanal: int, mensal: int, anual: int, total: int)

  function Leitura(relogio: Relogio, p: PeriodoRanking): int {
    match p
    case SEMANAL => relogio.semanal
    case MENSAL => relogio.mensal
    case ANUAL => relogio.anual
    case TOTAL => relogio.total
  }

  /** Five minutes, in the model's time unit (seconds). */
  const JANELA: int := 5 * 60

  /** `deveAtualizarRanking`: recompute when there is no snapshot, when the
      snapshot was last updated strictly before five minutes ago, and
      whenever the check itself throws (a failed lookup, or a null
      `updatedAt`). */
  function DeveAtualizarRanking(c: Consulta, agora: int): (r: bool)
    ensures c.Ausente? || c.Falha? ==> r
    ensures c.Encontrado? && c.updatedAt.None? ==> r
    ensures c.Encontrado? && c.updatedAt.Some? ==> (r <==> c.updatedAt.value < agora - JANELA)
  {
    match c
    case Ausente => true
    case Falha => true
    case Encontrado(None) => true
    case Encontrado(Some(t)) => t < agora - JANELA
  }

  /** The throttle boundary is strict: a snapshot exactly five minutes old
      is kept, one a second older is recomputed; at four minutes it is kept
      and at six it is recomputed. */
  lemma LimiteDoThrottle(t: int)
    ensures !DeveAtualizarRanking(Encontrado(Some(t)), t + JANELA)
    ensures DeveAtualizarRanking(Encontrado(Some(t)), t + JANELA + 1)
    ensures !DeveAtualizarRanking(Encontrado(Some(t)), t + 4 * 60)
    ensures DeveAtualizarRanking(Encontrado(Some(t)), t + 6 * 60)
  {
  }

  /** Staleness only grows with time: a snapshot due for recomputation at
      one instant is due at every later instant. */
  lemma DeveAtualizarMonotono(c: Consulta, agora: int, depois: int)
    requires agora <= depois && DeveAtualizarRanking(c, agora)
    ensures DeveAtualizarRanking(c, depois)
  {
  }

  /** A request to the ranking service. */
  datatype Chamada = Geral(periodo: PeriodoRanking) | Amigos(usuarioId: Uuid, periodo: PeriodoRanking)

  /** The event published after a progress entry is committed. */
  datatype ProgressoRegistradoEvent = ProgressoRegistradoEvent(usuarioId: Uuid)

  /** The position of a period in the handler's fixed order. */
  function Ordem(p: PeriodoRanking): nat {
    match p
    case SEMANAL => 0
    case MENSAL => 1
    case ANUAL => 2
    case TOTAL => 3
  }

  /** The general request for `p`, if the snapshot under `(tipo, p)` is
      stale. */
  function SeNecessario(tipo: TipoRanking, p: PeriodoRanking, repositorio: map<Chave, Consulta>,
                        relogio: Relogio): (r: seq<Chamada>)
    ensures |r| <= 1
    ensures r != [] <==> DeveAtualizarRanking(Buscar(repositorio, Chave(tipo, p)), Leitura(relogio, p))
    ensures forall i :: 0 <= i < |r| ==> r[i] == Geral(p)
  {
    if DeveAtualizarRanking(Buscar(repositorio, Chave(tipo, p)), Leitura(relogio, p)) then [Geral(p)] else []
  }

  /** The requests the handler issues when none of them throws: the four
      general periods in order, each gated by its own staleness check
      (`Leitura(relogio, p)` is the clock reading taken during the check for `p`),
      then the friends rankings of the event's user, weekly and monthly,
      without a check. */
  function Plano(u: Uuid, repositorio: map<Chave, Consulta>, relogio: Relogio): (r: seq<Chamada>)
    ensures 2 <= |r| <= 6
  {
    SeNecessario(GERAL, SEMANAL, repositorio, relogio)
    + (SeNecessario(GERAL, MENSAL, repositorio, relogio)
    + (SeNecessario(GERAL, ANUAL, repositorio, relogio)
    + (SeNecessario(GERAL, TOTAL, repositorio, relogio)
    + AmigosDe(u))))
  }

  /** A general request is planned exactly when its key is stale: a
      skipped key causes no call. */
  lemma PlanoGeralSeVencido(u: Uuid, repositorio: map<Chave, Consulta>, relogio: Relogio,
                             p: PeriodoRanking)
    ensures (Geral(p) in Plano(u, repositorio, relogio))
            == DeveAtualizarRanking(Buscar(repositorio, Chave(GERAL, p)), Leitura(relogio, p))
  {
    var plano := Plano(u, repositorio, relogio);
    if Geral(p) in plano {
      var i :| 0 <= i < |plano| && plano[i] == Geral(p);
      assert Geral(p) in SeNecessario(GERAL, p, repositorio, relogio);
    } else {
      assert Geral(p) !in SeNecessario(GERAL, p, repositorio, relogio);
    }
  }

  /** The friends requests of the plan. */
  function AmigosDe(u: Uuid): seq<Chamada> {
    [Amigos(u, SEMANAL), Amigos(u, MENSAL)]
  }

  /** The plan always ends with the two friends rankings of the event's
      user, and every other request is a general one. */
  lemma PlanoTerminaComAmigos(u: Uuid, repositorio: map<Chave, Consulta>, relogio: Relogio)
    ensures var plano := Plano(u, repositorio, relogio);
      && |plano| >= 2
      && plano[|plano| - 2..] == [Amigos(u, SEMANAL), Amigos(u, MENSAL)]
      && forall i :: 0 <= i < |plano| - 2 ==> plano[i].Geral?
  {
  }

  /** General requests come in the fixed order SEMANAL, MENSAL, ANUAL,
      TOTAL, each at most once, and all before the friends requests. */
  lemma PlanoOrdenado(u: Uuid, repositorio: map<Chave, Consulta>, relogio: Relogio,
                      i: int, j: int)
    requires 0 <= i < j < |Plano(u, repositorio, relogio)|
    requires Plano(u, repositorio, relogio)[j].Geral?
    ensures Plano(u, repositorio, relogio)[i].Geral?
    ensures Ordem(Plano(u, repositorio, relogio)[i].periodo) < Ordem(Plano(u, repositorio, relogio)[j].periodo)
  {
  }

  /** The requests actually issued when the calls in `falhas` throw: the
      plan up to and including the first call that throws, since the
      exception aborts every later step. */
  function AteFalha(plano: seq<Chamada>, falhas: set<Chamada>): (r: seq<Chamada>)
    ensures |r| <= |plano|
    decreases |plano|
  {
    if plano == [] then []
    else if plano[0] in falhas then [plano[0]]
    else [plano[0]] + AteFalha(plano[1..], falhas)
  }

  /** What is issued is a prefix of the plan in which no call but the last
      throws; it stops short of the plan only at a call that throws, and it
      is the whole plan when no call throws. */
  lemma {:induction false} AteFalhaPrefixo(plano: seq<Chamada>, falhas: set<Chamada>)
    ensures var r := AteFalha(plano, falhas);
            |r| <= |plano| && r == plano[..|r|]
    ensures var r := AteFalha(plano, falhas);
            forall i :: 0 <= i < |r| - 1 ==> r[i] !in falhas
    ensures var r := AteFalha(plano, falhas);
            |r| < |plano| ==> |r| > 0 && r[|r| - 1] in falhas
    ensures (forall i :: 0 <= i < |plano| ==> plano[i] !in falhas) ==> AteFalha(plano, falhas) == plano
    decreases |plano|
  {
    if plano != [] && plano[0] !in falhas {
      var cauda := plano[1..];
      AteFalhaPrefixo(cauda, falhas);
      var rc := AteFalha(cauda, falhas);
      var r := AteFalha(plano, falhas);
      assert r == [plano[0]] + rc;
      assert forall i :: 0 <= i < |cauda| ==> cauda[i] == plano[i + 1];
      assert forall i :: 0 < i < |r| ==> r[i] == rc[i - 1];
    }
  }

  /** The step `a` (at most one call) throws. */
  predicate Lanca(a: seq<Chamada>, falhas: set<Chamada>) {
    a != [] && a[0] in falhas
  }

  /** Issuing at most one call and then the rest: the call either throws
      and ends the run, or the run goes on with the rest. */
  lemma AteFalhaPasso(a: seq<Chamada>, resto: seq<Chamada>, falhas: set<Chamada>)
    requires |a| <= 1
    ensures AteFalha(a + resto, falhas) == if Lanca(a, falhas) then a else a + AteFalha(resto, falhas)
  {
    if a == [] {
      assert a + resto == resto;
    } else {
      assert (a + resto)[1..] == resto;
    }
  }

  /** One step of the handler, with `antes` the log before the step: the
      step's call either throws and ends the run, or the run goes on with
      the rest of the plan. */
  lemma Avanca(antes: seq<Chamada>, a: seq<Chamada>, resto: seq<Chamada>, falhas: set<Chamada>)
    requires |a| <= 1
    ensures antes + AteFalha(a + resto, falhas)
              == if Lanca(a, falhas) then antes + a else (antes + a) + AteFalha(resto, falhas)
  {
    AteFalhaPasso(a, resto, falhas);
  }

  /** The ranking service, an abstract callee: each call is recorded in a
      log, and the calls in `falhas` throw. */
  class RankingService {
    ghost var chamadas: seq<Chamada>
    const falhas: set<Chamada>

    constructor (falhas: set<Chamada>)
      ensures chamadas == [] && this.falhas == falhas
    {
      chamadas := [];
      this.falhas := falhas;
    }

    method CalcularERankingGeral(p: PeriodoRanking) returns (lancou: bool)
      modifies this`chamadas
      ensures chamadas == old(chamadas) + [Geral(p)]
      ensures lancou <==> Geral(p) in falhas
    {
      chamadas := chamadas + [Geral(p)];
      lancou := Geral(p) in falhas;
    }

    method CalcularERankingAmigos(u: Uuid, p: PeriodoRanking) returns (lancou: bool)
      modifies this`chamadas
      ensures chamadas == old(chamadas) + [Amigos(u, p)]
      ensures lancou <==> Amigos(u, p) in falhas
    {
      chamadas := chamadas + [Amigos(u, p)];
      lancou := Amigos(u, p) in falhas;
    }
  }

  /** The handler; the snapshot repository and the clock readings are
      passed in as `repositorio` and `relogio`. */
  class RankingAsyncService {
    const rankingService: RankingService

    constructor (rankingService: RankingService)
      ensures this.rankingService == rankingService
    {
      this.rankingService := rankingService;
    }

    /** `atualizarRankingSeNecessario`: checks the snapshot under `(tipo,
        periodo)` against the clock and calls the general recomputation for
        the period only when it is stale; reports whether that call threw. */
    method AtualizarRankingSeNecessario(tipo: TipoRanking, periodo: PeriodoRanking,
                                        repositorio: map<Chave, Consulta>, relogio: Relogio)
      returns (lancou: bool)
      modifies rankingService`chamadas
      ensures rankingService.chamadas == old(rankingService.chamadas) + SeNecessario(tipo, periodo, repositorio, relogio)
      ensures lancou <==> DeveAtualizarRanking(Buscar(repositorio, Chave(tipo, periodo)), Leitura(relogio, periodo))
                          && Geral(periodo) in rankingService.falhas
      ensures lancou <==> Lanca(SeNecessario(tipo, periodo, repositorio, relogio), rankingService.falhas)
    {
      lancou := false;
      if DeveAtualizarRanking(Buscar(repositorio, Chave(tipo, periodo)), Leitura(relogio, periodo)) {
        lancou := rankingService.CalcularERankingGeral(periodo);
      }
    }

    /** `onProgressoRegistrado`: issues the plan in order, stops at the
        first call that throws, and never lets the exception escape. */
    method OnProgressoRegistrado(evento: ProgressoRegistradoEvent, repositorio: map<Chave, Consulta>,
                                 relogio: Relogio)
      modifies rankingService`chamadas
      ensures rankingService.chamadas == old(rankingService.chamadas)
                + AteFalha(Plano(evento.usuarioId, repositorio, relogio), rankingService.falhas)
    {
      ghost var falhas := rankingService.falhas;
      ghost var u := evento.usuarioId;
      ghost var s0 := SeNecessario(GERAL, SEMANAL, repositorio, relogio);
      ghost var s1 := SeNecessario(GERAL, MENSAL, repositorio, relogio);
      ghost var s2 := SeNecessario(GERAL, ANUAL, repositorio, relogio);
      ghost var s3 := SeNecessario(GERAL, TOTAL, repositorio, relogio);
      ghost var r4 := [Amigos(u, MENSAL)];
      ghost var r3 := [Amigos(u, SEMANAL)] + r4;
      ghost var r2 := s3 + r3;
      ghost var r1 := s2 + r2;
      ghost var r0 := s1 + r1;
      assert Plano(u, repositorio, relogio) == s0 + r0;
      // The log the handler must leave; after each step that does not throw
      // it is the current log followed by what the rest of the plan issues.
      ghost var alvo := rankingService.chamadas + AteFalha(s0 + r0, falhas);
      var lancou: bool;

      Avanca(rankingService.chamadas, s0, r0, falhas);
      lancou := AtualizarRankingSeNecessario(GERAL, SEMANAL, repositorio, relogio);
      if lancou { return; }

      Avanca(rankingService.chamadas, s1, r1, falhas);
      lancou := AtualizarRankingSeNecessario(GERAL, MENSAL, repositorio, relogio);
      if lancou { return; }

      Avanca(rankingService.chamadas, s2, r2, falhas);
      lancou := AtualizarRankingSeNecessario(GERAL, ANUAL, repositorio, relogio);
      if lancou { return; }

      Avanca(rankingService.chamadas, s3, r3, falhas);
      lancou := AtualizarRankingSeNecessario(GERAL, TOTAL, repositorio, relogio);
      if lancou { return; }

      Avanca(rankingService.chamadas, [Amigos(u, SEMANAL)], r4, falhas);
      lancou := rankingService.CalcularERankingAmigos(evento.usuarioId, SEMANAL);
      if lancou { return; }

      Avanca(rankingService.chamadas, [Amigos(u, MENSAL)], [], falhas);
      assert [Amigos(u, MENSAL)] + [] == r4;
      lancou := rankingService.CalcularERankingAmigos(evento.usuarioId, MENSAL);
      assert rankingService.chamadas + [] == rankingService.chamadas;
    }
  }
}
