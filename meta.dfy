/** A reading goal: its progress counter, its one-way completion flag and
    the end of its time window (model/Meta.java). */
module Metas {
  import opened Comum
  import opened JavaInt

  /** The goal's type; its constants are not part of this model, only the
      duration in days that each type is given. */
  datatype TipoMeta = TipoMeta(nome: string)

  /** The unit the goal counts in; its constants are not part of this model. */
  datatype UnidadeMeta = UnidadeMeta(nome: string)

  /** Timestamps are whole seconds; a `LocalDateTime` has no daylight-saving
      gaps, so adding a day adds exactly this many. */
  const SEGUNDOS_POR_DIA: int := 86400

  /** The progress part of a goal: the counter and the completion flag. */
  datatype Andamento = Andamento(atual: Int32, concluida: bool)

  /** One call `atualizarProgresso(quantidade)` against target `alvo`: the
      `Integer` counter grows by `quantidade` (an `int` addition), and the
      flag is set when the new counter reaches the target; it is never
      cleared. Neither completion nor the sign of `quantidade` is checked. */
  function Passo(a: Andamento, alvo: Int32, quantidade: Int32): (r: Andamento)
    ensures INT_MIN <= a.atual + quantidade <= INT_MAX ==> r.atual == a.atual + quantidade
    ensures r.concluida <==> a.concluida || r.atual >= alvo
  {
    var atual := AddInt(a.atual, quantidade);
    Andamento(atual, a.concluida || atual >= alvo)
  }

  /** Example: target 100, counter 95, plus 10 gives 105 and completes. */
  lemma PassoCompleta()
    ensures Passo(Andamento(95, false), 100, 10) == Andamento(105, true)
  {
  }

  /** A step that stays below the target leaves an open goal open. */
  lemma PassoAbaixoDoAlvo(a: Andamento, alvo: Int32, quantidade: Int32)
    requires !a.concluida && Passo(a, alvo, quantidade).atual < alvo
    ensures !Passo(a, alvo, quantidade).concluida
  {
  }

  /** There is no guard: a completed goal still moves its counter, and a
      negative amount lowers it while the goal stays complete. */
  lemma PassoSemGuarda()
    ensures Passo(Andamento(105, true), 100, 10) == Andamento(115, true)
    ensures Passo(Andamento(105, true), 100, -30) == Andamento(75, true)
  {
  }

  /** The counter never decreases under a non-negative amount that does not
      overflow. */
  lemma PassoMonotono(a: Andamento, alvo: Int32, quantidade: Int32)
    requires quantidade >= 0 && a.atual + quantidade <= INT_MAX
    ensures Passo(a, alvo, quantidade).atual >= a.atual
  {
  }

  /** A goal whose counter has reached the target is marked complete. The
      defaults (counter 0, open) are coherent for the positive target the
      entity requires, and every call leaves the goal coherent. */
  predicate Coerente(a: Andamento, alvo: Int32) {
    a.atual >= alvo ==> a.concluida
  }

  lemma PassoCoerente(a: Andamento, alvo: Int32, quantidade: Int32)
    ensures Coerente(Passo(a, alvo, quantidade), alvo)
  {
  }

  /** The goal after a sequence of calls. */
  function Percorrer(a: Andamento, alvo: Int32, qs: seq<Int32>): (r: Andamento)
    ensures qs != [] || Coerente(a, alvo) ==> Coerente(r, alvo)
    decreases |qs|
  {
    if qs == [] then a else Percorrer(Passo(a, alvo, qs[0]), alvo, qs[1..])
  }

  /** Completion is irreversible: once set, the flag survives any sequence
      of calls, whatever their amounts. */
  lemma {:induction false} ConcluidaPermanece(a: Andamento, alvo: Int32, qs: seq<Int32>)
    requires a.concluida
    ensures Percorrer(a, alvo, qs).concluida
    decreases |qs|
  {
    if qs != [] {
      ConcluidaPermanece(Passo(a, alvo, qs[0]), alvo, qs[1..]);
    }
  }

  /** Without overflow, non-negative amounts accumulate exactly: the counter
      ends at the start plus their sum, and a coherent goal is complete at
      the end exactly when it was complete at the start or the final counter
      reaches the target. */
  lemma {:induction false} PercorrerAcumula(a: Andamento, alvo: Int32, qs: seq<Int32>)
    requires Coerente(a, alvo)
    requires forall i :: 0 <= i < |qs| ==> qs[i] >= 0
    requires a.atual + Soma(qs) <= INT_MAX
    ensures Percorrer(a, alvo, qs).atual == a.atual + Soma(qs) >= a.atual
    ensures Percorrer(a, alvo, qs).concluida <==> a.concluida || a.atual + Soma(qs) >= alvo
    decreases |qs|
  {
    SomaNaoNegativa(qs);
    if qs != [] {
      var tl := qs[1..];
      assert forall i :: 0 <= i < |tl| ==> tl[i] == qs[i + 1];
      SomaNaoNegativa(tl);
      var b := Passo(a, alvo, qs[0]);
      assert Soma(qs) == qs[0] + Soma(tl);
      assert b.atual == a.atual + qs[0];
      PercorrerAcumula(b, alvo, tl);
      assert Percorrer(a, alvo, qs) == Percorrer(b, alvo, tl);
    }
  }

  /** The end of a goal window that starts at `inicio` and lasts `dias`
      days (`dataInicio.plusDays(dias)`). */
  function DataFim(inicio: int, dias: nat): (fim: int)
    ensures fim >= inicio
    ensures fim - inicio == dias * SEGUNDOS_POR_DIA
  {
    inicio + dias * SEGUNDOS_POR_DIA
  }

  /** A goal entity; the owner is kept as its id. */
  class Meta {
    const usuarioId: Uuid
    var tipoMeta: Option<TipoMeta>
    var unidadeMeta: UnidadeMeta
    var quantidadeAlvo: Int32
    var quantidadeAtual: Int32
    var dataInicio: Option<int>
    var dataFim: Option<int>
    var concluida: bool

    /** The progress part of the goal's state. */
    function Progresso(): Andamento
      reads this
    {
      Andamento(quantidadeAtual, concluida)
    }

    /** A new goal: the counter starts at 0 and the goal is open. */
    constructor (usuarioId: Uuid, tipoMeta: Option<TipoMeta>, unidadeMeta: UnidadeMeta,
                 quantidadeAlvo: Int32, dataInicio: Option<int>)
      ensures this.usuarioId == usuarioId && this.tipoMeta == tipoMeta
      ensures this.unidadeMeta == unidadeMeta && this.quantidadeAlvo == quantidadeAlvo
      ensures this.dataInicio == dataInicio && dataFim == None
      ensures quantidadeAtual == 0 && !concluida
    {
      this.usuarioId := usuarioId;
      this.tipoMeta := tipoMeta;
      this.unidadeMeta := unidadeMeta;
      this.quantidadeAlvo := quantidadeAlvo;
      this.dataInicio := dataInicio;
      dataFim := None;
      quantidadeAtual := 0;
      concluida := false;
    }

    /** The pre-persist hook: when both the start and the type are present,
        the end is the start plus the type's duration; otherwise the end is
        left as it was. Only `dataFim` may change. */
    method CalcularDataFim(duracaoDias: TipoMeta -> nat)
      modifies this`dataFim
      ensures dataInicio.Some? && tipoMeta.Some? ==>
                dataFim == Some(DataFim(dataInicio.value, duracaoDias(tipoMeta.value)))
      ensures dataInicio.None? || tipoMeta.None? ==> dataFim == old(dataFim)
    {
      if dataInicio.Some? && tipoMeta.Some? {
        dataFim := Some(dataInicio.value + duracaoDias(tipoMeta.value) * SEGUNDOS_POR_DIA);
      }
    }

    /** `atualizarProgresso(quantidade)`: only the counter and the flag
        change, and together they take the next state of `Passo`. */
    method AtualizarProgresso(quantidade: Int32)
      modifies this`quantidadeAtual, this`concluida
      ensures Progresso() == Passo(old(Progresso()), quantidadeAlvo, quantidade)
      ensures INT_MIN <= old(quantidadeAtual) + quantidade <= INT_MAX ==>
                quantidadeAtual == old(quantidadeAtual) + quantidade
      ensures old(concluida) ==> concluida
      ensures concluida <==> old(concluida) || quantidadeAtual >= quantidadeAlvo
    {
      quantidadeAtual := AddInt(quantidadeAtual, quantidade);
      if quantidadeAtual >= quantidadeAlvo {
        concluida := true;
      }
    }
  }
}
