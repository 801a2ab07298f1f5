/** Users, their XP and level, and the user registry
    (service/UsuarioService.java over model/Usuario.java). */
module Usuarios {
  import opened Comum
  import opened JavaInt

  /** The user entity. `xpTotal` is a `Long` and `nivelAtual` an `Integer`. */
  datatype Usuario = Usuario(
    id: Uuid,
    nomeUsuario: string,
    nome: string,
    genero: string,
    email: string,
    senha: string,
    xpTotal: Int64,
    nivelAtual: Int32,
    codigoConvite: string,
    fotoPerfil: Option<string>)

  /** A user as constructed from a request, with the entity's field
      defaults: no XP and level 1. The id and the invite code are still
      unset (written here as 0 and ""); registration assigns both. */
  function NovoUsuario(nomeUsuario: string, nome: string, genero: string, email: string,
                       senha: string, fotoPerfil: Option<string>): (u: Usuario)
    ensures u.xpTotal == 0 && u.nivelAtual == 1
    ensures u.nomeUsuario == nomeUsuario && u.email == email && u.fotoPerfil == fotoPerfil
  {
    Usuario(0, nomeUsuario, nome, genero, email, senha, 0, 1, "", fotoPerfil)
  }

  const XP_POR_NIVEL: int := 1000

  /** The first total whose level no longer fits in an `int`. */
  const XP_LIMITE_NIVEL: int := INT_MAX * XP_POR_NIVEL

  /** The level for a total: `(int) (xpTotal / 1000) + 1` in Java, with the
      truncating division, the narrowing cast and the `int` addition. */
  function Nivel(xpTotal: Int64): (n: Int32)
    ensures 0 <= xpTotal < XP_LIMITE_NIVEL ==> n >= 1
  {
    AddInt(ToInt32(Quot(xpTotal, XP_POR_NIVEL)), 1)
  }

  /** For every total the level can represent, the level is one more than
      the number of whole thousands of XP. */
  lemma NivelFormula(xpTotal: Int64)
    requires 0 <= xpTotal < XP_LIMITE_NIVEL
    ensures Nivel(xpTotal) == xpTotal / XP_POR_NIVEL + 1
    ensures Nivel(xpTotal) >= 1
  {
    assert xpTotal / XP_POR_NIVEL <= INT_MAX - 1;
  }

  /** Over the representable range, more XP never means a lower level. */
  lemma NivelMonotono(a: Int64, b: Int64)
    requires 0 <= a <= b < XP_LIMITE_NIVEL
    ensures Nivel(a) <= Nivel(b)
  {
    NivelFormula(a);
    NivelFormula(b);
  }

  /** Java's division rounds toward zero: a small negative total is still
      level 1, where a floor division would give level 0. */
  lemma NivelDeTotalNegativo(xpTotal: Int64)
    requires -XP_POR_NIVEL < xpTotal < 0
    ensures Nivel(xpTotal) == 1
  {
  }

  /** At 2147483647000 XP the `int` addition overflows and the level wraps
      to the most negative `int`. */
  lemma NivelTransborda()
    ensures Nivel(XP_LIMITE_NIVEL) == INT_MIN
  {
  }

  /** The new state of a user after `adicionarXp(xp)`: the total grows by
      `xp` (as a `long` addition), the level is recomputed from the new
      total, and no other field changes. */
  function ComXp(u: Usuario, xp: Int64): (r: Usuario)
    ensures LONG_MIN <= u.xpTotal + xp <= LONG_MAX ==> r.xpTotal == u.xpTotal + xp
    ensures r.nivelAtual == Nivel(r.xpTotal)
    ensures r.(xpTotal := u.xpTotal, nivelAtual := u.nivelAtual) == u
  {
    var total := AddLong(u.xpTotal, xp);
    u.(xpTotal := total, nivelAtual := Nivel(total))
  }

  /** The level is recomputed, not incremented: adding `a` and then `b`
      leaves the same user as adding `a + b` once, with or without
      overflow. */
  lemma {:induction false} ComXpDuasVezes(u: Usuario, a: Int64, b: Int64)
    ensures ComXp(ComXp(u, a), b) == ComXp(u, AddLong(a, b))
  {
    AddLongAssociative(u.xpTotal, a, b);
  }

  /** Example: a user at 950 XP who earns 50 reaches 1000 XP and level 2. */
  lemma ComXpSobeDeNivel(u: Usuario)
    requires u.xpTotal == 950
    ensures ComXp(u, 50).xpTotal == 1000 && ComXp(u, 50).nivelAtual == 2
  {
  }

  /** A user whose level agrees with the total. */
  predicate NivelCoerente(u: Usuario) {
    u.nivelAtual == Nivel(u.xpTotal)
  }

  /** The entity defaults (0 XP, level 1) already agree with the level
      formula. */
  lemma NovoUsuarioCoerente(nomeUsuario: string, nome: string, genero: string, email: string,
                            senha: string, fotoPerfil: Option<string>)
    ensures NivelCoerente(NovoUsuario(nomeUsuario, nome, genero, email, senha, fotoPerfil))
    ensures NovoUsuario(nomeUsuario, nome, genero, email, senha, fotoPerfil).nivelAtual == 1
  {
  }

  /** Adding a non-negative amount never lowers the total, nor, below the
      level limit, the level. */
  lemma ComXpMonotono(u: Usuario, xp: Int64)
    requires xp >= 0 && 0 <= u.xpTotal && u.xpTotal + xp < XP_LIMITE_NIVEL
    requires NivelCoerente(u)
    ensures ComXp(u, xp).xpTotal >= u.xpTotal
    ensures ComXp(u, xp).nivelAtual >= u.nivelAtual >= 1
  {
    NivelFormula(u.xpTotal);
    NivelMonotono(u.xpTotal, u.xpTotal + xp);
  }

  /** The user after a sequence of `adicionarXp` calls, in order. */
  function AcumularXp(u: Usuario, xs: seq<Int64>): (r: Usuario)
    ensures r.(xpTotal := u.xpTotal, nivelAtual := u.nivelAtual) == u
    ensures xs != [] ==> NivelCoerente(r)
  {
    if xs == [] then u else ComXp(AcumularXp(u, xs[..|xs| - 1]), xs[|xs| - 1])
  }

  /** Starting from a coherent user (for instance the entity defaults), any
      sequence of non-negative XP awards that stays below the level limit
      leaves the total equal to the sum of the awards, the level given by
      the formula, and the level at least 1 and at least the starting
      level. */
  lemma {:induction false} AcumularXpFormula(u: Usuario, xs: seq<Int64>)
    requires NivelCoerente(u) && 0 <= u.xpTotal
    requires forall i :: 0 <= i < |xs| ==> xs[i] >= 0
    requires u.xpTotal + Soma(xs) < XP_LIMITE_NIVEL
    ensures AcumularXp(u, xs).xpTotal == u.xpTotal + Soma(xs)
    ensures AcumularXp(u, xs).nivelAtual == (u.xpTotal + Soma(xs)) / XP_POR_NIVEL + 1
    ensures AcumularXp(u, xs).nivelAtual >= u.nivelAtual >= 1
    ensures AcumularXp(u, xs).(xpTotal := u.xpTotal, nivelAtual := u.nivelAtual) == u
  {
    SomaNaoNegativa(xs);
    NivelFormula(u.xpTotal);
    if xs != [] {
      var init := xs[..|xs| - 1];
      assert forall i :: 0 <= i < |init| ==> init[i] == xs[i];
      SomaUltimo(xs);
      SomaNaoNegativa(init);
      AcumularXpFormula(u, init);
      var v := AcumularXp(u, init);
      ComXpMonotono(v, xs[|xs| - 1]);
      NivelFormula(v.xpTotal + xs[|xs| - 1]);
    }
  }

  /** Two distinct users must differ in every unique column:
      email, nomeUsuario and codigoConvite. */
  predicate Distintos(u: Usuario, v: Usuario) {
    u.email != v.email && u.nomeUsuario != v.nomeUsuario && u.codigoConvite != v.codigoConvite
  }

  /** The table invariant: each row is stored under its own id and the
      unique columns hold no duplicates. */
  predicate TabelaValida(m: map<Uuid, Usuario>) {
    && (forall k :: k in m ==> m[k].id == k)
    && (forall a, b :: a in m && b in m && a != b ==> Distintos(m[a], m[b]))
  }

  /** Saving `u` respects the unique columns: no other row shares one of
      its unique values. */
  predicate PodeGravar(m: map<Uuid, Usuario>, u: Usuario) {
    forall k :: k in m && k != u.id ==> Distintos(m[k], u)
  }

  /** A save that the unique constraints admit keeps the table valid. */
  lemma GravarPreservaTabela(m: map<Uuid, Usuario>, u: Usuario)
    requires TabelaValida(m) && PodeGravar(m, u)
    ensures TabelaValida(m[u.id := u])
  {
    var m' := m[u.id := u];
    forall a, b | a in m' && b in m' && a != b
      ensures Distintos(m'[a], m'[b])
    {
      if a == u.id {
        assert Distintos(m[b], u);
      } else if b == u.id {
        assert Distintos(m[a], u);
      }
    }
  }

  predicate EmailEmUso(m: map<Uuid, Usuario>, email: string) {
    exists k :: k in m && m[k].email == email
  }

  predicate NomeUsuarioEmUso(m: map<Uuid, Usuario>, nomeUsuario: string) {
    exists k :: k in m && m[k].nomeUsuario == nomeUsuario
  }

  predicate CodigoEmUso(m: map<Uuid, Usuario>, codigo: string) {
    exists k :: k in m && m[k].codigoConvite == codigo
  }

  /** A profile photo that registration stores as an image file. */
  predicate EhImagemEmbutida(foto: Option<string>) {
    foto.Some? && ComecaCom(foto.value, "data:image")
  }

  /** The entity registration saves: the generated id and invite code, and
      an embedded image replaced by the path the image store returns
      (`None` from the store is the exception it throws). */
  function ParaRegistro(u: Usuario, novoId: Uuid, codigo: string,
                        salvarImagem: string -> Option<string>): (r: Result<Usuario, Erro>)
    ensures r.Err? <==> EhImagemEmbutida(u.fotoPerfil) && salvarImagem(u.fotoPerfil.value).None?
    ensures r.Err? ==> r.error == ErroAoSalvarImagem
    ensures r.Ok? ==> r.value.id == novoId && r.value.codigoConvite == codigo
    ensures r.Ok? ==> r.value.(id := u.id, codigoConvite := u.codigoConvite, fotoPerfil := u.fotoPerfil) == u
    ensures r.Ok? && !EhImagemEmbutida(u.fotoPerfil) ==> r.value.fotoPerfil == u.fotoPerfil
    ensures r.Ok? && EhImagemEmbutida(u.fotoPerfil) ==> r.value.fotoPerfil == salvarImagem(u.fotoPerfil.value)
  {
    var comIds := u.(id := novoId, codigoConvite := codigo);
    if EhImagemEmbutida(u.fotoPerfil) then
      match salvarImagem(u.fotoPerfil.value)
      case None => Err(ErroAoSalvarImagem)
      case Some(url) => Ok(comIds.(fotoPerfil := Some(url)))
    else
      Ok(comIds)
  }

  /** The fields a profile update may carry; `None` is a null field. */
  datatype AtualizacaoPerfil = AtualizacaoPerfil(nomeUsuario: Option<string>, fotoPerfil: Option<string>)

  /** The user after a profile update: each present field replaces the
      stored one (the photo through the image store, whatever its format),
      and nothing else changes. */
  function ComPerfil(u: Usuario, p: AtualizacaoPerfil,
                     salvarImagem: string -> Option<string>): (r: Result<Usuario, Erro>)
    ensures r.Err? <==> p.fotoPerfil.Some? && salvarImagem(p.fotoPerfil.value).None?
    ensures r.Err? ==> r.error == ErroAoSalvarImagem
    ensures r.Ok? ==> r.value.(nomeUsuario := u.nomeUsuario, fotoPerfil := u.fotoPerfil) == u
    ensures r.Ok? ==> r.value.nomeUsuario == (if p.nomeUsuario.Some? then p.nomeUsuario.value else u.nomeUsuario)
    ensures r.Ok? ==> r.value.fotoPerfil == (if p.fotoPerfil.Some? then salvarImagem(p.fotoPerfil.value) else u.fotoPerfil)
  {
    var comNome := if p.nomeUsuario.Some? then u.(nomeUsuario := p.nomeUsuario.value) else u;
    if p.fotoPerfil.Some? then
      match salvarImagem(p.fotoPerfil.value)
      case None => Err(ErroAoSalvarImagem)
      case Some(url) => Ok(comNome.(fotoPerfil := Some(url)))
    else
      Ok(comNome)
  }

  /** The user service over its repository, kept as a map from id to row. */
  class UsuarioService {
    var usuarios: map<Uuid, Usuario>

    ghost predicate Valid()
      reads this
    {
      TabelaValida(usuarios)
    }

    constructor ()
      ensures Valid() && usuarios == map[]
    {
      usuarios := map[];
    }

    /** `criar`: an email already registered is rejected first, then a user
        name already taken; otherwise the user is stored with the generated
        id and invite code. Nothing is stored on any rejection. */
    method Criar(usuario: Usuario, novoId: Uuid, codigo: string,
                 salvarImagem: string -> Option<string>) returns (r: Result<Usuario, Erro>)
      requires Valid()
      requires novoId !in usuarios
      modifies this
      ensures Valid()
      ensures EmailEmUso(old(usuarios), usuario.email) ==> r == Err(EmailJaCadastrado)
      ensures (!EmailEmUso(old(usuarios), usuario.email)
               && NomeUsuarioEmUso(old(usuarios), usuario.nomeUsuario)) ==> r == Err(NomeUsuarioJaExiste)
      ensures r.Ok? <==> !EmailEmUso(old(usuarios), usuario.email)
                          && !NomeUsuarioEmUso(old(usuarios), usuario.nomeUsuario)
                          && ParaRegistro(usuario, novoId, codigo, salvarImagem).Ok?
                          && !CodigoEmUso(old(usuarios), codigo)
      ensures (!EmailEmUso(old(usuarios), usuario.email)
               && !NomeUsuarioEmUso(old(usuarios), usuario.nomeUsuario)
               && ParaRegistro(usuario, novoId, codigo, salvarImagem).Err?)
              ==> r == ParaRegistro(usuario, novoId, codigo, salvarImagem)
      ensures (!EmailEmUso(old(usuarios), usuario.email)
               && !NomeUsuarioEmUso(old(usuarios), usuario.nomeUsuario)
               && ParaRegistro(usuario, novoId, codigo, salvarImagem).Ok?
               && CodigoEmUso(old(usuarios), codigo))
              ==> r == Err(ViolacaoUnicidade)
      ensures r.Ok? ==> ParaRegistro(usuario, novoId, codigo, salvarImagem) == r
      ensures r.Ok? ==> usuarios == old(usuarios)[novoId := r.value]
      ensures r.Err? ==> usuarios == old(usuarios)
    {
      if EmailEmUso(usuarios, usuario.email) {
        return Err(EmailJaCadastrado);
      }
      if NomeUsuarioEmUso(usuarios, usuario.nomeUsuario) {
        return Err(NomeUsuarioJaExiste);
      }
      var preparado := ParaRegistro(usuario, novoId, codigo, salvarImagem);
      if preparado.Err? {
        return preparado;
      }
      var novo := preparado.value;
      if !PodeGravar(usuarios, novo) {
        return Err(ViolacaoUnicidade);
      }
      GravarPreservaTabela(usuarios, novo);
      usuarios := usuarios[novoId := novo];
      r := Ok(novo);
    }

    /** `buscarPorId`: fails exactly when no user has the id. */
    method BuscarPorId(id: Uuid) returns (r: Result<Usuario, Erro>)
      ensures r.Ok? <==> id in usuarios
      ensures r.Ok? ==> r.value == usuarios[id]
      ensures r.Err? ==> r.error == UsuarioNaoEncontrado
    {
      if id in usuarios {
        r := Ok(usuarios[id]);
      } else {
        r := Err(UsuarioNaoEncontrado);
      }
    }

    /** `buscarPorEmail`: fails exactly when no user has the email, and
        otherwise returns the one user that has it. */
    method BuscarPorEmail(email: string) returns (r: Result<Usuario, Erro>)
      requires Valid()
      ensures r.Ok? <==> EmailEmUso(usuarios, email)
      ensures r.Ok? ==> r.value.email == email && r.value.id in usuarios && usuarios[r.value.id] == r.value
      ensures r.Ok? ==> forall k :: k in usuarios && usuarios[k].email == email ==> k == r.value.id
      ensures r.Err? ==> r.error == UsuarioNaoEncontrado
    {
      if k :| k in usuarios && usuarios[k].email == email {
        r := Ok(usuarios[k]);
      } else {
        r := Err(UsuarioNaoEncontrado);
      }
    }

    /** `buscarPorCodigoConvite`: fails exactly when no user has the
        invite code, and otherwise returns the one user that has it. */
    method BuscarPorCodigoConvite(codigo: string) returns (r: Result<Usuario, Erro>)
      requires Valid()
      ensures r.Ok? <==> CodigoEmUso(usuarios, codigo)
      ensures r.Ok? ==> r.value.codigoConvite == codigo && r.value.id in usuarios && usuarios[r.value.id] == r.value
      ensures r.Ok? ==> forall k :: k in usuarios && usuarios[k].codigoConvite == codigo ==> k == r.value.id
      ensures r.Err? ==> r.error == CodigoConviteInvalido
    {
      if k :| k in usuarios && usuarios[k].codigoConvite == codigo {
        r := Ok(usuarios[k]);
      } else {
        r := Err(CodigoConviteInvalido);
      }
    }

    /** `atualizar`: an unknown id fails; otherwise only the user name and
        the photo change, each only when the update carries it. A failing
        image store or a user name taken by another user rejects the whole
        update. */
    method Atualizar(id: Uuid, p: AtualizacaoPerfil,
                     salvarImagem: string -> Option<string>) returns (r: Result<Usuario, Erro>)
      requires Valid()
      modifies this
      ensures Valid()
      ensures id !in old(usuarios) ==> r == Err(UsuarioNaoEncontrado)
      ensures r.Ok? <==> id in old(usuarios)
                          && ComPerfil(old(usuarios)[id], p, salvarImagem).Ok?
                          && PodeGravar(old(usuarios), ComPerfil(old(usuarios)[id], p, salvarImagem).value)
      ensures (id in old(usuarios) && ComPerfil(old(usuarios)[id], p, salvarImagem).Err?)
              ==> r == ComPerfil(old(usuarios)[id], p, salvarImagem)
      ensures (id in old(usuarios) && ComPerfil(old(usuarios)[id], p, salvarImagem).Ok?
               && !PodeGravar(old(usuarios), ComPerfil(old(usuarios)[id], p, salvarImagem).value))
              ==> r == Err(ViolacaoUnicidade)
      ensures r.Ok? ==> r == ComPerfil(old(usuarios)[id], p, salvarImagem)
      ensures r.Ok? ==> usuarios == old(usuarios)[id := r.value]
      ensures r.Err? ==> usuarios == old(usuarios)
    {
      var atual := BuscarPorId(id);
      if atual.Err? {
        return atual;
      }
      var novo := ComPerfil(atual.value, p, salvarImagem);
      if novo.Err? {
        return novo;
      }
      if !PodeGravar(usuarios, novo.value) {
        return Err(ViolacaoUnicidade);
      }
      GravarPreservaTabela(usuarios, novo.value);
      usuarios := usuarios[id := novo.value];
      r := novo;
    }

    /** `adicionarXp`: an unknown id fails and nothing changes; otherwise
        the user's row becomes `ComXp` of the old row. */
    method AdicionarXp(usuarioId: Uuid, xp: Int64) returns (r: Outcome<Erro>)
      requires Valid()
      modifies this
      ensures Valid()
      ensures r.Pass? <==> usuarioId in old(usuarios)
      ensures r.Fail? ==> r.error == UsuarioNaoEncontrado && usuarios == old(usuarios)
      ensures r.Pass? ==> usuarios == old(usuarios)[usuarioId := ComXp(old(usuarios)[usuarioId], xp)]
    {
      var atual := BuscarPorId(usuarioId);
      if atual.Err? {
        return Fail(atual.error);
      }
      var novo := ComXp(atual.value, xp);
      assert PodeGravar(usuarios, novo);
      GravarPreservaTabela(usuarios, novo);
      usuarios := usuarios[usuarioId := novo];
      r := Pass;
    }
  }
}
