/** Friendships, their self-reference guard and the unique ordered pair of
    users (model/Amizade.java); the table is a map from id to row. */
module Amizades {
  import opened Comum

  /** The friendship status; only the default constant `PENDENTE` appears in
      the entity, the enum's other constants are kept by name. */
  datatype StatusAmizade = PENDENTE | OutroStatus(nome: string)

  /** A friendship row; the two users are kept as their ids, and the
      acceptance date, when present, as a timestamp in seconds. */
  datatype Amizade = Amizade(
    id: Uuid,
    usuarioId1: Uuid,
    usuarioId2: Uuid,
    status: StatusAmizade,
    dataAceite: Option<int>)

  /** A friendship request as constructed, with the entity's default status
      `PENDENTE`; the id is assigned when it is persisted. */
  function NovaAmizade(usuarioId1: Uuid, usuarioId2: Uuid): (a: Amizade)
    ensures a.status == PENDENTE && a.dataAceite == None
    ensures a.usuarioId1 == usuarioId1 && a.usuarioId2 == usuarioId2
  {
    Amizade(0, usuarioId1, usuarioId2, PENDENTE, None)
  }

  /** `validar`, run before every insert and every update: a user cannot
      befriend themselves. It changes no field. */
  function Validar(a: Amizade): (r: Outcome<Erro>)
    ensures r.Fail? <==> a.usuarioId1 == a.usuarioId2
    ensures r.Fail? ==> r.error == AutoAmizade
  {
    if a.usuarioId1 == a.usuarioId2 then Fail(AutoAmizade) else Pass
  }

  /** Validation looks at the two user ids only. */
  lemma ValidarSoOlhaUsuarios(a: Amizade, b: Amizade)
    requires a.usuarioId1 == b.usuarioId1 && a.usuarioId2 == b.usuarioId2
    ensures Validar(a) == Validar(b)
  {
  }

  /** Some row other than `exceto` holds the ordered pair `(u1, u2)`. */
  predicate ParEmUso(m: map<Uuid, Amizade>, u1: Uuid, u2: Uuid, exceto: Option<Uuid>) {
    exists k :: k in m && Some(k) != exceto && m[k].usuarioId1 == u1 && m[k].usuarioId2 == u2
  }

  /** The table's invariant: each row is stored under its id, no row pairs a
      user with themselves (every row passed `validar`), and no two rows hold
      the same ordered pair (the unique constraint on
      `(usuario_id_1, usuario_id_2)`). */
  ghost predicate TabelaValida(m: map<Uuid, Amizade>) {
    && (forall k :: k in m ==> m[k].id == k)
    && (forall k :: k in m ==> Validar(m[k]).Pass?)
    && (forall k, j :: k in m && j in m && k != j ==>
          (m[k].usuarioId1, m[k].usuarioId2) != (m[j].usuarioId1, m[j].usuarioId2))
  }

  /** Persisting a new friendship under the generated id `novoId`: the
      pre-persist hook rejects a self-friendship first; the insert then fails
      on the unique constraint when the ordered pair is already stored;
      otherwise the row, unchanged but for its id, is added. */
  function Persistir(m: map<Uuid, Amizade>, a: Amizade, novoId: Uuid): (r: Result<map<Uuid, Amizade>, Erro>)
    requires novoId !in m
    ensures Validar(a).Fail? ==> r == Err(AutoAmizade)
    ensures Validar(a).Pass? && ParEmUso(m, a.usuarioId1, a.usuarioId2, None) ==>
              r == Err(ViolacaoUnicidade)
    ensures r.Ok? <==> Validar(a).Pass? && !ParEmUso(m, a.usuarioId1, a.usuarioId2, None)
    ensures r.Ok? ==> r.value == m[novoId := a.(id := novoId)]
  {
    match Validar(a)
    case Fail(e) => Err(e)
    case Pass =>
      if ParEmUso(m, a.usuarioId1, a.usuarioId2, None) then Err(ViolacaoUnicidade)
      else Ok(m[novoId := a.(id := novoId)])
  }

  /** Updating a stored friendship (accepting it, say): the pre-update hook
      runs `validar` again, so an update cannot make the pair
      self-referential; the unique constraint is checked against the other
      rows; otherwise the row is replaced. */
  function Atualizar(m: map<Uuid, Amizade>, a: Amizade): (r: Result<map<Uuid, Amizade>, Erro>)
    requires a.id in m
    ensures Validar(a).Fail? ==> r == Err(AutoAmizade)
    ensures Validar(a).Pass? && ParEmUso(m, a.usuarioId1, a.usuarioId2, Some(a.id)) ==>
              r == Err(ViolacaoUnicidade)
    ensures r.Ok? <==> Validar(a).Pass? && !ParEmUso(m, a.usuarioId1, a.usuarioId2, Some(a.id))
    ensures r.Ok? ==> r.value == m[a.id := a]
  {
    match Validar(a)
    case Fail(e) => Err(e)
    case Pass =>
      if ParEmUso(m, a.usuarioId1, a.usuarioId2, Some(a.id)) then Err(ViolacaoUnicidade)
      else Ok(m[a.id := a])
  }

  /** Inserting keeps the table's invariant. */
  lemma PersistirPreservaTabela(m: map<Uuid, Amizade>, a: Amizade, novoId: Uuid)
    requires novoId !in m && TabelaValida(m)
    requires Persistir(m, a, novoId).Ok?
    ensures TabelaValida(Persistir(m, a, novoId).value)
  {
    var n := Persistir(m, a, novoId).value;
    forall k, j | k in n && j in n && k != j
      ensures (n[k].usuarioId1, n[k].usuarioId2) != (n[j].usuarioId1, n[j].usuarioId2)
    {
      if k == novoId {
        assert !(m[j].usuarioId1 == a.usuarioId1 && m[j].usuarioId2 == a.usuarioId2);
      } else if j == novoId {
        assert !(m[k].usuarioId1 == a.usuarioId1 && m[k].usuarioId2 == a.usuarioId2);
      }
    }
  }

  /** Updating keeps the table's invariant. */
  lemma AtualizarPreservaTabela(m: map<Uuid, Amizade>, a: Amizade)
    requires a.id in m && TabelaValida(m)
    requires Atualizar(m, a).Ok?
    ensures TabelaValida(Atualizar(m, a).value)
  {
    var n := Atualizar(m, a).value;
    forall k, j | k in n && j in n && k != j
      ensures (n[k].usuarioId1, n[k].usuarioId2) != (n[j].usuarioId1, n[j].usuarioId2)
    {
      if k == a.id {
        assert !(m[j].usuarioId1 == a.usuarioId1 && m[j].usuarioId2 == a.usuarioId2);
      } else if j == a.id {
        assert !(m[k].usuarioId1 == a.usuarioId1 && m[k].usuarioId2 == a.usuarioId2);
      }
    }
  }

  /** A friendship request between two different users, whose ordered pair
      is not yet stored, is persisted with status `PENDENTE`. */
  lemma NovaAmizadePendente(m: map<Uuid, Amizade>, u1: Uuid, u2: Uuid, novoId: Uuid)
    requires novoId !in m && u1 != u2 && !ParEmUso(m, u1, u2, None)
    ensures Persistir(m, NovaAmizade(u1, u2), novoId).Ok?
    ensures Persistir(m, NovaAmizade(u1, u2), novoId).value[novoId]
              == Amizade(novoId, u1, u2, PENDENTE, None)
  {
  }

  /** The constraint is on the ordered pair: with only a row for `(A, B)`
      stored, a second `(A, B)` is refused while `(B, A)` is accepted. */
  lemma ParOrdenado(x: Uuid, a: Uuid, b: Uuid, status: StatusAmizade, novoId: Uuid)
    requires a != b && novoId != x
    ensures var m := map[x := Amizade(x, a, b, status, None)];
            TabelaValida(m)
            && Persistir(m, NovaAmizade(a, b), novoId) == Err(ViolacaoUnicidade)
            && Persistir(m, NovaAmizade(b, a), novoId).Ok?
  {
    var m := map[x := Amizade(x, a, b, status, None)];
    assert ParEmUso(m, a, b, None) by {
      assert x in m;
    }
  }
}
