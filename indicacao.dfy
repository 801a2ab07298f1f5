/** Book recommendations between users and their self-reference guard
    (model/Indicacao.java); the table is a map from id to row. */
module Indicacoes {
  import opened Comum

  /** A recommendation row; sender, recipient and book are kept as their
      ids. `lida` records whether the recipient has read it. */
  datatype Indicacao = Indicacao(
    id: Uuid,
    remetenteId: Uuid,
    destinatarioId: Uuid,
    livroId: Uuid,
    mensagem: Option<string>,
    lida: bool)

  /** A recommendation as constructed, with the entity's default
      `lida = false`; the id is assigned when it is persisted. */
  function NovaIndicacao(remetenteId: Uuid, destinatarioId: Uuid, livroId: Uuid,
                         mensagem: Option<string>): (i: Indicacao)
    ensures !i.lida
    ensures i.remetenteId == remetenteId && i.destinatarioId == destinatarioId
    ensures i.livroId == livroId && i.mensagem == mensagem
  {
    Indicacao(0, remetenteId, destinatarioId, livroId, mensagem, false)
  }

  /** `validar`, run before every insert and every update: sender and
      recipient must differ. It changes no field. */
  function Validar(i: Indicacao): (r: Outcome<Erro>)
    ensures r.Fail? <==> i.remetenteId == i.destinatarioId
    ensures r.Fail? ==> r.error == RemetenteIgualDestinatario
  {
    if i.remetenteId == i.destinatarioId then Fail(RemetenteIgualDestinatario) else Pass
  }

  /** Validation looks at sender and recipient only: the book, the message
      and the read flag never decide it. */
  lemma ValidarSoOlhaUsuarios(i: Indicacao, livroId: Uuid, mensagem: Option<string>, lida: bool)
    ensures Validar(i.(livroId := livroId, mensagem := mensagem, lida := lida)) == Validar(i)
  {
  }

  /** The table's invariant: each row is stored under its id and no row
      recommends a book from a user to themselves. */
  ghost predicate TabelaValida(m: map<Uuid, Indicacao>) {
    && (forall k :: k in m ==> m[k].id == k)
    && (forall k :: k in m ==> m[k].remetenteId != m[k].destinatarioId)
  }

  /** Persisting a new recommendation under the generated id `novoId`: the
      pre-persist hook rejects a self-recommendation; otherwise the row,
      unchanged but for its id, is added. */
  function Persistir(m: map<Uuid, Indicacao>, i: Indicacao, novoId: Uuid): (r: Result<map<Uuid, Indicacao>, Erro>)
    requires novoId !in m
    ensures r.Err? <==> i.remetenteId == i.destinatarioId
    ensures r.Err? ==> r.error == RemetenteIgualDestinatario
    ensures r.Ok? ==> r.value == m[novoId := i.(id := novoId)]
  {
    match Validar(i)
    case Fail(e) => Err(e)
    case Pass => Ok(m[novoId := i.(id := novoId)])
  }

  /** Updating a stored recommendation: the pre-update hook runs `validar`
      again, so an update cannot make it self-referential; otherwise the row
      is replaced. */
  function Atualizar(m: map<Uuid, Indicacao>, i: Indicacao): (r: Result<map<Uuid, Indicacao>, Erro>)
    requires i.id in m
    ensures r.Err? <==> i.remetenteId == i.destinatarioId
    ensures r.Err? ==> r.error == RemetenteIgualDestinatario
    ensures r.Ok? ==> r.value == m[i.id := i]
  {
    match Validar(i)
    case Fail(e) => Err(e)
    case Pass => Ok(m[i.id := i])
  }

  /** Inserting and updating keep the table's invariant. */
  lemma PersistirPreservaTabela(m: map<Uuid, Indicacao>, i: Indicacao, novoId: Uuid)
    requires novoId !in m && TabelaValida(m)
    requires Persistir(m, i, novoId).Ok?
    ensures TabelaValida(Persistir(m, i, novoId).value)
  {
  }

  lemma AtualizarPreservaTabela(m: map<Uuid, Indicacao>, i: Indicacao)
    requires i.id in m && TabelaValida(m)
    requires Atualizar(m, i).Ok?
    ensures TabelaValida(Atualizar(m, i).value)
  {
  }

  /** A recommendation to someone else is stored as constructed, unread. */
  lemma NovaIndicacaoNaoLida(m: map<Uuid, Indicacao>, remetenteId: Uuid, destinatarioId: Uuid,
                             livroId: Uuid, mensagem: Option<string>, novoId: Uuid)
    requires novoId !in m && remetenteId != destinatarioId
    ensures var r := Persistir(m, NovaIndicacao(remetenteId, destinatarioId, livroId, mensagem), novoId);
            && r.Ok?
            && r.value[novoId] == Indicacao(novoId, remetenteId, destinatarioId, livroId, mensagem, false)
            && !r.value[novoId].lida
  {
  }

  /** Marking a stored recommendation as read passes the pre-update check on
      a valid table and changes that row's flag only. */
  lemma MarcarComoLidaAceita(m: map<Uuid, Indicacao>, k: Uuid)
    requires TabelaValida(m) && k in m
    ensures var r := Atualizar(m, m[k].(lida := true));
            r.Ok? && r.value == m[k := m[k].(lida := true)] && TabelaValida(r.value)
  {
  }
}
