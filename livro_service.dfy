/** Books, their validation and updates (service/LivroService.java over
    model/Livro.java). */
module Livros {
  import opened Comum
  import opened JavaInt
  import Usuarios

  /** How reading progress on a book is counted. */
  datatype TipoRegistro = PAGINA | CAPITULO

  /** The book entity; its owner is kept as the user's id. */
  datatype Livro = Livro(
    id: Uuid,
    usuarioId: Uuid,
    titulo: string,
    autor: string,
    numeroPaginas: Option<Int32>,
    numeroCapitulos: Option<Int32>,
    capa: Option<string>,
    descricao: Option<string>,
    tipoRegistro: Option<TipoRegistro>,
    finalizado: bool)

  /** A book as constructed from a request, with the entity's default
      `finalizado = false`. Id and owner are assigned on creation. */
  function NovoLivro(titulo: string, autor: string, numeroPaginas: Option<Int32>,
                     numeroCapitulos: Option<Int32>, capa: Option<string>, descricao: Option<string>,
                     tipoRegistro: Option<TipoRegistro>): (l: Livro)
    ensures !l.finalizado
    ensures l.numeroPaginas == numeroPaginas && l.numeroCapitulos == numeroCapitulos
    ensures l.tipoRegistro == tipoRegistro
  {
    Livro(0, 0, titulo, autor, numeroPaginas, numeroCapitulos, capa, descricao, tipoRegistro, false)
  }

  /** A new book starts unfinished, and marking it finished is a real
      change. */
  lemma NovoLivroNaoFinalizado(titulo: string, autor: string, numeroPaginas: Option<Int32>,
                               numeroCapitulos: Option<Int32>, capa: Option<string>, descricao: Option<string>,
                               tipoRegistro: Option<TipoRegistro>)
    ensures var l := NovoLivro(titulo, autor, numeroPaginas, numeroCapitulos, capa, descricao, tipoRegistro);
            !l.finalizado && Finalizado(l) != l
  {
  }

  /** A count that is null or not positive. */
  predicate ContagemInvalida(n: Option<Int32>) {
    n.None? || n.value <= 0
  }

  /** `validarLivro`: a page-counted book needs a positive page count and a
      chapter-counted book a positive chapter count; only the count that
      matches the type is consulted, and a null type passes. */
  function ValidarLivro(l: Livro): (r: Outcome<Erro>)
    ensures r == Fail(PaginasInvalidas) <==> l.tipoRegistro == Some(PAGINA) && ContagemInvalida(l.numeroPaginas)
    ensures r == Fail(CapitulosInvalidos) <==> l.tipoRegistro == Some(CAPITULO) && ContagemInvalida(l.numeroCapitulos)
    ensures r.Fail? ==> r.error == PaginasInvalidas || r.error == CapitulosInvalidos
  {
    if l.tipoRegistro == Some(PAGINA) && ContagemInvalida(l.numeroPaginas) then
      Fail(PaginasInvalidas)
    else if l.tipoRegistro == Some(CAPITULO) && ContagemInvalida(l.numeroCapitulos) then
      Fail(CapitulosInvalidos)
    else
      Pass
  }

  /** A page-counted book's chapter count is never consulted, and a
      chapter-counted book's page count is never consulted. */
  lemma ValidarIgnoraOutraContagem(l: Livro, n: Option<Int32>)
    ensures l.tipoRegistro == Some(PAGINA) ==>
              ValidarLivro(l.(numeroCapitulos := n)) == ValidarLivro(l)
    ensures l.tipoRegistro == Some(CAPITULO) ==>
              ValidarLivro(l.(numeroPaginas := n)) == ValidarLivro(l)
  {
  }

  /** The fields an update may carry; `None` is a null field. */
  datatype AtualizacaoLivro = AtualizacaoLivro(
    titulo: Option<string>,
    autor: Option<string>,
    descricao: Option<string>,
    capa: Option<string>,
    finalizado: Option<bool>)

  /** The update that carries no field. */
  const ATUALIZACAO_VAZIA := AtualizacaoLivro(None, None, None, None, None)

  /** The book after an update: each present field replaces the stored
      one; the counts, the type, the owner and the id never change. */
  function ComAtualizacao(l: Livro, p: AtualizacaoLivro): (r: Livro)
    ensures r.(titulo := l.titulo, autor := l.autor, descricao := l.descricao,
               capa := l.capa, finalizado := l.finalizado) == l
    ensures r.titulo == (if p.titulo.Some? then p.titulo.value else l.titulo)
    ensures r.autor == (if p.autor.Some? then p.autor.value else l.autor)
    ensures r.descricao == (if p.descricao.Some? then p.descricao else l.descricao)
    ensures r.capa == (if p.capa.Some? then p.capa else l.capa)
    ensures r.finalizado == (if p.finalizado.Some? then p.finalizado.value else l.finalizado)
  {
    var l1 := if p.titulo.Some? then l.(titulo := p.titulo.value) else l;
    var l2 := if p.autor.Some? then l1.(autor := p.autor.value) else l1;
    var l3 := if p.descricao.Some? then l2.(descricao := p.descricao) else l2;
    var l4 := if p.capa.Some? then l3.(capa := p.capa) else l3;
    if p.finalizado.Some? then l4.(finalizado := p.finalizado.value) else l4
  }

  /** Updates do not re-run validation, and need not: they cannot change
      the outcome of validation. */
  lemma AtualizacaoPreservaValidacao(l: Livro, p: AtualizacaoLivro)
    ensures ValidarLivro(ComAtualizacao(l, p)) == ValidarLivro(l)
  {
  }

  /** Applying the same update twice is the same as applying it once, and
      the empty update changes nothing. */
  lemma AtualizacaoIdempotente(l: Livro, p: AtualizacaoLivro)
    ensures ComAtualizacao(ComAtualizacao(l, p), p) == ComAtualizacao(l, p)
    ensures ComAtualizacao(l, ATUALIZACAO_VAZIA) == l
  {
  }

  /** A field of a request body: left out, sent as null, or sent with a
      value. */
  datatype Campo<T> = Omitido | Nulo | Valor(value: T)

  /** What a null check on a bound field sees: only a sent value. */
  function Enviado<T>(c: Campo<T>): Option<T> {
    if c.Valor? then Some(c.value) else None
  }

  /** The update `atualizar` receives, as the code is written: the request
      body is bound to a fresh `Livro`, whose `finalizado` starts as `false`,
      so a body that leaves the flag out carries `finalizado = false`, while
      the other fields start as null. */
  function AtualizacaoDoCorpo(titulo: Campo<string>, autor: Campo<string>, descricao: Campo<string>,
                              capa: Campo<string>, finalizado: Campo<bool>): (p: AtualizacaoLivro)
    ensures p.(finalizado := None) == AtualizacaoDoCorpoCorrigida(titulo, autor, descricao, capa, Omitido)
    ensures p.finalizado.Some? <==> !finalizado.Nulo?
    ensures finalizado.Valor? ==> p.finalizado == Some(finalizado.value)
  {
    var f := if finalizado.Omitido? then Some(false) else Enviado(finalizado);
    AtualizacaoLivro(Enviado(titulo), Enviado(autor), Enviado(descricao), Enviado(capa), f)
  }

  /** As written, a body that leaves `finalizado` out reopens a finished
      book: even a body that sends only the required title and author,
      unchanged, carries more than those two fields and changes the book. */
  lemma CorpoSemFinalizadoReabre(l: Livro, titulo: Campo<string>, autor: Campo<string>,
                                 descricao: Campo<string>, capa: Campo<string>)
    requires l.finalizado
    ensures !ComAtualizacao(l, AtualizacaoDoCorpo(titulo, autor, descricao, capa, Omitido)).finalizado
    ensures AtualizacaoDoCorpo(Valor(l.titulo), Valor(l.autor), Omitido, Omitido, Omitido)
            != ATUALIZACAO_VAZIA.(titulo := Some(l.titulo), autor := Some(l.autor))
    ensures ComAtualizacao(l, AtualizacaoDoCorpo(Valor(l.titulo), Valor(l.autor), Omitido, Omitido, Omitido)) != l
  {
  }

  /** The update the endpoint evidently intends ("fields not sent stay as
      they are"): every field, `finalizado` included, is carried only when
      the body sends a value for it. */
  function AtualizacaoDoCorpoCorrigida(titulo: Campo<string>, autor: Campo<string>, descricao: Campo<string>,
                                       capa: Campo<string>, finalizado: Campo<bool>): (p: AtualizacaoLivro)
    ensures p.titulo.Some? <==> titulo.Valor?
    ensures p.autor.Some? <==> autor.Valor?
    ensures p.descricao.Some? <==> descricao.Valor?
    ensures p.capa.Some? <==> capa.Valor?
    ensures p.finalizado.Some? <==> finalizado.Valor?
  {
    AtualizacaoLivro(Enviado(titulo), Enviado(autor), Enviado(descricao), Enviado(capa), Enviado(finalizado))
  }

  /** With the corrected binding, a field left out or sent as null keeps the
      stored value, the body that sends nothing is the empty update, and the
      binding agrees with the code as written whenever the flag is sent. */
  lemma CorpoCorrigidoPreservaOmitidos(l: Livro, titulo: Campo<string>, autor: Campo<string>,
                                       descricao: Campo<string>, capa: Campo<string>, finalizado: Campo<bool>)
    ensures var r := ComAtualizacao(l, AtualizacaoDoCorpoCorrigida(titulo, autor, descricao, capa, finalizado));
            && r.titulo == (if titulo.Valor? then titulo.value else l.titulo)
            && r.autor == (if autor.Valor? then autor.value else l.autor)
            && r.descricao == (if descricao.Valor? then Some(descricao.value) else l.descricao)
            && r.capa == (if capa.Valor? then Some(capa.value) else l.capa)
            && r.finalizado == (if finalizado.Valor? then finalizado.value else l.finalizado)
    ensures AtualizacaoDoCorpoCorrigida(Omitido, Omitido, Omitido, Omitido, Omitido) == ATUALIZACAO_VAZIA
    ensures !finalizado.Omitido? ==>
              AtualizacaoDoCorpoCorrigida(titulo, autor, descricao, capa, finalizado)
              == AtualizacaoDoCorpo(titulo, autor, descricao, capa, finalizado)
  {
  }

  /** The book marked finished. */
  function Finalizado(l: Livro): (r: Livro)
    ensures r.finalizado
    ensures r.(finalizado := l.finalizado) == l
  {
    l.(finalizado := true)
  }

  /** Marking finished is idempotent and is the update that carries only
      `finalizado = true`. */
  lemma FinalizadoIdempotente(l: Livro)
    ensures Finalizado(Finalizado(l)) == Finalizado(l)
    ensures Finalizado(l) == ComAtualizacao(l, ATUALIZACAO_VAZIA.(finalizado := Some(true)))
  {
  }

  /** The book service over its repository, kept as a map from id to row,
      and the user service it resolves owners with. */
  class LivroService {
    var livros: map<Uuid, Livro>
    const usuarioService: Usuarios.UsuarioService

    ghost predicate Valid()
      reads this
    {
      forall k :: k in livros ==> livros[k].id == k
    }

    constructor (usuarioService: Usuarios.UsuarioService)
      ensures Valid() && livros == map[] && this.usuarioService == usuarioService
    {
      livros := map[];
      this.usuarioService := usuarioService;
    }

    /** `criar`: an unknown owner fails before the book is validated; a
        book that fails validation is rejected; otherwise the book is
        stored under the generated id with its owner set. Nothing is stored
        on a rejection. */
    method Criar(usuarioId: Uuid, livro: Livro, novoId: Uuid) returns (r: Result<Livro, Erro>)
      requires Valid()
      requires novoId !in livros
      modifies this`livros
      ensures Valid()
      ensures usuarioId !in usuarioService.usuarios ==> r == Err(UsuarioNaoEncontrado)
      ensures usuarioId in usuarioService.usuarios && ValidarLivro(livro).Fail? ==>
                r == Err(ValidarLivro(livro).error)
      ensures r.Ok? <==> usuarioId in usuarioService.usuarios && ValidarLivro(livro).Pass?
      ensures r.Ok? ==> r.value == livro.(id := novoId, usuarioId := usuarioId)
      ensures r.Ok? ==> livros == old(livros)[novoId := r.value]
      ensures r.Err? ==> livros == old(livros)
    {
      var dono := usuarioService.BuscarPorId(usuarioId);
      if dono.Err? {
        return Err(dono.error);
      }
      var novo := livro.(id := novoId, usuarioId := usuarioId);
      var validacao := ValidarLivro(novo);
      if validacao.Fail? {
        return Err(validacao.error);
      }
      livros := livros[novoId := novo];
      r := Ok(novo);
    }

    /** `buscarPorId`: fails exactly when no book has the id. */
    method BuscarPorId(id: Uuid) returns (r: Result<Livro, Erro>)
      ensures r.Ok? <==> id in livros
      ensures r.Ok? ==> r.value == livros[id]
      ensures r.Err? ==> r.error == LivroNaoEncontrado
    {
      if id in livros {
        r := Ok(livros[id]);
      } else {
        r := Err(LivroNaoEncontrado);
      }
    }

    /** `atualizar`: an unknown id fails; otherwise the stored book takes
        the update's present fields and nothing else changes. */
    method Atualizar(id: Uuid, p: AtualizacaoLivro) returns (r: Result<Livro, Erro>)
      requires Valid()
      modifies this`livros
      ensures Valid()
      ensures r.Ok? <==> id in old(livros)
      ensures r.Err? ==> r.error == LivroNaoEncontrado && livros == old(livros)
      ensures r.Ok? ==> r.value == ComAtualizacao(old(livros)[id], p)
      ensures r.Ok? ==> livros == old(livros)[id := r.value]
    {
      var atual := BuscarPorId(id);
      if atual.Err? {
        return atual;
      }
      var novo := ComAtualizacao(atual.value, p);
      livros := livros[id := novo];
      r := Ok(novo);
    }

    /** `marcarComoFinalizado`: an unknown id fails; otherwise only that
        book's `finalizado` becomes true. */
    method MarcarComoFinalizado(id: Uuid) returns (r: Outcome<Erro>)
      requires Valid()
      modifies this`livros
      ensures Valid()
      ensures r.Pass? <==> id in old(livros)
      ensures r.Fail? ==> r.error == LivroNaoEncontrado && livros == old(livros)
      ensures r.Pass? ==> livros == old(livros)[id := Finalizado(old(livros)[id])]
    {
      var atual := BuscarPorId(id);
      if atual.Err? {
        return Fail(atual.error);
      }
      livros := livros[id := Finalizado(atual.value)];
      r := Pass;
    }
  }
}
