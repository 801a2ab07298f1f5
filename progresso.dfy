/** A reading-progress entry and the XP it earns (model/Progresso.java). */
module Progressos {
  import opened Comum
  import opened JavaInt

  /** The unit a progress entry is counted in. */
  datatype TipoProgresso = PAGINA | CAPITULO

  const XP_POR_PAGINA: int := 10
  const XP_POR_CAPITULO: int := 50

  /** The XP earned by `quantidade` units of type `tipo`: the value the
      pre-persist hook stores. The `Integer` quantity is widened to `long`
      before the multiplication, so the product is exact; the result type
      `Int64` records that it cannot overflow. */
  function XpGerado(tipo: TipoProgresso, quantidade: Int32): (xp: Int64)
    ensures xp >= 0 <==> quantidade >= 0
    ensures quantidade > 0 ==> xp >= XP_POR_PAGINA * quantidade
  {
    match tipo
    case PAGINA => quantidade * XP_POR_PAGINA
    case CAPITULO => quantidade * XP_POR_CAPITULO
  }

  /** Page progress earns 10 XP per page. */
  lemma XpPorPagina(quantidade: Int32)
    ensures XpGerado(PAGINA, quantidade) == 10 * quantidade
  {
  }

  /** Chapter progress earns 50 XP per chapter. */
  lemma XpPorCapitulo(quantidade: Int32)
    ensures XpGerado(CAPITULO, quantidade) == 50 * quantidade
  {
  }

  /** For the same quantity, a chapter is worth exactly five pages. */
  lemma CapituloValeCincoPaginas(quantidade: Int32)
    ensures XpGerado(CAPITULO, quantidade) == 5 * XpGerado(PAGINA, quantidade)
  {
  }

  /** XP is additive in the quantity, for a fixed unit type. */
  lemma XpAditivo(tipo: TipoProgresso, a: Int32, b: Int32)
    requires INT_MIN <= a + b <= INT_MAX
    ensures XpGerado(tipo, a + b) == XpGerado(tipo, a) + XpGerado(tipo, b)
  {
  }

  /** A quantity that meets its `@Min(1)` constraint earns at least 10 XP,
      so the stored XP meets its own `@Min(0)` constraint. */
  lemma XpMinimo(tipo: TipoProgresso, quantidade: Int32)
    requires quantidade >= 1
    ensures XpGerado(tipo, quantidade) >= 10
  {
  }

  /** A progress entry. The relations to the book and the user are kept as
      their ids; `xpGerado` is `None` until the pre-persist hook runs. */
  class Progresso {
    const livroId: Uuid
    const usuarioId: Uuid
    var quantidade: Int32
    var tipoProgresso: Option<TipoProgresso>
    var xpGerado: Option<Int64>

    /** The bean-validation constraints on the entity: `quantidade >= 1`
        and a present, non-negative `xpGerado`. */
    predicate RestricoesValidas()
      reads this
    {
      quantidade >= 1 && xpGerado.Some? && xpGerado.value >= 0
    }

    constructor (livroId: Uuid, usuarioId: Uuid, quantidade: Int32,
                 tipoProgresso: Option<TipoProgresso>)
      ensures this.livroId == livroId && this.usuarioId == usuarioId
      ensures this.quantidade == quantidade && this.tipoProgresso == tipoProgresso
      ensures xpGerado == None
    {
      this.livroId := livroId;
      this.usuarioId := usuarioId;
      this.quantidade := quantidade;
      this.tipoProgresso := tipoProgresso;
      xpGerado := None;
    }

    /** The pre-persist hook: stores the XP for the entry's type and
        quantity. A null type matches neither branch and leaves `xpGerado`
        as it was. Only `xpGerado` may change. */
    method CalcularXp()
      modifies this`xpGerado
      ensures tipoProgresso.Some? ==> xpGerado == Some(XpGerado(tipoProgresso.value, quantidade))
      ensures tipoProgresso.None? ==> xpGerado == old(xpGerado)
      ensures tipoProgresso.Some? && quantidade >= 1 ==> RestricoesValidas()
    {
      if tipoProgresso == Some(PAGINA) {
        xpGerado := Some(quantidade * 10);
      } else if tipoProgresso == Some(CAPITULO) {
        xpGerado := Some(quantidade * 50);
      }
    }
  }
}
