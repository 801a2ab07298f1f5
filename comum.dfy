/** Shared vocabulary of the model: optional values (Java's null), results of
    operations that throw, identifiers and the errors the services raise. */
module Comum {

  /** A Java reference that may be null. */
  datatype Option<+T> = None | Some(value: T)

  /** The outcome of an operation that either returns a value or throws. */
  datatype Result<+T, +E> = Ok(value: T) | Err(error: E)

  /** The outcome of a void operation that may throw. */
  datatype Outcome<+E> = Pass | Fail(error: E)

  /** Entity identifiers (UUIDs). */
  type Uuid = nat

  /** The exceptions thrown by the modelled code, one per message. */
  datatype Erro =
    | UsuarioNaoEncontrado        // "Usuário não encontrado"
    | EmailJaCadastrado           // "Email já cadastrado"
    | NomeUsuarioJaExiste         // "Nome de usuário já existe"
    | CodigoConviteInvalido       // "Código de convite inválido"
    | ErroAoSalvarImagem          // "Erro ao salvar imagem"
    | LivroNaoEncontrado          // "Livro não encontrado"
    | PaginasInvalidas            // "Número de páginas deve ser maior que zero"
    | CapitulosInvalidos          // "Número de capítulos deve ser maior que zero"
    | AutoAmizade                 // "Usuário não pode adicionar a si mesmo"
    | RemetenteIgualDestinatario  // "Remetente e destinatário devem ser diferentes"
    | ViolacaoUnicidade           // a unique column constraint rejected the row

  /** `s` starts with `prefixo` (Java's String.startsWith). */
  predicate ComecaCom(s: string, prefixo: string) {
    |prefixo| <= |s| && s[..|prefixo|] == prefixo
  }

  /** The exact sum of a sequence of integers. */
  function Soma(xs: seq<int>): int
    decreases |xs|
  {
    if xs == [] then 0 else xs[0] + Soma(xs[1..])
  }

  /** A sum of non-negative terms is non-negative. */
  lemma {:induction false} SomaNaoNegativa(xs: seq<int>)
    requires forall i :: 0 <= i < |xs| ==> xs[i] >= 0
    ensures Soma(xs) >= 0
    decreases |xs|
  {
    if xs != [] {
      var cauda := xs[1..];
      assert forall i :: 0 <= i < |cauda| ==> cauda[i] == xs[i + 1];
      SomaNaoNegativa(cauda);
    }
  }

  /** The sum can also be taken from the back: all but the last term, plus
      the last term. */
  lemma {:induction false} SomaUltimo(xs: seq<int>)
    requires xs != []
    ensures Soma(xs) == Soma(xs[..|xs| - 1]) + xs[|xs| - 1]
    decreases |xs|
  {
    if |xs| == 1 {
      assert xs[1..] == [];
      assert xs[..0] == [];
    } else {
      var cauda := xs[1..];
      SomaUltimo(cauda);
      assert xs[..|xs| - 1][1..] == cauda[..|cauda| - 1];
    }
  }
}
