/**
  The galactic calculator: `calcular(n1, n2, operacao)` applies one of four
  arithmetic operations, named by a Portuguese selector string, to two
  numeric operands. A division whose divisor is zero yields an error message
  instead of a number; a selector the calculator does not know yields 0.

  JavaScript numbers are modelled as exact `real`s.
 */
module Calculadora {

  /** What `calcular` hands back: either a number or the division-by-zero error. */
  datatype Outcome = Num(value: real) | DivByZeroError {

    /** The text that the source returns in place of a number. */
    function Message(): string
      requires DivByZeroError?
    {
      DivByZeroText
    }
  }

  /** The division-by-zero message, verbatim. */
  const DivByZeroText: string := "Erro: Divis\U{e3}o por zero"

  /** The operation a selector string stands for; `Other` keeps any unknown selector. */
  datatype Operation = Soma | Subtracao | Multiplicacao | Divisao | Other(name: string)

  /** The four selector strings the calculator recognises. */
  const KnownNames: set<string> := {"soma", "subtracao", "multiplicacao", "divisao"}

  /** An operation value that some selector string can produce. */
  predicate WellFormed(op: Operation) {
    op.Other? ==> op.name !in KnownNames
  }

  /** The selector string of an operation. */
  function Name(op: Operation): string {
    match op
    case Soma => "soma"
    case Subtracao => "subtracao"
    case Multiplicacao => "multiplicacao"
    case Divisao => "divisao"
    case Other(n) => n
  }

  /** How the `switch` reads a selector: an exact match on one of the four names, else unknown. */
  function Classify(s: string): (op: Operation)
    ensures WellFormed(op)
    ensures Name(op) == s
    ensures op.Other? <==> s !in KnownNames
  {
    if s == "soma" then Soma
    else if s == "subtracao" then Subtracao
    else if s == "multiplicacao" then Multiplicacao
    else if s == "divisao" then Divisao
    else Other(s)
  }

  /**
    `calcular` as written: the division-by-zero guard runs before the switch,
    so the division branch is reached only with a non-zero divisor; that is
    what lets `n1 / n2` below pass Dafny's divisor check.
   */
  function Calcular(n1: real, n2: real, operacao: string): (r: Outcome)
    ensures r.DivByZeroError? <==> operacao == "divisao" && n2 == 0.0
  {
    if operacao == "divisao" && n2 == 0.0 then
      DivByZeroError
    else if operacao == "soma" then
      Num(n1 + n2)
    else if operacao == "subtracao" then
      Num(n1 - n2)
    else if operacao == "multiplicacao" then
      Num(n1 * n2)
    else if operacao == "divisao" then
      Num(n1 / n2)
    else
      Num(0.0)
  }

  /**
    A reference definition over the operation type, written without a
    separate guard: the zero check belongs to the division case alone.
   */
  function Apply(n1: real, n2: real, op: Operation): Outcome {
    match op
    case Soma => Num(n1 + n2)
    case Subtracao => Num(n1 - n2)
    case Multiplicacao => Num(n1 * n2)
    case Divisao => if n2 == 0.0 then DivByZeroError else Num(n1 / n2)
    case Other(_) => Num(0.0)
  }

  /** Reading a selector and printing it back gives the same operation, and vice versa. */
  lemma ClassifyName(op: Operation, s: string)
    ensures WellFormed(op) ==> Classify(Name(op)) == op
    ensures Name(Classify(s)) == s
  {
  }

  /** Guard-then-switch computes exactly what the reference definition computes. */
  lemma CalcularIsApply(n1: real, n2: real, operacao: string)
    ensures Calcular(n1, n2, operacao) == Apply(n1, n2, Classify(operacao))
  {
  }

  /**
    The calculator's contract stated as a relation, without using `/`: the
    quotient is characterised as the number that multiplied by the divisor
    gives the dividend.
   */
  ghost predicate Meets(n1: real, n2: real, operacao: string, r: Outcome) {
    if operacao == "divisao" then
      if n2 == 0.0 then r == DivByZeroError else r.Num? && r.value * n2 == n1
    else if operacao == "soma" then r == Num(n1 + n2)
    else if operacao == "subtracao" then r.Num? && r.value + n2 == n1
    else if operacao == "multiplicacao" then r == Num(n1 * n2)
    else r == Num(0.0)
  }

  /** `calcular`'s result is the one and only outcome that meets the contract. */
  lemma CalcularMeetsExactly(n1: real, n2: real, operacao: string, r: Outcome)
    ensures Meets(n1, n2, operacao, r) <==> r == Calcular(n1, n2, operacao)
  {
  }

  /** Division by zero returns the error, never a number. */
  lemma DivisaoPorZero(n1: real)
    ensures Calcular(n1, 0.0, "divisao") == DivByZeroError
    ensures Calcular(n1, 0.0, "divisao").Message() == "Erro: Divis\U{e3}o por zero"
  {
  }

  /** Only the division selector can produce the error; every other selector yields a number for all operands. */
  lemma OnlyDivisaoFails(operacao: string)
    ensures (exists n1: real, n2: real :: Calcular(n1, n2, operacao).DivByZeroError?) <==> operacao == "divisao"
  {
    if operacao == "divisao" {
      assert Calcular(10.0, 0.0, operacao).DivByZeroError?;
    }
  }

  /** With a non-zero divisor, division returns the number that multiplied by the divisor gives back the dividend. */
  lemma DivisaoIsQuotient(n1: real, n2: real)
    requires n2 != 0.0
    ensures Calcular(n1, n2, "divisao").Num?
    ensures Calcular(n1, n2, "divisao").value * n2 == n1
  {
  }

  /** Addition: the sum of the operands, in either order. */
  lemma SomaIsSum(n1: real, n2: real)
    ensures Calcular(n1, n2, "soma") == Num(n1 + n2)
    ensures Calcular(n1, n2, "soma") == Calcular(n2, n1, "soma")
  {
  }

  /** Subtraction undoes addition, and swapping the operands negates the result. */
  lemma SubtracaoUndoesSoma(n1: real, n2: real)
    ensures Calcular(Calcular(n1, n2, "soma").value, n2, "subtracao") == Num(n1)
    ensures Calcular(n1, n2, "subtracao").value == -Calcular(n2, n1, "subtracao").value
  {
  }

  /** Subtraction respects operand order: swapping the operands can change the result, as (-5, 3) shows. */
  lemma SubtracaoOrderMatters()
    ensures exists n1: real, n2: real :: Calcular(n1, n2, "subtracao") != Calcular(n2, n1, "subtracao")
  {
    assert Calcular(-5.0, 3.0, "subtracao") == Num(-8.0);
    assert Calcular(3.0, -5.0, "subtracao") == Num(8.0);
  }

  /** Multiplication is commutative, and division by a non-zero operand undoes it. */
  lemma DivisaoUndoesMultiplicacao(n1: real, n2: real)
    ensures Calcular(n1, n2, "multiplicacao") == Calcular(n2, n1, "multiplicacao")
    ensures n2 != 0.0 ==> Calcular(Calcular(n1, n2, "multiplicacao").value, n2, "divisao") == Num(n1)
  {
  }

  /** Any selector outside the four known names gives the number 0, whatever the operands. */
  lemma UnknownIsZero(n1: real, n2: real, operacao: string)
    requires operacao !in KnownNames
    ensures Calcular(n1, n2, operacao) == Num(0.0)
  {
  }

  /** One expectation of the test suite: the call and the value it must produce. */
  datatype Expectation = Expectation(n1: real, n2: real, operacao: string, expected: Outcome)

  /** The expectations of the suite, in the order they appear. */
  const Suite: seq<Expectation> := [
    Expectation(10.0, 0.0, "divisao", DivByZeroError),
    Expectation(-5.0, -3.0, "soma", Num(-8.0)),
    Expectation(-5.0, 3.0, "soma", Num(-2.0)),
    Expectation(-5.0, -3.0, "subtracao", Num(-2.0)),
    Expectation(-5.0, 3.0, "subtracao", Num(-8.0)),
    Expectation(-2.0, -2.0, "multiplicacao", Num(4.0)),
    Expectation(-6.0, 2.0, "divisao", Num(-3.0))
  ]

  predicate Holds(e: Expectation) {
    Calcular(e.n1, e.n2, e.operacao) == e.expected
  }

  /** Every expectation of the suite holds of the model. */
  lemma SuiteHolds()
    ensures |Suite| == 7
    ensures forall i :: 0 <= i < |Suite| ==> Holds(Suite[i])
    ensures Calcular(10.0, 0.0, "divisao").Message() == "Erro: Divis\U{e3}o por zero"
  {
  }
}
