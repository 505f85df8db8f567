# Galactic calculator — Dafny model

This project models `calcular(n1, n2, operacao)`, the only logic in the
calculator repository. The function applies one of four arithmetic
operations to two numbers. The operation is chosen by a Portuguese selector
string: `'soma'` adds, `'subtracao'` subtracts, `'multiplicacao'`
multiplies and `'divisao'` divides. A guard runs before the `switch`. When
the selector is `'divisao'` and the divisor is zero, the guard returns the
message `'Erro: Divisão por zero'` instead of a number. Any selector the
`switch` does not recognise returns the number `0`.

Everything lives in one module, `Calculadora` (`calculadora.dfy`):

- `Outcome` is the function's mixed return value, a number or a string. It is modelled as `Num(value)` or
  `DivByZeroError`, and `Message()` gives the error's text.
- `Calcular` takes the selector as a string. It keeps the source's structure: the guard comes first, then the dispatch.
  Dafny checks every `/` for a non-zero divisor. The division branch passes that check only because the guard runs
  first.
- `Operation` is the set of selectors as a datatype, with `Other(name)` for unknown ones. `Classify` and `Name` map
  between selectors and strings. `Apply` is an independent reference definition over `Operation`, and `Meets` is a
  relational contract that describes division through multiplication.
- `Suite` lists the seven expectations of the repository's vitest suite.

## Model

| member | source | states |
|---|---|---|
| `Calculadora.Calcular` | calculadora-galactica/tests/calculadora.test.js:3-19 | The result is the error exactly when the selector is `'divisao'` and `n2` is zero. Any other input gives a number, and the guard keeps the division branch's divisor non-zero. |
| `Calculadora.Classify` | calculadora-galactica/tests/calculadora.test.js:7-17 | A selector is recognised exactly when it is one of the four case labels; any other string falls to the default. The operation it yields has the selector as its name. |
| `Calculadora.ClassifyName` | calculadora-galactica/tests/calculadora.test.js:7-17 | Reading a selector and naming the operation back are mutual inverses on well-formed operations. |
| `Calculadora.CalcularIsApply` | calculadora-galactica/tests/calculadora.test.js:3-19 | Guard-then-switch gives the same outcome as the reference definition, where the zero check belongs only to the division case. |
| `Calculadora.CalcularMeetsExactly` | calculadora-galactica/tests/calculadora.test.js:3-19 | The result of `calcular` is the one outcome that meets the relational contract, which describes the quotient as the number that, times the divisor, gives the dividend. |
| `Calculadora.DivisaoPorZero` | calculadora-galactica/tests/calculadora.test.js:4-6 | Division by zero returns the error value with text `Erro: Divisão por zero`, never a number. |
| `Calculadora.OnlyDivisaoFails` | calculadora-galactica/tests/calculadora.test.js:4-6 | Some pair of operands produces the error if and only if the selector is `'divisao'`. |
| `Calculadora.DivisaoIsQuotient` | calculadora-galactica/tests/calculadora.test.js:14-15 | With a non-zero divisor, division returns a number, and that number times the divisor gives the dividend. |
| `Calculadora.SomaIsSum` | calculadora-galactica/tests/calculadora.test.js:8-9 | Addition returns the sum, and swapping the operands does not change it. |
| `Calculadora.SubtracaoUndoesSoma` | calculadora-galactica/tests/calculadora.test.js:10-11 | Subtracting `n2` undoes adding it. Swapping the operands negates the difference. |
| `Calculadora.SubtracaoOrderMatters` | calculadora-galactica/tests/calculadora.test.js:29-30 | Subtraction respects operand order: there are operands for which swapping them changes the result. |
| `Calculadora.DivisaoUndoesMultiplicacao` | calculadora-galactica/tests/calculadora.test.js:12-15 | Multiplication is commutative, and dividing by a non-zero `n2` undoes multiplying by it. |
| `Calculadora.UnknownIsZero` | calculadora-galactica/tests/calculadora.test.js:16-17 | Any selector outside the four case labels returns the number 0, whatever the operands, a zero divisor included. |
| `Calculadora.SuiteHolds` | calculadora-galactica/tests/calculadora.test.js:21-33 | All seven expectations of the suite hold: `(10, 0, divisao)` gives the error, then `-8`, `-2`, `-2`, `-8`, `4` and `-3`; the error's text is `Erro: Divisão por zero`, as line 23 expects. |

## Left out

- IEEE-754 behaviour of JavaScript numbers is not modelled: no NaN, no Infinity and no rounding of `n1 / n2`. Operands
  and results are exact `real`s.
- Negative zero is not modelled: a divisor of `-0` passes the `=== 0` guard just as `0` does, and `real` has only one
  zero.
- JavaScript's dynamic typing is not modelled. For example, `+` concatenates strings when given non-numeric operands.
  The operands here are always numbers.
- The vitest harness (`describe`, `it`, `expect`) is not modelled. Its expectations appear as the `Suite` table and the
  `SuiteHolds` lemma.
