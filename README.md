# simpleCalculator in Dafny

A model of the one-expression integer calculator of `simpleCalculator.go`.
An `Interpreter` holds a text, a cursor position, the current character
(nil past the end) and the current token. `advance`, `skipWhitespace`,
`integer` and `getNextToken` move the cursor and turn the text into tokens
`INTEGER`, `PLUS`, `MINUS` and `EOF`. `Eat` checks the current token's
type and fetches the next one. `Expr` evaluates exactly
`INTEGER (PLUS|MINUS) INTEGER` in Go's 64-bit `int`.

The model has two layers.

- **Functions.** They describe what one call computes, as a function of the
  text and the starting position:
  - `Scanner.SpaceRunEnd`, `Scanner.DigitRun` and `Scanner.NextToken` cover one scan;
  - `Evaluation.ParseExpr` and `Evaluation.Evaluate` cover one `Expr`.

  Lemmas state what the source promises about them: how characters are
  classified, that digit runs are maximal, that `EOF` repeats, which texts
  `Expr` accepts and what value it computes.
- **The class.** `Calculator.Interpreter` keeps the Go fields, updated in
  place by methods with loops and `modifies` clauses. Each scanning method,
  and `Expr`, is proved against the function of the first layer.

Modules:
- `Results`: the error values that replace the panics, plus `Option`, `Result` and `Outcome`.
- `Chars`: the bytes of the text, the character classes, and decimal numerals.
- `GoInt`: 64-bit `int`, `+` and `-` with two's-complement wrap-around, and `strconv.Atoi` on digit strings.
- `Tokens`: token types, tokens and their printed form.
- `Scanner`, `Evaluation`, `Calculator`: as described above.

Conventions:
- The text is indexed byte by byte and each byte is widened to a rune, so a character is a code point below 256 (`Chars.Byte`).
- On that range, `unicode.IsDigit` is `'0'..'9'`. `unicode.IsSpace` is `\t \n \v \f \r`, space, U+0085 and U+00A0.
- Every `panic` becomes an `Err` or `Fail` value naming its site.

Sums and differences wrap around in Go's 64-bit `int`, and an empty line
makes `NewInterpreter` fail.

## Model

| member | source | states |
|---|---|---|
| Calculator.Interpreter.constructor | simpleCalculator.go:35-44 | a new interpreter satisfies the cursor invariant, sits at position 0 on the first byte, and has no current token |
| Calculator.Interpreter.Valid | simpleCalculator.go:28-33 | the cursor invariant: `CurrentChar` is nil exactly past the last byte; a current INTEGER token holds an int, as the type assertions of `Expr` require |
| Calculator.Interpreter.Advance | simpleCalculator.go:50-58 | the position grows by exactly one; the current character is nil iff the position is past the last byte, and the byte there otherwise; the text never changes |
| Calculator.Interpreter.SkipWhitespace | simpleCalculator.go:60-64 | the position never decreases; every byte skipped is whitespace; the cursor stops on a non-space or at nil, which is the end of the whitespace run (`SpaceRunEnd`) |
| Calculator.Interpreter.Integer | simpleCalculator.go:66-77 | consumes exactly the maximal digit run (`DigitRun`) and returns Atoi of it; afterwards the cursor is nil or on a non-digit; started on a digit, it fails only with the range error |
| Calculator.Interpreter.GetNextToken | simpleCalculator.go:79-104 | returns the token, or the error, of `NextToken` from the starting position, and leaves the cursor where `NextToken` says |
| Calculator.Interpreter.Eat | simpleCalculator.go:106-112 | a type mismatch fails and changes nothing; on a match the cursor moves over the next scan, whose token becomes current, or whose error is returned |
| Calculator.Interpreter.Expr | simpleCalculator.go:114-138 | returns exactly `Evaluate` from the starting position; on success the cursor and the current token are those after the fourth scan |
| Calculator.Calculate | simpleCalculator.go:150-151 | an empty line fails in `NewInterpreter`; any other line evaluates to `Evaluate(text, 0)` |
| GoInt.Add | simpleCalculator.go:134 | the result is in the `int` range and differs from the exact sum by a multiple of 2^64 (at most one); it equals the exact sum iff the sum is in range |
| GoInt.Sub | simpleCalculator.go:136 | the same for the difference |
| GoInt.Atoi | simpleCalculator.go:72-75 | on a digit string: succeeds iff the string is non-empty and its value is at most MaxInt, with that value; otherwise a syntax error for the empty string and a range error beyond MaxInt |
| GoInt.AtoiRoundTrip | simpleCalculator.go:72 | Atoi reads back the decimal numeral of every non-negative `int` |
| GoInt.AtoiShortRun | simpleCalculator.go:72 | a run of at most 18 digits always converts |
| Chars.DecimalString | simpleCalculator.go:24-26 | the numeral `%v` prints for a natural number is non-empty, all digits, and has no leading zero |
| Chars.DecimalRoundTrip | simpleCalculator.go:66-72 | reading a printed numeral back gives the number printed |
| Chars.LeadingZero | simpleCalculator.go:66-72 | leading zeros do not change a numeral's value, so "007" reads as 7 |
| Chars.AllSpacesAt | simpleCalculator.go:60-64 | a string is whitespace read from the front iff every byte of it is whitespace |
| Chars.DecimalValueBound | simpleCalculator.go:66-72 | the value Atoi gives a numeral of k digits (`DecimalValue`) is below 10^k |
| Chars.IsDigit | simpleCalculator.go:68 | `unicode.IsDigit` on a byte; no digit is `+` or `-` |
| Chars.IsSpace | simpleCalculator.go:82 | `unicode.IsSpace` on a byte; no whitespace is a digit, `+` or `-`, so the branches of `getNextToken` never overlap |
| Tokens.StringOfInteger3 | simpleCalculator_test.go:10-20 | an INTEGER token whose payload is the string "3" prints as `Token({INTEGER}, {3})`, and so does one whose payload is the int 3 |
| Tokens.FormatIntInjective | simpleCalculator.go:24-26 | distinct int payloads print differently |
| Tokens.Token.String | simpleCalculator.go:24-26 | the printed token starts with `Token({`, holds its type's name up to the first `}`, then `}, {`, the printed payload, and the closing `})` |
| Tokens.Format | simpleCalculator.go:25 | `%v` of an int is never empty and starts with `-` exactly when the int is negative; a string payload prints as itself |
| Tokens.StringInjective | simpleCalculator.go:24-26 | two well-formed tokens with the same printed form are equal |
| Scanner.CharAt | simpleCalculator.go:52-57 | the current character is nil exactly when the position is at or past the end of the text, and the byte at the position otherwise |
| Scanner.SpaceRunEnd | simpleCalculator.go:60-64 | the end of the whitespace run is at or after the start, within the text unless nothing was skipped, and on a non-space when inside the text |
| Scanner.SpaceRunEndSkips | simpleCalculator.go:60-64 | every byte before the end of the run is whitespace |
| Scanner.SpaceRunEndIs | simpleCalculator.go:60-64 | any position with only whitespace before it and a non-space (or the end) at it is the end of the run |
| Scanner.DigitRun | simpleCalculator.go:66-71 | the run is all digits, lies within the text, and is maximal (the byte after it is no digit) |
| Scanner.DigitRunSlice | simpleCalculator.go:66-71 | a non-empty run is exactly the slice of the text starting at the position |
| Scanner.DigitRunIs | simpleCalculator.go:66-71 | any maximal all-digit slice at the position is the run |
| Scanner.NextToken | simpleCalculator.go:79-104 | a scan never moves the cursor back; every token it returns carries the payload its type calls for; an INTEGER holds a value in 0..MaxInt |
| Scanner.ScanInteger | simpleCalculator.go:86-91 | whitespace and then a maximal digit run scan as INTEGER with the run's value (or as the range error) and stop after the run |
| Scanner.ScanCharacter | simpleCalculator.go:92-100 | after whitespace, '+' and '-' scan as PLUS and MINUS and advance one byte; any other non-digit fails and leaves the cursor on it |
| Scanner.ScanEof | simpleCalculator.go:81-103 | the scan yields EOF iff only whitespace is left; it then stops at the end of the text, or does not move when already past it |
| Scanner.EofIsIdempotent | simpleCalculator.go:81-103 | after EOF, scanning again yields EOF and does not move the cursor |
| Scanner.ScanProgress | simpleCalculator.go:79-104 | from inside the text no scan passes its end, and every token other than EOF consumes at least one byte |
| Scanner.ScanNeverSyntaxError | simpleCalculator.go:86-91 | `integer` is only reached on a digit, so Atoi's syntax error never occurs |
| Scanner.IntegerScanned | simpleCalculator.go:86-91 | conversely, an INTEGER token came from a maximal digit run after whitespace, and holds its value |
| Scanner.OperatorScanned | simpleCalculator.go:92-99 | conversely, PLUS or MINUS came from '+' or '-' after whitespace, and the cursor stops right after it |
| Scanner.SkippedAreSpaces | simpleCalculator.go:82-85 | the bytes a scan skips form a whitespace string |
| Evaluation.ParseExpr | simpleCalculator.go:114-127 | an accepted sentence has operator PLUS or MINUS and both operands in 0..MaxInt |
| Evaluation.Apply | simpleCalculator.go:132-137 | `lVal + rVal` or `lVal - rVal` in 64-bit `int`: in range, and exact whenever the exact result fits |
| Evaluation.Evaluate | simpleCalculator.go:114-138 | `Expr` succeeds iff its four scans parse as a sentence |
| Evaluation.ApplyExact | simpleCalculator.go:132-137 | on scanned operands, the difference is exact; the sum is exact up to MaxInt and wraps to a negative number beyond it |
| Evaluation.EvaluateOfScans | simpleCalculator.go:114-138 | after an INTEGER, an operator and an INTEGER scan, the result is the operator applied to the operands if the fourth scan succeeds, and that scan's error otherwise |
| Evaluation.LeftOperandMismatch | simpleCalculator.go:115-118 | a text whose first token is not INTEGER fails in `Eat(INTEGER)` |
| Evaluation.OperatorMismatch | simpleCalculator.go:119-124 | a token other than PLUS or MINUS in operator position fails in `Eat(MINUS)` |
| Evaluation.EvaluateSentence | simpleCalculator.go:114-138 | every text of the form whitespace, numeral, whitespace, '+' or '-', whitespace, numeral (numerals fitting in `int`, next token scanning) evaluates to the two numerals combined by the operator |
| Evaluation.SentenceOfEvaluate | simpleCalculator.go:114-138 | conversely, every text `Expr` accepts has that form, and its value is the two numerals combined by the operator |
| Evaluation.EvaluateTrailingError | simpleCalculator.go:126-127 | after a complete sentence, a following character that scans as no token makes `Expr` fail with the scan error; a well-formed trailing token is ignored (`EvaluateSentence`) |

## Left out

- `main` (simpleCalculator.go:141-153): reading a line from standard input, trimming `\n` and printing are I/O. Only its call of `NewInterpreter` and `Expr` is modelled, by `Calculate`.
- The `panic` mechanism and `Error` (simpleCalculator.go:46-48): a panic becomes an error value returned to the caller. The panic messages are not modelled.
- `fmt.Sprintf("%v", …)` in `Token.String`: only the payloads a token can hold are modelled. These are an int (its decimal numeral, with `-` when negative), a string (itself) and nil (`<nil>`).
- `strconv.Atoi`: only digit strings reach it. Its handling of a leading `+` or `-` is not modelled.
- Go's `int` is taken to be 64 bits wide, as on the usual 64-bit targets.
- Pointer identity of `*Token` and `*rune`: the fields hold values (`Option`), because no token is changed through a pointer after it is built, and no pointer is compared.
- Calculator.Interpreter.constructor: requires a non-empty text, because `text[0]` panics otherwise. `Calculate` models that failure as `EmptyText`.
- Calculator.Interpreter.Eat: requires a current token. A nil `CurrentToken` would make Go dereference nil, and `Expr` always sets the token before calling `Eat`.
- Calculator.Interpreter.Expr: after a failure only the cursor invariant is stated. Go has panicked by then, so nothing observes the rest of the state.
