# SolarysCalc front end: the RawText tokenizer and the Operator catalog

SolarysCalc evaluates infix expressions such as `2+SQRT(9)*(1-4)`. This
project models two parts of its front end:

- The tokenizer. A `RawText` strips the whitespace from its text. On first
  demand, `parse` reads the text one character at a time, driven by the mode
  field `lastAdded`. It builds a list of operands (number literals,
  parenthesised sub-expressions kept as text, function calls kept as name plus
  argument text) and a list of binary operators. It then checks the end of
  input and hands both lists to the expression reduction. `getValue` remembers
  the result.
- The `Operator` enum. This is the catalog of operators and functions, each
  with a name, an arity and a precedence. It provides the name list derived
  from it, the prefix query `anyStarts` and the first-match lookup `fromName`.

Modules:

- `Wrappers`: `Option` and `Result`.
- `Chars`: the ASCII character classes, upper-casing and the whitespace strip.
- `InfixParser`: the catalog. `Operator` is a datatype with one constructor per
  enum value. `FName`, `ArityOf` and `Precedence` are the constructor
  arguments and `Values` is the declaration order. `BuildFunctionNames` is the
  static initialiser's loop. `AnyStartsSearch` and `FromNameSearch` are the two
  search loops, each proved equal to a pure definition (`AnyStarts`,
  `FromName`).
- `Tokenizer`: the state machine as functions on a snapshot `State` of the
  parser's fields.
  - `Step` is `interpret`, one function per mode.
  - `Run` is the loop of `parse`.
  - `Finish` is the end-of-input switch and the depth check.
  - `Tokenize` is the whole scan.
  - `Inv` is the invariant kept between characters: the relation of the two
    list lengths, the depth per mode, and what the buffer holds.
- `TokenizerProperties`: what each mode does with the characters the source
  singles out, the scans of common input shapes (numbers, binary operations,
  parentheses, function calls), and the two quirks of the code.
- `SolarysCalc`: the class `RawText`, with the source's fields, whose methods
  update those fields in place.
  - `Parse` is a `while` loop proved against `Run`. Each helper method except
    `ClearToken` is proved against the `Tokenizer` function of the same name;
    `ClearToken` is proved to empty the buffer and change nothing else.
  - `GetValue` keeps the memo invariant: a remembered value is what the content
    evaluates to.
  - The expression reduction (`new Expression(...).getValue()`) is a
    parameter of type `Reducer`.

The model follows the code as written. In the first three behaviours below,
the code's own text shows that its authors meant something else; the last two
are deliberate behaviours of the code that the model records:

- Catalog names are not unique. `SUM` and `AVG` each name two entries
  (Operator.java:33-34), and `fromName` returns the first (`NamesNotUnique`,
  `FromNameSum`, `FromNameAvg`).
- A second lowercase `e` in a number is accepted, but a second `E` is refused.
  The buffer is upper-cased (RawText.java:117-118), and the repeated-exponent
  test at RawText.java:215 compares the raw character with it. The test at
  RawText.java:209, which looks for both cases, shows that both were meant
  (`NumberExponentQuirk`, `TokenizeRepeatedLowerExponent`,
  `TokenizeRepeatedUpperExponent`).
- An unmatched `)` is reported as an unexpected character where it occurs.
  The message "Opening and closing parenthesis don't match" at
  RawText.java:110 can never be raised, because the depth check after the
  end-of-input switch never fails (`TokenizeUnmatchedClose`,
  `MismatchCheckUnreachable`).
- An empty parenthesis `()` is reported as the unexpected `)` at its position.
  The handler at RawText.java:282-285 turns the "Nothing inside a parenthesis"
  exception of RawText.java:180 into that (`TokenizeEmptyParenthesis`).
- `×` and `÷` are accepted as multiplication and division besides `*` and `/`
  (RawText.java:162-165, `OperatorSymbols`).

## Model

| member | source | states |
|---|---|---|
| Chars.IsDigit | src/net/project104/solaryscalc/RawText.java:206 | definition: `Character.isDigit`, restricted to the ASCII digits `0`-`9`; also used at RawText.java:240 and 257 |
| Chars.IsLetter | src/net/project104/solaryscalc/RawText.java:233 | definition: `Character.isLetter`, restricted to the ASCII letters; also used at RawText.java:240 and 266 |
| Chars.IsWhitespace | src/net/project104/solaryscalc/RawText.java:63 | definition: the six characters of the regular-expression class `\s` (space, tab, newline, vertical tab, form feed, carriage return); used by `StripWhitespace`, whose contract removes exactly these |
| Chars.Upper | src/net/project104/solaryscalc/RawText.java:117 | a lowercase ASCII letter becomes its capital; every other character is unchanged; the result is never lowercase |
| Chars.UpperAll | src/net/project104/solaryscalc/RawText.java:116-119 | the stored text has the input's length, each character upper-cased in place, and the whole is upper case |
| Chars.StripWhitespace | src/net/project104/solaryscalc/RawText.java:63 | the stripped content is no longer than the text, contains no whitespace, holds exactly the text's non-whitespace characters, and equals the text when it has no whitespace |
| Chars.StripOne | src/net/project104/solaryscalc/RawText.java:63 | one character is kept when it is not whitespace and removed when it is |
| Chars.StripAppend | src/net/project104/solaryscalc/RawText.java:63 | stripping a + b is stripping a followed by stripping b; with `StripOne` this fixes the result as the non-whitespace characters in their order |
| Chars.StripIdempotent | src/net/project104/solaryscalc/RawText.java:63 | stripping an already stripped content changes nothing |
| InfixParser.FName | src/net/project104/infixparser/Operator.java:16-40 | definition: the name each enum value passes to its constructor, returned by `getFName()`; its properties are in `AnyStartsName`, `NamesNotUnique` and `FromName` |
| InfixParser.ArityOf | src/net/project104/infixparser/Operator.java:16-40 | definition: the arity each enum value passes to its constructor, returned by `getArity()`; stated for the binary operators in `BinaryOperatorTable` |
| InfixParser.Precedence | src/net/project104/infixparser/Operator.java:16-40 | definition: the precedence each enum value passes, -1 where the two-argument constructor supplies it, returned by `getPrecedence()`; stated in `BinaryOperatorTable` |
| InfixParser.AnyStarts | src/net/project104/infixparser/Operator.java:98-106 | definition: some catalog entry's name starts with the candidate; tied to the search loop by `AnyStartsIn` and `AnyStartsSearch` |
| InfixParser.Ordinal | src/net/project104/infixparser/Operator.java:16-40 | every enum value sits at its own position in the declaration order `Values` |
| InfixParser.BinaryOperatorTable | src/net/project104/infixparser/Operator.java:16-40 | exactly the six binary arithmetic operators have a precedence other than -1, all with arity 2; POW is 0, MULTIPLY, DIVIDE and MOD are 1, ADD and SUBTRACT are 2 |
| InfixParser.BuildFunctionNames | src/net/project104/infixparser/Operator.java:42-48 | the loop yields one name per enum value, in declaration order, each that value's `getFName()` |
| InfixParser.AnyStartsSearch | src/net/project104/infixparser/Operator.java:98-106 | the linear search answers true exactly when some listed name starts with the candidate |
| InfixParser.AnyStartsIn | src/net/project104/infixparser/Operator.java:100-105 | over the name list built by the initialiser, "some listed name starts with the candidate" is the same as `AnyStarts` over the catalog |
| InfixParser.StartsAt | src/net/project104/infixparser/Operator.java:101-103 | a listed name that starts with the candidate makes `anyStarts` true |
| InfixParser.StartsNone | src/net/project104/infixparser/Operator.java:105 | when no listed name starts with the candidate, `anyStarts` is false |
| InfixParser.AnyStartsEmpty | src/net/project104/infixparser/Operator.java:98-106 | `anyStarts("")` is true |
| InfixParser.AnyStartsName | src/net/project104/infixparser/Operator.java:98-106 | every catalog name is accepted by `anyStarts` |
| InfixParser.AnyStartsPrefixClosed | src/net/project104/infixparser/Operator.java:98-106 | `anyStarts(s + t)` implies `anyStarts(s)` |
| InfixParser.HasName | src/net/project104/infixparser/Operator.java:110 | definition: the test `op.getFName().equals(name)` applied to each entry; `FromName` and `FromNameAt` state the first entry passing it |
| InfixParser.FirstWhere | src/net/project104/infixparser/Operator.java:109-112 | the index found satisfies the test and no earlier index does; none found means no index satisfies it |
| InfixParser.FromName | src/net/project104/infixparser/Operator.java:108-115 | the lookup succeeds exactly when some entry has that name; the entry found is in the catalog and has that name |
| InfixParser.FromNameSearch | src/net/project104/infixparser/Operator.java:108-115 | the loop returns the first entry with that name, or reports failure when no entry has it |
| InfixParser.FromNameAt | src/net/project104/infixparser/Operator.java:109-112 | the entry returned is the first in declaration order with that name |
| InfixParser.NamesNotUnique | src/net/project104/infixparser/Operator.java:33-34 | SUMMATION and SUMMATION_N share the name SUM, MEAN and MEAN_N share AVG |
| InfixParser.FromNameSum | src/net/project104/infixparser/Operator.java:33 | `fromName("SUM")` is SUMMATION, not SUMMATION_N |
| InfixParser.FromNameAvg | src/net/project104/infixparser/Operator.java:34 | `fromName("AVG")` is MEAN, not MEAN_N |
| InfixParser.FromNameUnknown | src/net/project104/infixparser/Operator.java:114 | a name no entry has (FOO) fails the lookup |
| Tokenizer.AddChar | src/net/project104/solaryscalc/RawText.java:116-119 | definition: the upper case of c appended to the buffer; `SolarysCalc.RawText.AddChar` is proved to equal it |
| Tokenizer.StartNumber | src/net/project104/solaryscalc/RawText.java:126-129 | definition: c added, mode Number; `SolarysCalc.RawText.StartNumber` is proved to equal it |
| Tokenizer.SaveNumber | src/net/project104/solaryscalc/RawText.java:131-134 | definition: the buffer appended as a number operand and cleared; `SolarysCalc.RawText.SaveNumber` is proved to equal it |
| Tokenizer.StartFunction | src/net/project104/solaryscalc/RawText.java:136-139 | definition: c added, mode FunctionName; `SolarysCalc.RawText.StartFunction` is proved to equal it |
| Tokenizer.SaveFunctionName | src/net/project104/solaryscalc/RawText.java:141-147 | definition: the buffer becomes the pending name, the buffer is cleared, depth 1, mode FunctionArgs; `SolarysCalc.RawText.SaveFunctionName` is proved to equal it |
| Tokenizer.SaveFunctionArgs | src/net/project104/solaryscalc/RawText.java:149-156 | definition: a function operand of the pending name and the buffer appended, nothing pending, the buffer cleared, mode PostClose; `SolarysCalc.RawText.SaveFunctionArgs` is proved to equal it |
| Tokenizer.IsStrongOperatorSymbol | src/net/project104/solaryscalc/RawText.java:230 | definition: the six symbols `* × / ÷ % ^` that the source tests together at RawText.java:230 and 264, which cannot start an operand (`OperandStartCases`) |
| Tokenizer.IsOperatorSymbol | src/net/project104/solaryscalc/RawText.java:317 | definition: the eight binary-operator symbols, the strong ones with `+` and `-`, as tested at RawText.java:220 with 230, 250 and 317; `PostCloseOnlyOperators` and `OperatorSymbols` state what they do |
| Tokenizer.OperatorOf | src/net/project104/solaryscalc/RawText.java:158-171 | definition: the operator each symbol stands for; `OperatorSymbols` proves each operator has only its listed symbols |
| Tokenizer.SaveOperator | src/net/project104/solaryscalc/RawText.java:158-171 | definition: the symbol's operator appended, mode OperandStart; `SolarysCalc.RawText.SaveOperator` is proved to equal it |
| Tokenizer.StartParenthesis | src/net/project104/solaryscalc/RawText.java:173-176 | definition: depth 1, mode Paren; `SolarysCalc.RawText.StartParenthesis` is proved to equal it |
| Tokenizer.SaveParenthesis | src/net/project104/solaryscalc/RawText.java:178-186 | definition: an empty buffer raises the unexpected `)`; otherwise the buffer is appended as a sub-expression operand, cleared, mode PostClose; `SolarysCalc.RawText.SaveParenthesis` and `InterpretCapture` are proved against it |
| Tokenizer.Inv | src/net/project104/solaryscalc/RawText.java:38-56 | definition of the invariant on the parser fields: one more operand than operators in mode 5 and equally many otherwise, depth 1 plus the captured text's depth in modes 3 and 4 and 0 otherwise, a non-empty number buffer, a catalog-prefix name buffer, and a pending function exactly in mode 4; `StepKeepsInv` and `RunKeepsInv` prove it kept |
| Tokenizer.InNumber | src/net/project104/solaryscalc/RawText.java:205-238 | definition: case 0, condition by condition; properties in `NumberDot`, `NumberExponentQuirk`, `NumberSign`, `NumberOperator` and `InNumberKeepsInv` |
| Tokenizer.InFunctionName | src/net/project104/solaryscalc/RawText.java:239-255 | definition: case 1; properties in `FunctionNameExtends` and `InFunctionNameKeepsInv` |
| Tokenizer.InOperandStart | src/net/project104/solaryscalc/RawText.java:256-275 | definition: case 2; properties in `OperandStartCases`, `OperandStartLetter` and `InOperandStartKeepsInv` |
| Tokenizer.InCapture | src/net/project104/solaryscalc/RawText.java:276-315 | definition: cases 3 and 4; properties in `RunCapture`, `TokenizeParenthesised`, `TokenizeEmptyParenthesis` and `InCaptureKeepsInv` |
| Tokenizer.InPostClose | src/net/project104/solaryscalc/RawText.java:316-322 | definition: case 5; properties in `PostCloseOnlyOperators` and `InPostCloseKeepsInv` |
| Tokenizer.Run | src/net/project104/solaryscalc/RawText.java:87-90 | the loop interprets each character in turn from position pos and stops at the first exception; the state it ends in is usable by the next interpret (a number buffer is non-empty for `charAt` at RawText.java:221, and a function is pending for RawText.java:150); composed by `RunAppend`, `RunAt` and `RunAppendErr` |
| Tokenizer.CheckDepth | src/net/project104/solaryscalc/RawText.java:109-111 | definition: mismatched parentheses when the depth is not 0; `MismatchCheckUnreachable` proves it always passes on a reachable state |
| Tokenizer.Step | src/net/project104/solaryscalc/RawText.java:203-326 | interpret keeps the state usable by the next character, and every exception it raises carries the position it is reading; an unexpected-character error also carries that character, while "no function with that name" (RawText.java:244, 270) carries only the position |
| Tokenizer.Finish | src/net/project104/solaryscalc/RawText.java:92-111 | unexpected end exactly in modes 1 and 2, unclosed parenthesis exactly in modes 3 and 4, the operator list handed on unchanged |
| Tokenizer.FinishScanned | src/net/project104/solaryscalc/RawText.java:92-107 | for a reachable state, input may end exactly in modes 0 and 5; mode 0 flushes the number; the result has one operator fewer than operands |
| Tokenizer.Tokenize | src/net/project104/solaryscalc/RawText.java:79-111 | a successful scan has one operator fewer than operands, and every operand satisfies `OperandOk`: non-empty upper-case text, balanced for a captured parenthesis or argument list, a catalog prefix for a function name (a number's text is not checked to be a well-formed decimal: `+*3` and `1e` scan); mismatched parentheses never result; an "unexpected" error names the content's character at its position |
| Tokenizer.InNumberKeepsInv | src/net/project104/solaryscalc/RawText.java:205-238 | case 0 keeps the scanner invariant |
| Tokenizer.InFunctionNameKeepsInv | src/net/project104/solaryscalc/RawText.java:239-255 | case 1 keeps the scanner invariant, so the name stays a catalog prefix |
| Tokenizer.InOperandStartKeepsInv | src/net/project104/solaryscalc/RawText.java:256-275 | case 2 keeps the scanner invariant |
| Tokenizer.InCaptureKeepsInv | src/net/project104/solaryscalc/RawText.java:276-315 | cases 3 and 4 keep the scanner invariant: the depth is one more than the captured text's depth until the matching `)` |
| Tokenizer.CaptureCharKeepsInv | src/net/project104/solaryscalc/RawText.java:289-294 | a character other than `)` inside a capture is stored, and the invariant holds after it |
| Tokenizer.CaptureNestedCloseKeepsInv | src/net/project104/solaryscalc/RawText.java:286-288 | a nested `)` inside a capture is stored, and the invariant holds after it |
| Tokenizer.CaptureCloseKeepsInv | src/net/project104/solaryscalc/RawText.java:279-285 | the matching `)` saves the capture as a balanced operand and the invariant holds after it |
| Tokenizer.InPostCloseKeepsInv | src/net/project104/solaryscalc/RawText.java:316-322 | case 5 keeps the scanner invariant |
| Tokenizer.StepKeepsInv | src/net/project104/solaryscalc/RawText.java:203-326 | every successful interpret keeps the scanner invariant |
| Tokenizer.RunKeepsInv | src/net/project104/solaryscalc/RawText.java:87-90 | the loop keeps the scanner invariant over any number of characters |
| Tokenizer.RunErrorPosition | src/net/project104/solaryscalc/RawText.java:87-90 | a failed loop failed at one of the characters it read, at that character's position |
| TokenizerProperties.NoLowercaseE | src/net/project104/solaryscalc/RawText.java:215 | the upper-cased buffer never contains a lowercase `e` |
| TokenizerProperties.NumberDot | src/net/project104/solaryscalc/RawText.java:208-213 | in a number, `.` is refused as wrongly formatted exactly when the number already has a `.` or an exponent; otherwise it is appended |
| TokenizerProperties.NumberExponentQuirk | src/net/project104/solaryscalc/RawText.java:214-219 | in a number, a lowercase `e` is always appended as `E`; an `E` is refused exactly when the number already has one |
| TokenizerProperties.NumberSign | src/net/project104/solaryscalc/RawText.java:220-227 | in a number, `+` or `-` is appended right after the exponent marker; anywhere else it ends the number and becomes a binary operator |
| TokenizerProperties.NumberOperator | src/net/project104/solaryscalc/RawText.java:230-232 | in a number, `* × / ÷ % ^` end the number and append their operator |
| TokenizerProperties.OperandStartCases | src/net/project104/solaryscalc/RawText.java:257-265 | where an operand is expected, a digit or sign starts a number, `.` starts the number `0.`, `(` opens a parenthesis, `* × / ÷ % ^` are refused |
| TokenizerProperties.OperandStartLetter | src/net/project104/solaryscalc/RawText.java:266-271 | a letter starts a function name exactly when some catalog name starts with it; otherwise the scan fails with no such function |
| TokenizerProperties.FunctionNameExtends | src/net/project104/solaryscalc/RawText.java:240-245 | a letter or digit extends a function name exactly when the name stays a catalog prefix |
| TokenizerProperties.PostCloseOnlyOperators | src/net/project104/solaryscalc/RawText.java:316-321 | after a closing parenthesis exactly the operator symbols are accepted, and the operator is appended |
| TokenizerProperties.OperatorSymbols | src/net/project104/solaryscalc/RawText.java:158-171 | each symbol maps to exactly one binary operator of arity 2, and each operator has only the symbols listed for it |
| TokenizerProperties.RunAppend | src/net/project104/solaryscalc/RawText.java:87-90 | scanning a + b is scanning a and then b from where a ended, at the positions after a |
| TokenizerProperties.RunAppendErr | src/net/project104/solaryscalc/RawText.java:87-90 | once a prefix fails, the whole scan fails with the same error |
| TokenizerProperties.RunAt | src/net/project104/solaryscalc/RawText.java:87-89 | the scan from position i is the interpret of character i, then the scan from i + 1 |
| TokenizerProperties.RunDigits | src/net/project104/solaryscalc/RawText.java:206-207 | digits extend a number as they are |
| TokenizerProperties.RunName | src/net/project104/solaryscalc/RawText.java:240-242 | letters and digits extend a function name, upper-cased, while it stays a catalog prefix |
| TokenizerProperties.RunCapture | src/net/project104/solaryscalc/RawText.java:276-315 | inside a capture, text that never closes it is stored upper-cased and only moves the depth counter |
| TokenizerProperties.TokenizeParenthesised | src/net/project104/solaryscalc/RawText.java:276-295 | `(s)` with a non-empty balanced s is one sub-expression operand, the upper-cased text strictly between the parentheses |
| TokenizerProperties.TokenizeEmptyParenthesis | src/net/project104/solaryscalc/RawText.java:279-285 | `()` fails as the unexpected `)` at position 1 |
| TokenizerProperties.TokenizeFunctionCall | src/net/project104/solaryscalc/RawText.java:296-315 | `name(args)` with a catalog-prefix name and balanced, possibly empty, args is one function operand of upper-cased name and argument text |
| TokenizerProperties.TokenizeInteger | src/net/project104/solaryscalc/RawText.java:92-95 | a digit run is one number operand and no operator |
| TokenizerProperties.TokenizeScientific | src/net/project104/solaryscalc/RawText.java:208-227 | `a.be±x` is one number operand, stored with `E` |
| TokenizerProperties.TokenizeBinary | src/net/project104/solaryscalc/RawText.java:220-232 | two digit runs around an operator symbol give two numbers and that operator |
| TokenizerProperties.MismatchCheckUnreachable | src/net/project104/solaryscalc/RawText.java:109-111 | in any reachable state the depth check after the end switch passes, so the mismatch exception is never raised |
| TokenizerProperties.TokenizeUnmatchedClose | src/net/project104/solaryscalc/RawText.java:235-237 | `a op b)` fails as the unexpected `)` at its position, not as mismatched parentheses |
| TokenizerProperties.TokenizeUnclosed | src/net/project104/solaryscalc/RawText.java:99-101 | an input that starts with `(` and never brings the depth back to 0 fails as unclosed (`Finish` states the general case: input ending in mode 3 or 4) |
| TokenizerProperties.TokenizeRepeatedLowerExponent | src/net/project104/solaryscalc/RawText.java:214-219 | `d1 e d2 e d3` is accepted as one number with two `E`s |
| TokenizerProperties.TokenizeRepeatedUpperExponent | src/net/project104/solaryscalc/RawText.java:214-216 | `d1 E d2 E d3` fails as wrongly formatted at the second `E` |
| SolarysCalc.Reduction | src/net/project104/solaryscalc/RawText.java:113 | a scan error is passed on; otherwise the value is the reduction of the two lists, and a reduction that raises gives ReductionFailed |
| SolarysCalc.Evaluate | src/net/project104/solaryscalc/RawText.java:79-113 | a value comes only from a successful scan whose lists reduce to it; ReductionFailed exactly when the scan succeeds and the reduction raises; an error names the content's character at its position; mismatched parentheses never result |
| SolarysCalc.RawText.constructor | src/net/project104/solaryscalc/RawText.java:62-66 | the content is the text with its whitespace stripped, nothing is remembered yet, and the catalog name list is the one the initialiser builds |
| SolarysCalc.RawText.GetValue | src/net/project104/solaryscalc/RawText.java:69-74 | the answer is what the content evaluates to; once a value is remembered, the call returns it and changes no field (no parse); a value computed now is remembered |
| SolarysCalc.RawText.Parse | src/net/project104/solaryscalc/RawText.java:79-114 | the loop over the content, the end switch and the reduction give exactly what the content evaluates to; the value field is set only on success |
| SolarysCalc.RawText.EndOfInput | src/net/project104/solaryscalc/RawText.java:92-113 | the end switch, the depth check and the reduction on the fields give the reduction of `Finish` of those fields |
| SolarysCalc.RawText.Interpret | src/net/project104/solaryscalc/RawText.java:203-326 | the new fields are the state `Step` computes, or the exception it raises is returned |
| SolarysCalc.RawText.InterpretNumber | src/net/project104/solaryscalc/RawText.java:205-238 | case 0 updates the fields as `InNumber` says, or returns its exception |
| SolarysCalc.RawText.InterpretFunctionName | src/net/project104/solaryscalc/RawText.java:239-255 | case 1 updates the fields as `InFunctionName` says, with `anyStarts` answered by the search over the name list |
| SolarysCalc.RawText.InterpretOperandStart | src/net/project104/solaryscalc/RawText.java:256-275 | case 2 updates the fields as `InOperandStart` says, or returns its exception |
| SolarysCalc.RawText.InterpretCapture | src/net/project104/solaryscalc/RawText.java:276-315 | cases 3 and 4 update the fields as `InCapture` says, the empty parenthesis included |
| SolarysCalc.RawText.InterpretPostClose | src/net/project104/solaryscalc/RawText.java:316-322 | case 5 updates the fields as `InPostClose` says, or returns its exception |
| SolarysCalc.RawText.AddChar | src/net/project104/solaryscalc/RawText.java:116-119 | the upper case of c is appended to the buffer; nothing else changes |
| SolarysCalc.RawText.ClearToken | src/net/project104/solaryscalc/RawText.java:121-124 | the buffer is emptied; nothing else changes |
| SolarysCalc.RawText.StartNumber | src/net/project104/solaryscalc/RawText.java:126-129 | c is added and the mode becomes Number |
| SolarysCalc.RawText.SaveNumber | src/net/project104/solaryscalc/RawText.java:131-134 | the buffer is appended as a number operand and cleared |
| SolarysCalc.RawText.StartFunction | src/net/project104/solaryscalc/RawText.java:136-139 | c is added and the mode becomes FunctionName |
| SolarysCalc.RawText.SaveFunctionName | src/net/project104/solaryscalc/RawText.java:141-147 | the buffer becomes the pending function name, the buffer is cleared, the depth is 1 and the mode FunctionArgs |
| SolarysCalc.RawText.SaveFunctionArgs | src/net/project104/solaryscalc/RawText.java:149-156 | the pending function with the buffer as its arguments is appended as an operand, no function is pending, the buffer is cleared and the mode is PostClose |
| SolarysCalc.RawText.SaveOperator | src/net/project104/solaryscalc/RawText.java:158-171 | the symbol's operator is appended and the mode becomes OperandStart |
| SolarysCalc.RawText.StartParenthesis | src/net/project104/solaryscalc/RawText.java:173-176 | the depth becomes 1 and the mode Paren |
| SolarysCalc.RawText.SaveParenthesis | src/net/project104/solaryscalc/RawText.java:178-186 | saved exactly when the buffer is non-empty, then appended as a sub-expression operand, cleared, mode PostClose; otherwise nothing changes |

## Left out

- The expression reduction (`new Expression(operands, operators, calc).getValue()`) is not part of this model. It is the `Reducer` parameter, and a reduction that raises is `None`. Its BigDecimal arithmetic, precedence grouping and the evaluation of sub-expressions and function arguments are therefore outside the model.
- The `Number` and `Operation` constructors are not shown in the source modelled here. They become the operand values `NumTok` and `FuncTok` holding their text, and `currentFunction` holds only the function's name.
- The nested `new RawText(currentTokenStr.toString(), calc)` at RawText.java:183 is this class's own constructor (RawText.java:62-66). Its whitespace strip leaves the captured text unchanged, because `content` has no whitespace left (`StripWhitespace`, `StripIdempotent`), so `SubTok` holds exactly the nested object's content. Only that object's later evaluation, inside the reduction, is left out.
- `SolarysCalc.RawText.Parse` also clears `currentFunction`, which `parse` (RawText.java:80-85) does not reset: after a failed parse such as `SIN(`, the source keeps the stale `Operation` into the next parse. This cannot be observed, because `saveFunctionName` (RawText.java:142) always writes the field before `saveFunctionArgs` (RawText.java:150) reads it. It does mean that `Inv`'s "a function is pending exactly in mode 4" describes the model's fields, not the Java fields between parses.
- Argument splitting, the arity checks and the exception `setArguments` might raise are inside `Operation`, which is not part of this model. The `try`/`catch` around `saveFunctionArgs` is therefore never taken here.
- `System.out.println` in the two catch blocks is console output and is left out; only the resulting exception is kept.
- Exception messages are not modelled. An exception is an `Error` value with its kind, character and position, returned as the `Err` of a `Result` or as the `Some` of an `Option`.
- `Character.isDigit`, `Character.isLetter` and `Character.toUpperCase` are modelled for ASCII only. Letters and digits of other scripts, and their case mappings, are not covered.
- The regular expression `\s` is modelled as the six whitespace characters it matches, removed by `StripWhitespace`, not as a regex engine.
- `currentTokenList` and `currentTokenStr` always receive the same characters, so one `token` field stands for both.
- `lastAdded` is a six-valued `Mode`, and `saveOperator` requires an operator symbol. The "Wrongly coded" default branches of the two switches (`parse` and `interpret`) and of `saveOperator` are therefore unreachable by construction and not modelled.
- `interpret` is split into one method per case of its switch. Each method is proved against the matching function of `Tokenizer`.
- `functionNames` is a static field in the source. Here it is a `const` field of each `RawText` built by the same loop; `IsFunctionNames` states that it is that list.
- The constants `ARITY_ALL`, `ARITY_N` and `ARITY_ZERO_ONE` come from a `Constants` class that is not part of this model. They are three distinct `Arity` kinds.
- BigDecimal values are modelled as `real`.
- The reduction is one fixed, deterministic `Reducer` per `RawText`, although the catalog has `RAND` (Operator.java:31). So repeated `getValue` calls returning the first computed value is visible only in `GetValue`'s contract: on a remembered value it returns it and changes no field. The memo invariant `Valid` (a remembered value is what the content evaluates to) relies on that choice.
- `new Operation(name, calc)` at RawText.java:142 is in a class that is not part of this model, so a possible rejection there of a name that is only a catalog prefix is not modelled. `saveFunctionName` is taken never to raise, and a prefix-only call such as `SQ(4)` scans to a function operand named `SQ`; in this model `FromName` is not consulted by the tokenizer.
- Java strings index UTF-16 code units. A character outside the Basic Multilingual Plane is two characters and two positions in the source but one in the model, so error positions after such a character (only possible inside a captured parenthesis or argument list) are one smaller in the model.
- SolarysCalc.RawText.Parse: after an exception the parser fields are left unspecified; only the returned error and the unchanged `value` are stated.
- InfixParser.FromNameSum: the name is a parameter fixed to "SUM" by its `requires`, rather than the literal, so that the catalog is not evaluated all at once; the same holds for InfixParser.FromNameAvg with "AVG".
- Arity and precedence getters are the functions `ArityOf` and `Precedence`. Only their values for the binary operators are stated as a property (`BinaryOperatorTable`); the other entries' arities are the table itself.
