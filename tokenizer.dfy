/**
 * The character-level state machine of RawText.parse and RawText.interpret,
 * as functions on a snapshot of the parser's fields. The class RawText in
 * module SolarysCalc runs the same machine by updating its fields; its
 * methods are proved against the functions here.
 */
module Tokenizer {
  import opened Wrappers
  import opened Chars
  import opened InfixParser

  /** The three operand shapes the scan produces. */
  datatype Operand =
    | NumTok(text: string)                // new Number(text)
    | SubTok(text: string)                // new RawText(text, calc): a parenthesised sub-expression
    | FuncTok(name: string, args: string) // an Operation: function name and raw argument text

  /** The field lastAdded: 0 Number, 1 FunctionName, 2 OperandStart, 3 Paren, 4 FunctionArgs, 5 PostClose. */
  datatype Mode = Number | FunctionName | OperandStart | Paren | FunctionArgs | PostClose

  /** The explanatory prefix an "Unexpected" message carries. */
  datatype Info =
    | NoInfo
    | NumberWronglyFormatted
    | NumberEndedAbruptly
    | DotInFunctionName
    | FunctionNeedsArguments

  /** The exceptions parse can raise. */
  datatype Error =
    | Unexpected(info: Info, c: char, pos: nat) // unexpected character c at position pos
    | NoSuchFunction(pos: nat)                  // a letter that no catalog name continues with
    | UnexpectedEnd                             // input ends where an operand is still owed
    | UnclosedParenthesis                       // input ends inside a parenthesis
    | ParenthesisMismatch                       // depth not zero once the end switch passes
    | ReductionFailed                           // the reduction of the two lists raised

  /**
   * The parser fields: lastAdded, openParenthesis, operands, operators, the
   * token buffer (currentTokenList and currentTokenStr hold the same
   * characters, so one sequence stands for both) and currentFunction, the
   * name of the function whose argument list is being captured.
   */
  datatype State = State(
    mode: Mode,
    depth: int,
    operands: seq<Operand>,
    operators: seq<Operator>,
    token: string,
    pending: Option<string>)

  /** What a successful scan hands to the reduction. */
  datatype Tokens = Tokens(operands: seq<Operand>, operators: seq<Operator>)

  /** The fields as parse sets them before the loop. */
  const Initial: State := State(OperandStart, 0, [], [], [], None)

  // ---------------------------------------------------------------------
  // Parenthesis depth of a captured text

  /** The number of '(' minus the number of ')' in s. */
  function Depth(s: string): int {
    multiset(s)['('] as int - multiset(s)[')'] as int
  }

  /** The change of depth one character makes. */
  function Delta(c: char): (d: int)
    ensures d == Depth([c])
  {
    assert multiset([c]) == multiset{c};
    if c == '(' then 1 else if c == ')' then -1 else 0
  }

  /** No prefix of s closes more parentheses than it opens. */
  ghost predicate PrefixesNonNeg(s: string) {
    forall k :: 0 <= k <= |s| ==> Depth(s[..k]) >= 0
  }

  /** s is paren-balanced. */
  ghost predicate Balanced(s: string) {
    Depth(s) == 0 && PrefixesNonNeg(s)
  }

  // ---------------------------------------------------------------------
  // Operator symbols

  /** The symbols `* × / ÷ % ^`, which cannot start an operand. */
  predicate IsStrongOperatorSymbol(c: char) {
    c == '*' || c == '×' || c == '/' || c == '÷' || c == '%' || c == '^'
  }

  /** Every binary-operator symbol. */
  predicate IsOperatorSymbol(c: char) {
    c == '+' || c == '-' || IsStrongOperatorSymbol(c)
  }

  /** The operator saveOperator appends for a symbol. */
  function OperatorOf(c: char): Operator
    requires IsOperatorSymbol(c)
  {
    match c
    case '+' => Addition
    case '-' => Subtraction
    case '*' => Multiplication
    case '×' => Multiplication
    case '/' => Division
    case '÷' => Division
    case '%' => Modulo
    case '^' => Exponentiation
  }

  // ---------------------------------------------------------------------
  // The invariant that holds between any two characters

  /** A name that may still become a catalog name. */
  ghost predicate NameOk(n: string) {
    n != [] && Uppercased(n) && AnyStarts(n)
  }

  /** What every stored operand satisfies. */
  ghost predicate OperandOk(o: Operand) {
    match o
    case NumTok(t) => t != [] && Uppercased(t)
    case SubTok(t) => t != [] && Uppercased(t) && Balanced(t)
    case FuncTok(n, a) => NameOk(n) && Uppercased(a) && Balanced(a)
  }

  ghost predicate AllOk(os: seq<Operand>) {
    forall k :: 0 <= k < |os| ==> OperandOk(os[k])
  }

  /**
   * The scanner invariant, mode by mode: how the two list lengths relate,
   * what the depth counter is and what the token buffer holds.
   */
  ghost predicate Inv(st: State) {
    AllOk(st.operands) && Uppercased(st.token)
    && (st.mode == PostClose ==> |st.operands| == |st.operators| + 1)
    && (st.mode != PostClose ==> |st.operands| == |st.operators|)
    && (st.mode == Paren || st.mode == FunctionArgs <==> st.depth >= 1)
    && (st.mode == Paren || st.mode == FunctionArgs ==> st.depth == 1 + Depth(st.token) && PrefixesNonNeg(st.token))
    && (st.mode != Paren && st.mode != FunctionArgs ==> st.depth == 0)
    && (st.mode == FunctionArgs <==> st.pending.Some?)
    && (st.pending.Some? ==> NameOk(st.pending.value))
    && (st.mode == Number ==> st.token != [])
    && (st.mode == FunctionName ==> NameOk(st.token))
    && (st.mode == OperandStart || st.mode == PostClose ==> st.token == [])
    && Ready(st)
  }

  // ---------------------------------------------------------------------
  // The helpers of RawText, as state transformers

  /** addChar: append the upper case of c to the token buffer. */
  function AddChar(st: State, c: char): State {
    st.(token := st.token + [Upper(c)])
  }

  /** startNumber. */
  function StartNumber(st: State, c: char): State {
    AddChar(st, c).(mode := Number)
  }

  /** saveNumber: the buffer becomes a number operand and is cleared. */
  function SaveNumber(st: State): State {
    st.(operands := st.operands + [NumTok(st.token)], token := [])
  }

  /** startFunction. */
  function StartFunction(st: State, c: char): State {
    AddChar(st, c).(mode := FunctionName)
  }

  /** saveFunctionName: the buffer names the pending function; its argument list opens. */
  function SaveFunctionName(st: State): State {
    st.(pending := Some(st.token), token := [], depth := 1, mode := FunctionArgs)
  }

  /** saveFunctionArgs: the buffer is the pending function's argument text. */
  function SaveFunctionArgs(st: State): State
    requires st.pending.Some?
  {
    st.(operands := st.operands + [FuncTok(st.pending.value, st.token)],
        pending := None, token := [], mode := PostClose)
  }

  /** saveOperator. */
  function SaveOperator(st: State, c: char): State
    requires IsOperatorSymbol(c)
  {
    st.(operators := st.operators + [OperatorOf(c)], mode := OperandStart)
  }

  /** startParenthesis. */
  function StartParenthesis(st: State): State {
    st.(depth := 1, mode := Paren)
  }

  /**
   * saveParenthesis together with the handler around it: an empty capture
   * is reported as the unexpected ')' at position i.
   */
  function SaveParenthesis(st: State, c: char, i: nat): Result<State, Error> {
    if st.token == [] then Err(Unexpected(NoInfo, c, i))
    else Ok(st.(operands := st.operands + [SubTok(st.token)], token := [], mode := PostClose))
  }

  // ---------------------------------------------------------------------
  // interpret, one case of lastAdded at a time

  /**
   * The two facts interpret relies on to be defined: a number being read
   * has at least one character (charAt(length - 1)), and an argument list
   * being captured belongs to a pending function (currentFunction set).
   */
  predicate Ready(st: State) {
    (st.mode == Number ==> st.token != []) && (st.mode == FunctionArgs ==> st.pending.Some?)
  }

  /** Errors raised while reading character c at position i. */
  predicate RaisedAt(e: Error, c: char, i: nat) {
    (e.Unexpected? && e.c == c && e.pos == i) || e == NoSuchFunction(i)
  }

  /** Case 0: inside a number literal. */
  function InNumber(st: State, c: char, i: nat): Result<State, Error>
    requires st.mode == Number && st.token != []
  {
    if IsDigit(c) then Ok(AddChar(st, c))
    else if c == '.' then
      if '.' in st.token || 'e' in st.token || 'E' in st.token then Err(Unexpected(NumberWronglyFormatted, c, i))
      else Ok(AddChar(st, c))
    else if c == 'E' || c == 'e' then
      if c in st.token then Err(Unexpected(NumberWronglyFormatted, c, i))
      else Ok(AddChar(st, c))
    else if c == '+' || c == '-' then
      var last := st.token[|st.token| - 1];
      if last == 'e' || last == 'E' then Ok(AddChar(st, c))
      else Ok(SaveOperator(SaveNumber(st), c))
    else if c == '(' then Err(Unexpected(NumberEndedAbruptly, c, i))
    else if IsStrongOperatorSymbol(c) then Ok(SaveOperator(SaveNumber(st), c))
    else if IsLetter(c) then Err(Unexpected(NumberWronglyFormatted, c, i))
    else Err(Unexpected(NoInfo, c, i))
  }

  /** Case 1: inside a function name. */
  function InFunctionName(st: State, c: char, i: nat): Result<State, Error>
    requires st.mode == FunctionName
  {
    if IsDigit(c) || IsLetter(c) then
      if AnyStarts(st.token + [Upper(c)]) then Ok(AddChar(st, c))
      else Err(NoSuchFunction(i))
    else if c == '(' then Ok(SaveFunctionName(st))
    else if c == '.' then Err(Unexpected(DotInFunctionName, c, i))
    else if IsOperatorSymbol(c) then Err(Unexpected(FunctionNeedsArguments, c, i))
    else Err(Unexpected(NoInfo, c, i))
  }

  /** Case 2: an operand is expected (also the first character). */
  function InOperandStart(st: State, c: char, i: nat): Result<State, Error>
    requires st.mode == OperandStart
  {
    if IsDigit(c) || c == '+' || c == '-' then Ok(StartNumber(st, c))
    else if c == '.' then Ok(AddChar(StartNumber(st, '0'), c))
    else if c == '(' then Ok(StartParenthesis(st))
    else if IsStrongOperatorSymbol(c) then Err(Unexpected(NoInfo, c, i))
    else if IsLetter(c) then
      if AnyStarts([Upper(c)]) then Ok(StartFunction(st, c))
      else Err(NoSuchFunction(i))
    else Err(Unexpected(NoInfo, c, i))
  }

  /** Cases 3 and 4: capturing the text of a parenthesis or of an argument list. */
  function InCapture(st: State, c: char, i: nat): Result<State, Error>
    requires st.mode == Paren || (st.mode == FunctionArgs && st.pending.Some?)
  {
    if c == ')' then
      var closed := st.(depth := st.depth - 1);
      if closed.depth == 0 then
        if st.mode == Paren then SaveParenthesis(closed, c, i)
        else Ok(SaveFunctionArgs(closed))
      else Ok(AddChar(closed, c))
    else
      var added := AddChar(st, c);
      Ok(if c == '(' then added.(depth := added.depth + 1) else added)
  }

  /** Case 5: just after a closing parenthesis. */
  function InPostClose(st: State, c: char, i: nat): Result<State, Error>
    requires st.mode == PostClose
  {
    if IsOperatorSymbol(c) then Ok(SaveOperator(st, c))
    else Err(Unexpected(NoInfo, c, i))
  }

  /** interpret(c, i): the switch on lastAdded. */
  function Step(st: State, c: char, i: nat): (r: Result<State, Error>)
    requires Ready(st)
    ensures r.Ok? ==> Ready(r.value)
    ensures r.Err? ==> RaisedAt(r.error, c, i)
  {
    match st.mode
    case Number => InNumber(st, c, i)
    case FunctionName => InFunctionName(st, c, i)
    case OperandStart => InOperandStart(st, c, i)
    case Paren => InCapture(st, c, i)
    case FunctionArgs => InCapture(st, c, i)
    case PostClose => InPostClose(st, c, i)
  }

  /** The loop of parse: interpret every character of s, the first one at position pos. */
  function Run(st: State, s: string, pos: nat): (r: Result<State, Error>)
    requires Ready(st)
    ensures r.Ok? ==> Ready(r.value)
    decreases |s|
  {
    if s == [] then Ok(st)
    else
      match Step(st, s[0], pos)
      case Err(e) => Err(e)
      case Ok(next) => Run(next, s[1..], pos + 1)
  }

  /** The end-of-input switch of parse, then the depth check. */
  function Finish(st: State): (r: Result<Tokens, Error>)
    ensures r == Err(UnexpectedEnd) <==> st.mode == FunctionName || st.mode == OperandStart
    ensures r == Err(UnclosedParenthesis) <==> st.mode == Paren || st.mode == FunctionArgs
    ensures r != Err(ReductionFailed)
    ensures r.Ok? ==> r.value.operators == st.operators
  {
    match st.mode
    case Number => CheckDepth(SaveNumber(st))
    case FunctionName => Err(UnexpectedEnd)
    case OperandStart => Err(UnexpectedEnd)
    case Paren => Err(UnclosedParenthesis)
    case FunctionArgs => Err(UnclosedParenthesis)
    case PostClose => CheckDepth(st)
  }

  /** What the end-of-input switch makes of a state the scan can reach. */
  lemma {:induction false} FinishScanned(st: State)
    requires Inv(st)
    ensures Finish(st).Ok? <==> st.mode == Number || st.mode == PostClose
    ensures Finish(st).Ok? ==> |Finish(st).value.operators| == |Finish(st).value.operands| - 1
    ensures Finish(st).Ok? ==> AllOk(Finish(st).value.operands)
    ensures st.mode == Number ==> Finish(st) == Ok(Tokens(st.operands + [NumTok(st.token)], st.operators))
    ensures st.mode == PostClose ==> Finish(st) == Ok(Tokens(st.operands, st.operators))
  {
  }

  /** The check that openParenthesis is back at zero. */
  function CheckDepth(st: State): Result<Tokens, Error> {
    if st.depth != 0 then Err(ParenthesisMismatch) else Ok(Tokens(st.operands, st.operators))
  }

  /**
   * The whole scan of a whitespace-free content string: the operand and
   * operator lists for the reduction, or the first error, which names a
   * character of the content and its position.
   */
  function Tokenize(content: string): (r: Result<Tokens, Error>)
    ensures r.Ok? ==> |r.value.operators| == |r.value.operands| - 1
    ensures r.Ok? ==> AllOk(r.value.operands)
    ensures r != Err(ParenthesisMismatch) && r != Err(ReductionFailed)
    ensures r.Err? && (r.error.Unexpected? || r.error.NoSuchFunction?) ==>
              r.error.pos < |content| && (r.error.Unexpected? ==> r.error.c == content[r.error.pos])
  {
    match Run(Initial, content, 0)
    case Err(e) =>
      RunErrorPosition(Initial, content, 0);
      Err(e)
    case Ok(st) =>
      RunKeepsInv(Initial, content, 0);
      FinishScanned(st);
      Finish(st)
  }

  // ---------------------------------------------------------------------
  // The invariant is kept by every step

  lemma {:induction false} InNumberKeepsInv(st: State, c: char, i: nat)
    requires Inv(st) && st.mode == Number && InNumber(st, c, i).Ok?
    ensures Inv(InNumber(st, c, i).value)
  {
  }

  lemma {:induction false} InFunctionNameKeepsInv(st: State, c: char, i: nat)
    requires Inv(st) && st.mode == FunctionName && InFunctionName(st, c, i).Ok?
    ensures Inv(InFunctionName(st, c, i).value)
  {
  }

  lemma {:induction false} InOperandStartKeepsInv(st: State, c: char, i: nat)
    requires Inv(st) && st.mode == OperandStart && InOperandStart(st, c, i).Ok?
    ensures Inv(InOperandStart(st, c, i).value)
  {
  }

  lemma {:induction false} InCaptureKeepsInv(st: State, c: char, i: nat)
    requires Inv(st) && (st.mode == Paren || st.mode == FunctionArgs) && InCapture(st, c, i).Ok?
    ensures Inv(InCapture(st, c, i).value)
  {
    if c != ')' {
      CaptureCharKeepsInv(st, c, i);
    } else if st.depth > 1 {
      CaptureNestedCloseKeepsInv(st, i);
    } else {
      CaptureCloseKeepsInv(st, i);
    }
  }

  /** A character other than ')' inside a capture keeps the invariant. */
  lemma {:induction false} CaptureCharKeepsInv(st: State, c: char, i: nat)
    requires Inv(st) && (st.mode == Paren || st.mode == FunctionArgs) && c != ')'
    ensures InCapture(st, c, i).Ok? && Inv(InCapture(st, c, i).value)
  {
    OpenKeepsPrefixes(st.token, Upper(c));
  }

  /** A ')' that closes a nested parenthesis keeps the invariant. */
  lemma {:induction false} CaptureNestedCloseKeepsInv(st: State, i: nat)
    requires Inv(st) && (st.mode == Paren || st.mode == FunctionArgs) && st.depth > 1
    ensures InCapture(st, ')', i).Ok? && Inv(InCapture(st, ')', i).value)
  {
    CloseKeepsPrefixes(st.token);
  }

  /** The ')' that ends a capture keeps the invariant when the capture is saved. */
  lemma {:induction false} CaptureCloseKeepsInv(st: State, i: nat)
    requires Inv(st) && (st.mode == Paren || st.mode == FunctionArgs) && st.depth == 1
    requires InCapture(st, ')', i).Ok?
    ensures Inv(InCapture(st, ')', i).value)
  {
  }

  lemma {:induction false} InPostCloseKeepsInv(st: State, c: char, i: nat)
    requires Inv(st) && st.mode == PostClose && InPostClose(st, c, i).Ok?
    ensures Inv(InPostClose(st, c, i).value)
  {
  }

  /** Every transition of interpret preserves the scanner invariant. */
  lemma {:induction false} StepKeepsInv(st: State, c: char, i: nat)
    requires Inv(st) && Step(st, c, i).Ok?
    ensures Inv(Step(st, c, i).value)
  {
    match st.mode
    case Number => InNumberKeepsInv(st, c, i);
    case FunctionName => InFunctionNameKeepsInv(st, c, i);
    case OperandStart => InOperandStartKeepsInv(st, c, i);
    case Paren => InCaptureKeepsInv(st, c, i);
    case FunctionArgs => InCaptureKeepsInv(st, c, i);
    case PostClose => InPostCloseKeepsInv(st, c, i);
  }

  /** The invariant holds after any successful run of the loop. */
  lemma {:induction false} RunKeepsInv(st: State, s: string, pos: nat)
    requires Inv(st) && Run(st, s, pos).Ok?
    ensures Inv(Run(st, s, pos).value)
    decreases |s|
  {
    if s != [] {
      StepKeepsInv(st, s[0], pos);
      RunKeepsInv(Step(st, s[0], pos).value, s[1..], pos + 1);
    }
  }

  /** A failed run names a character of the scanned text and its position. */
  lemma {:induction false} RunErrorPosition(st: State, s: string, pos: nat)
    requires Ready(st) && Run(st, s, pos).Err?
    ensures exists k :: 0 <= k < |s| && RaisedAt(Run(st, s, pos).error, s[k], pos + k)
    decreases |s|
  {
    var r := Step(st, s[0], pos);
    if r.Ok? {
      RunErrorPosition(r.value, s[1..], pos + 1);
      var k :| 0 <= k < |s[1..]| && RaisedAt(Run(st, s, pos).error, s[1..][k], pos + 1 + k);
      assert RaisedAt(Run(st, s, pos).error, s[k + 1], pos + (k + 1));
    } else {
      assert RaisedAt(Run(st, s, pos).error, s[0], pos + 0);
    }
  }

  // ---------------------------------------------------------------------
  // Depth bookkeeping used by the capture case

  lemma {:induction false} DepthAppend(s: string, c: char)
    ensures Depth(s + [c]) == Depth(s) + Delta(c)
  {
    assert multiset(s + [c]) == multiset(s) + multiset{c};
  }

  /** Appending a ')' that does not close the capture keeps every prefix non-negative. */
  lemma {:induction false} CloseKeepsPrefixes(s: string)
    requires PrefixesNonNeg(s) && Depth(s) >= 1
    ensures PrefixesNonNeg(s + [')']) && Depth(s + [')']) == Depth(s) - 1
  {
    DepthAppend(s, ')');
    PrefixesAppend(s, ')');
  }

  /** Appending any other character keeps every prefix non-negative. */
  lemma {:induction false} OpenKeepsPrefixes(s: string, c: char)
    requires PrefixesNonNeg(s) && c != ')'
    ensures PrefixesNonNeg(s + [c]) && Depth(s + [c]) == Depth(s) + (if c == '(' then 1 else 0)
  {
    DepthAppend(s, c);
    assert s[..|s|] == s;
    PrefixesAppend(s, c);
  }

  lemma {:induction false} PrefixesAppend(s: string, c: char)
    requires PrefixesNonNeg(s) && Depth(s + [c]) >= 0
    ensures PrefixesNonNeg(s + [c])
  {
    var t := s + [c];
    forall k | 0 <= k <= |t| ensures Depth(t[..k]) >= 0 {
      if k <= |s| {
        assert t[..k] == s[..k];
      } else {
        assert t[..k] == t;
      }
    }
  }
}
