/**
 * Properties of the tokenizer: what each mode does with the characters the
 * source singles out, what a whole scan of the common shapes of input
 * produces, and the behaviour of its two quirks.
 */
module TokenizerProperties {
  import opened Wrappers
  import opened Chars
  import opened InfixParser
  import opened Tokenizer

  // ---------------------------------------------------------------------
  // One character at a time

  /** The buffer only ever holds upper case, so it never contains a lowercase 'e'. */
  lemma {:induction false} NoLowercaseE(s: string)
    requires Uppercased(s)
    ensures 'e' !in s
  {
    forall k | 0 <= k < |s| ensures s[k] != 'e' {
      assert Upper(s[k]) == s[k];
    }
  }

  /** In a number, '.' is refused exactly when the number already has a '.' or an exponent. */
  lemma {:induction false} NumberDot(st: State, i: nat)
    requires Inv(st) && st.mode == Number
    ensures Step(st, '.', i).Err? <==> '.' in st.token || 'E' in st.token
    ensures Step(st, '.', i).Err? ==> Step(st, '.', i).error == Unexpected(NumberWronglyFormatted, '.', i)
    ensures Step(st, '.', i).Ok? ==> Step(st, '.', i).value == st.(token := st.token + ['.'])
  {
    NoLowercaseE(st.token);
  }

  /**
   * The repeated-exponent check compares the raw character with the
   * upper-cased buffer: a lowercase 'e' is always accepted (and stored as
   * 'E'), while an upper-case 'E' is refused once the number has one.
   */
  lemma {:induction false} NumberExponentQuirk(st: State, i: nat)
    requires Inv(st) && st.mode == Number
    ensures Step(st, 'e', i) == Ok(st.(token := st.token + ['E']))
    ensures Step(st, 'E', i).Err? <==> 'E' in st.token
    ensures Step(st, 'E', i).Err? ==> Step(st, 'E', i).error == Unexpected(NumberWronglyFormatted, 'E', i)
  {
    NoLowercaseE(st.token);
  }

  /**
   * In a number, a sign right after the exponent marker belongs to the
   * number; anywhere else it ends the number and becomes a binary operator.
   */
  lemma {:induction false} NumberSign(st: State, c: char, i: nat)
    requires Inv(st) && st.mode == Number && (c == '+' || c == '-')
    ensures st.token[|st.token| - 1] == 'E' ==> Step(st, c, i) == Ok(st.(token := st.token + [c]))
    ensures st.token[|st.token| - 1] != 'E' ==>
              Step(st, c, i) == Ok(State(OperandStart, 0, st.operands + [NumTok(st.token)],
                                         st.operators + [if c == '+' then Addition else Subtraction], [], None))
  {
    NoLowercaseE(st.token);
    assert st.token[|st.token| - 1] in st.token;
  }

  /** In a number, `* × / ÷ % ^` end the number and append their operator. */
  lemma {:induction false} NumberOperator(st: State, c: char, i: nat)
    requires Inv(st) && st.mode == Number && IsStrongOperatorSymbol(c)
    ensures Step(st, c, i) == Ok(State(OperandStart, 0, st.operands + [NumTok(st.token)],
                                       st.operators + [OperatorOf(c)], [], None))
  {
  }

  /**
   * Where an operand is expected, a digit or a sign starts a number, '.'
   * starts the number "0.", '(' opens a parenthesis and `* × / ÷ % ^` are
   * refused.
   */
  lemma {:induction false} OperandStartCases(st: State, c: char, i: nat)
    requires Inv(st) && st.mode == OperandStart
    ensures IsDigit(c) || c == '+' || c == '-' ==> Step(st, c, i) == Ok(st.(mode := Number, token := [c]))
    ensures c == '.' ==> Step(st, c, i) == Ok(st.(mode := Number, token := "0."))
    ensures c == '(' ==> Step(st, c, i) == Ok(st.(mode := Paren, depth := 1))
    ensures IsStrongOperatorSymbol(c) ==> Step(st, c, i) == Err(Unexpected(NoInfo, c, i))
  {
    assert IsDigit(c) || c == '+' || c == '-' ==> st.token + [Upper(c)] == [c];
    assert st.token + [Upper('0')] + [Upper('.')] == "0.";
  }

  /** Where an operand is expected, a letter starts a function name only if some catalog name starts with it. */
  lemma {:induction false} OperandStartLetter(st: State, c: char, i: nat)
    requires Inv(st) && st.mode == OperandStart && IsLetter(c)
    ensures Step(st, c, i).Ok? <==> AnyStarts([Upper(c)])
    ensures Step(st, c, i).Ok? ==> Step(st, c, i).value == st.(mode := FunctionName, token := [Upper(c)])
    ensures Step(st, c, i).Err? ==> Step(st, c, i).error == NoSuchFunction(i)
  {
  }

  /** A function name is extended by a letter or digit only while it stays a prefix of a catalog name. */
  lemma {:induction false} FunctionNameExtends(st: State, c: char, i: nat)
    requires Inv(st) && st.mode == FunctionName && (IsLetter(c) || IsDigit(c))
    ensures Step(st, c, i).Ok? <==> AnyStarts(st.token + [Upper(c)])
    ensures Step(st, c, i).Ok? ==> Step(st, c, i).value == st.(token := st.token + [Upper(c)])
    ensures Step(st, c, i).Err? ==> Step(st, c, i).error == NoSuchFunction(i)
  {
  }

  /** After a closing parenthesis only an operator symbol is accepted, and it is appended. */
  lemma {:induction false} PostCloseOnlyOperators(st: State, c: char, i: nat)
    requires Inv(st) && st.mode == PostClose
    ensures Step(st, c, i).Ok? <==> IsOperatorSymbol(c)
    ensures Step(st, c, i).Ok? ==>
              Step(st, c, i).value == st.(mode := OperandStart, operators := st.operators + [OperatorOf(c)])
    ensures Step(st, c, i).Err? ==> Step(st, c, i).error == Unexpected(NoInfo, c, i)
  {
  }

  /**
   * saveOperator maps each symbol to one of the six binary arithmetic
   * operators: '+' and '-' to addition and subtraction, '*' and '×' to
   * multiplication, '/' and '÷' to division, '%' to modulo, '^' to
   * exponentiation; all six are reached.
   */
  lemma {:induction false} OperatorSymbols(c: char)
    requires IsOperatorSymbol(c)
    ensures IsBinaryArithmetic(OperatorOf(c)) && ArityOf(OperatorOf(c)) == Fixed(2)
    ensures OperatorOf(c) == Addition <==> c == '+'
    ensures OperatorOf(c) == Subtraction <==> c == '-'
    ensures OperatorOf(c) == Multiplication <==> c == '*' || c == '×'
    ensures OperatorOf(c) == Division <==> c == '/' || c == '÷'
    ensures OperatorOf(c) == Modulo <==> c == '%'
    ensures OperatorOf(c) == Exponentiation <==> c == '^'
  {
  }

  // ---------------------------------------------------------------------
  // Running over several characters

  /** Scanning one character is one step. */
  lemma {:induction false} RunOne(st: State, c: char, pos: nat)
    requires Ready(st)
    ensures Run(st, [c], pos) == Step(st, c, pos)
  {
    assert [c][1..] == [];
  }

  /**
   * Scanning a + b after a scan of a succeeds is scanning b from where a
   * stopped; end names that position.
   */
  lemma {:induction false} RunAppend(st: State, a: string, b: string, pos: nat, mid: State, end: nat)
    requires Ready(st) && Run(st, a, pos) == Ok(mid) && end == pos + |a|
    ensures Run(st, a + b, pos) == Run(mid, b, end)
    decreases |a|
  {
    if a == [] {
      assert a + b == b;
    } else {
      var next := RunFirst(st, a, b, pos, mid);
      RunAppend(next, a[1..], b, pos + 1, mid, end);
    }
  }

  /** The state after the first step of a successful scan of a, which is also the first step of a + b. */
  lemma {:induction false} RunFirst(st: State, a: string, b: string, pos: nat, mid: State) returns (next: State)
    requires Ready(st) && a != [] && Run(st, a, pos) == Ok(mid)
    ensures Ready(next) && Run(next, a[1..], pos + 1) == Ok(mid)
    ensures Run(st, a + b, pos) == Run(next, a[1..] + b, pos + 1)
  {
    next := Step(st, a[0], pos).value;
    RunStep(st, a, pos, next);
    RunAppendStep(st, a, b, pos, next);
  }

  /** The first step of a + b is the first step of a. */
  lemma {:induction false} RunAppendStep(st: State, a: string, b: string, pos: nat, next: State)
    requires Ready(st) && a != [] && Step(st, a[0], pos) == Ok(next)
    ensures Run(st, a + b, pos) == Run(next, a[1..] + b, pos + 1)
  {
    var ab := a + b;
    assert ab[0] == a[0] && ab[1..] == a[1..] + b;
    RunStep(st, ab, pos, next);
  }

  /** Two successful scans, one after the other. */
  lemma {:induction false} RunThen(st: State, a: string, b: string, pos: nat, mid: State, fin: State)
    requires Ready(st) && Run(st, a, pos) == Ok(mid)
    requires Ready(mid) && Run(mid, b, pos + |a|) == Ok(fin)
    ensures Run(st, a + b, pos) == Ok(fin)
  {
    var end := pos + |a|;
    RunAppend(st, a, b, pos, mid, end);
  }

  /** One successful step, then a successful scan of the rest. */
  lemma {:induction false} RunCons(st: State, s: string, pos: nat, next: State, fin: State)
    requires Ready(st) && s != [] && Step(st, s[0], pos) == Ok(next)
    requires Run(next, s[1..], pos + 1) == Ok(fin)
    ensures Run(st, s, pos) == Ok(fin)
  {
    RunStep(st, s, pos, next);
  }

  /** A successful scan, then one successful step. */
  lemma {:induction false} RunThenStep(st: State, a: string, c: char, pos: nat, mid: State, fin: State)
    requires Ready(st) && Run(st, a, pos) == Ok(mid)
    requires Ready(mid) && Step(mid, c, pos + |a|) == Ok(fin)
    ensures Run(st, a + [c], pos) == Ok(fin)
  {
    var end := pos + |a|;
    RunOne(mid, c, end);
    RunAppend(st, a, [c], pos, mid, end);
  }

  /** A successful scan, then a step that fails: whatever follows, the scan fails there. */
  lemma {:induction false} RunThenErr(st: State, a: string, c: char, b: string, pos: nat, mid: State, e: Error)
    requires Ready(st) && Run(st, a, pos) == Ok(mid)
    requires Ready(mid) && Step(mid, c, pos + |a|) == Err(e)
    ensures Run(st, a + [c] + b, pos) == Err(e)
  {
    var end := pos + |a|;
    RunOne(mid, c, end);
    RunAppend(st, a, [c], pos, mid, end);
    RunAppendErr(st, a + [c], b, pos);
  }

  /** A successful first step moves the scan to the rest of the input. */
  lemma {:induction false} RunStep(st: State, s: string, pos: nat, next: State)
    requires Ready(st) && s != [] && Step(st, s[0], pos) == Ok(next)
    ensures Run(st, s, pos) == Run(next, s[1..], pos + 1)
  {
  }

  /** The scan from position i of s: the step on s[i], then the scan from i + 1. */
  lemma {:induction false} RunAt(st: State, s: string, i: nat)
    requires Ready(st) && i < |s|
    ensures Step(st, s[i], i).Err? ==> Run(st, s[i..], i) == Err(Step(st, s[i], i).error)
    ensures Step(st, s[i], i).Ok? ==> Run(st, s[i..], i) == Run(Step(st, s[i], i).value, s[i + 1..], i + 1)
  {
    assert s[i..][0] == s[i] && s[i..][1..] == s[i + 1..];
  }

  /** A scan of a that fails makes every scan of a + b fail the same way. */
  lemma {:induction false} RunAppendErr(st: State, a: string, b: string, pos: nat)
    requires Ready(st) && Run(st, a, pos).Err?
    ensures Run(st, a + b, pos) == Run(st, a, pos)
    decreases |a|
  {
    assert (a + b)[0] == a[0];
    assert (a + b)[1..] == a[1..] + b;
    var r := Step(st, a[0], pos);
    if r.Ok? {
      RunAppendErr(r.value, a[1..], b, pos + 1);
    }
  }

  // ---------------------------------------------------------------------
  // Single steps used by the whole-scan lemmas

  /** Inside a number, a digit is appended as it is. */
  lemma {:induction false} StepNumberDigit(st: State, c: char, i: nat)
    requires Ready(st) && st.mode == Number && IsDigit(c)
    ensures Step(st, c, i) == Ok(st.(token := st.token + [c]))
  {
  }

  /** After a digit, an operator symbol ends the number and is stored. */
  lemma {:induction false} StepNumberOperator(st: State, c: char, i: nat)
    requires Ready(st) && st.mode == Number && IsOperatorSymbol(c)
    requires IsDigit(st.token[|st.token| - 1])
    ensures Step(st, c, i) == Ok(SaveOperator(SaveNumber(st), c))
  {
  }

  /** Where an operand is expected, a digit starts a number. */
  lemma {:induction false} StepStartNumber(st: State, c: char, i: nat)
    requires st.mode == OperandStart && IsDigit(c)
    ensures Step(st, c, i) == Ok(st.(mode := Number, token := st.token + [c]))
  {
  }

  /** Where an operand is expected, '(' opens a parenthesis. */
  lemma {:induction false} StepOpen(st: State, i: nat)
    requires st.mode == OperandStart
    ensures Step(st, '(', i) == Ok(StartParenthesis(st))
  {
  }

  /** Where an operand is expected, a letter that starts a catalog name starts a function name. */
  lemma {:induction false} StepStartFunction(st: State, c: char, i: nat)
    requires st.mode == OperandStart && IsLetter(c) && AnyStarts([Upper(c)])
    ensures Step(st, c, i) == Ok(StartFunction(st, c))
  {
  }

  /** In a function name, a letter or digit that keeps the name a catalog prefix is appended. */
  lemma {:induction false} StepNameChar(st: State, c: char, i: nat)
    requires st.mode == FunctionName && (IsLetter(c) || IsDigit(c)) && AnyStarts(st.token + [Upper(c)])
    ensures Step(st, c, i) == Ok(AddChar(st, c))
  {
  }

  /** In a function name, '(' opens its argument list. */
  lemma {:induction false} StepNameOpen(st: State, i: nat)
    requires st.mode == FunctionName
    ensures Step(st, '(', i) == Ok(SaveFunctionName(st))
  {
  }

  /** In a number without '.' or exponent, '.' is appended. */
  lemma {:induction false} StepNumberDot(st: State, i: nat)
    requires Ready(st) && st.mode == Number
    requires '.' !in st.token && 'e' !in st.token && 'E' !in st.token
    ensures Step(st, '.', i) == Ok(st.(token := st.token + ['.']))
  {
  }

  /** In a number, an exponent marker not yet in the buffer is appended upper-cased. */
  lemma {:induction false} StepNumberExponent(st: State, c: char, i: nat)
    requires Ready(st) && st.mode == Number && (c == 'e' || c == 'E') && c !in st.token
    ensures Step(st, c, i) == Ok(st.(token := st.token + ['E']))
  {
  }

  /** In a number, an exponent marker already in the buffer is refused. */
  lemma {:induction false} StepNumberExponentAgain(st: State, c: char, i: nat)
    requires Ready(st) && st.mode == Number && (c == 'e' || c == 'E') && c in st.token
    ensures Step(st, c, i) == Err(Unexpected(NumberWronglyFormatted, c, i))
  {
  }

  /** Right after the exponent marker, a sign is appended. */
  lemma {:induction false} StepNumberSignAfterExponent(st: State, c: char, i: nat)
    requires Ready(st) && st.mode == Number && (c == '+' || c == '-')
    requires st.token[|st.token| - 1] == 'E'
    ensures Step(st, c, i) == Ok(st.(token := st.token + [c]))
  {
  }

  /** In a number, ')' is refused: there is no parenthesis to close. */
  lemma {:induction false} StepNumberClose(st: State, i: nat)
    requires Ready(st) && st.mode == Number
    ensures Step(st, ')', i) == Err(Unexpected(NoInfo, ')', i))
  {
  }

  /** Inside a capture, a character that leaves the depth positive is stored. */
  lemma {:induction false} StepCapture(st: State, c: char, i: nat)
    requires Ready(st) && (st.mode == Paren || st.mode == FunctionArgs)
    requires st.depth + Delta(c) >= 1
    ensures Step(st, c, i) == Ok(st.(token := st.token + [Upper(c)], depth := st.depth + Delta(c)))
  {
  }

  /** The ')' that brings a parenthesis back to depth 0 closes it. */
  lemma {:induction false} StepCloseParen(st: State, i: nat)
    requires st.mode == Paren && st.depth == 1
    ensures Step(st, ')', i) == SaveParenthesis(st.(depth := 0), ')', i)
  {
  }

  /** The ')' that brings an argument list back to depth 0 closes the call. */
  lemma {:induction false} StepCloseArgs(st: State, i: nat)
    requires st.mode == FunctionArgs && st.pending.Some? && st.depth == 1
    ensures Step(st, ')', i) == Ok(SaveFunctionArgs(st.(depth := 0)))
  {
  }

  /** Depth counted from the front. */
  lemma {:induction false} DepthCons(c: char, t: string)
    ensures Depth([c] + t) == Depth([c]) + Depth(t)
  {
    assert multiset([c] + t) == multiset([c]) + multiset(t);
  }

  /** Starting at depth d, no prefix of s brings the depth below 1. */
  predicate StaysOpen(d: int, s: string)
    decreases |s|
  {
    s == [] || (d + Delta(s[0]) >= 1 && StaysOpen(d + Delta(s[0]), s[1..]))
  }

  /** The prefix form of the same condition gives the recursive form. */
  lemma {:induction false} PrefixesStayOpen(d: int, s: string)
    requires forall k :: 0 <= k <= |s| ==> d + Depth(s[..k]) >= 1
    ensures StaysOpen(d, s)
    decreases |s|
  {
    if s != [] {
      var c, rest := s[0], s[1..];
      assert s[..1] == [c];
      forall k | 0 <= k <= |rest| ensures d + Delta(c) + Depth(rest[..k]) >= 1 {
        assert s[..k + 1] == [c] + rest[..k];
        DepthCons(c, rest[..k]);
      }
      PrefixesStayOpen(d + Delta(c), rest);
    }
  }

  /** What the first character of a capture contributes to the buffer and the depth. */
  lemma {:induction false} CaptureCons(token: string, s: string)
    requires s != []
    ensures token + UpperAll(s) == (token + [Upper(s[0])]) + UpperAll(s[1..])
    ensures Depth(s) == Delta(s[0]) + Depth(s[1..])
  {
    BufferCons(token, s);
    DepthFirst(s);
  }

  /** Upper-casing a non-empty text starts with its first character upper-cased. */
  lemma {:induction false} BufferCons(token: string, s: string)
    requires s != []
    ensures token + UpperAll(s) == (token + [Upper(s[0])]) + UpperAll(s[1..])
  {
    var u := UpperAll(s[1..]);
    assert UpperAll(s) == [Upper(s[0])] + u;
    AppendAssoc(token, [Upper(s[0])], u);
  }

  /** Concatenation is associative. */
  lemma {:induction false} AppendAssoc<T>(a: seq<T>, b: seq<T>, c: seq<T>)
    ensures a + (b + c) == (a + b) + c
  {
  }

  /** The depth of a non-empty text is its first character's change plus the rest's depth. */
  lemma {:induction false} DepthFirst(s: string)
    requires s != []
    ensures Depth(s) == Delta(s[0]) + Depth(s[1..])
  {
    assert s == [s[0]] + s[1..];
    DepthCons(s[0], s[1..]);
  }

  /**
   * Inside a capture, characters that never bring the depth to zero are
   * stored upper-cased and only move the depth counter.
   */
  lemma {:induction false} RunCapture(st: State, s: string, pos: nat)
    requires Ready(st) && (st.mode == Paren || st.mode == FunctionArgs)
    requires StaysOpen(st.depth, s)
    ensures Run(st, s, pos) == Ok(st.(token := st.token + UpperAll(s), depth := st.depth + Depth(s)))
  {
    RunCaptureTo(st, s, pos, st.token + UpperAll(s), st.depth + Depth(s));
  }

  /** RunCapture with the final buffer and depth named, by induction on s. */
  lemma {:induction false} RunCaptureTo(st: State, s: string, pos: nat, tok: string, dep: int)
    requires Ready(st) && (st.mode == Paren || st.mode == FunctionArgs)
    requires StaysOpen(st.depth, s)
    requires tok == st.token + UpperAll(s) && dep == st.depth + Depth(s)
    ensures Run(st, s, pos) == Ok(st.(token := tok, depth := dep))
    decreases |s|
  {
    if s == [] {
      assert multiset(s) == multiset{};
      assert st.(token := tok, depth := dep) == st;
    } else {
      var next := st.(token := st.token + [Upper(s[0])], depth := st.depth + Delta(s[0]));
      var fin := st.(token := tok, depth := dep);
      StepCapture(st, s[0], pos);
      CaptureCons(st.token, s);
      RunCaptureTo(next, s[1..], pos + 1, tok, dep);
      assert next.(token := tok, depth := dep) == fin;
      RunCons(st, s, pos, next, fin);
    }
  }

  /** Digits extend a number. */
  lemma {:induction false} RunDigits(st: State, d: string, pos: nat)
    requires Ready(st) && st.mode == Number
    requires forall k :: 0 <= k < |d| ==> IsDigit(d[k])
    ensures Run(st, d, pos) == Ok(st.(token := st.token + d))
    decreases |d|
  {
    if d == [] {
      assert st.token + d == st.token;
    } else {
      StepNumberDigit(st, d[0], pos);
      RunDigits(st.(token := st.token + [d[0]]), d[1..], pos + 1);
      assert st.token + [d[0]] + d[1..] == st.token + d;
    }
  }

  /** Letters and digits extend a function name while the name stays a catalog prefix. */
  lemma {:induction false} RunName(st: State, s: string, pos: nat)
    requires Ready(st) && st.mode == FunctionName
    requires forall k :: 0 <= k < |s| ==> IsLetter(s[k]) || IsDigit(s[k])
    requires AnyStarts(st.token + UpperAll(s))
    ensures Run(st, s, pos) == Ok(st.(token := st.token + UpperAll(s)))
    decreases |s|
  {
    if s == [] {
      assert st.token + UpperAll(s) == st.token;
    } else {
      var c, rest := s[0], s[1..];
      CaptureCons(st.token, s);
      AnyStartsPrefixClosed(st.token + [Upper(c)], UpperAll(rest));
      var next := st.(token := st.token + [Upper(c)]);
      StepNameChar(st, c, pos);
      RunStep(st, s, pos, next);
      RunName(next, rest, pos + 1);
      var r := next.(token := next.token + UpperAll(rest));
      assert Run(next, rest, pos + 1) == Ok(r);
      assert r == st.(token := st.token + UpperAll(s));
      assert Run(st, s, pos) == Ok(r);
    }
  }

  /** A run of digits where an operand is expected is a number. */
  lemma {:induction false} RunNumber(st: State, d: string, pos: nat)
    requires st.mode == OperandStart && st.token == [] && d != []
    requires forall k :: 0 <= k < |d| ==> IsDigit(d[k])
    ensures Run(st, d, pos) == Ok(st.(mode := Number, token := d))
  {
    var first := st.(mode := Number, token := [d[0]]);
    AppendToEmpty(d[0]);
    StepStartNumber(st, d[0], pos);
    RunOne(st, d[0], pos);
    RunDigits(first, d[1..], pos + 1);
    assert [d[0]] + d[1..] == d;
    RunThen(st, [d[0]], d[1..], pos, first, st.(mode := Number, token := d));
  }

  /** Appending to an empty list. */
  lemma {:induction false} AppendToEmpty<T>(x: T)
    ensures [] + [x] == [x]
  {
  }

  /** Digits contain no '.', no exponent marker and no parenthesis. */
  lemma {:induction false} DigitsOnly(d: string)
    requires forall k :: 0 <= k < |d| ==> IsDigit(d[k])
    ensures '.' !in d && 'e' !in d && 'E' !in d && ')' !in d
  {
    forall k | 0 <= k < |d| ensures d[k] != '.' && d[k] != 'e' && d[k] != 'E' && d[k] != ')' {
      assert IsDigit(d[k]);
    }
  }

  /** '.' and digits extend a number that has neither a '.' nor an exponent. */
  lemma {:induction false} RunFraction(st: State, b: string, pos: nat)
    requires Ready(st) && st.mode == Number
    requires '.' !in st.token && 'e' !in st.token && 'E' !in st.token
    requires forall k :: 0 <= k < |b| ==> IsDigit(b[k])
    ensures Run(st, "." + b, pos) == Ok(st.(token := st.token + "." + b))
  {
    var dot := st.(token := st.token + ".");
    StepNumberDot(st, pos);
    RunOne(st, '.', pos);
    RunDigits(dot, b, pos + 1);
    RunThen(st, ".", b, pos, dot, st.(token := st.token + "." + b));
  }

  /** An exponent marker not yet in the number, then digits: stored as 'E' and the digits. */
  lemma {:induction false} RunExponent(st: State, c: char, x: string, pos: nat)
    requires Ready(st) && st.mode == Number && (c == 'e' || c == 'E') && c !in st.token
    requires forall k :: 0 <= k < |x| ==> IsDigit(x[k])
    ensures Run(st, [c] + x, pos) == Ok(st.(token := st.token + "E" + x))
  {
    var marked := st.(token := st.token + "E");
    StepNumberExponent(st, c, pos);
    RunOne(st, c, pos);
    RunDigits(marked, x, pos + 1);
    RunThen(st, [c], x, pos, marked, st.(token := st.token + "E" + x));
  }

  /** An exponent marker, a sign and digits: stored as 'E', the sign and the digits. */
  lemma {:induction false} RunSignedExponent(st: State, sign: char, x: string, pos: nat)
    requires Ready(st) && st.mode == Number && 'e' !in st.token && (sign == '+' || sign == '-')
    requires forall k :: 0 <= k < |x| ==> IsDigit(x[k])
    ensures Run(st, "e" + [sign] + x, pos) == Ok(st.(token := st.token + "E" + [sign] + x))
  {
    var marked := st.(token := st.token + "E");
    var signed := st.(token := st.token + "E" + [sign]);
    StepNumberExponent(st, 'e', pos);
    RunOne(st, 'e', pos);
    StepNumberSignAfterExponent(marked, sign, pos + 1);
    RunThenStep(st, "e", sign, pos, marked, signed);
    RunDigits(signed, x, pos + 2);
    RunThen(st, "e" + [sign], x, pos, signed, st.(token := st.token + "E" + [sign] + x));
  }

  /** A digit run and an operator symbol, where an operand is expected. */
  lemma {:induction false} RunNumberOperator(st: State, a: string, op: char, pos: nat)
    requires st.mode == OperandStart && st.token == []
    requires a != [] && forall k :: 0 <= k < |a| ==> IsDigit(a[k])
    requires IsOperatorSymbol(op)
    ensures Run(st, a + [op], pos) ==
            Ok(st.(operands := st.operands + [NumTok(a)], operators := st.operators + [OperatorOf(op)]))
  {
    var s1 := st.(mode := Number, token := a);
    RunNumber(st, a, pos);
    StepNumberOperator(s1, op, pos + |a|);
    RunThenStep(st, a, op, pos, s1, SaveOperator(SaveNumber(s1), op));
  }

  /** Two digit runs around an operator symbol, where an operand is expected. */
  lemma {:induction false} RunBinary(st: State, a: string, op: char, b: string, pos: nat)
    requires st.mode == OperandStart && st.token == []
    requires a != [] && forall k :: 0 <= k < |a| ==> IsDigit(a[k])
    requires b != [] && forall k :: 0 <= k < |b| ==> IsDigit(b[k])
    requires IsOperatorSymbol(op)
    ensures Run(st, a + [op] + b, pos) ==
            Ok(st.(mode := Number, operands := st.operands + [NumTok(a)], operators := st.operators + [OperatorOf(op)], token := b))
  {
    var p := a + [op];
    var s2 := st.(operands := st.operands + [NumTok(a)], operators := st.operators + [OperatorOf(op)]);
    RunNumberOperator(st, a, op, pos);
    RunNumber(s2, b, pos + |p|);
    RunThen(st, p, b, pos, s2, s2.(mode := Number, token := b));
  }

  /** A '(' where an operand is expected, then text that keeps it open. */
  lemma {:induction false} RunOpenCapture(st: State, s: string, pos: nat)
    requires st.mode == OperandStart && StaysOpen(1, s)
    ensures Run(st, "(" + s, pos) ==
            Ok(st.(mode := Paren, depth := 1 + Depth(s), token := st.token + UpperAll(s)))
  {
    var open := StartParenthesis(st);
    StepOpen(st, pos);
    RunOne(st, '(', pos);
    RunCapture(open, s, pos + 1);
    RunThen(st, "(", s, pos, open, st.(mode := Paren, depth := 1 + Depth(s), token := st.token + UpperAll(s)));
  }

  /** A catalog-prefix name where an operand is expected. */
  lemma {:induction false} RunFunctionName(st: State, name: string, pos: nat)
    requires st.mode == OperandStart && st.token == []
    requires name != [] && IsLetter(name[0])
    requires forall k :: 0 <= k < |name| ==> IsLetter(name[k]) || IsDigit(name[k])
    requires AnyStarts(UpperAll(name))
    ensures Run(st, name, pos) == Ok(st.(mode := FunctionName, token := UpperAll(name)))
  {
    var c, rest := name[0], name[1..];
    var first := st.(mode := FunctionName, token := [Upper(c)]);
    assert UpperAll(name) == [Upper(c)] + UpperAll(rest);
    AnyStartsPrefixClosed([Upper(c)], UpperAll(rest));
    StepStartFunction(st, c, pos);
    AppendToEmpty(Upper(c));
    assert StartFunction(st, c) == first;
    RunName(first, rest, pos + 1);
    RunCons(st, name, pos, first, st.(mode := FunctionName, token := UpperAll(name)));
  }

  /** A function name, '(' and an argument text that keeps the list open. */
  lemma {:induction false} RunOpenArgs(st: State, name: string, args: string, pos: nat)
    requires st.mode == OperandStart && st.token == []
    requires name != [] && IsLetter(name[0])
    requires forall k :: 0 <= k < |name| ==> IsLetter(name[k]) || IsDigit(name[k])
    requires AnyStarts(UpperAll(name)) && StaysOpen(1, args)
    ensures Run(st, name + "(" + args, pos) ==
            Ok(st.(mode := FunctionArgs, depth := 1 + Depth(args), token := UpperAll(args), pending := Some(UpperAll(name))))
  {
    var p := name + "(";
    var inArgs := st.(mode := FunctionArgs, depth := 1, token := [], pending := Some(UpperAll(name)));
    var end := pos + |p|;
    RunNameOpen(st, name, pos);
    RunCapture(inArgs, args, end);
    RunAppend(st, p, args, pos, inArgs, end);
    assert [] + UpperAll(args) == UpperAll(args);
  }

  /** A function name and its '(' open the argument list of that function. */
  lemma {:induction false} RunNameOpen(st: State, name: string, pos: nat)
    requires st.mode == OperandStart && st.token == []
    requires name != [] && IsLetter(name[0])
    requires forall k :: 0 <= k < |name| ==> IsLetter(name[k]) || IsDigit(name[k])
    requires AnyStarts(UpperAll(name))
    ensures Run(st, name + "(", pos) ==
            Ok(st.(mode := FunctionArgs, depth := 1, token := [], pending := Some(UpperAll(name))))
  {
    var named := st.(mode := FunctionName, token := UpperAll(name));
    RunFunctionName(st, name, pos);
    StepNameOpen(named, pos + |name|);
    assert SaveFunctionName(named) == st.(mode := FunctionArgs, depth := 1, token := [], pending := Some(UpperAll(name)));
    RunThenStep(st, name, '(', pos, named, SaveFunctionName(named));
  }

  // ---------------------------------------------------------------------
  // Whole scans

  /** A scan that ends in st tokenizes to what the end-of-input switch makes of st. */
  lemma {:induction false} TokenizeOk(content: string, st: State)
    requires Run(Initial, content, 0) == Ok(st)
    ensures Inv(st) && Tokenize(content) == Finish(st)
  {
    RunKeepsInv(Initial, content, 0);
  }

  /** A scan that fails tokenizes to its error. */
  lemma {:induction false} TokenizeErr(content: string, e: Error)
    requires Run(Initial, content, 0) == Err(e)
    ensures Tokenize(content) == Err(e)
  {
  }

  /**
   * A parenthesised text: the captured operand is the upper-cased text
   * strictly between the opening '(' and its matching ')'.
   */
  lemma {:induction false} TokenizeParenthesised(s: string)
    requires s != [] && Balanced(s)
    ensures Tokenize("(" + s + ")") == Ok(Tokens([SubTok(UpperAll(s))], []))
  {
    var up := UpperAll(s);
    var done := State(PostClose, 0, [SubTok(up)], [], [], None);
    RunParenthesised(Initial, s, 0);
    AppendToEmpty(SubTok(up));
    assert Initial.(mode := PostClose, depth := 0, operands := Initial.operands + [SubTok(up)], token := []) == done;
    TokenizeOk("(" + s + ")", done);
  }

  /** A non-empty balanced text in parentheses, where an operand is expected, is one captured operand. */
  lemma {:induction false} RunParenthesised(st: State, s: string, pos: nat)
    requires st.mode == OperandStart && st.token == [] && s != [] && Balanced(s)
    ensures Run(st, "(" + s + ")", pos) ==
            Ok(st.(mode := PostClose, depth := 0, operands := st.operands + [SubTok(UpperAll(s))], token := []))
  {
    var p := "(" + s;
    var up := UpperAll(s);
    PrefixesStayOpen(1, s);
    RunOpenCapture(st, s, pos);
    var full := st.(mode := Paren, depth := 1 + Depth(s), token := st.token + up);
    assert full.token == up && up != [];
    var end := pos + |p|;
    StepSaveParen(full, end);
    RunThenStep(st, p, ')', pos, full, st.(mode := PostClose, depth := 0, operands := st.operands + [SubTok(up)], token := []));
  }

  /** The ')' that closes a non-empty parenthesis saves its text as an operand. */
  lemma {:induction false} StepSaveParen(st: State, i: nat)
    requires st.mode == Paren && st.depth == 1 && st.token != []
    ensures Step(st, ')', i) ==
            Ok(st.(mode := PostClose, depth := 0, operands := st.operands + [SubTok(st.token)], token := []))
  {
  }

  /** An empty parenthesis is refused at its closing ')'. */
  lemma {:induction false} TokenizeEmptyParenthesis()
    ensures Tokenize("()") == Err(Unexpected(NoInfo, ')', 1))
  {
    var open := StartParenthesis(Initial);
    StepOpen(Initial, 0);
    RunOne(Initial, '(', 0);
    StepCloseParen(open, 1);
    RunThenErr(Initial, "(", ')', [], 0, open, Unexpected(NoInfo, ')', 1));
    assert "()" == "(" + [')'] + [];
    TokenizeErr("()", Unexpected(NoInfo, ')', 1));
  }

  /**
   * A function call: a letter followed by letters and digits that spell
   * a prefix of a catalog name, then a balanced argument text (possibly
   * empty) in parentheses, gives one function operand.
   */
  lemma {:induction false} TokenizeFunctionCall(name: string, args: string)
    requires name != [] && IsLetter(name[0])
    requires forall k :: 0 <= k < |name| ==> IsLetter(name[k]) || IsDigit(name[k])
    requires AnyStarts(UpperAll(name)) && Balanced(args)
    ensures Tokenize(name + "(" + args + ")") == Ok(Tokens([FuncTok(UpperAll(name), UpperAll(args))], []))
  {
    PrefixesStayOpen(1, args);
    RunOpenArgs(Initial, name, args, 0);
    var captured := State(FunctionArgs, 1, [], [], UpperAll(args), Some(UpperAll(name)));
    var done := State(PostClose, 0, [FuncTok(UpperAll(name), UpperAll(args))], [], [], None);
    StepCloseArgs(captured, |name| + 1 + |args|);
    AppendToEmpty(FuncTok(UpperAll(name), UpperAll(args)));
    RunThenStep(Initial, name + "(" + args, ')', 0, captured, done);
    TokenizeOk(name + "(" + args + ")", done);
  }

  /** A run of digits is one number operand. */
  lemma {:induction false} TokenizeInteger(d: string)
    requires d != [] && forall k :: 0 <= k < |d| ==> IsDigit(d[k])
    ensures Tokenize(d) == Ok(Tokens([NumTok(d)], []))
  {
    RunNumber(Initial, d, 0);
    TokenizeOk(d, State(Number, 0, [], [], d, None));
    AppendToEmpty(NumTok(d));
  }

  /**
   * A number with a fraction and a signed lowercase exponent,
   * a.b e±x, is one number operand, stored upper-cased.
   */
  lemma {:induction false} TokenizeScientific(a: string, b: string, sign: char, x: string)
    requires a != [] && forall k :: 0 <= k < |a| ==> IsDigit(a[k])
    requires forall k :: 0 <= k < |b| ==> IsDigit(b[k])
    requires forall k :: 0 <= k < |x| ==> IsDigit(x[k])
    requires sign == '+' || sign == '-'
    ensures Tokenize(a + "." + b + "e" + [sign] + x) == Ok(Tokens([NumTok(a + "." + b + "E" + [sign] + x)], []))
  {
    var s1 := Initial.(mode := Number, token := a);
    var rest := "." + b + ("e" + [sign] + x);
    var s3 := s1.(token := s1.token + "." + b + "E" + [sign] + x);
    DigitsOnly(a);
    RunNumber(Initial, a, 0);
    RunFractionExponent(s1, b, sign, x, 0 + |a|);
    RunThen(Initial, a, rest, 0, s1, s3);
    var input := a + "." + b + "e" + [sign] + x;
    ScientificShape(a, b, sign, x);
    TokenizeOk(input, s3);
    AppendToEmpty(NumTok(a + "." + b + "E" + [sign] + x));
  }

  /** The scientific input, regrouped around its leading digits. */
  lemma {:induction false} ScientificShape(a: string, b: string, sign: char, x: string)
    ensures a + "." + b + "e" + [sign] + x == a + ("." + b + ("e" + [sign] + x))
  {
  }

  /** A fraction and then a signed lowercase exponent extend a plain number. */
  lemma {:induction false} RunFractionExponent(st: State, b: string, sign: char, x: string, pos: nat)
    requires Ready(st) && st.mode == Number
    requires '.' !in st.token && 'e' !in st.token && 'E' !in st.token
    requires forall k :: 0 <= k < |b| ==> IsDigit(b[k])
    requires forall k :: 0 <= k < |x| ==> IsDigit(x[k])
    requires sign == '+' || sign == '-'
    ensures Run(st, "." + b + ("e" + [sign] + x), pos) == Ok(st.(token := st.token + "." + b + "E" + [sign] + x))
  {
    var s2 := st.(token := st.token + "." + b);
    var s3 := s2.(token := s2.token + "E" + [sign] + x);
    RunFraction(st, b, pos);
    DigitsOnly(b);
    assert 'e' !in s2.token;
    RunSignedExponent(s2, sign, x, pos + |"." + b|);
    RunThen(st, "." + b, "e" + [sign] + x, pos, s2, s3);
  }

  /** Two digit runs around an operator symbol: two numbers and that operator. */
  lemma {:induction false} TokenizeBinary(a: string, op: char, b: string)
    requires a != [] && forall k :: 0 <= k < |a| ==> IsDigit(a[k])
    requires b != [] && forall k :: 0 <= k < |b| ==> IsDigit(b[k])
    requires IsOperatorSymbol(op)
    ensures Tokenize(a + [op] + b) == Ok(Tokens([NumTok(a), NumTok(b)], [OperatorOf(op)]))
  {
    var s3 := State(Number, 0, [NumTok(a)], [OperatorOf(op)], b, None);
    RunBinary(Initial, a, op, b, 0);
    AppendToEmpty(NumTok(a));
    AppendToEmpty(OperatorOf(op));
    assert Initial.(mode := Number, operands := Initial.operands + [NumTok(a)],
                    operators := Initial.operators + [OperatorOf(op)], token := b) == s3;
    TokenizeOk(a + [op] + b, s3);
    assert [NumTok(a)] + [NumTok(b)] == [NumTok(a), NumTok(b)];
  }

  // ---------------------------------------------------------------------
  // End of input and the parenthesis checks

  /**
   * The depth check after the end-of-input switch can never fail: only the
   * Number and PostClose modes pass the switch, and in both the depth is 0.
   */
  lemma {:induction false} MismatchCheckUnreachable(st: State)
    requires Inv(st)
    ensures Finish(st) != Err(ParenthesisMismatch)
    ensures st.mode == Number || st.mode == PostClose ==> st.depth == 0 && CheckDepth(st).Ok?
  {
  }

  /** A ')' after two numbers and an operator has nothing to close and is refused where it occurs. */
  lemma {:induction false} TokenizeUnmatchedClose(a: string, op: char, b: string)
    requires a != [] && forall k :: 0 <= k < |a| ==> IsDigit(a[k])
    requires b != [] && forall k :: 0 <= k < |b| ==> IsDigit(b[k])
    requires IsOperatorSymbol(op)
    ensures Tokenize(a + [op] + b + ")") == Err(Unexpected(NoInfo, ')', |a| + 1 + |b|))
  {
    var s3 := State(Number, 0, [NumTok(a)], [OperatorOf(op)], b, None);
    RunBinary(Initial, a, op, b, 0);
    AppendToEmpty(NumTok(a));
    AppendToEmpty(OperatorOf(op));
    assert Initial.(mode := Number, operands := Initial.operands + [NumTok(a)],
                    operators := Initial.operators + [OperatorOf(op)], token := b) == s3;
    StepNumberClose(s3, |a| + 1 + |b|);
    RunThenErr(Initial, a + [op] + b, ')', [], 0, s3, Unexpected(NoInfo, ')', |a| + 1 + |b|));
    assert a + [op] + b + ")" == a + [op] + b + [')'] + [];
    TokenizeErr(a + [op] + b + ")", Unexpected(NoInfo, ')', |a| + 1 + |b|));
  }

  /** An input that opens a parenthesis and never closes it is refused as unclosed. */
  lemma {:induction false} TokenizeUnclosed(s: string)
    requires PrefixesNonNeg(s)
    ensures Tokenize("(" + s) == Err(UnclosedParenthesis)
  {
    PrefixesStayOpen(1, s);
    RunOpenCapture(Initial, s, 0);
    assert [] + UpperAll(s) == UpperAll(s);
    TokenizeOk("(" + s, State(Paren, 1 + Depth(s), [], [], UpperAll(s), None));
  }

  /**
   * Repeated lowercase exponent markers are all accepted: the number is
   * stored with two 'E's.
   */
  lemma {:induction false} TokenizeRepeatedLowerExponent(d1: string, d2: string, d3: string)
    requires d1 != [] && forall k :: 0 <= k < |d1| ==> IsDigit(d1[k])
    requires forall k :: 0 <= k < |d2| ==> IsDigit(d2[k])
    requires forall k :: 0 <= k < |d3| ==> IsDigit(d3[k])
    ensures Tokenize(d1 + "e" + d2 + "e" + d3) == Ok(Tokens([NumTok(d1 + "E" + d2 + "E" + d3)], []))
  {
    var s1 := Initial.(mode := Number, token := d1);
    var rest := "e" + d2 + ("e" + d3);
    var s3 := s1.(token := s1.token + "E" + d2 + "E" + d3);
    DigitsOnly(d1);
    RunNumber(Initial, d1, 0);
    RunTwoLowerExponents(s1, d2, d3, 0 + |d1|);
    RunThen(Initial, d1, rest, 0, s1, s3);
    var input := d1 + "e" + d2 + "e" + d3;
    ExponentsShape(d1, 'e', d2, d3);
    TokenizeOk(input, s3);
    AppendToEmpty(NumTok(d1 + "E" + d2 + "E" + d3));
  }

  /** Two exponent-marked digit runs after a number, regrouped around the number. */
  lemma {:induction false} ExponentsShape(d1: string, c: char, d2: string, d3: string)
    ensures d1 + [c] + d2 + [c] + d3 == d1 + ([c] + d2 + ([c] + d3))
  {
  }

  /** Two lowercase exponent markers, each followed by digits, extend a number without one. */
  lemma {:induction false} RunTwoLowerExponents(st: State, d2: string, d3: string, pos: nat)
    requires Ready(st) && st.mode == Number && 'e' !in st.token
    requires forall k :: 0 <= k < |d2| ==> IsDigit(d2[k])
    requires forall k :: 0 <= k < |d3| ==> IsDigit(d3[k])
    ensures Run(st, "e" + d2 + ("e" + d3), pos) == Ok(st.(token := st.token + "E" + d2 + "E" + d3))
  {
    var s2 := st.(token := st.token + "E" + d2);
    var s3 := s2.(token := s2.token + "E" + d3);
    RunExponent(st, 'e', d2, pos);
    DigitsOnly(d2);
    assert 'e' !in s2.token;
    RunExponent(s2, 'e', d3, pos + |"e" + d2|);
    RunThen(st, "e" + d2, "e" + d3, pos, s2, s3);
  }

  /** A second upper-case exponent marker is refused where it occurs. */
  lemma {:induction false} TokenizeRepeatedUpperExponent(d1: string, d2: string, d3: string)
    requires d1 != [] && forall k :: 0 <= k < |d1| ==> IsDigit(d1[k])
    requires forall k :: 0 <= k < |d2| ==> IsDigit(d2[k])
    requires forall k :: 0 <= k < |d3| ==> IsDigit(d3[k])
    ensures Tokenize(d1 + "E" + d2 + "E" + d3) == Err(Unexpected(NumberWronglyFormatted, 'E', |d1| + 1 + |d2|))
  {
    var s1 := Initial.(mode := Number, token := d1);
    var e := Unexpected(NumberWronglyFormatted, 'E', 0 + |d1| + 1 + |d2|);
    DigitsOnly(d1);
    RunNumber(Initial, d1, 0);
    RunUpperExponentAgain(s1, d2, d3, 0 + |d1|);
    RunAppend(Initial, d1, "E" + d2 + ("E" + d3), 0, s1, 0 + |d1|);
    ExponentsShape(d1, 'E', d2, d3);
    TokenizeErr(d1 + "E" + d2 + "E" + d3, e);
  }

  /** After an upper-case exponent marker and digits, a second 'E' is refused where it occurs. */
  lemma {:induction false} RunUpperExponentAgain(st: State, d2: string, d3: string, pos: nat)
    requires Ready(st) && st.mode == Number && 'E' !in st.token
    requires forall k :: 0 <= k < |d2| ==> IsDigit(d2[k])
    ensures Run(st, "E" + d2 + ("E" + d3), pos) == Err(Unexpected(NumberWronglyFormatted, 'E', pos + 1 + |d2|))
  {
    var s2 := st.(token := st.token + "E" + d2);
    RunExponent(st, 'E', d2, pos);
    assert 'E' in s2.token by {
      assert s2.token[|st.token|] == 'E';
    }
    StepNumberExponentAgain(s2, 'E', pos + |"E" + d2|);
    RunThenErr(st, "E" + d2, 'E', d3, pos, s2, Unexpected(NumberWronglyFormatted, 'E', pos + 1 + |d2|));
    AppendAssoc("E" + d2, "E", d3);
  }
}
