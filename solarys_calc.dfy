/**
 * The class RawText: a text that is parsed, on first demand, into the
 * operand and operator lists of an infix expression, which are then
 * reduced to a value that is remembered. The fields and helpers follow
 * RawText.java; every method is proved to do what the function of the
 * same name in module Tokenizer says.
 */
module SolarysCalc {
  import opened Wrappers
  import opened Chars
  import opened InfixParser
  import opened Tokenizer
  import TokenizerProperties

  /**
   * new Expression(operands, operators, calc).getValue(): the reduction
   * of the two lists to a number, None where it raises.
   */
  type Reducer = (seq<Operand>, seq<Operator>) -> Option<real>

  /** The reduction applied to a scan: its error, or the reduced value, or ReductionFailed. */
  function Reduction(t: Result<Tokens, Error>, reduce: Reducer): (r: Result<real, Error>)
    ensures r.Ok? <==> t.Ok? && reduce(t.value.operands, t.value.operators).Some?
    ensures r.Ok? ==> reduce(t.value.operands, t.value.operators) == Some(r.value)
    ensures t.Err? ==> r == Err(t.error)
    ensures t.Ok? && r.Err? ==> r.error == ReductionFailed
  {
    match t
    case Err(e) => Err(e)
    case Ok(tokens) =>
      match reduce(tokens.operands, tokens.operators)
      case None => Err(ReductionFailed)
      case Some(v) => Ok(v)
  }

  /** What getValue computes for a content string: its scan, then its reduction. */
  function Evaluate(content: string, reduce: Reducer): (r: Result<real, Error>)
    ensures r.Ok? ==> Tokenize(content).Ok?
    ensures r.Ok? ==> reduce(Tokenize(content).value.operands, Tokenize(content).value.operators) == Some(r.value)
    ensures r == Err(ReductionFailed) <==>
              Tokenize(content).Ok? && reduce(Tokenize(content).value.operands, Tokenize(content).value.operators).None?
    ensures r.Err? && r.error.Unexpected? ==> r.error.pos < |content| && content[r.error.pos] == r.error.c
    ensures r.Err? && r.error.NoSuchFunction? ==> r.error.pos < |content|
    ensures r != Err(ParenthesisMismatch)
  {
    Reduction(Tokenize(content), reduce)
  }

  /** A method's outcome agrees with the step function: the new state, or the exception it raises. */
  predicate Agrees(r: Result<State, Error>, err: Option<Error>, now: State) {
    match r
    case Ok(next) => err == None && now == next
    case Err(e) => err == Some(e)
  }

  class RawText {
    /** The text with its whitespace removed. */
    const content: string
    /** The reduction the Calculator performs. */
    const reduce: Reducer
    /** Operator.functionNames, filled by Operator's static initialiser. */
    const functionNames: seq<string>
    /** The remembered value; None stands for null. */
    var value: Option<real>

    var operands: seq<Operand>
    var operators: seq<Operator>
    /** currentTokenList and currentTokenStr, which always hold the same characters. */
    var token: string
    var lastAdded: Mode
    var openParenthesis: int
    /** The name of currentFunction while its argument list is read; None stands for null. */
    var currentFunction: Option<string>

    /** The parser fields as one value of the step function's state type. */
    function Snapshot(): State
      reads this
    {
      State(lastAdded, openParenthesis, operands, operators, token, currentFunction)
    }

    /** The remembered value, once there is one, is what the content evaluates to. */
    ghost predicate Valid()
      reads this
    {
      IsFunctionNames(functionNames) && (value.Some? ==> Evaluate(content, reduce) == Ok(value.value))
    }

    constructor(text: string, reduce: Reducer)
      ensures content == StripWhitespace(text) && this.reduce == reduce && value == None
      ensures Valid()
    {
      content := StripWhitespace(text);
      this.reduce := reduce;
      var names := BuildFunctionNames(Values);
      functionNames := names;
      value := None;
    }

    /** getValue: parse on first demand, then answer the remembered value. */
    method GetValue() returns (r: Result<real, Error>)
      requires Valid()
      modifies this
      ensures Valid()
      ensures r == Evaluate(content, reduce)
      ensures old(value).Some? ==> r == Ok(old(value).value) && unchanged(this)
      ensures r.Ok? ==> value == Some(r.value)
    {
      if value.None? {
        r := Parse();
      } else {
        r := Ok(value.value);
      }
    }

    /**
     * parse: reset the fields (the pending function too, which the source
     * leaves as it was), interpret every character, run the end-of-input
     * switch and the depth check, then reduce.
     */
    method Parse() returns (r: Result<real, Error>)
      requires IsFunctionNames(functionNames)
      modifies this
      ensures r == Evaluate(content, reduce)
      ensures r.Ok? ==> value == Some(r.value)
      ensures r.Err? ==> value == old(value)
    {
      operands := [];
      operators := [];
      token := [];
      lastAdded := OperandStart;
      openParenthesis := 0;
      currentFunction := None;
      assert Snapshot() == Initial;
      var i := 0;
      while i < |content|
        invariant 0 <= i <= |content|
        invariant Ready(Snapshot())
        invariant Run(Snapshot(), content[i..], i) == Run(Initial, content, 0)
        invariant value == old(value)
      {
        ghost var before := Snapshot();
        TokenizerProperties.RunAt(before, content, i);
        var err := Interpret(content[i], i);
        if err.Some? {
          return Err(err.value);
        }
        i := i + 1;
      }
      assert content[i..] == [];
      r := EndOfInput();
    }

    /**
     * The end of parse: the switch on lastAdded, the check that every
     * parenthesis was closed, and the reduction, whose value is remembered.
     */
    method EndOfInput() returns (r: Result<real, Error>)
      modifies this
      ensures r == Reduction(Finish(old(Snapshot())), reduce)
      ensures r.Ok? ==> value == Some(r.value)
      ensures r.Err? ==> value == old(value)
    {
      match lastAdded {
        case Number =>
          SaveNumber();
        case FunctionName =>
          return Err(UnexpectedEnd);
        case OperandStart =>
          return Err(UnexpectedEnd);
        case Paren =>
          return Err(UnclosedParenthesis);
        case FunctionArgs =>
          return Err(UnclosedParenthesis);
        case PostClose =>
          // no action needed
      }
      if openParenthesis != 0 {
        return Err(ParenthesisMismatch);
      }
      var v := reduce(operands, operators);
      if v.None? {
        return Err(ReductionFailed);
      }
      value := v;
      return Ok(v.value);
    }

    /** interpret(c, i): the switch on lastAdded. */
    method Interpret(c: char, i: nat) returns (err: Option<Error>)
      requires IsFunctionNames(functionNames) && Ready(Snapshot())
      modifies this
      ensures Agrees(Step(old(Snapshot()), c, i), err, Snapshot())
      ensures value == old(value)
    {
      match lastAdded
      case Number =>
        err := InterpretNumber(c, i);
      case FunctionName =>
        err := InterpretFunctionName(c, i);
      case OperandStart =>
        err := InterpretOperandStart(c, i);
      case Paren =>
        err := InterpretCapture(c, i);
      case FunctionArgs =>
        err := InterpretCapture(c, i);
      case PostClose =>
        err := InterpretPostClose(c, i);
    }

    /** Case 0 of interpret: inside a number literal. */
    method InterpretNumber(c: char, i: nat) returns (err: Option<Error>)
      requires lastAdded == Number && token != []
      modifies this
      ensures Agrees(InNumber(old(Snapshot()), c, i), err, Snapshot())
      ensures value == old(value)
    {
      err := None;
      if IsDigit(c) {
        AddChar(c);
      } else if c == '.' {
        if '.' in token || 'e' in token || 'E' in token {
          err := Some(Unexpected(NumberWronglyFormatted, c, i));
        } else {
          AddChar(c);
        }
      } else if c == 'E' || c == 'e' {
        if c in token {
          err := Some(Unexpected(NumberWronglyFormatted, c, i));
        } else {
          AddChar(c);
        }
      } else if c == '+' || c == '-' {
        if token[|token| - 1] == 'e' || token[|token| - 1] == 'E' {
          AddChar(c);
        } else {
          SaveNumber();
          SaveOperator(c);
        }
      } else if c == '(' {
        err := Some(Unexpected(NumberEndedAbruptly, c, i));
      } else if IsStrongOperatorSymbol(c) {
        SaveNumber();
        SaveOperator(c);
      } else if IsLetter(c) {
        err := Some(Unexpected(NumberWronglyFormatted, c, i));
      } else {
        err := Some(Unexpected(NoInfo, c, i));
      }
    }

    /** Case 1 of interpret: inside a function name. */
    method InterpretFunctionName(c: char, i: nat) returns (err: Option<Error>)
      requires IsFunctionNames(functionNames) && lastAdded == FunctionName
      modifies this
      ensures Agrees(InFunctionName(old(Snapshot()), c, i), err, Snapshot())
      ensures value == old(value)
    {
      err := None;
      if IsDigit(c) || IsLetter(c) {
        var candidate := token + [Upper(c)];
        var known := AnyStartsSearch(functionNames, candidate);
        AnyStartsIn(functionNames, candidate);
        if known {
          AddChar(c);
        } else {
          err := Some(NoSuchFunction(i));
        }
      } else if c == '(' {
        SaveFunctionName();
      } else if c == '.' {
        err := Some(Unexpected(DotInFunctionName, c, i));
      } else if IsOperatorSymbol(c) {
        err := Some(Unexpected(FunctionNeedsArguments, c, i));
      } else {
        err := Some(Unexpected(NoInfo, c, i));
      }
    }

    /** Case 2 of interpret: an operand is expected. */
    method InterpretOperandStart(c: char, i: nat) returns (err: Option<Error>)
      requires IsFunctionNames(functionNames) && lastAdded == OperandStart
      modifies this
      ensures Agrees(InOperandStart(old(Snapshot()), c, i), err, Snapshot())
      ensures value == old(value)
    {
      err := None;
      if IsDigit(c) || c == '+' || c == '-' {
        StartNumber(c);
      } else if c == '.' {
        StartNumber('0');
        AddChar(c);
      } else if c == '(' {
        StartParenthesis();
      } else if IsStrongOperatorSymbol(c) {
        err := Some(Unexpected(NoInfo, c, i));
      } else if IsLetter(c) {
        var known := AnyStartsSearch(functionNames, [Upper(c)]);
        AnyStartsIn(functionNames, [Upper(c)]);
        if known {
          StartFunction(c);
        } else {
          err := Some(NoSuchFunction(i));
        }
      } else {
        err := Some(Unexpected(NoInfo, c, i));
      }
    }

    /** Cases 3 and 4 of interpret: capturing a parenthesis or an argument list. */
    method InterpretCapture(c: char, i: nat) returns (err: Option<Error>)
      requires lastAdded == Paren || (lastAdded == FunctionArgs && currentFunction.Some?)
      modifies this
      ensures Agrees(InCapture(old(Snapshot()), c, i), err, Snapshot())
      ensures value == old(value)
    {
      err := None;
      if c == ')' {
        openParenthesis := openParenthesis - 1;
        if openParenthesis == 0 {
          if lastAdded == Paren {
            var saved := SaveParenthesis();
            if !saved {
              err := Some(Unexpected(NoInfo, c, i));
            }
          } else {
            SaveFunctionArgs();
          }
        } else {
          AddChar(c);
        }
      } else {
        AddChar(c);
        if c == '(' {
          openParenthesis := openParenthesis + 1;
        }
      }
    }

    /** Case 5 of interpret: just after a closing parenthesis. */
    method InterpretPostClose(c: char, i: nat) returns (err: Option<Error>)
      requires lastAdded == PostClose
      modifies this
      ensures Agrees(InPostClose(old(Snapshot()), c, i), err, Snapshot())
      ensures value == old(value)
    {
      err := None;
      if IsOperatorSymbol(c) {
        SaveOperator(c);
      } else {
        err := Some(Unexpected(NoInfo, c, i));
      }
    }

    // -------------------------------------------------------------------
    // The helpers of interpret

    /** addChar: append the upper case of c to the token buffer. */
    method AddChar(c: char)
      modifies this
      ensures Snapshot() == Tokenizer.AddChar(old(Snapshot()), c)
      ensures value == old(value)
    {
      token := token + [Upper(c)];
    }

    /** clearToken */
    method ClearToken()
      modifies this
      ensures Snapshot() == old(Snapshot()).(token := [])
      ensures value == old(value)
    {
      token := [];
    }

    /** startNumber */
    method StartNumber(c: char)
      modifies this
      ensures Snapshot() == Tokenizer.StartNumber(old(Snapshot()), c)
      ensures value == old(value)
    {
      AddChar(c);
      lastAdded := Number;
    }

    /** saveNumber */
    method SaveNumber()
      modifies this
      ensures Snapshot() == Tokenizer.SaveNumber(old(Snapshot()))
      ensures value == old(value)
    {
      operands := operands + [NumTok(token)];
      ClearToken();
    }

    /** startFunction */
    method StartFunction(c: char)
      modifies this
      ensures Snapshot() == Tokenizer.StartFunction(old(Snapshot()), c)
      ensures value == old(value)
    {
      AddChar(c);
      lastAdded := FunctionName;
    }

    /** saveFunctionName: clears the buffer itself rather than through clearToken. */
    method SaveFunctionName()
      modifies this
      ensures Snapshot() == Tokenizer.SaveFunctionName(old(Snapshot()))
      ensures value == old(value)
    {
      currentFunction := Some(token);
      token := [];
      openParenthesis := 1;
      lastAdded := FunctionArgs;
    }

    /** saveFunctionArgs */
    method SaveFunctionArgs()
      requires currentFunction.Some?
      modifies this
      ensures Snapshot() == Tokenizer.SaveFunctionArgs(old(Snapshot()))
      ensures value == old(value)
    {
      operands := operands + [FuncTok(currentFunction.value, token)];
      currentFunction := None;
      ClearToken();
      lastAdded := PostClose;
    }

    /** saveOperator */
    method SaveOperator(c: char)
      requires IsOperatorSymbol(c)
      modifies this
      ensures Snapshot() == Tokenizer.SaveOperator(old(Snapshot()), c)
      ensures value == old(value)
    {
      operators := operators + [OperatorOf(c)];
      lastAdded := OperandStart;
    }

    /** startParenthesis */
    method StartParenthesis()
      modifies this
      ensures Snapshot() == Tokenizer.StartParenthesis(old(Snapshot()))
      ensures value == old(value)
    {
      openParenthesis := 1;
      lastAdded := Paren;
    }

    /**
     * saveParenthesis: false where it raises IllegalStateException because
     * nothing was captured, and then nothing has changed.
     */
    method SaveParenthesis() returns (saved: bool)
      modifies this
      ensures saved <==> old(token) != []
      ensures saved ==> Snapshot() == old(Snapshot()).(operands := old(operands) + [SubTok(old(token))], token := [], mode := PostClose)
      ensures !saved ==> Snapshot() == old(Snapshot())
      ensures value == old(value)
    {
      if token == [] {
        return false;
      }
      operands := operands + [SubTok(token)];
      ClearToken();
      lastAdded := PostClose;
      return true;
    }
  }
}
