/**
 * The operator and function catalog (the Operator enum): one entry per
 * enum value, each with a name, an arity and a precedence, in declaration
 * order, and the two lookups the tokenizer uses.
 */
module InfixParser {
  import opened Wrappers

  /**
   * How many arguments an entry takes. The enum stores an int; the three
   * sentinels ARITY_ALL, ARITY_N and ARITY_ZERO_ONE are distinct kinds here.
   */
  datatype Arity =
    | Fixed(n: nat)
    | ArityAll        // every supplied argument (SUM, AVG)
    | ArityN          // the first argument says how many of the rest take part
    | ArityZeroOne    // a constant with an optional modifying argument

  /** The enum values. */
  datatype Operator =
    | Addition | Subtraction | Multiplication | Division | Modulo | Exponentiation
    | Square | SquareRoot | RootYX | Negative | Inversion
    | Log10 | LogYX | LogN | Exponential | Factorial
    | Sine | Cosine | Tangent | Arcsine | Arccosine | Arctangent
    | SineH | CosineH | TangentH | DegToRad | RadToDeg
    | Floor | Round | Ceil
    | Random
    | Summation | SummationN | Mean | MeanN
    | ConstantPi | ConstantEuler | ConstantPhi
    | CircleSurface | TriangleSurface | HypotenusePythagoras | LegPythagoras | QuaraticEquation

  /** The name each enum value passes to its constructor (fName). */
  function FName(op: Operator): string {
    match op
    case Addition => "ADD"
    case Subtraction => "SUBTRACT"
    case Multiplication => "MULTIPLY"
    case Division => "DIVIDE"
    case Modulo => "MOD"
    case Exponentiation => "POW"
    case Square => "SQUARE"
    case SquareRoot => "SQRT"
    case RootYX => "ROOT"
    case Negative => "NEG"
    case Inversion => "INVERSION"
    case Log10 => "LOG10"
    case LogYX => "LOG"
    case LogN => "LOGN"
    case Exponential => "EXP"
    case Factorial => "FACT"
    case Sine => "SIN"
    case Cosine => "COS"
    case Tangent => "TAN"
    case Arcsine => "ASIN"
    case Arccosine => "ACOS"
    case Arctangent => "ATAN"
    case SineH => "SINH"
    case CosineH => "COSH"
    case TangentH => "TANH"
    case DegToRad => "RAD"
    case RadToDeg => "DEG"
    case Floor => "FLOOR"
    case Round => "ROUND"
    case Ceil => "CEIL"
    case Random => "RAND"
    case Summation => "SUM"
    case SummationN => "SUM"
    case Mean => "AVG"
    case MeanN => "AVG"
    case ConstantPi => "PI"
    case ConstantEuler => "E"
    case ConstantPhi => "PHI"
    case CircleSurface => "SFCCIRCLE"
    case TriangleSurface => "SFCTRIANGLE"
    case HypotenusePythagoras => "PYTHAHYPO"
    case LegPythagoras => "PYTHALEG"
    case QuaraticEquation => "SOLVE"
  }

  /** The arity each enum value passes to its constructor. */
  function ArityOf(op: Operator): Arity {
    match op
    case Addition | Subtraction | Multiplication | Division | Modulo | Exponentiation | RootYX
      | LogYX | HypotenusePythagoras | LegPythagoras => Fixed(2)
    case Square | SquareRoot | Negative | Inversion | Log10 | LogN | Exponential | Factorial
      | Sine | Cosine | Tangent | Arcsine | Arccosine | Arctangent | SineH | CosineH | TangentH
      | DegToRad | RadToDeg | Floor | Round | Ceil | CircleSurface => Fixed(1)
    case Random => Fixed(0)
    case Summation | Mean => ArityAll
    case SummationN | MeanN => ArityN
    case ConstantPi | ConstantEuler | ConstantPhi => ArityZeroOne
    case TriangleSurface | QuaraticEquation => Fixed(3)
  }

  /**
   * The precedence: only the binary arithmetic operators pass one; the
   * constructor without a precedence argument stores -1.
   */
  function Precedence(op: Operator): int {
    match op
    case Addition | Subtraction => 2
    case Multiplication | Division | Modulo => 1
    case Exponentiation => 0
    case _ => -1
  }

  /** Operator.values(): the enum values in declaration order. */
  const Values: seq<Operator> := [
    Addition, Subtraction, Multiplication, Division, Modulo, Exponentiation,
    Square, SquareRoot, RootYX, Negative, Inversion,
    Log10, LogYX, LogN, Exponential, Factorial,
    Sine, Cosine, Tangent, Arcsine, Arccosine, Arctangent,
    SineH, CosineH, TangentH, DegToRad, RadToDeg,
    Floor, Round, Ceil,
    Random,
    Summation, SummationN, Mean, MeanN,
    ConstantPi, ConstantEuler, ConstantPhi,
    CircleSurface, TriangleSurface, HypotenusePythagoras, LegPythagoras, QuaraticEquation
  ]

  /** The six binary arithmetic operators. */
  predicate IsBinaryArithmetic(op: Operator) {
    op == Addition || op == Subtraction || op == Multiplication
    || op == Division || op == Modulo || op == Exponentiation
  }

  /** Position of each enum value in Values (its ordinal). */
  function Ordinal(op: Operator): (k: nat)
    ensures k < |Values| && Values[k] == op
  {
    match op
    case Addition => 0 case Subtraction => 1 case Multiplication => 2
    case Division => 3 case Modulo => 4 case Exponentiation => 5
    case Square => 6 case SquareRoot => 7 case RootYX => 8 case Negative => 9
    case Inversion => 10 case Log10 => 11 case LogYX => 12 case LogN => 13
    case Exponential => 14 case Factorial => 15 case Sine => 16 case Cosine => 17
    case Tangent => 18 case Arcsine => 19 case Arccosine => 20 case Arctangent => 21
    case SineH => 22 case CosineH => 23 case TangentH => 24 case DegToRad => 25
    case RadToDeg => 26 case Floor => 27 case Round => 28 case Ceil => 29
    case Random => 30 case Summation => 31 case SummationN => 32 case Mean => 33
    case MeanN => 34 case ConstantPi => 35 case ConstantEuler => 36
    case ConstantPhi => 37 case CircleSurface => 38 case TriangleSurface => 39
    case HypotenusePythagoras => 40 case LegPythagoras => 41 case QuaraticEquation => 42
  }

  /**
   * Precedence is set (not -1) exactly on the six binary arithmetic
   * operators, which all take two operands; exponentiation binds tightest,
   * then multiplication, division and modulo, then addition and subtraction.
   */
  lemma BinaryOperatorTable(op: Operator)
    ensures IsBinaryArithmetic(op) <==> Precedence(op) != -1
    ensures IsBinaryArithmetic(op) ==> ArityOf(op) == Fixed(2) && 0 <= Precedence(op) <= 2
    ensures Precedence(op) == 0 <==> op == Exponentiation
    ensures Precedence(op) == 1 <==> op == Multiplication || op == Division || op == Modulo
    ensures Precedence(op) == 2 <==> op == Addition || op == Subtraction
  {
  }

  /** functionNames holds exactly the names of Values, position by position. */
  predicate IsFunctionNames(names: seq<string>) {
    |names| == |Values| && forall k :: 0 <= k < |Values| ==> names[k] == FName(Values[k])
  }

  /** The static initialiser's loop that fills functionNames from values(). */
  method BuildFunctionNames(values: seq<Operator>) returns (names: seq<string>)
    ensures |names| == |values|
    ensures forall k :: 0 <= k < |values| ==> names[k] == FName(values[k])
  {
    names := [];
    for k := 0 to |values|
      invariant |names| == k
      invariant forall j :: 0 <= j < k ==> names[j] == FName(values[j])
    {
      names := names + [FName(values[k])];
    }
  }

  /** Some catalog name starts with `candidate`. */
  predicate AnyStarts(candidate: string) {
    exists op: Operator :: candidate <= FName(op)
  }

  /**
   * anyStarts: a linear search over functionNames that returns on the
   * first name with that prefix.
   */
  method AnyStartsSearch(names: seq<string>, candidate: string) returns (found: bool)
    ensures found <==> exists k :: 0 <= k < |names| && candidate <= names[k]
  {
    for k := 0 to |names|
      invariant forall j :: 0 <= j < k ==> !(candidate <= names[j])
    {
      if candidate <= names[k] {
        return true;
      }
    }
    return false;
  }

  /** Over functionNames, the search answers the catalog prefix query. */
  lemma AnyStartsIn(names: seq<string>, candidate: string)
    requires IsFunctionNames(names)
    ensures AnyStarts(candidate) <==> exists k :: 0 <= k < |names| && candidate <= names[k]
  {
    if k :| 0 <= k < |names| && candidate <= names[k] {
      StartsAt(names, candidate, k);
    } else {
      StartsNone(names, candidate);
    }
  }

  /** A name in functionNames that starts with `candidate` is a catalog name. */
  lemma StartsAt(names: seq<string>, candidate: string, k: nat)
    requires IsFunctionNames(names) && k < |names| && candidate <= names[k]
    ensures AnyStarts(candidate)
  {
    assert candidate <= FName(Values[k]);
  }

  /** When no name in functionNames starts with `candidate`, no catalog name does. */
  lemma StartsNone(names: seq<string>, candidate: string)
    requires IsFunctionNames(names)
    requires forall j :: 0 <= j < |names| ==> !(candidate <= names[j])
    ensures !AnyStarts(candidate)
  {
    forall op: Operator ensures !(candidate <= FName(op)) {
      var k := Ordinal(op);
      assert names[k] == FName(op);
    }
  }

  /** The empty string is a prefix of every name, so it always passes. */
  lemma AnyStartsEmpty()
    ensures AnyStarts("")
  {
    assert "" <= FName(Addition);
  }

  /** Every catalog name passes the prefix query. */
  lemma AnyStartsName(op: Operator)
    ensures AnyStarts(FName(op))
  {
    assert FName(op) <= FName(op);
  }

  /** The prefix query is closed under taking prefixes. */
  lemma AnyStartsPrefixClosed(s: string, t: string)
    requires AnyStarts(s + t)
    ensures AnyStarts(s)
  {
    var op :| s + t <= FName(op);
    var name := FName(op);
    assert name[..|s|] == (s + t)[..|s|] == s;
    assert s <= name;
  }

  /** Index of the first element of xs at or after `from` that satisfies p. */
  function FirstWhere<T>(xs: seq<T>, p: T -> bool, from: nat): (r: Option<nat>)
    requires from <= |xs|
    ensures r.Some? ==> from <= r.value < |xs| && p(xs[r.value])
    ensures r.Some? ==> forall j :: from <= j < r.value ==> !p(xs[j])
    ensures r.None? ==> forall j :: from <= j < |xs| ==> !p(xs[j])
    decreases |xs| - from
  {
    if from == |xs| then None
    else if p(xs[from]) then Some(from)
    else FirstWhere(xs, p, from + 1)
  }

  /** The search from 0 reaches position `to` when nothing before it matches. */
  lemma {:induction false} FirstWhereSkips<T>(xs: seq<T>, p: T -> bool, to: nat)
    requires to < |xs|
    requires forall j :: 0 <= j < to ==> !p(xs[j])
    ensures FirstWhere(xs, p, 0) == FirstWhere(xs, p, to)
  {
    if 0 < to {
      FirstWhereSkips(xs, p, to - 1);
    }
  }

  /** The search from 0 stops at k when k is the first position that satisfies p. */
  lemma FirstWhereAt<T>(xs: seq<T>, p: T -> bool, k: nat)
    requires k < |xs| && p(xs[k])
    requires forall j :: 0 <= j < k ==> !p(xs[j])
    ensures FirstWhere(xs, p, 0) == Some(k)
  {
    FirstWhereSkips(xs, p, k);
  }

  /** The test fromName applies to each entry. */
  function HasName(name: string): Operator -> bool {
    op => FName(op) == name
  }

  /** The first entry of values whose name is `name`, if there is one. */
  function FirstNamedIn(values: seq<Operator>, name: string): Option<Operator> {
    match FirstWhere(values, HasName(name), 0)
    case None => None
    case Some(k) => Some(values[k])
  }

  /**
   * fromName: the first entry in declaration order whose name equals
   * `name`; None models the IllegalArgumentException.
   */
  function FromName(name: string): (r: Option<Operator>)
    ensures r.Some? <==> exists k :: 0 <= k < |Values| && FName(Values[k]) == name
    ensures r.Some? ==> FName(r.value) == name
    ensures r.Some? ==> exists k :: 0 <= k < |Values| && Values[k] == r.value
                                     && forall j :: 0 <= j < k ==> FName(Values[j]) != name
  {
    FirstNamedIn(Values, name)
  }

  /**
   * fromName's loop over values(), returning on the first entry with that
   * name; on Values it computes FromName.
   */
  method FromNameSearch(values: seq<Operator>, name: string) returns (r: Option<Operator>)
    ensures r == FirstNamedIn(values, name)
    ensures r.Some? ==> r.value in values && FName(r.value) == name
    ensures r.None? ==> forall op :: op in values ==> FName(op) != name
  {
    for k := 0 to |values|
      invariant forall j :: 0 <= j < k ==> FName(values[j]) != name
    {
      if FName(values[k]) == name {
        assert FirstWhere(values, HasName(name), 0) == Some(k);
        return Some(values[k]);
      }
    }
    return None;
  }

  /** SUM and AVG each name two entries. */
  lemma NamesNotUnique()
    ensures Summation != SummationN && FName(Summation) == FName(SummationN) == "SUM"
    ensures Mean != MeanN && FName(Mean) == FName(MeanN) == "AVG"
  {
  }

  /** fromName returns the entry at position k when it has the name and none before it has. */
  lemma FromNameAt(name: string, k: nat)
    requires k < |Values| && FName(Values[k]) == name
    requires forall j :: 0 <= j < k ==> FName(Values[j]) != name
    ensures FromName(name) == Some(Values[k])
  {
    var named := HasName(name);
    forall j | 0 <= j < k ensures !named(Values[j]) {
    }
    FirstWhereAt(Values, named, k);
  }

  /**
   * The lookup of SUM returns the entry declared first, SUMMATION, so
   * SUMMATION_N is never found by name. (The name is a parameter fixed by
   * the precondition.)
   */
  lemma FromNameSum(name: string)
    requires name == "SUM"
    ensures FromName(name) == Some(Summation) && Summation != SummationN
  {
    forall j | 0 <= j < 31 ensures FName(Values[j]) != name {
      NotSumBefore(j);
    }
    assert Ordinal(Summation) == 31;
    FromNameAt(name, 31);
  }

  /** The lookup of AVG returns the entry declared first, MEAN, so MEAN_N is never found by name. */
  lemma FromNameAvg(name: string)
    requires name == "AVG"
    ensures FromName(name) == Some(Mean) && Mean != MeanN
  {
    forall j | 0 <= j < 33 ensures FName(Values[j]) != name {
      NotAvgBefore(j);
    }
    assert Ordinal(Mean) == 33;
    FromNameAt(name, 33);
  }

  /** No entry declared before SUMMATION is named SUM. */
  lemma NotSumBefore(j: nat)
    requires j < 31
    ensures FName(Values[j]) != "SUM"
  {
  }

  /** No entry declared before MEAN is named AVG. */
  lemma NotAvgBefore(j: nat)
    requires j < 33
    ensures FName(Values[j]) != "AVG"
  {
  }

  /** A name no entry has is refused (the IllegalArgumentException). */
  lemma FromNameUnknown()
    ensures FromName("FOO") == None
  {
    forall k | 0 <= k < |Values| ensures FName(Values[k]) != "FOO" {
      NotNamedFoo(Values[k]);
    }
  }

  /** No entry is named FOO. */
  lemma NotNamedFoo(op: Operator)
    ensures FName(op) != "FOO"
  {
  }
}
