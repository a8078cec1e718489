/** `ExpressionEvaluator.Evaluate`: the tokenizer, the converter and the
    postfix evaluator run one after the other, and the first stage that
    fails decides the error. */
module Evaluator {
  import opened Syntax
  import opened Numbers
  import opened Registry
  import opened Lexer
  import opened Converter
  import opened Rpn

  /** The value of an input expression. */
  function ValueOf(arith: Calculator, lib: MathLib, expr: string): Result<real> {
    match Tokens(expr)
    case Err(e) => Err(e)
    case Ok(ts) =>
      match Postfix(ts)
      case Err(e) => Err(e)
      case Ok(rpn) => RpnValue(arith, lib, rpn)
  }

  method Evaluate(arith: Calculator, lib: MathLib, expr: string) returns (r: Result<real>)
    ensures r == ValueOf(arith, lib, expr)
  {
    var tokens :- Tokenize(expr);
    var rpn :- ToRpn(tokens);
    r := EvalRpn(arith, lib, rpn);
  }

  // ---------------------------------------------------------------------
  // Properties

  /** A token of an unknown function makes the conversion fail, whatever
      else the token list holds. */
  lemma {:induction false} RunRejectsUnknown(ts: seq<Token>, i: nat, st: State, k: nat)
    requires i <= k < |ts| && Aligned(st.ops, st.counts)
    requires ts[k].Func? && !IsKnown(ts[k].name)
    ensures Run(ts, i, st).Err?
    decreases |ts| - i
  {
    var r := Step(st, ts[i]);
    if i == k {
      assert r == Err(UnknownFunction(ts[k].name));
    } else if r.Ok? {
      RunStep(ts, i, st, r.value);
      RunRejectsUnknown(ts, i + 1, r.value, k);
    }
  }

  /** An unknown function is rejected while converting, before anything is
      evaluated: the error does not depend on the arithmetic provider or
      the Math library. */
  lemma UnknownFunctionRejectedEarly(arith: Calculator, lib: MathLib, expr: string, k: nat)
    requires Tokens(expr).Ok? && k < |Tokens(expr).value|
    requires Tokens(expr).value[k].Func? && !IsKnown(Tokens(expr).value[k].name)
    ensures Postfix(Tokens(expr).value).Err?
    ensures ValueOf(arith, lib, expr) == Err(Postfix(Tokens(expr).value).error)
  {
    RunRejectsUnknown(Tokens(expr).value, 0, State([], [], []), k);
  }

  /** A tokenizer error is the error of the whole evaluation, and it names
      an offending character or identifier of the input. */
  lemma TokenizerErrorsFirst(arith: Calculator, lib: MathLib, expr: string)
    requires Tokens(expr).Err?
    ensures ValueOf(arith, lib, expr) == Err(Tokens(expr).error)
    ensures ScanError(Normalize(expr), Tokens(expr).error)
  {
    TokensErrors(expr);
  }

  /** White space produces no token. */
  lemma {:induction false} BlankScan(s: string, i: nat, acc: seq<Token>)
    requires i <= |s| && forall k :: i <= k < |s| ==> IsWhiteSpace(s[k])
    ensures Scan(s, i, acc) == Ok(acc)
    decreases |s| - i
  {
    if i < |s| {
      assert NextToken(s, i, acc) == Ok(Lexed(i + 1, None));
      BlankScan(s, i + 1, acc);
    }
  }

  /** Empty or blank input has no value: "Invalid expression". */
  lemma BlankInputInvalid(arith: Calculator, lib: MathLib, expr: string)
    requires forall k :: 0 <= k < |expr| ==> IsWhiteSpace(expr[k])
    ensures ValueOf(arith, lib, expr) == Err(InvalidExpression)
  {
    var s := Normalize(expr);
    assert forall k :: 0 <= k < |s| ==> IsWhiteSpace(s[k]) by {
      forall k | 0 <= k < |s|
        ensures IsWhiteSpace(s[k])
      {
        assert s[k] == NormalizeChar(expr[k]);
      }
    }
    BlankScan(s, 0, []);
    assert Postfix([]) == Ok([]);
    OneValueLeft(arith, lib, []);
  }

  // ---------------------------------------------------------------------
  // Expressions of a few numbers

  /** `f()` is converted to a call with count 1, which then finds no value
      on the stack: "Invalid function arguments". */
  lemma {:induction false} EmptyArgumentList(arith: Calculator, lib: MathLib, s: string, f: string)
    requires Tokens(s) == Ok([Func(f), LParen, RParen]) && IsKnown(f)
    ensures ValueOf(arith, lib, s) == Err(InvalidFunctionArguments)
  {
    EmptyCall([Func(f), LParen, RParen], f);
    assert Exec(arith, lib, [RCall(f, 1)], []) == Err(InvalidFunctionArguments);
  }

  /** Digits and operator characters are left alone by the normalisation. */
  lemma PlainText(s: string)
    requires forall k :: 0 <= k < |s| ==> IsDigit(s[k]) || IsOperatorChar(s[k])
    ensures Normalize(s) == s
  {
    NormalizeKeeps(s);
  }

  /** The tokens of `x o1 y o2 z` for digit strings x, y, z. */
  lemma {:induction false} ChainTokensOf(s: string, i: nat, j: nat)
    requires 0 < i && i + 1 < j && j + 1 < |s| && IsOperatorChar(s[i]) && IsOperatorChar(s[j])
    requires (forall k :: 0 <= k < i ==> IsDigit(s[k])) && forall k :: i + 1 <= k < |s| && k != j ==> IsDigit(s[k])
    ensures Tokens(s) == Ok([Number(s[..i]), Operator(BinaryOperator(s[i])), Number(s[i + 1..j]),
      Operator(BinaryOperator(s[j])), Number(s[j + 1..])])
  {
    PlainText(s);
    ChainTokens(s, i, j);
  }

  /** Three numbers and two binary operators: the value is that of the
      postfix queue operator precedence and associativity decide, whatever
      the arithmetic provider. */
  lemma {:induction false} ChainValue(arith: Calculator, lib: MathLib, s: string, i: nat, j: nat)
    requires 0 < i && i + 1 < j && j + 1 < |s| && IsOperatorChar(s[i]) && IsOperatorChar(s[j])
    requires (forall k :: 0 <= k < i ==> IsDigit(s[k])) && forall k :: i + 1 <= k < |s| && k != j ==> IsDigit(s[k])
    ensures var a, b, c := RNum(DigitsValue(s[..i]) as real), RNum(DigitsValue(s[i + 1..j]) as real), RNum(DigitsValue(s[j + 1..]) as real);
      var o1, o2 := BinaryOperator(s[i]), BinaryOperator(s[j]);
      ValueOf(arith, lib, s) ==
        RpnValue(arith, lib, if Pops(o2, o1) then [a, b, ROp(o1), c, ROp(o2)] else [a, b, c, ROp(o2), ROp(o1)])
  {
    var x, y, z := s[..i], s[i + 1..j], s[j + 1..];
    var o1, o2 := BinaryOperator(s[i]), BinaryOperator(s[j]);
    ChainTokensOf(s, i, j);
    DigitsChain(x, o1, y, o2, z);
  }

  /** The value of a digit character. */
  function Digit(c: char): real {
    (c as int - '0' as int) as real
  }

  /** A one-digit string denotes its digit. */
  lemma DigitText(s: string, i: nat)
    requires i < |s| && IsDigit(s[i])
    ensures |s[i..i + 1]| == 1 && AllDigits(s[i..i + 1]) && DigitsValue(s[i..i + 1]) as real == Digit(s[i])
  {
    assert s[i..i + 1][..0] == [];
  }

  /** A one-digit literal reads as its digit. */
  lemma OneDigit(s: string, i: nat)
    requires i < |s| && IsDigit(s[i])
    ensures ParseLiteral(s[i..i + 1]) == Some(Digit(s[i]))
  {
    assert s[i..i + 1][..0] == [];
    DigitsLiteral(s[i..i + 1]);
  }

  /** The three stages composed, once each stage's result is known. */
  lemma StagesCompose(arith: Calculator, lib: MathLib, s: string, ts: seq<Token>, rpn: seq<RpnToken>)
    requires Tokens(s) == Ok(ts) && Postfix(ts) == Ok(rpn)
    ensures ValueOf(arith, lib, s) == RpnValue(arith, lib, rpn)
  {
  }

  /** The postfix queue of `x o1 y o2 z` for single digits x, y, z. */
  lemma {:induction false} DigitChainPostfix(s: string)
    requires |s| == 5 && IsDigit(s[0]) && IsOperatorChar(s[1]) && IsDigit(s[2]) && IsOperatorChar(s[3]) && IsDigit(s[4])
    ensures var a, b, c := RNum(Digit(s[0])), RNum(Digit(s[2])), RNum(Digit(s[4]));
      var o1, o2 := BinaryOperator(s[1]), BinaryOperator(s[3]);
      Postfix([Number(s[0..1]), Operator(o1), Number(s[2..3]), Operator(o2), Number(s[4..5])]) ==
        Ok(if Pops(o2, o1) then [a, b, ROp(o1), c, ROp(o2)] else [a, b, c, ROp(o2), ROp(o1)])
  {
    DigitText(s, 0);
    DigitText(s, 2);
    DigitText(s, 4);
    DigitsChain(s[0..1], BinaryOperator(s[1]), s[2..3], BinaryOperator(s[3]), s[4..5]);
  }

  /** `x o1 y o2 z` for single digits x, y, z. */
  lemma {:induction false} DigitChainValue(arith: Calculator, lib: MathLib, s: string)
    requires |s| == 5 && IsDigit(s[0]) && IsOperatorChar(s[1]) && IsDigit(s[2]) && IsOperatorChar(s[3]) && IsDigit(s[4])
    ensures var a, b, c := RNum(Digit(s[0])), RNum(Digit(s[2])), RNum(Digit(s[4]));
      var o1, o2 := BinaryOperator(s[1]), BinaryOperator(s[3]);
      ValueOf(arith, lib, s) ==
        RpnValue(arith, lib, if Pops(o2, o1) then [a, b, ROp(o1), c, ROp(o2)] else [a, b, c, ROp(o2), ROp(o1)])
  {
    ChainTokensOf(s, 1, 3);
    assert s[..1] == s[0..1] && s[4..] == s[4..5];
    DigitChainPostfix(s);
  }

  /** A two-digit string denotes its digits' value. */
  lemma TwoDigitText(s: string)
    requires |s| >= 2 && IsDigit(s[0]) && IsDigit(s[1])
    ensures AllDigits(s[0..2]) && DigitsValue(s[0..2]) as real == 10.0 * Digit(s[0]) + Digit(s[1])
  {
    assert s[0..2][..1] == s[0..1];
    DigitText(s, 0);
  }

  /** The postfix queue of `xx o1 y o2 z` for a two-digit number and single
      digits y, z. */
  lemma {:induction false} TwoDigitChainPostfix(s: string)
    requires |s| == 6 && IsDigit(s[0]) && IsDigit(s[1]) && IsOperatorChar(s[2]) && IsDigit(s[3]) && IsOperatorChar(s[4]) && IsDigit(s[5])
    ensures var a, b, c := RNum(10.0 * Digit(s[0]) + Digit(s[1])), RNum(Digit(s[3])), RNum(Digit(s[5]));
      var o1, o2 := BinaryOperator(s[2]), BinaryOperator(s[4]);
      Postfix([Number(s[0..2]), Operator(o1), Number(s[3..4]), Operator(o2), Number(s[5..6])]) ==
        Ok(if Pops(o2, o1) then [a, b, ROp(o1), c, ROp(o2)] else [a, b, c, ROp(o2), ROp(o1)])
  {
    TwoDigitText(s);
    DigitText(s, 3);
    DigitText(s, 5);
    DigitsChain(s[0..2], BinaryOperator(s[2]), s[3..4], BinaryOperator(s[4]), s[5..6]);
  }

  /** `xx o1 y o2 z` for a two-digit number and single digits y, z. */
  lemma {:induction false} TwoDigitChainValue(arith: Calculator, lib: MathLib, s: string)
    requires |s| == 6 && IsDigit(s[0]) && IsDigit(s[1]) && IsOperatorChar(s[2]) && IsDigit(s[3]) && IsOperatorChar(s[4]) && IsDigit(s[5])
    ensures var a, b, c := RNum(10.0 * Digit(s[0]) + Digit(s[1])), RNum(Digit(s[3])), RNum(Digit(s[5]));
      var o1, o2 := BinaryOperator(s[2]), BinaryOperator(s[4]);
      ValueOf(arith, lib, s) ==
        RpnValue(arith, lib, if Pops(o2, o1) then [a, b, ROp(o1), c, ROp(o2)] else [a, b, c, ROp(o2), ROp(o1)])
  {
    ChainTokensOf(s, 2, 4);
    assert s[..2] == s[0..2] && s[5..] == s[5..6];
    TwoDigitChainPostfix(s);
  }

  /** The tokens of a sign, a number, a binary operator and a number. */
  lemma {:induction false} SignedTokensOf(s: string, j: nat)
    requires 1 < j && j + 1 < |s| && (s[0] == '-' || s[0] == '+') && IsOperatorChar(s[j])
    requires forall k :: 1 <= k < |s| && k != j ==> IsDigit(s[k])
    ensures Tokens(s) == Ok([Operator(if s[0] == '-' then Neg else Plus), Number(s[1..j]),
      Operator(BinaryOperator(s[j])), Number(s[j + 1..])])
  {
    PlainText(s);
    SignedTokens(s, j);
  }

  /** The postfix queue of `u x o y` for a sign u and single digits x, y. */
  lemma {:induction false} DigitSignedPostfix(s: string)
    requires |s| == 4 && (s[0] == '-' || s[0] == '+') && IsDigit(s[1]) && IsOperatorChar(s[2]) && IsDigit(s[3])
    ensures var u := if s[0] == '-' then Neg else Plus;
      Postfix([Operator(u), Number(s[1..2]), Operator(BinaryOperator(s[2])), Number(s[3..4])]) ==
        Ok([RNum(Digit(s[1])), ROp(u), RNum(Digit(s[3])), ROp(BinaryOperator(s[2]))])
  {
    var u := if s[0] == '-' then Neg else Plus;
    OneDigit(s, 1);
    OneDigit(s, 3);
    SignBindsTighter([Operator(u), Number(s[1..2]), Operator(BinaryOperator(s[2])), Number(s[3..4])],
      s[1..2], s[3..4], u, BinaryOperator(s[2]), Digit(s[1]), Digit(s[3]));
  }

  /** `u x o y` for a sign u and single digits x, y: the sign applies to x. */
  lemma {:induction false} DigitSignedValue(arith: Calculator, lib: MathLib, s: string)
    requires |s| == 4 && (s[0] == '-' || s[0] == '+') && IsDigit(s[1]) && IsOperatorChar(s[2]) && IsDigit(s[3])
    ensures ValueOf(arith, lib, s) == RpnValue(arith, lib,
      [RNum(Digit(s[1])), ROp(if s[0] == '-' then Neg else Plus), RNum(Digit(s[3])), ROp(BinaryOperator(s[2]))])
  {
    SignedTokensOf(s, 2);
    assert s[3..] == s[3..4];
    DigitSignedPostfix(s);
  }

  /** The tokens of a number, a binary operator and a number. */
  lemma {:induction false} PairTokensOf(s: string, j: nat)
    requires 0 < j && j + 1 < |s| && IsOperatorChar(s[j])
    requires forall k :: 0 <= k < |s| && k != j ==> IsDigit(s[k])
    ensures Tokens(s) == Ok([Number(s[0..j]), Operator(BinaryOperator(s[j])), Number(s[j + 1..])])
  {
    PlainText(s);
    OperandTail(s, 0, j, []);
    assert [] + [Number(s[0..j]), Operator(BinaryOperator(s[j])), Number(s[j + 1..])] ==
      [Number(s[0..j]), Operator(BinaryOperator(s[j])), Number(s[j + 1..])];
  }

  /** The postfix queue of `x o y` for single digits x, y. */
  lemma {:induction false} DigitPairPostfix(s: string)
    requires |s| == 3 && IsDigit(s[0]) && IsOperatorChar(s[1]) && IsDigit(s[2])
    ensures Postfix([Number(s[0..1]), Operator(BinaryOperator(s[1])), Number(s[2..3])]) ==
      Ok([RNum(Digit(s[0])), RNum(Digit(s[2])), ROp(BinaryOperator(s[1]))])
  {
    OneDigit(s, 0);
    OneDigit(s, 2);
    BinaryPair([Number(s[0..1]), Operator(BinaryOperator(s[1])), Number(s[2..3])], s[0..1], BinaryOperator(s[1]), s[2..3],
      Digit(s[0]), Digit(s[2]));
  }

  /** `x o y` for single digits x, y. */
  lemma {:induction false} DigitPairValue(arith: Calculator, lib: MathLib, s: string)
    requires |s| == 3 && IsDigit(s[0]) && IsOperatorChar(s[1]) && IsDigit(s[2])
    ensures ValueOf(arith, lib, s) == RpnValue(arith, lib, [RNum(Digit(s[0])), RNum(Digit(s[2])), ROp(BinaryOperator(s[1]))])
  {
    PairTokensOf(s, 1);
    assert s[2..] == s[2..3];
    DigitPairPostfix(s);
  }

  /** The tokens of `( x o1 y ) o2 z` for single digits x, y, z. */
  lemma {:induction false} GroupedTokensOf(s: string)
    requires |s| == 7 && s[0] == '(' && IsDigit(s[1]) && IsOperatorChar(s[2]) && IsDigit(s[3]) && s[4] == ')'
    requires IsOperatorChar(s[5]) && IsDigit(s[6])
    ensures Tokens(s) == Ok([LParen, Number(s[1..2]), Operator(BinaryOperator(s[2])), Number(s[3..4]), RParen,
      Operator(BinaryOperator(s[5])), Number(s[6..7])])
  {
    NormalizeKeeps(s);
    GroupedTokens(s);
  }

  /** The postfix queue of `( x o1 y ) o2 z` for single digits x, y, z. */
  lemma {:induction false} GroupedPostfix(s: string)
    requires |s| == 7 && IsDigit(s[1]) && IsOperatorChar(s[2]) && IsDigit(s[3]) && IsOperatorChar(s[5]) && IsDigit(s[6])
    ensures Postfix([LParen, Number(s[1..2]), Operator(BinaryOperator(s[2])), Number(s[3..4]), RParen,
      Operator(BinaryOperator(s[5])), Number(s[6..7])]) ==
      Ok([RNum(Digit(s[1])), RNum(Digit(s[3])), ROp(BinaryOperator(s[2])), RNum(Digit(s[6])), ROp(BinaryOperator(s[5]))])
  {
    assert ParseLiteral(s[1..2]) == Some(Digit(s[1])) && ParseLiteral(s[3..4]) == Some(Digit(s[3]))
      && ParseLiteral(s[6..7]) == Some(Digit(s[6])) by {
      OneDigit(s, 1);
      OneDigit(s, 3);
      OneDigit(s, 6);
    }
    GroupedChain([LParen, Number(s[1..2]), Operator(BinaryOperator(s[2])), Number(s[3..4]), RParen,
      Operator(BinaryOperator(s[5])), Number(s[6..7])], s[1..2], s[3..4], s[6..7], BinaryOperator(s[2]), BinaryOperator(s[5]),
      Digit(s[1]), Digit(s[3]), Digit(s[6]));
  }

  /** `( x o1 y ) o2 z` for single digits x, y, z: the parenthesised
      operator applies first, whatever the precedences. */
  lemma {:induction false} GroupedValue(arith: Calculator, lib: MathLib, s: string)
    requires |s| == 7 && s[0] == '(' && IsDigit(s[1]) && IsOperatorChar(s[2]) && IsDigit(s[3]) && s[4] == ')'
    requires IsOperatorChar(s[5]) && IsDigit(s[6])
    ensures ValueOf(arith, lib, s) == RpnValue(arith, lib,
      [RNum(Digit(s[1])), RNum(Digit(s[3])), ROp(BinaryOperator(s[2])), RNum(Digit(s[6])), ROp(BinaryOperator(s[5]))])
  {
    GroupedTokensOf(s);
    GroupedPostfix(s);
  }

  /** "1+2*3" is 7: '*' binds tighter than '+'. */
  lemma ProductFirst(lib: MathLib, s: string)
    requires |s| == 5 && s[0] == '1' && s[1] == '+' && s[2] == '2' && s[3] == '*' && s[4] == '3'
    ensures ValueOf(Exact, lib, s) == Ok(7.0)
  {
    DigitChainValue(Exact, lib, s);
    assert !Pops(Mul, Add);
    RightGroupedValue(Exact, lib, 1.0, 2.0, 3.0, Add, Mul, 6.0, 7.0);
  }

  /** "4/2+6" is 8: '/' groups its operands before the '+' after it. */
  lemma QuotientFirst(lib: MathLib, s: string)
    requires |s| == 5 && s[0] == '4' && s[1] == '/' && s[2] == '2' && s[3] == '+' && s[4] == '6'
    ensures ValueOf(Exact, lib, s) == Ok(8.0)
  {
    DigitChainValue(Exact, lib, s);
    assert Pops(Add, Div);
    LeftGroupedValue(Exact, lib, 4.0, 2.0, 6.0, Div, Add, 2.0, 8.0);
  }

  /** "-5+2" is -3: the leading '-' is a sign and applies to 5 alone. */
  lemma LeadingSign(lib: MathLib, s: string)
    requires |s| == 4 && s[0] == '-' && s[1] == '5' && s[2] == '+' && s[3] == '2'
    ensures ValueOf(Exact, lib, s) == Ok(-3.0)
  {
    DigitSignedValue(Exact, lib, s);
    SignedValue(Exact, lib, 5.0, 2.0, Neg, Add, -3.0);
  }

  /** "2^3" is `Math.Pow(2, 3)`. */
  lemma PowerOperator(arith: Calculator, lib: MathLib, s: string)
    requires |s| == 3 && s[0] == '2' && s[1] == '^' && s[2] == '3'
    ensures ValueOf(arith, lib, s) == Ok(lib.pow(2.0, 3.0))
  {
    DigitPairValue(arith, lib, s);
    BinaryValue(arith, lib, 2.0, 3.0, Pow, lib.pow(2.0, 3.0));
  }

  /** "2^3^2" is `Math.Pow(2, Math.Pow(3, 2))`: '^' groups to the right. */
  lemma PowerGroupsRight(arith: Calculator, lib: MathLib, s: string)
    requires |s| == 5 && s[0] == '2' && s[1] == '^' && s[2] == '3' && s[3] == '^' && s[4] == '2'
    ensures ValueOf(arith, lib, s) == Ok(lib.pow(2.0, lib.pow(3.0, 2.0)))
  {
    DigitChainValue(arith, lib, s);
    assert !Pops(Pow, Pow);
    RightGroupedValue(arith, lib, 2.0, 3.0, 2.0, Pow, Pow, lib.pow(3.0, 2.0), lib.pow(2.0, lib.pow(3.0, 2.0)));
  }

  /** "-2^2" is `Math.Pow(-2, 2)`: the sign binds tighter than '^'. */
  lemma SignBeforePower(arith: Calculator, lib: MathLib, s: string)
    requires |s| == 4 && s[0] == '-' && s[1] == '2' && s[2] == '^' && s[3] == '2'
    ensures ValueOf(arith, lib, s) == Ok(lib.pow(-2.0, 2.0))
  {
    DigitSignedValue(arith, lib, s);
    SignedValue(arith, lib, 2.0, 2.0, Neg, Pow, lib.pow(-2.0, 2.0));
  }

  /** "(1+2)*3" is 9: the parentheses make '+' apply before '*'. */
  lemma GroupFirst(lib: MathLib, s: string)
    requires |s| == 7 && s[0] == '(' && s[1] == '1' && s[2] == '+' && s[3] == '2' && s[4] == ')' && s[5] == '*' && s[6] == '3'
    ensures ValueOf(Exact, lib, s) == Ok(9.0)
  {
    var rpn := [RNum(1.0), RNum(2.0), ROp(Add), RNum(3.0), ROp(Mul)];
    assert ValueOf(Exact, lib, s) == RpnValue(Exact, lib, rpn) by {
      assert Digit(s[1]) == 1.0 && Digit(s[3]) == 2.0 && Digit(s[6]) == 3.0;
      assert BinaryOperator(s[2]) == Add && BinaryOperator(s[5]) == Mul;
      GroupedValue(Exact, lib, s);
    }
    assert RpnValue(Exact, lib, rpn) == Ok(9.0) by {
      LeftGroupedValue(Exact, lib, 1.0, 2.0, 3.0, Add, Mul, 3.0, 9.0);
    }
  }

  /** "10-2*3" is 4: a two-digit number, and '*' applies before '-'. */
  lemma DifferenceOfProduct(lib: MathLib, s: string)
    requires |s| == 6 && s[0] == '1' && s[1] == '0' && s[2] == '-' && s[3] == '2' && s[4] == '*' && s[5] == '3'
    ensures ValueOf(Exact, lib, s) == Ok(4.0)
  {
    TwoDigitChainValue(Exact, lib, s);
    assert !Pops(Mul, Sub);
    RightGroupedValue(Exact, lib, 10.0, 2.0, 3.0, Sub, Mul, 6.0, 4.0);
  }
}
