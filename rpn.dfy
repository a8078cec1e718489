/** The postfix evaluator of ExpressionEvaluator (`EvalRpn`): a stack of
    values, one rule per kind of postfix token, and a final check that
    exactly one value is left. */
module Rpn {
  import opened Syntax
  import opened Registry

  /** The injected arithmetic provider (`ICalculator`): its four operations
      may fail, as `Divide` does on a zero divisor. */
  datatype Calculator = Calculator(
    add: (real, real) -> Result<real>,
    sub: (real, real) -> Result<real>,
    mul: (real, real) -> Result<real>,
    div: (real, real) -> Result<real>)

  /** Exact arithmetic whose division by zero fails, as the provider the
      evaluator is used with behaves. */
  const Exact: Calculator := Calculator(
    (x: real, y: real) => Ok(x + y),
    (x: real, y: real) => Ok(x - y),
    (x: real, y: real) => Ok(x * y),
    (x: real, y: real) => if y == 0.0 then Err(DivideByZero) else Ok(x / y))

  /** A binary operator applied to the operand pushed first (`a`) and the
      operand pushed second (`b`); `^` is `Math.Pow`. */
  function ApplyBinary(arith: Calculator, lib: MathLib, op: Op, a: real, b: real): Result<real>
    requires !IsUnary(op)
  {
    match op
    case Add => arith.add(a, b)
    case Sub => arith.sub(a, b)
    case Mul => arith.mul(a, b)
    case Div => arith.div(a, b)
    case Pow => Ok(lib.pow(a, b))
  }

  /** The evaluation of one postfix token on the value stack (top last). */
  function EvalStep(arith: Calculator, lib: MathLib, stack: seq<real>, t: RpnToken): Result<seq<real>> {
    match t
    case RNum(v) => Ok(stack + [v])
    case ROp(op) =>
      if IsUnary(op) then
        if |stack| < 1 then Err(InvalidExpression)
        else
          var a := stack[|stack| - 1];
          Ok(stack[..|stack| - 1] + [if op == Neg then -a else a])
      else if |stack| < 2 then Err(InvalidExpression)
      else
        var r := ApplyBinary(arith, lib, op, stack[|stack| - 2], stack[|stack| - 1]);
        if r.Err? then Err(r.error) else Ok(stack[..|stack| - 2] + [r.value])
    case RCall(name, argc) =>
      if !IsKnown(name) then Err(UnknownFunction(name))
      else if |stack| < argc then Err(InvalidFunctionArguments)
      else
        var r := Call(lib, name, stack[|stack| - argc..]);
        if r.Err? then Err(r.error) else Ok(stack[..|stack| - argc] + [r.value])
    case RMarker(_) => Err(UnexpectedToken)
  }

  /** The value stack after a whole postfix queue, or the first failure. */
  function Exec(arith: Calculator, lib: MathLib, rpn: seq<RpnToken>, stack: seq<real>): Result<seq<real>>
    decreases |rpn|
  {
    if rpn == [] then Ok(stack)
    else match EvalStep(arith, lib, stack, rpn[0])
      case Err(e) => Err(e)
      case Ok(next) => Exec(arith, lib, rpn[1..], next)
  }

  /** The final check: exactly one value is left. */
  function Single(r: Result<seq<real>>): Result<real> {
    match r
    case Err(e) => Err(e)
    case Ok(stack) => if |stack| == 1 then Ok(stack[0]) else Err(InvalidExpression)
  }

  /** The value of a postfix queue. */
  function RpnValue(arith: Calculator, lib: MathLib, rpn: seq<RpnToken>): Result<real> {
    Single(Exec(arith, lib, rpn, []))
  }

  // ---------------------------------------------------------------------
  // The imperative evaluator

  /** A call's arguments, popped into an array from the last one down, so
      that they come out in the order they were pushed. */
  method PopArguments(stack0: seq<real>, argc: nat) returns (stack: seq<real>, args: array<real>)
    requires argc <= |stack0|
    ensures fresh(args) && args.Length == argc
    ensures stack == stack0[..|stack0| - argc] && args[..] == stack0[|stack0| - argc..]
  {
    stack := stack0;
    args := new real[argc];
    var i := argc;
    while i > 0
      invariant 0 <= i <= argc
      invariant stack == stack0[..|stack0| - argc + i]
      invariant args[i..] == stack0[|stack0| - argc + i..]
    {
      i := i - 1;
      args[i] := stack[|stack| - 1];
      stack := stack[..|stack| - 1];
    }
  }

  /** One postfix token on the value stack. */
  method EvalToken(arith: Calculator, lib: MathLib, stack0: seq<real>, t: RpnToken) returns (r: Result<seq<real>>)
    ensures r == EvalStep(arith, lib, stack0, t)
  {
    var stack := stack0;
    match t {
      case RNum(v) =>
        stack := stack + [v];
      case ROp(op) =>
        if IsUnary(op) {
          if |stack| < 1 {
            return Err(InvalidExpression);
          }
          var a := stack[|stack| - 1];
          stack := stack[..|stack| - 1];
          stack := stack + [if op == Neg then -a else a];
        } else {
          if |stack| < 2 {
            return Err(InvalidExpression);
          }
          var b := stack[|stack| - 1];
          stack := stack[..|stack| - 1];
          var a := stack[|stack| - 1];
          stack := stack[..|stack| - 1];
          assert stack == stack0[..|stack0| - 2];
          var res := ApplyBinary(arith, lib, op, a, b);
          if res.Err? {
            return Err(res.error);
          }
          stack := stack + [res.value];
        }
      case RCall(name, argc) =>
        if !IsKnown(name) {
          return Err(UnknownFunction(name));
        }
        if |stack| < argc {
          return Err(InvalidFunctionArguments);
        }
        var args;
        stack, args := PopArguments(stack, argc);
        var res := Call(lib, name, args[..]);
        if res.Err? {
          return Err(res.error);
        }
        stack := stack + [res.value];
      case RMarker(_) =>
        return Err(UnexpectedToken);
    }
    return Ok(stack);
  }

  /** `EvalRpn`: the queue is consumed front first; then exactly one value
      must be left. */
  method EvalRpn(arith: Calculator, lib: MathLib, rpn: seq<RpnToken>) returns (r: Result<real>)
    ensures r == RpnValue(arith, lib, rpn)
  {
    var stack: seq<real> := [];
    var i := 0;
    while i < |rpn|
      invariant 0 <= i <= |rpn|
      invariant Exec(arith, lib, rpn, []) == Exec(arith, lib, rpn[i..], stack)
    {
      var next := EvalToken(arith, lib, stack, rpn[i]);
      if next.Err? {
        return Err(next.error);
      }
      assert rpn[i..][1..] == rpn[i + 1..];
      stack := next.value;
      i := i + 1;
    }
    if |stack| != 1 {
      return Err(InvalidExpression);
    }
    return Ok(stack[0]);
  }

  // ---------------------------------------------------------------------
  // Properties

  /** A binary operator takes the value pushed first as its left operand. */
  lemma BinaryOperandOrder(arith: Calculator, lib: MathLib, stack: seq<real>, a: real, b: real, op: Op)
    requires !IsUnary(op)
    ensures EvalStep(arith, lib, stack + [a, b], ROp(op)) ==
      match ApplyBinary(arith, lib, op, a, b)
      case Ok(v) => Ok(stack + [v])
      case Err(e) => Err(e)
  {
    var s := stack + [a, b];
    assert s[|s| - 2] == a && s[|s| - 1] == b && s[..|s| - 2] == stack;
  }

  /** A sign replaces the top value by its negation, or leaves it as it is. */
  lemma UnaryRule(arith: Calculator, lib: MathLib, stack: seq<real>, a: real, op: Op)
    requires IsUnary(op)
    ensures EvalStep(arith, lib, stack + [a], ROp(op)) == Ok(stack + [if op == Neg then -a else a])
  {
    assert (stack + [a])[..|stack|] == stack;
  }

  /** A call of a known function receives the top `argc` values in the
      order they were pushed, and they are replaced by its result. */
  lemma CallArgumentOrder(arith: Calculator, lib: MathLib, stack: seq<real>, args: seq<real>, name: string)
    requires IsKnown(name)
    ensures EvalStep(arith, lib, stack + args, RCall(name, |args|)) ==
      match Call(lib, name, args)
      case Ok(v) => Ok(stack + [v])
      case Err(e) => Err(e)
  {
    var s := stack + args;
    assert s[|s| - |args|..] == args && s[..|s| - |args|] == stack;
  }

  /** Too few values for an operator or a call is an error, and a postfix
      token is an error exactly when its operator, function or values are
      missing or its function fails. */
  lemma Underflow(arith: Calculator, lib: MathLib, stack: seq<real>, t: RpnToken)
    ensures t.ROp? && IsUnary(t.op) ==> (EvalStep(arith, lib, stack, t).Err? <==> |stack| == 0)
    ensures t.ROp? && !IsUnary(t.op) && |stack| < 2 ==> EvalStep(arith, lib, stack, t) == Err(InvalidExpression)
    ensures t.RCall? && IsKnown(t.name) && |stack| < t.argc ==>
      EvalStep(arith, lib, stack, t) == Err(InvalidFunctionArguments)
    ensures t.RCall? && !IsKnown(t.name) ==> EvalStep(arith, lib, stack, t) == Err(UnknownFunction(t.name))
    ensures t.RMarker? ==> EvalStep(arith, lib, stack, t) == Err(UnexpectedToken)
    ensures t.RNum? ==> EvalStep(arith, lib, stack, t) == Ok(stack + [t.value])
  {
  }

  /** A postfix queue split in two is evaluated as its first part, then its
      second part on the stack the first part leaves. */
  lemma {:induction false} ExecAppend(arith: Calculator, lib: MathLib, r1: seq<RpnToken>, r2: seq<RpnToken>, stack: seq<real>)
    ensures Exec(arith, lib, r1 + r2, stack) ==
      match Exec(arith, lib, r1, stack)
      case Ok(s) => Exec(arith, lib, r2, s)
      case Err(e) => Err(e)
    decreases |r1|
  {
    if r1 == [] {
      assert r1 + r2 == r2;
    } else {
      assert (r1 + r2)[0] == r1[0] && (r1 + r2)[1..] == r1[1..] + r2;
      match EvalStep(arith, lib, stack, r1[0])
      case Err(e) =>
      case Ok(next) => ExecAppend(arith, lib, r1[1..], r2, next);
    }
  }

  /** How many values a token adds to the stack when it succeeds: a number
      pushes one, a sign replaces one, a binary operator replaces two by one,
      and a call replaces its `argc` arguments by one. */
  function Effect(t: RpnToken): int {
    match t
    case RNum(_) => 1
    case ROp(op) => if IsUnary(op) then 0 else -1
    case RCall(_, argc) => 1 - argc
    case RMarker(_) => 0
  }

  /** The summed effect of a postfix queue. */
  function NetEffect(rpn: seq<RpnToken>): int
    decreases |rpn|
  {
    if rpn == [] then 0 else Effect(rpn[0]) + NetEffect(rpn[1..])
  }

  /** A successful run changes the stack height by the queue's net effect,
      whatever the values. */
  lemma {:induction false} StackEffect(arith: Calculator, lib: MathLib, rpn: seq<RpnToken>, stack: seq<real>)
    ensures Exec(arith, lib, rpn, stack).Ok? ==> |Exec(arith, lib, rpn, stack).value| == |stack| + NetEffect(rpn)
    decreases |rpn|
  {
    if rpn != [] {
      match EvalStep(arith, lib, stack, rpn[0])
      case Err(_) =>
      case Ok(next) =>
        assert |next| == |stack| + Effect(rpn[0]);
        StackEffect(arith, lib, rpn[1..], next);
    }
  }

  /** The final check depends on the queue alone: a queue whose every token
      succeeds yields a value iff its net effect is exactly one value, and a
      failing token's error is the result. */
  lemma OneValueLeft(arith: Calculator, lib: MathLib, rpn: seq<RpnToken>)
    ensures Exec(arith, lib, rpn, []).Ok? ==> (RpnValue(arith, lib, rpn).Ok? <==> NetEffect(rpn) == 1)
    ensures Exec(arith, lib, rpn, []).Ok? && NetEffect(rpn) != 1 ==> RpnValue(arith, lib, rpn) == Err(InvalidExpression)
    ensures Exec(arith, lib, rpn, []).Err? ==> RpnValue(arith, lib, rpn) == Err(Exec(arith, lib, rpn, []).error)
  {
    StackEffect(arith, lib, rpn, []);
  }

  /** Two numbers and no operator leave two values. */
  lemma TwoValuesFail(arith: Calculator, lib: MathLib, x: real, y: real)
    ensures RpnValue(arith, lib, [RNum(x), RNum(y)]) == Err(InvalidExpression)
  {
    var q := [RNum(x), RNum(y)];
    assert q[1..] == [RNum(y)] && q[1..][1..] == [];
    assert Exec(arith, lib, q, []) == Exec(arith, lib, [RNum(y)], [] + [x]);
    assert Exec(arith, lib, [RNum(y)], [] + [x]) == Exec(arith, lib, [], [] + [x] + [y]);
  }

  /** The exact provider's division by zero is reported, not computed. */
  lemma DivideByZeroFails(lib: MathLib, x: real)
    ensures RpnValue(Exact, lib, [RNum(x), RNum(0.0), ROp(Div)]) == Err(DivideByZero)
  {
    var q := [RNum(x), RNum(0.0), ROp(Div)];
    assert q[1..] == [RNum(0.0), ROp(Div)] && q[1..][1..] == [ROp(Div)];
    assert Exec(Exact, lib, q, []) == Exec(Exact, lib, [RNum(0.0), ROp(Div)], [] + [x]);
    assert Exec(Exact, lib, [RNum(0.0), ROp(Div)], [] + [x]) == Exec(Exact, lib, [ROp(Div)], [] + [x] + [0.0]);
    BinaryOperandOrder(Exact, lib, [], x, 0.0, Div);
    assert [] + [x] + [0.0] == [] + [x, 0.0];
  }

  /** One token of the queue evaluated. */
  lemma {:induction false} ExecStep(arith: Calculator, lib: MathLib, rpn: seq<RpnToken>, stack: seq<real>, next: seq<real>)
    requires rpn != [] && EvalStep(arith, lib, stack, rpn[0]) == Ok(next)
    ensures Exec(arith, lib, rpn, stack) == Exec(arith, lib, rpn[1..], next)
  {
  }

  /** `a b op`: the operator applied to the two numbers. */
  lemma {:induction false} BinaryValue(arith: Calculator, lib: MathLib, a: real, b: real, op: Op, v: real)
    requires !IsUnary(op) && ApplyBinary(arith, lib, op, a, b) == Ok(v)
    ensures Exec(arith, lib, [RNum(a), RNum(b), ROp(op)], []) == Ok([v])
    ensures RpnValue(arith, lib, [RNum(a), RNum(b), ROp(op)]) == Ok(v)
  {
    var q := [RNum(a), RNum(b), ROp(op)];
    assert q[1..] == [RNum(b), ROp(op)] && q[1..][1..] == [ROp(op)] && q[1..][1..][1..] == [];
    assert [] + [a] == [a] && [a] + [b] == [a, b];
    ExecStep(arith, lib, q, [], [a]);
    ExecStep(arith, lib, q[1..], [a], [a, b]);
    BinaryOperandOrder(arith, lib, [], a, b, op);
    assert [] + [a, b] == [a, b] && [] + [v] == [v];
    ExecStep(arith, lib, q[1..][1..], [a, b], [v]);
  }

  /** `c op` on a stack holding `v` alone. */
  lemma {:induction false} OperandValue(arith: Calculator, lib: MathLib, v: real, c: real, op: Op, w: real)
    requires !IsUnary(op) && ApplyBinary(arith, lib, op, v, c) == Ok(w)
    ensures Exec(arith, lib, [RNum(c), ROp(op)], [v]) == Ok([w])
  {
    var tail := [RNum(c), ROp(op)];
    assert tail[1..] == [ROp(op)] && tail[1..][1..] == [];
    assert [v] + [c] == [v, c];
    ExecStep(arith, lib, tail, [v], [v, c]);
    BinaryOperandOrder(arith, lib, [], v, c, op);
    assert [] + [v, c] == [v, c] && [] + [w] == [w];
    ExecStep(arith, lib, tail[1..], [v, c], [w]);
  }

  /** `a b op1 c op2`: the first operator groups the first two numbers. */
  lemma {:induction false} LeftGroupedValue(arith: Calculator, lib: MathLib, a: real, b: real, c: real, o1: Op, o2: Op, v: real, w: real)
    requires !IsUnary(o1) && !IsUnary(o2)
    requires ApplyBinary(arith, lib, o1, a, b) == Ok(v) && ApplyBinary(arith, lib, o2, v, c) == Ok(w)
    ensures RpnValue(arith, lib, [RNum(a), RNum(b), ROp(o1), RNum(c), ROp(o2)]) == Ok(w)
  {
    assert [RNum(a), RNum(b), ROp(o1), RNum(c), ROp(o2)] == [RNum(a), RNum(b), ROp(o1)] + [RNum(c), ROp(o2)];
    ExecAppend(arith, lib, [RNum(a), RNum(b), ROp(o1)], [RNum(c), ROp(o2)], []);
    BinaryValue(arith, lib, a, b, o1, v);
    OperandValue(arith, lib, v, c, o2, w);
  }

  /** `a b c op2 op1`: the second operator groups the last two numbers. */
  lemma {:induction false} RightGroupedValue(arith: Calculator, lib: MathLib, a: real, b: real, c: real, o1: Op, o2: Op, v: real, w: real)
    requires !IsUnary(o1) && !IsUnary(o2)
    requires ApplyBinary(arith, lib, o2, b, c) == Ok(v) && ApplyBinary(arith, lib, o1, a, v) == Ok(w)
    ensures RpnValue(arith, lib, [RNum(a), RNum(b), RNum(c), ROp(o2), ROp(o1)]) == Ok(w)
  {
    var q := [RNum(a), RNum(b), RNum(c), ROp(o2), ROp(o1)];
    assert q == [RNum(a)] + ([RNum(b), RNum(c), ROp(o2)] + [ROp(o1)]);
    ExecAppend(arith, lib, [RNum(a)], [RNum(b), RNum(c), ROp(o2)] + [ROp(o1)], []);
    assert [] + [a] == [a] && [RNum(a)][1..] == [];
    ExecStep(arith, lib, [RNum(a)], [], [a]);
    ExecAppend(arith, lib, [RNum(b), RNum(c), ROp(o2)], [ROp(o1)], [a]);
    InnerValue(arith, lib, a, b, c, o2, v);
    BinaryOperandOrder(arith, lib, [], a, v, o1);
    assert [] + [a, v] == [a, v] && [] + [w] == [w];
    assert [ROp(o1)][1..] == [];
    ExecStep(arith, lib, [ROp(o1)], [a, v], [w]);
  }

  /** `b c op` on a stack holding `a`. */
  lemma {:induction false} InnerValue(arith: Calculator, lib: MathLib, a: real, b: real, c: real, op: Op, v: real)
    requires !IsUnary(op) && ApplyBinary(arith, lib, op, b, c) == Ok(v)
    ensures Exec(arith, lib, [RNum(b), RNum(c), ROp(op)], [a]) == Ok([a, v])
  {
    var q := [RNum(b), RNum(c), ROp(op)];
    assert q[1..] == [RNum(c), ROp(op)] && q[1..][1..] == [ROp(op)] && q[1..][1..][1..] == [];
    assert [a] + [b] == [a, b] && [a, b] + [c] == [a, b, c];
    ExecStep(arith, lib, q, [a], [a, b]);
    ExecStep(arith, lib, q[1..], [a, b], [a, b, c]);
    BinaryOperandOrder(arith, lib, [a], b, c, op);
    assert [a] + [b, c] == [a, b, c] && [a] + [v] == [a, v];
    ExecStep(arith, lib, q[1..][1..], [a, b, c], [a, v]);
  }

  /** `a u`: the sign applied to a lone number. */
  lemma {:induction false} SignValue(arith: Calculator, lib: MathLib, a: real, u: Op)
    requires IsUnary(u)
    ensures Exec(arith, lib, [RNum(a), ROp(u)], []) == Ok([if u == Neg then -a else a])
  {
    var x := if u == Neg then -a else a;
    var q := [RNum(a), ROp(u)];
    assert q[1..] == [ROp(u)] && q[1..][1..] == [];
    assert [] + [a] == [a] && [] + [x] == [x];
    ExecStep(arith, lib, q, [], [a]);
    UnaryRule(arith, lib, [], a, u);
    ExecStep(arith, lib, q[1..], [a], [x]);
  }

  /** `a u b op`: the sign applies to its operand before the operator. */
  lemma {:induction false} SignedValue(arith: Calculator, lib: MathLib, a: real, b: real, u: Op, op: Op, w: real)
    requires IsUnary(u) && !IsUnary(op)
    requires ApplyBinary(arith, lib, op, if u == Neg then -a else a, b) == Ok(w)
    ensures RpnValue(arith, lib, [RNum(a), ROp(u), RNum(b), ROp(op)]) == Ok(w)
  {
    assert [RNum(a), ROp(u), RNum(b), ROp(op)] == [RNum(a), ROp(u)] + [RNum(b), ROp(op)];
    ExecAppend(arith, lib, [RNum(a), ROp(u)], [RNum(b), ROp(op)], []);
    SignValue(arith, lib, a, u);
    OperandValue(arith, lib, if u == Neg then -a else a, b, op, w);
  }
}
