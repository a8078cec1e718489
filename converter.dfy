/** The shunting-yard stage of ExpressionEvaluator (`ToRpn`): an operator
    stack, a parallel stack of argument counts (one per open parenthesis,
    `None` for a grouping parenthesis) and an output queue. Stacks are
    sequences whose last element is the top. */
module Converter {
  import opened Syntax
  import opened Numbers
  import opened Registry

  /** An entry of the operator stack: an operator, a function marker
      "fn:name", or an open parenthesis. */
  datatype Pending = StackOp(op: Op) | StackFn(name: string) | StackOpen

  datatype State = State(ops: seq<Pending>, counts: seq<Option<nat>>, output: seq<RpnToken>)

  function Last<T>(s: seq<T>): T
    requires |s| > 0
  {
    s[|s| - 1]
  }

  function Init<T>(s: seq<T>): seq<T>
    requires |s| > 0
  {
    s[..|s| - 1]
  }

  /** The number of open parentheses on an operator stack. */
  function Opens(ops: seq<Pending>): nat {
    if |ops| == 0 then 0
    else Opens(Init(ops)) + (if Last(ops).StackOpen? then 1 else 0)
  }

  /** The argument-count stack matches the operator stack: one count per open
      parenthesis, in the same order; a count is present exactly when its
      parenthesis sits directly on a function marker, and it is at least 1. */
  predicate Aligned(ops: seq<Pending>, counts: seq<Option<nat>>)
    decreases |ops|
  {
    if |ops| == 0 then |counts| == 0
    else if Last(ops).StackOpen? then
      && |counts| > 0
      && Aligned(Init(ops), Init(counts))
      && (Last(counts).Some? <==> (|ops| >= 2 && ops[|ops| - 2].StackFn?))
      && (Last(counts).Some? ==> Last(counts).value >= 1)
    else Aligned(Init(ops), counts)
  }

  /** Exactly one count per open parenthesis. */
  lemma {:induction false} AlignedCounts(ops: seq<Pending>, counts: seq<Option<nat>>)
    requires Aligned(ops, counts)
    ensures |counts| == Opens(ops)
    decreases |ops|
  {
    if |ops| > 0 {
      if Last(ops).StackOpen? {
        AlignedCounts(Init(ops), Init(counts));
      } else {
        AlignedCounts(Init(ops), counts);
      }
    }
  }

  /** What popping a stack entry into the queue enqueues. */
  function Emit(p: Pending): RpnToken
    requires !p.StackOpen?
  {
    if p.StackOp? then ROp(p.op) else RMarker(p.name)
  }

  /** Whether an incoming operator pops `top` first: a right-associative one
      on strictly higher precedence, a left-associative one on higher or
      equal precedence. */
  predicate Pops(incoming: Op, top: Op) {
    if IsRightAssociative(incoming) then Precedence(incoming) < Precedence(top)
    else Precedence(incoming) <= Precedence(top)
  }

  /** What popping the entries of `s` into the queue enqueues, top first. */
  function Emitted(s: seq<Pending>): seq<RpnToken>
    requires forall k :: 0 <= k < |s| ==> !s[k].StackOpen?
    decreases |s|
  {
    if |s| == 0 then [] else [Emit(Last(s))] + Emitted(Init(s))
  }

  /** Popping one more entry from below the ones already popped. */
  lemma EmittedSplit(ops: seq<Pending>, m: nat)
    requires m < |ops| && forall k :: m <= k < |ops| ==> !ops[k].StackOpen?
    ensures Emitted(ops[m..]) == [Emit(Last(ops))] + Emitted(Init(ops)[m..])
  {
    assert Last(ops[m..]) == Last(ops);
    assert Init(ops[m..]) == Init(ops)[m..];
  }

  /** The pop loop that runs before an operator is pushed: it pops the
      operators the incoming one does not bind tighter than. */
  function PopOperators(incoming: Op, ops: seq<Pending>, output: seq<RpnToken>): (r: (seq<Pending>, seq<RpnToken>))
    ensures |r.0| <= |ops| && r.0 == ops[..|r.0|]
    ensures forall k :: |r.0| <= k < |ops| ==> ops[k].StackOp?
    ensures r.1 == output + Emitted(ops[|r.0|..])
    decreases |ops|
  {
    if |ops| > 0 && Last(ops).StackOp? && Pops(incoming, Last(ops).op) then
      var r := PopOperators(incoming, Init(ops), output + [ROp(Last(ops).op)]);
      EmittedSplit(ops, |r.0|);
      r
    else
      assert ops[|ops|..] == [];
      (ops, output)
  }

  /** The pop loop pops exactly the operators the incoming one does not bind
      tighter than, and stops at the first one it does, or at a '(' or a
      function marker. */
  lemma {:induction false} PopOperatorsRule(incoming: Op, ops: seq<Pending>, output: seq<RpnToken>)
    ensures var r := PopOperators(incoming, ops, output);
      && (forall k :: |r.0| <= k < |ops| ==> Pops(incoming, ops[k].op))
      && (|r.0| == 0 || !Last(r.0).StackOp? || !Pops(incoming, Last(r.0).op))
    decreases |ops|
  {
    if |ops| > 0 && Last(ops).StackOp? && Pops(incoming, Last(ops).op) {
      var rest := Init(ops);
      var out := output + [ROp(Last(ops).op)];
      PopOperatorsRule(incoming, rest, out);
      var r := PopOperators(incoming, rest, out);
      assert PopOperators(incoming, ops, output) == r;
      forall k | |r.0| <= k < |ops|
        ensures Pops(incoming, ops[k].op)
      {
        if k < |rest| {
          assert rest[k] == ops[k];
        }
      }
    }
  }

  /** The operator stack cut back to its innermost '(' (empty if there is none). */
  function ToOpen(ops: seq<Pending>): (r: seq<Pending>)
    ensures |r| <= |ops| && r == ops[..|r|]
    ensures forall k :: |r| <= k < |ops| ==> !ops[k].StackOpen?
    ensures |r| == 0 || Last(r).StackOpen?
    decreases |ops|
  {
    if |ops| > 0 && !Last(ops).StackOpen? then ToOpen(Init(ops)) else ops
  }

  /** The pop loop of ')' and ',': everything above the innermost '(' goes
      to the queue, top first. */
  function PopToOpen(ops: seq<Pending>, output: seq<RpnToken>): (r: (seq<Pending>, seq<RpnToken>))
    ensures r.0 == ToOpen(ops)
    ensures r.1 == output + Emitted(ops[|r.0|..])
    decreases |ops|
  {
    if |ops| > 0 && !Last(ops).StackOpen? then
      var r := PopToOpen(Init(ops), output + [Emit(Last(ops))]);
      assert r.0 == ToOpen(ops) && |r.0| < |ops|;
      EmittedSplit(ops, |r.0|);
      assert r.1 == output + ([Emit(Last(ops))] + Emitted(Init(ops)[|r.0|..]));
      r
    else
      assert ops[|ops|..] == [];
      (ops, output)
  }

  /** Removing entries other than '(' from the top keeps the stacks aligned. */
  lemma {:induction false} AlignedPrefix(ops: seq<Pending>, counts: seq<Option<nat>>, n: nat)
    requires n <= |ops| && Aligned(ops, counts)
    requires forall k :: n <= k < |ops| ==> !ops[k].StackOpen?
    ensures Aligned(ops[..n], counts)
    decreases |ops| - n
  {
    if n < |ops| {
      var init := Init(ops);
      assert !Last(ops).StackOpen?;
      assert Aligned(init, counts);
      assert forall k :: n <= k < |init| ==> init[k] == ops[k];
      AlignedPrefix(init, counts, n);
      assert init[..n] == ops[..n];
    } else {
      assert ops[..n] == ops;
    }
  }

  /** Pushing an entry other than '(' keeps the stacks aligned. */
  lemma AlignedPush(ops: seq<Pending>, counts: seq<Option<nat>>, p: Pending)
    requires Aligned(ops, counts) && !p.StackOpen?
    ensures Aligned(ops + [p], counts)
  {
    assert Init(ops + [p]) == ops;
  }

  /** The innermost '(' is a call's argument list: it sits directly on a
      function marker. */
  predicate InCall(ops: seq<Pending>) {
    var rest := ToOpen(ops);
    |rest| >= 2 && rest[|rest| - 2].StackFn?
  }

  /** An operator token: pop what it does not bind tighter than, then push it. */
  function PushOp(st: State, op: Op): (r: State)
    requires Aligned(st.ops, st.counts)
    ensures Aligned(r.ops, r.counts)
  {
    var popped := PopOperators(op, st.ops, st.output);
    AlignedPrefix(st.ops, st.counts, |popped.0|);
    AlignedPush(popped.0, st.counts, StackOp(op));
    State(popped.0 + [StackOp(op)], st.counts, popped.1)
  }

  /** '(': pushed with a count of 1 when it opens a call's argument list,
      with no count when it only groups. */
  function Open(st: State): (r: State)
    requires Aligned(st.ops, st.counts)
    ensures Aligned(r.ops, r.counts)
  {
    var call := |st.ops| > 0 && Last(st.ops).StackFn?;
    var ops := st.ops + [StackOpen];
    assert Init(ops) == st.ops;
    State(ops, st.counts + [if call then Some(1) else None], st.output)
  }

  /** ')': pop to the matching '(', drop it and its count, and if a function
      marker is then on top, emit the call with that count. */
  function Close(st: State): (r: Result<State>)
    requires Aligned(st.ops, st.counts)
    ensures r.Ok? ==> Aligned(r.value.ops, r.value.counts)
  {
    var popped := PopToOpen(st.ops, st.output);
    var ops := popped.0;
    AlignedPrefix(st.ops, st.counts, |ops|);
    if |ops| == 0 then Err(MismatchedParentheses)
    else
      var argc := Last(st.counts);
      var counts := Init(st.counts);
      var rest := Init(ops);
      if |rest| > 0 && Last(rest).StackFn? then
        AlignedPrefix(rest, counts, |rest| - 1);
        assert rest[..|rest| - 1] == Init(rest);
        Ok(State(Init(rest), counts, popped.1 + [RCall(Last(rest).name, if argc.Some? then argc.value else 0)]))
      else
        Ok(State(rest, counts, popped.1))
  }

  /** ',': pop to the innermost '(' and count one more argument, provided
      that parenthesis is a call's. */
  function Separate(st: State): (r: Result<State>)
    requires Aligned(st.ops, st.counts)
    ensures r.Ok? ==> Aligned(r.value.ops, r.value.counts)
  {
    var popped := PopToOpen(st.ops, st.output);
    var ops := popped.0;
    AlignedPrefix(st.ops, st.counts, |ops|);
    if |st.counts| == 0 || Last(st.counts).None? then Err(MisplacedComma)
    else
      var counts := Init(st.counts) + [Some(Last(st.counts).value + 1)];
      assert Init(counts) == Init(st.counts);
      Ok(State(ops, counts, popped.1))
  }

  /** The conversion of one token. */
  function Step(st: State, t: Token): (r: Result<State>)
    requires Aligned(st.ops, st.counts)
    ensures r.Ok? ==> Aligned(r.value.ops, r.value.counts)
  {
    match t
    case Number(lexeme) =>
      var v := ParseLiteral(lexeme);
      if v.Some? then Ok(st.(output := st.output + [RNum(v.value)])) else Err(UnexpectedToken)
    case Func(name) =>
      if !IsKnown(name) then Err(UnknownFunction(name))
      else
        AlignedPush(st.ops, st.counts, StackFn(name));
        Ok(st.(ops := st.ops + [StackFn(name)]))
    case Operator(op) => Ok(PushOp(st, op))
    case LParen => Ok(Open(st))
    case RParen => Close(st)
    case Comma => Separate(st)
  }

  /** The loop that empties the operator stack at the end of the input. */
  function Drain(ops: seq<Pending>, output: seq<RpnToken>): (r: Result<seq<RpnToken>>)
    decreases |ops|
  {
    if |ops| == 0 then Ok(output)
    else match Last(ops)
      case StackOpen => Err(MismatchedParentheses)
      case StackFn(_) => Err(MissingCallParentheses)
      case StackOp(op) => Drain(Init(ops), output + [ROp(op)])
  }

  /** The conversion of `tokens[i..]` from state `st`, then the final drain. */
  function Run(tokens: seq<Token>, i: nat, st: State): Result<seq<RpnToken>>
    requires i <= |tokens| && Aligned(st.ops, st.counts)
    decreases |tokens| - i
  {
    if i == |tokens| then Drain(st.ops, st.output)
    else match Step(st, tokens[i])
      case Err(e) => Err(e)
      case Ok(next) => Run(tokens, i + 1, next)
  }

  /** The postfix queue of a token list. */
  function Postfix(tokens: seq<Token>): Result<seq<RpnToken>> {
    Run(tokens, 0, State([], [], []))
  }

  // ---------------------------------------------------------------------
  // The imperative converter

  /** The operator pop loop, then the push of the incoming operator. */
  method PushOperator(ops0: seq<Pending>, output0: seq<RpnToken>, op: Op)
    returns (ops: seq<Pending>, output: seq<RpnToken>)
    ensures |ops| > 0 && Last(ops) == StackOp(op) && (Init(ops), output) == PopOperators(op, ops0, output0)
  {
    ops, output := ops0, output0;
    while |ops| > 0 && Last(ops).StackOp?
      invariant PopOperators(op, ops, output) == PopOperators(op, ops0, output0)
      decreases |ops|
    {
      var top := Last(ops).op;
      if Pops(op, top) {
        output := output + [ROp(top)];
        ops := Init(ops);
      } else {
        break;
      }
    }
    ops := ops + [StackOp(op)];
    assert Init(ops) == ops[..|ops| - 1];
  }

  /** The pop loop of ')' and ','. */
  method PopUntilOpen(ops0: seq<Pending>, output0: seq<RpnToken>)
    returns (ops: seq<Pending>, output: seq<RpnToken>)
    ensures (ops, output) == PopToOpen(ops0, output0)
  {
    ops, output := ops0, output0;
    while |ops| > 0 && Last(ops) != StackOpen
      invariant PopToOpen(ops, output) == PopToOpen(ops0, output0)
      decreases |ops|
    {
      output := output + [Emit(Last(ops))];
      ops := Init(ops);
    }
  }

  /** The ')' branch of the conversion loop. */
  method CloseParen(st: State) returns (r: Result<State>)
    requires Aligned(st.ops, st.counts)
    ensures r == Close(st)
  {
    var ops, output := PopUntilOpen(st.ops, st.output);
    if |ops| == 0 {
      return Err(MismatchedParentheses);
    }
    AlignedPrefix(st.ops, st.counts, |ops|);
    ops := Init(ops);
    var counts := st.counts;
    var argc := Last(counts);
    counts := Init(counts);
    if |ops| > 0 && Last(ops).StackFn? {
      var fn := Last(ops).name;
      ops := Init(ops);
      var count := if argc.Some? then argc.value else 0;
      output := output + [RCall(fn, count)];
    }
    return Ok(State(ops, counts, output));
  }

  /** The ',' branch of the conversion loop. */
  method CommaSeparator(st: State) returns (r: Result<State>)
    requires Aligned(st.ops, st.counts)
    ensures r == Separate(st)
  {
    var ops, output := PopUntilOpen(st.ops, st.output);
    var counts := st.counts;
    if |counts| == 0 || Last(counts).None? {
      return Err(MisplacedComma);
    }
    counts := Init(counts) + [Some(Last(counts).value + 1)];
    return Ok(State(ops, counts, output));
  }

  /** The body of the conversion loop for one token. */
  method ConvertToken(st: State, t: Token) returns (r: Result<State>)
    requires Aligned(st.ops, st.counts)
    ensures r == Step(st, t)
  {
    var ops, counts, output := st.ops, st.counts, st.output;
    match t {
      case Number(lexeme) =>
        var v := ParseLiteral(lexeme);
        if v.None? {
          return Err(UnexpectedToken);
        }
        output := output + [RNum(v.value)];
      case Func(name) =>
        if !IsKnown(name) {
          return Err(UnknownFunction(name));
        }
        ops := ops + [StackFn(name)];
      case Operator(op) =>
        ops, output := PushOperator(ops, output, op);
        assert ops == Init(ops) + [StackOp(op)];
      case LParen =>
        if |ops| > 0 && Last(ops).StackFn? {
          ops := ops + [StackOpen];
          counts := counts + [Some(1)];
        } else {
          ops := ops + [StackOpen];
          counts := counts + [None];
        }
      case RParen =>
        r := CloseParen(st);
        return;
      case Comma =>
        r := CommaSeparator(st);
        return;
    }
    return Ok(State(ops, counts, output));
  }

  /** `ToRpn`: convert the token list to a postfix queue. */
  method ToRpn(tokens: seq<Token>) returns (r: Result<seq<RpnToken>>)
    ensures r == Postfix(tokens)
  {
    var st := State([], [], []);
    for i := 0 to |tokens|
      invariant Aligned(st.ops, st.counts)
      invariant Run(tokens, i, st) == Postfix(tokens)
    {
      var next := ConvertToken(st, tokens[i]);
      if next.Err? {
        return Err(next.error);
      }
      st := next.value;
    }
    var ops, output := st.ops, st.output;
    while |ops| > 0
      invariant Drain(ops, output) == Postfix(tokens)
      decreases |ops|
    {
      var top := Last(ops);
      ops := Init(ops);
      if top == StackOpen {
        return Err(MismatchedParentheses);
      }
      if top.StackFn? {
        return Err(MissingCallParentheses);
      }
      output := output + [ROp(top.op)];
    }
    return Ok(output);
  }

  // ---------------------------------------------------------------------
  // Properties of the conversion

  /** Cutting the stack back to its innermost '(' keeps every '('. */
  lemma {:induction false} ToOpenOpens(ops: seq<Pending>)
    ensures Opens(ToOpen(ops)) == Opens(ops)
    ensures ToOpen(ops) == [] <==> Opens(ops) == 0
    decreases |ops|
  {
    if |ops| > 0 && !Last(ops).StackOpen? {
      ToOpenOpens(Init(ops));
    }
  }

  /** A ',' is accepted exactly inside a call's argument list; at top level
      or directly inside a grouping parenthesis it is a misplaced comma.
      Inside a call it leaves the stack cut back to the call's '(' and one
      more argument counted. */
  lemma CommaRule(st: State)
    requires Aligned(st.ops, st.counts)
    ensures Step(st, Comma).Err? <==> !InCall(st.ops)
    ensures Step(st, Comma).Err? ==> Step(st, Comma).error == MisplacedComma
    ensures Step(st, Comma).Ok? ==>
      && |st.counts| > 0 && Last(st.counts).Some?
      && Step(st, Comma).value.ops == ToOpen(st.ops)
      && Last(Step(st, Comma).value.counts) == Some(Last(st.counts).value + 1)
  {
    var rest := ToOpen(st.ops);
    AlignedPrefix(st.ops, st.counts, |rest|);
  }

  /** A ')' with no '(' on the stack is a mismatched parenthesis; otherwise it
      closes exactly one '('. */
  lemma CloseRule(st: State)
    requires Aligned(st.ops, st.counts)
    ensures Step(st, RParen) == Err(MismatchedParentheses) <==> Opens(st.ops) == 0
    ensures Step(st, RParen).Ok? ==> Opens(Step(st, RParen).value.ops) == Opens(st.ops) - 1
  {
    var rest := ToOpen(st.ops);
    ToOpenOpens(st.ops);
    AlignedPrefix(st.ops, st.counts, |rest|);
    if rest != [] {
      var inner := Init(rest);
      assert Opens(rest) == Opens(inner) + 1;
      if |inner| > 0 && Last(inner).StackFn? {
        assert Opens(inner) == Opens(Init(inner));
      }
    }
  }

  /** The topmost entry of the operator stack that is not an operator. */
  function Blocker(ops: seq<Pending>): (r: Option<Pending>)
    ensures r.Some? ==> !r.value.StackOp?
    decreases |ops|
  {
    if |ops| == 0 then None
    else if Last(ops).StackOp? then Blocker(Init(ops))
    else Some(Last(ops))
  }

  /** The final drain emits the remaining operators top first when only
      operators are left; a '(' left open is a mismatched parenthesis and a
      function marker without its '(' a missing call parenthesis, whichever
      is nearer the top. */
  lemma {:induction false} DrainRule(ops: seq<Pending>, output: seq<RpnToken>)
    ensures Blocker(ops).None? ==>
      && (forall k :: 0 <= k < |ops| ==> ops[k].StackOp?)
      && Drain(ops, output) == Ok(output + Emitted(ops))
    ensures Blocker(ops) == Some(StackOpen) ==> Drain(ops, output) == Err(MismatchedParentheses)
    ensures Blocker(ops).Some? && Blocker(ops).value.StackFn? ==> Drain(ops, output) == Err(MissingCallParentheses)
    decreases |ops|
  {
    if |ops| > 0 && Last(ops).StackOp? {
      DrainRule(Init(ops), output + [ROp(Last(ops).op)]);
      if Blocker(ops).None? {
        assert forall k :: 0 <= k < |ops| - 1 ==> ops[k] == Init(ops)[k];
        assert Emitted(ops) == [ROp(Last(ops).op)] + Emitted(Init(ops));
        assert output + [ROp(Last(ops).op)] + Emitted(Init(ops)) == output + Emitted(ops);
      }
    } else if |ops| == 0 {
      assert output + Emitted(ops) == output;
    }
  }

  /** Function markers on the operator stack name functions of the table. */
  predicate MarkersKnown(ops: seq<Pending>) {
    forall k :: 0 <= k < |ops| && ops[k].StackFn? ==> IsKnown(ops[k].name)
  }

  /** Every call in the queue names a function of the table and passes at
      least one argument. */
  predicate CallsWellFormed(output: seq<RpnToken>) {
    forall k :: 0 <= k < |output| && output[k].RCall? ==> output[k].argc >= 1 && IsKnown(output[k].name)
  }

  lemma {:induction false} EmittedNoCalls(s: seq<Pending>)
    requires forall k :: 0 <= k < |s| ==> !s[k].StackOpen?
    ensures forall k :: 0 <= k < |Emitted(s)| ==> !Emitted(s)[k].RCall?
    decreases |s|
  {
    if |s| > 0 {
      EmittedNoCalls(Init(s));
    }
  }

  lemma CloseCallsWellFormed(st: State)
    requires Aligned(st.ops, st.counts) && MarkersKnown(st.ops) && CallsWellFormed(st.output)
    requires Close(st).Ok?
    ensures MarkersKnown(Close(st).value.ops) && CallsWellFormed(Close(st).value.output)
  {
    var popped := PopToOpen(st.ops, st.output);
    PoppedCallsWellFormed(st.output, st.ops[|popped.0|..]);
    AlignedPrefix(st.ops, st.counts, |popped.0|);
  }

  /** Popped entries add no calls to the queue. */
  lemma PoppedCallsWellFormed(output: seq<RpnToken>, popped: seq<Pending>)
    requires CallsWellFormed(output)
    requires forall k :: 0 <= k < |popped| ==> !popped[k].StackOpen?
    ensures CallsWellFormed(output + Emitted(popped))
  {
    EmittedNoCalls(popped);
    var out := output + Emitted(popped);
    assert forall k :: |output| <= k < |out| ==> out[k] == Emitted(popped)[k - |output|];
  }

  lemma PushOpCallsWellFormed(st: State, op: Op)
    requires Aligned(st.ops, st.counts) && MarkersKnown(st.ops) && CallsWellFormed(st.output)
    ensures MarkersKnown(PushOp(st, op).ops) && CallsWellFormed(PushOp(st, op).output)
  {
    var popped := PopOperators(op, st.ops, st.output);
    var ops := popped.0 + [StackOp(op)];
    assert PushOp(st, op) == State(ops, st.counts, popped.1);
    assert CallsWellFormed(popped.1) by {
      PoppedCallsWellFormed(st.output, st.ops[|popped.0|..]);
    }
    forall k | 0 <= k < |ops| && ops[k].StackFn?
      ensures IsKnown(ops[k].name)
    {
      assert k < |popped.0| && ops[k] == st.ops[k];
    }
  }

  lemma SeparateCallsWellFormed(st: State)
    requires Aligned(st.ops, st.counts) && MarkersKnown(st.ops) && CallsWellFormed(st.output)
    requires Separate(st).Ok?
    ensures MarkersKnown(Separate(st).value.ops) && CallsWellFormed(Separate(st).value.output)
  {
    var popped := PopToOpen(st.ops, st.output);
    PoppedCallsWellFormed(st.output, st.ops[|popped.0|..]);
  }

  lemma StepCallsWellFormed(st: State, t: Token)
    requires Aligned(st.ops, st.counts) && MarkersKnown(st.ops) && CallsWellFormed(st.output)
    requires Step(st, t).Ok?
    ensures MarkersKnown(Step(st, t).value.ops) && CallsWellFormed(Step(st, t).value.output)
  {
    match t
    case Operator(op) =>
      PushOpCallsWellFormed(st, op);
    case RParen =>
      CloseCallsWellFormed(st);
    case Comma =>
      SeparateCallsWellFormed(st);
    case _ =>
  }

  lemma {:induction false} RunCallsWellFormed(tokens: seq<Token>, i: nat, st: State)
    requires i <= |tokens| && Aligned(st.ops, st.counts)
    requires MarkersKnown(st.ops) && CallsWellFormed(st.output)
    ensures Run(tokens, i, st).Ok? ==> CallsWellFormed(Run(tokens, i, st).value)
    decreases |tokens| - i
  {
    if i == |tokens| {
      DrainRule(st.ops, st.output);
      if Blocker(st.ops).None? {
        EmittedNoCalls(st.ops);
        var out := st.output + Emitted(st.ops);
        assert forall k :: |st.output| <= k < |out| ==> out[k] == Emitted(st.ops)[k - |st.output|];
      }
    } else if Step(st, tokens[i]).Ok? {
      StepCallsWellFormed(st, tokens[i]);
      RunCallsWellFormed(tokens, i + 1, Step(st, tokens[i]).value);
    }
  }

  /** Unknown functions are rejected during conversion, and a call paren's
      count starts at 1, so every call reaching the evaluator names a known
      function and passes at least one argument. */
  lemma PostfixCallsWellFormed(tokens: seq<Token>)
    ensures Postfix(tokens).Ok? ==> CallsWellFormed(Postfix(tokens).value)
  {
    RunCallsWellFormed(tokens, 0, State([], [], []));
  }

  /** One token of the conversion, inside the run over all tokens. */
  lemma {:induction false} RunStep(ts: seq<Token>, i: nat, st: State, next: State)
    requires i < |ts| && Aligned(st.ops, st.counts)
    requires Step(st, ts[i]) == Ok(next)
    ensures Aligned(next.ops, next.counts)
    ensures Run(ts, i, st) == Run(ts, i + 1, next)
  {
  }

  /** A number goes straight to the queue. */
  lemma StepNumber(st: State, x: string)
    requires Aligned(st.ops, st.counts) && ParseLiteral(x).Some?
    ensures Step(st, Number(x)) == Ok(State(st.ops, st.counts, st.output + [RNum(ParseLiteral(x).value)]))
  {
  }

  /** An operator that pops nothing is pushed. */
  lemma StepPush(st: State, op: Op)
    requires Aligned(st.ops, st.counts)
    requires |st.ops| == 0 || !Last(st.ops).StackOp? || !Pops(op, Last(st.ops).op)
    ensures Step(st, Operator(op)) == Ok(State(st.ops + [StackOp(op)], st.counts, st.output))
  {
    assert st.ops[|st.ops|..] == [];
  }

  /** An operator that pops exactly the operator on top replaces it. */
  lemma StepPopOne(st: State, op: Op, rest: seq<Pending>, top: Op)
    requires Aligned(st.ops, st.counts) && st.ops == rest + [StackOp(top)] && Pops(op, top)
    requires |rest| == 0 || !Last(rest).StackOp? || !Pops(op, Last(rest).op)
    ensures Step(st, Operator(op)) == Ok(State(rest + [StackOp(op)], st.counts, st.output + [ROp(top)]))
  {
    assert Init(st.ops) == rest;
    assert rest[|rest|..] == [];
    assert PopOperators(op, st.ops, st.output) == PopOperators(op, rest, st.output + [ROp(top)]);
  }

  /** A known function's marker is pushed. */
  lemma StepFunc(st: State, name: string)
    requires Aligned(st.ops, st.counts) && IsKnown(name)
    ensures Step(st, Func(name)) == Ok(State(st.ops + [StackFn(name)], st.counts, st.output))
  {
  }

  /** A '(' on a function marker is pushed with count 1. */
  lemma StepOpenCall(st: State)
    requires Aligned(st.ops, st.counts) && |st.ops| > 0 && Last(st.ops).StackFn?
    ensures Step(st, LParen) == Ok(State(st.ops + [StackOpen], st.counts + [Some(1)], st.output))
  {
  }

  /** Any other '(' is pushed with no count. */
  lemma StepOpenGroup(st: State)
    requires Aligned(st.ops, st.counts) && (|st.ops| == 0 || !Last(st.ops).StackFn?)
    ensures Step(st, LParen) == Ok(State(st.ops + [StackOpen], st.counts + [None], st.output))
  {
  }

  /** A ',' directly inside a call's '(' counts one more argument. */
  lemma StepSeparate(st: State, cs: seq<Option<nat>>, n: nat)
    requires Aligned(st.ops, st.counts) && |st.ops| > 0 && Last(st.ops) == StackOpen
    requires st.counts == cs + [Some(n)]
    ensures Step(st, Comma) == Ok(State(st.ops, cs + [Some(n + 1)], st.output))
  {
    assert Init(st.counts) == cs;
    assert st.ops[|st.ops|..] == [];
  }

  /** A ')' directly after a call's '(' emits the call with its count. */
  lemma StepCloseCall(st: State, rest: seq<Pending>, name: string, cs: seq<Option<nat>>, n: nat)
    requires Aligned(st.ops, st.counts)
    requires st.ops == rest + [StackFn(name), StackOpen] && st.counts == cs + [Some(n)]
    ensures Step(st, RParen) == Ok(State(rest, cs, st.output + [RCall(name, n)]))
  {
    assert st.ops[|st.ops|..] == [];
    assert Init(st.ops) == rest + [StackFn(name)];
    assert Init(Init(st.ops)) == rest;
    assert Init(st.counts) == cs;
  }

  /** A ')' directly after a grouping '(' just removes it. */
  lemma StepCloseGroup(st: State, rest: seq<Pending>, cs: seq<Option<nat>>)
    requires Aligned(st.ops, st.counts)
    requires st.ops == rest + [StackOpen] && st.counts == cs + [None]
    requires |rest| == 0 || !Last(rest).StackFn?
    ensures Step(st, RParen) == Ok(State(rest, cs, st.output))
  {
    assert st.ops[|st.ops|..] == [];
    assert Init(st.ops) == rest;
    assert Init(st.counts) == cs;
  }

  // One token of the run, for each rule above.

  lemma {:induction false} RunNumber(ts: seq<Token>, i: nat, st: State, x: string)
    requires i < |ts| && ts[i] == Number(x) && Aligned(st.ops, st.counts) && ParseLiteral(x).Some?
    ensures Run(ts, i, st) == Run(ts, i + 1, State(st.ops, st.counts, st.output + [RNum(ParseLiteral(x).value)]))
  {
    StepNumber(st, x);
    RunStep(ts, i, st, State(st.ops, st.counts, st.output + [RNum(ParseLiteral(x).value)]));
  }

  lemma {:induction false} RunPush(ts: seq<Token>, i: nat, st: State, op: Op)
    requires i < |ts| && ts[i] == Operator(op) && Aligned(st.ops, st.counts)
    requires |st.ops| == 0 || !Last(st.ops).StackOp? || !Pops(op, Last(st.ops).op)
    ensures Aligned(st.ops + [StackOp(op)], st.counts)
    ensures Run(ts, i, st) == Run(ts, i + 1, State(st.ops + [StackOp(op)], st.counts, st.output))
  {
    StepPush(st, op);
    RunStep(ts, i, st, State(st.ops + [StackOp(op)], st.counts, st.output));
  }

  lemma {:induction false} RunPopOne(ts: seq<Token>, i: nat, st: State, op: Op, rest: seq<Pending>, top: Op)
    requires i < |ts| && ts[i] == Operator(op)
    requires Aligned(st.ops, st.counts) && st.ops == rest + [StackOp(top)] && Pops(op, top)
    requires |rest| == 0 || !Last(rest).StackOp? || !Pops(op, Last(rest).op)
    ensures Aligned(rest + [StackOp(op)], st.counts)
    ensures Run(ts, i, st) == Run(ts, i + 1, State(rest + [StackOp(op)], st.counts, st.output + [ROp(top)]))
  {
    StepPopOne(st, op, rest, top);
    RunStep(ts, i, st, State(rest + [StackOp(op)], st.counts, st.output + [ROp(top)]));
  }

  lemma {:induction false} RunFunc(ts: seq<Token>, i: nat, st: State, name: string)
    requires i < |ts| && ts[i] == Func(name) && Aligned(st.ops, st.counts) && IsKnown(name)
    ensures Aligned(st.ops + [StackFn(name)], st.counts)
    ensures Run(ts, i, st) == Run(ts, i + 1, State(st.ops + [StackFn(name)], st.counts, st.output))
  {
    StepFunc(st, name);
    RunStep(ts, i, st, State(st.ops + [StackFn(name)], st.counts, st.output));
  }

  lemma {:induction false} RunOpenCall(ts: seq<Token>, i: nat, st: State)
    requires i < |ts| && ts[i] == LParen && Aligned(st.ops, st.counts) && |st.ops| > 0 && Last(st.ops).StackFn?
    ensures Aligned(st.ops + [StackOpen], st.counts + [Some(1)])
    ensures Run(ts, i, st) == Run(ts, i + 1, State(st.ops + [StackOpen], st.counts + [Some(1)], st.output))
  {
    StepOpenCall(st);
    RunStep(ts, i, st, State(st.ops + [StackOpen], st.counts + [Some(1)], st.output));
  }

  lemma {:induction false} RunSeparate(ts: seq<Token>, i: nat, st: State, cs: seq<Option<nat>>, n: nat)
    requires i < |ts| && ts[i] == Comma
    requires Aligned(st.ops, st.counts) && |st.ops| > 0 && Last(st.ops) == StackOpen
    requires st.counts == cs + [Some(n)]
    ensures Aligned(st.ops, cs + [Some(n + 1)])
    ensures Run(ts, i, st) == Run(ts, i + 1, State(st.ops, cs + [Some(n + 1)], st.output))
  {
    StepSeparate(st, cs, n);
    RunStep(ts, i, st, State(st.ops, cs + [Some(n + 1)], st.output));
  }

  lemma {:induction false} RunCloseCall(ts: seq<Token>, i: nat, st: State, rest: seq<Pending>, name: string, cs: seq<Option<nat>>, n: nat)
    requires i < |ts| && ts[i] == RParen && Aligned(st.ops, st.counts)
    requires st.ops == rest + [StackFn(name), StackOpen] && st.counts == cs + [Some(n)]
    ensures Aligned(rest, cs)
    ensures Run(ts, i, st) == Run(ts, i + 1, State(rest, cs, st.output + [RCall(name, n)]))
  {
    StepCloseCall(st, rest, name, cs, n);
    RunStep(ts, i, st, State(rest, cs, st.output + [RCall(name, n)]));
  }

  /** The end of the input with only operators left: they are emitted, top first. */
  lemma {:induction false} RunDone(ts: seq<Token>, st: State)
    requires Aligned(st.ops, st.counts) && Blocker(st.ops).None?
    ensures forall k :: 0 <= k < |st.ops| ==> st.ops[k].StackOp?
    ensures Run(ts, |ts|, st) == Ok(st.output + Emitted(st.ops))
  {
    DrainRule(st.ops, st.output);
  }

  /** The end of the input with one operator left. */
  lemma {:induction false} DrainOne(ts: seq<Token>, op: Op, out: seq<RpnToken>)
    ensures Aligned([StackOp(op)], [])
    ensures Run(ts, |ts|, State([StackOp(op)], [], out)) == Ok(out + [ROp(op)])
  {
    assert Last([StackOp(op)]) == StackOp(op) && Init([StackOp(op)]) == [];
    assert Drain([StackOp(op)], out) == Drain([], out + [ROp(op)]);
  }

  /** The end of the input with two operators left: the top one first. */
  lemma {:induction false} DrainTwo(ts: seq<Token>, o1: Op, o2: Op, out: seq<RpnToken>)
    ensures Aligned([StackOp(o1), StackOp(o2)], [])
    ensures Run(ts, |ts|, State([StackOp(o1), StackOp(o2)], [], out)) == Ok(out + [ROp(o2), ROp(o1)])
  {
    assert Last([StackOp(o1), StackOp(o2)]) == StackOp(o2) && Init([StackOp(o1), StackOp(o2)]) == [StackOp(o1)];
    assert Last([StackOp(o1)]) == StackOp(o1) && Init([StackOp(o1)]) == [];
    assert Drain([StackOp(o1), StackOp(o2)], out) == Drain([StackOp(o1)], out + [ROp(o2)]);
    assert Drain([StackOp(o1)], out + [ROp(o2)]) == Drain([], out + [ROp(o2)] + [ROp(o1)]);
    assert out + [ROp(o2)] + [ROp(o1)] == out + [ROp(o2), ROp(o1)];
  }

  /** The conversion of a number, an operator and a number from the start. */
  lemma {:induction false} RunOperand(ts: seq<Token>, x: string, o: Op, y: string)
    requires |ts| >= 3 && ts[0] == Number(x) && ts[1] == Operator(o) && ts[2] == Number(y)
    requires ParseLiteral(x).Some? && ParseLiteral(y).Some?
    ensures Run(ts, 0, State([], [], [])) ==
      Run(ts, 3, State([StackOp(o)], [], [RNum(ParseLiteral(x).value), RNum(ParseLiteral(y).value)]))
  {
    var a, b := RNum(ParseLiteral(x).value), RNum(ParseLiteral(y).value);
    assert [] + [a] == [a] && [] + [StackOp(o)] == [StackOp(o)] && [a] + [b] == [a, b];
    RunNumber(ts, 0, State([], [], []), x);
    RunPush(ts, 1, State([], [], [a]), o);
    RunNumber(ts, 2, State([StackOp(o)], [], [a]), y);
  }

  /** The second operator pops the first, then the last number. */
  lemma {:induction false} PoppedOperand(ts: seq<Token>, z: string, o1: Op, o2: Op, out: seq<RpnToken>)
    requires |ts| == 5 && ts[3] == Operator(o2) && ts[4] == Number(z) && ParseLiteral(z).Some? && Pops(o2, o1)
    ensures Aligned([StackOp(o1)], []) && Aligned([StackOp(o2)], [])
    ensures Run(ts, 3, State([StackOp(o1)], [], out)) ==
      Run(ts, 5, State([StackOp(o2)], [], out + [ROp(o1)] + [RNum(ParseLiteral(z).value)]))
  {
    var s1 := State([StackOp(o2)], [], out + [ROp(o1)]);
    assert [] + [StackOp(o1)] == [StackOp(o1)] && [] + [StackOp(o2)] == [StackOp(o2)];
    RunPopOne(ts, 3, State([StackOp(o1)], [], out), o2, [], o1);
    RunNumber(ts, 4, s1, z);
  }

  /** The second operator pops the first, then the last number and the drain. */
  lemma {:induction false} ChainPopped(ts: seq<Token>, z: string, o1: Op, o2: Op, a: RpnToken, b: RpnToken)
    requires |ts| == 5 && ts[3] == Operator(o2) && ts[4] == Number(z) && ParseLiteral(z).Some? && Pops(o2, o1)
    ensures Aligned([StackOp(o1)], [])
    ensures Run(ts, 3, State([StackOp(o1)], [], [a, b])) ==
      Ok([a, b, ROp(o1), RNum(ParseLiteral(z).value), ROp(o2)])
  {
    var c := RNum(ParseLiteral(z).value);
    PoppedOperand(ts, z, o1, o2, [a, b]);
    DrainOne(ts, o2, [a, b] + [ROp(o1)] + [c]);
    assert [a, b] + [ROp(o1)] + [c] + [ROp(o2)] == [a, b, ROp(o1), c, ROp(o2)];
  }

  /** The second operator is pushed above the first, then the last number. */
  lemma {:induction false} StackedOperand(ts: seq<Token>, z: string, o1: Op, o2: Op, out: seq<RpnToken>)
    requires |ts| == 5 && ts[3] == Operator(o2) && ts[4] == Number(z) && ParseLiteral(z).Some? && !Pops(o2, o1)
    ensures Aligned([StackOp(o1)], []) && Aligned([StackOp(o1), StackOp(o2)], [])
    ensures Run(ts, 3, State([StackOp(o1)], [], out)) ==
      Run(ts, 5, State([StackOp(o1), StackOp(o2)], [], out + [RNum(ParseLiteral(z).value)]))
  {
    assert [StackOp(o1)] + [StackOp(o2)] == [StackOp(o1), StackOp(o2)];
    RunPush(ts, 3, State([StackOp(o1)], [], out), o2);
    RunNumber(ts, 4, State([StackOp(o1), StackOp(o2)], [], out), z);
  }

  /** The second operator is pushed above the first, then the last number
      and the drain. */
  lemma {:induction false} ChainStacked(ts: seq<Token>, z: string, o1: Op, o2: Op, a: RpnToken, b: RpnToken)
    requires |ts| == 5 && ts[3] == Operator(o2) && ts[4] == Number(z) && ParseLiteral(z).Some? && !Pops(o2, o1)
    ensures Aligned([StackOp(o1)], [])
    ensures Run(ts, 3, State([StackOp(o1)], [], [a, b])) ==
      Ok([a, b, RNum(ParseLiteral(z).value), ROp(o2), ROp(o1)])
  {
    var c := RNum(ParseLiteral(z).value);
    StackedOperand(ts, z, o1, o2, [a, b]);
    DrainTwo(ts, o1, o2, [a, b] + [c]);
    assert [a, b] + [c] + [ROp(o2), ROp(o1)] == [a, b, c, ROp(o2), ROp(o1)];
  }

  /** After the first operator: the second one either pops it or is
      stacked above it. */
  lemma {:induction false} ChainTail(ts: seq<Token>, z: string, o1: Op, o2: Op, a: RpnToken, b: RpnToken)
    requires |ts| == 5 && ts[3] == Operator(o2) && ts[4] == Number(z) && ParseLiteral(z).Some?
    ensures Aligned([StackOp(o1)], [])
    ensures var c := RNum(ParseLiteral(z).value);
      Run(ts, 3, State([StackOp(o1)], [], [a, b])) ==
        if Pops(o2, o1) then Ok([a, b, ROp(o1), c, ROp(o2)]) else Ok([a, b, c, ROp(o2), ROp(o1)])
  {
    if Pops(o2, o1) {
      ChainPopped(ts, z, o1, o2, a, b);
    } else {
      ChainStacked(ts, z, o1, o2, a, b);
    }
  }

  /** Two operators between three numbers: the second pops the first, so
      that the first groups its operands first, exactly when `Pops` says so;
      otherwise the second operator's operands are grouped first. */
  lemma {:induction false} BinaryChain(ts: seq<Token>, x: string, y: string, z: string, o1: Op, o2: Op, a: real, b: real, c: real)
    requires |ts| == 5 && ts[0] == Number(x) && ts[1] == Operator(o1) && ts[2] == Number(y)
    requires ts[3] == Operator(o2) && ts[4] == Number(z)
    requires ParseLiteral(x) == Some(a) && ParseLiteral(y) == Some(b) && ParseLiteral(z) == Some(c)
    ensures Postfix(ts) ==
      Ok(if Pops(o2, o1) then [RNum(a), RNum(b), ROp(o1), RNum(c), ROp(o2)] else [RNum(a), RNum(b), RNum(c), ROp(o2), ROp(o1)])
  {
    RunOperand(ts, x, o1, y);
    ChainTail(ts, z, o1, o2, RNum(a), RNum(b));
  }

  /** A sign at the start of the input, then its operand. */
  lemma {:induction false} SignOperand(ts: seq<Token>, u: Op, x: string)
    requires |ts| >= 2 && ts[0] == Operator(u) && ts[1] == Number(x) && ParseLiteral(x).Some?
    ensures Aligned([StackOp(u)], [])
    ensures Postfix(ts) == Run(ts, 2, State([StackOp(u)], [], [RNum(ParseLiteral(x).value)]))
  {
    var a := RNum(ParseLiteral(x).value);
    assert [] + [StackOp(u)] == [StackOp(u)] && [] + [a] == [a];
    RunPush(ts, 0, State([], [], []), u);
    RunNumber(ts, 1, State([StackOp(u)], [], []), x);
  }

  /** A binary operator after a signed operand pops the sign, then the
      last number. */
  lemma {:induction false} SignPoppedOperand(ts: seq<Token>, u: Op, o: Op, y: string, a: RpnToken)
    requires |ts| == 4 && ts[2] == Operator(o) && ts[3] == Number(y) && ParseLiteral(y).Some?
    requires IsUnary(u) && !IsUnary(o)
    ensures Aligned([StackOp(u)], []) && Aligned([StackOp(o)], [])
    ensures Run(ts, 2, State([StackOp(u)], [], [a])) ==
      Run(ts, 4, State([StackOp(o)], [], [a, ROp(u)] + [RNum(ParseLiteral(y).value)]))
  {
    assert [] + [StackOp(u)] == [StackOp(u)] && [] + [StackOp(o)] == [StackOp(o)] && [a] + [ROp(u)] == [a, ROp(u)];
    RunPopOne(ts, 2, State([StackOp(u)], [], [a]), o, [], u);
    RunNumber(ts, 3, State([StackOp(o)], [], [a, ROp(u)]), y);
  }

  /** A binary operator after a signed operand pops the sign, then the last
      number and the drain. */
  lemma {:induction false} SignPopped(ts: seq<Token>, u: Op, o: Op, y: string, a: RpnToken)
    requires |ts| == 4 && ts[2] == Operator(o) && ts[3] == Number(y) && ParseLiteral(y).Some?
    requires IsUnary(u) && !IsUnary(o)
    ensures Aligned([StackOp(u)], [])
    ensures Run(ts, 2, State([StackOp(u)], [], [a])) == Ok([a, ROp(u), RNum(ParseLiteral(y).value), ROp(o)])
  {
    var b := RNum(ParseLiteral(y).value);
    SignPoppedOperand(ts, u, o, y, a);
    DrainOne(ts, o, [a, ROp(u)] + [b]);
    assert [a, ROp(u)] + [b] + [ROp(o)] == [a, ROp(u), b, ROp(o)];
  }

  /** A sign binds tighter than any binary operator that follows its
      operand: `-2^2` is `(-2)^2`. */
  lemma {:induction false} SignBindsTighter(ts: seq<Token>, x: string, y: string, u: Op, o: Op, a: real, b: real)
    requires |ts| == 4 && ts[0] == Operator(u) && ts[1] == Number(x) && ts[2] == Operator(o) && ts[3] == Number(y)
    requires ParseLiteral(x) == Some(a) && ParseLiteral(y) == Some(b)
    requires IsUnary(u) && !IsUnary(o)
    ensures Postfix(ts) == Ok([RNum(a), ROp(u), RNum(b), ROp(o)])
  {
    SignOperand(ts, u, x);
    SignPopped(ts, u, o, y, RNum(a));
  }

  /** The stacks inside a call's parentheses, with `n` arguments counted. */
  lemma InsideCall(f: string, n: nat)
    requires n >= 1
    ensures Aligned([StackFn(f), StackOpen], [Some(n)])
  {
    assert Init([StackFn(f), StackOpen]) == [StackFn(f)] && Init([Some(n)]) == [];
    assert Init([StackFn(f)]) == [];
  }

  /** The opening of a call: the marker, then its '(' with count 1. */
  lemma {:induction false} CallOpens(ts: seq<Token>, f: string)
    requires |ts| >= 2 && ts[0] == Func(f) && ts[1] == LParen && IsKnown(f)
    ensures Aligned([StackFn(f), StackOpen], [Some(1)])
    ensures Postfix(ts) == Run(ts, 2, State([StackFn(f), StackOpen], [Some(1)], []))
  {
    assert [] + [StackFn(f)] == [StackFn(f)];
    assert [StackFn(f)] + [StackOpen] == [StackFn(f), StackOpen] && [] + [Some(1)] == [Some(1)];
    RunFunc(ts, 0, State([], [], []), f);
    RunOpenCall(ts, 1, State([StackFn(f)], [], []));
  }

  /** A call argument followed by ',': one more value, one more argument. */
  lemma {:induction false} CallArgument(ts: seq<Token>, i: nat, f: string, x: string, n: nat, out: seq<RpnToken>)
    requires i + 2 <= |ts| && ts[i] == Number(x) && ts[i + 1] == Comma && ParseLiteral(x).Some? && n >= 1
    ensures Aligned([StackFn(f), StackOpen], [Some(n)]) && Aligned([StackFn(f), StackOpen], [Some(n + 1)])
    ensures Run(ts, i, State([StackFn(f), StackOpen], [Some(n)], out)) ==
      Run(ts, i + 2, State([StackFn(f), StackOpen], [Some(n + 1)], out + [RNum(ParseLiteral(x).value)]))
  {
    var ops := [StackFn(f), StackOpen];
    InsideCall(f, n);
    InsideCall(f, n + 1);
    assert Last(ops) == StackOpen;
    assert [] + [Some(n)] == [Some(n)] && [] + [Some(n + 1)] == [Some(n + 1)];
    RunNumber(ts, i, State(ops, [Some(n)], out), x);
    RunSeparate(ts, i + 1, State(ops, [Some(n)], out + [RNum(ParseLiteral(x).value)]), [], n);
  }

  /** The last argument of a call and its ')': the call is emitted. */
  lemma {:induction false} LastArgument(ts: seq<Token>, f: string, x: string, n: nat, out: seq<RpnToken>)
    requires |ts| >= 2 && ts[|ts| - 2] == Number(x) && ts[|ts| - 1] == RParen && ParseLiteral(x).Some? && n >= 1
    ensures Aligned([StackFn(f), StackOpen], [Some(n)])
    ensures Run(ts, |ts| - 2, State([StackFn(f), StackOpen], [Some(n)], out)) ==
      Run(ts, |ts|, State([], [], out + [RNum(ParseLiteral(x).value)] + [RCall(f, n)]))
  {
    var ops := [StackFn(f), StackOpen];
    var v := RNum(ParseLiteral(x).value);
    InsideCall(f, n);
    assert ops == [] + [StackFn(f), StackOpen] && [Some(n)] == [] + [Some(n)];
    RunNumber(ts, |ts| - 2, State(ops, [Some(n)], out), x);
    RunCloseCall(ts, |ts| - 1, State(ops, [Some(n)], out + [v]), [], f, [], n);
  }

  /** The last argument of a call with `n` arguments and the ')' that ends
      the input: the call is emitted with count `n`. */
  lemma {:induction false} CallCloses(ts: seq<Token>, f: string, x: string, n: nat, out: seq<RpnToken>)
    requires |ts| >= 2 && ts[|ts| - 2] == Number(x) && ts[|ts| - 1] == RParen && ParseLiteral(x).Some? && n >= 1
    ensures Aligned([StackFn(f), StackOpen], [Some(n)])
    ensures Run(ts, |ts| - 2, State([StackFn(f), StackOpen], [Some(n)], out)) ==
      Ok(out + [RNum(ParseLiteral(x).value), RCall(f, n)])
  {
    var v := RNum(ParseLiteral(x).value);
    LastArgument(ts, f, x, n, out);
    assert Run(ts, |ts|, State([], [], out + [v] + [RCall(f, n)])) == Ok(out + [v] + [RCall(f, n)]);
    assert out + [v] + [RCall(f, n)] == out + [v, RCall(f, n)];
  }

  /** The second and third arguments of a three-argument call. */
  lemma {:induction false} CallTail(ts: seq<Token>, f: string, y: string, z: string, a: RpnToken)
    requires |ts| == 8 && ts[4] == Number(y) && ts[5] == Comma && ts[6] == Number(z) && ts[7] == RParen
    requires ParseLiteral(y).Some? && ParseLiteral(z).Some?
    ensures Aligned([StackFn(f), StackOpen], [Some(2)])
    ensures Run(ts, 4, State([StackFn(f), StackOpen], [Some(2)], [a])) ==
      Ok([a, RNum(ParseLiteral(y).value), RNum(ParseLiteral(z).value), RCall(f, 3)])
  {
    var b, c := RNum(ParseLiteral(y).value), RNum(ParseLiteral(z).value);
    assert |ts| - 2 == 4 + 2;
    CallArgument(ts, 4, f, y, 2, [a]);
    CallCloses(ts, f, z, 3, [a] + [b]);
    assert [a] + [b] + [c, RCall(f, 3)] == [a, b, c, RCall(f, 3)];
  }

  /** A call with three arguments, as in `max(1, 5, 3)`: the call is emitted
      after its arguments, with count 3. */
  lemma {:induction false} ThreeArgumentCall(ts: seq<Token>, f: string, x: string, y: string, z: string)
    requires |ts| == 8 && ts[0] == Func(f) && ts[1] == LParen && ts[2] == Number(x) && ts[3] == Comma
    requires ts[4] == Number(y) && ts[5] == Comma && ts[6] == Number(z) && ts[7] == RParen
    requires IsKnown(f) && ParseLiteral(x).Some? && ParseLiteral(y).Some? && ParseLiteral(z).Some?
    ensures Postfix(ts) ==
      Ok([RNum(ParseLiteral(x).value), RNum(ParseLiteral(y).value), RNum(ParseLiteral(z).value), RCall(f, 3)])
  {
    var a := RNum(ParseLiteral(x).value);
    CallOpens(ts, f);
    CallArgument(ts, 2, f, x, 1, []);
    assert [] + [a] == [a];
    CallTail(ts, f, y, z, a);
  }

  /** A call with no arguments, as in `max()`: still emitted with count 1. */
  lemma {:induction false} EmptyCall(ts: seq<Token>, f: string)
    requires |ts| == 3 && ts[0] == Func(f) && ts[1] == LParen && ts[2] == RParen && IsKnown(f)
    ensures Postfix(ts) == Ok([RCall(f, 1)])
  {
    var ops := [StackFn(f), StackOpen];
    CallOpens(ts, f);
    assert ops == [] + [StackFn(f), StackOpen] && [Some(1)] == [] + [Some(1)];
    RunCloseCall(ts, 2, State(ops, [Some(1)], []), [], f, [], 1);
    assert Run(ts, 3, State([], [], [] + [RCall(f, 1)])) == Ok([] + [RCall(f, 1)]);
    assert [] + [RCall(f, 1)] == [RCall(f, 1)];
  }

  /** One operator between two numbers: the operator follows both. */
  lemma {:induction false} BinaryPair(ts: seq<Token>, x: string, o: Op, y: string, a: real, b: real)
    requires |ts| == 3 && ts[0] == Number(x) && ts[1] == Operator(o) && ts[2] == Number(y)
    requires ParseLiteral(x) == Some(a) && ParseLiteral(y) == Some(b)
    ensures Postfix(ts) == Ok([RNum(a), RNum(b), ROp(o)])
  {
    RunOperand(ts, x, o, y);
    DrainOne(ts, o, [RNum(a), RNum(b)]);
    assert [RNum(a), RNum(b)] + [ROp(o)] == [RNum(a), RNum(b), ROp(o)];
  }


  /** `BinaryChain` for numbers written with digits only. */
  lemma {:induction false} DigitsChain(x: string, o1: Op, y: string, o2: Op, z: string)
    requires |x| >= 1 && |y| >= 1 && |z| >= 1 && AllDigits(x) && AllDigits(y) && AllDigits(z)
    ensures var a, b, c := RNum(DigitsValue(x) as real), RNum(DigitsValue(y) as real), RNum(DigitsValue(z) as real);
      Postfix([Number(x), Operator(o1), Number(y), Operator(o2), Number(z)]) ==
        Ok(if Pops(o2, o1) then [a, b, ROp(o1), c, ROp(o2)] else [a, b, c, ROp(o2), ROp(o1)])
  {
    DigitsLiteral(x);
    DigitsLiteral(y);
    DigitsLiteral(z);
    BinaryChain([Number(x), Operator(o1), Number(y), Operator(o2), Number(z)], x, y, z, o1, o2,
      DigitsValue(x) as real, DigitsValue(y) as real, DigitsValue(z) as real);
  }

  // ---------------------------------------------------------------------
  // A parenthesised group

  lemma {:induction false} RunOpenGroup(ts: seq<Token>, i: nat, st: State)
    requires i < |ts| && ts[i] == LParen && Aligned(st.ops, st.counts) && (|st.ops| == 0 || !Last(st.ops).StackFn?)
    ensures Aligned(st.ops + [StackOpen], st.counts + [None])
    ensures Run(ts, i, st) == Run(ts, i + 1, State(st.ops + [StackOpen], st.counts + [None], st.output))
  {
    StepOpenGroup(st);
    RunStep(ts, i, st, State(st.ops + [StackOpen], st.counts + [None], st.output));
  }

  /** A ')' with one operator above its grouping '(': the operator goes to
      the queue and the '(' and its count are dropped. */
  lemma {:induction false} RunCloseOverOperator(ts: seq<Token>, i: nat, o: Op, out: seq<RpnToken>)
    requires i < |ts| && ts[i] == RParen
    ensures Aligned([StackOpen, StackOp(o)], [None])
    ensures Run(ts, i, State([StackOpen, StackOp(o)], [None], out)) == Run(ts, i + 1, State([], [], out + [ROp(o)]))
  {
    var ops := [StackOpen, StackOp(o)];
    assert Last(ops) == StackOp(o) && Init(ops) == [StackOpen];
    assert Last([StackOpen]) == StackOpen && Init([StackOpen]) == [] && Init<Option<nat>>([None]) == [];
    assert Aligned([StackOpen], [None]);
    assert ToOpen(ops) == [StackOpen];
    assert ops[1..] == [StackOp(o)] && Last([StackOp(o)]) == StackOp(o) && Init([StackOp(o)]) == [];
    assert Emitted([StackOp(o)]) == [ROp(o)];
    RunStep(ts, i, State(ops, [None], out), State([], [], out + [ROp(o)]));
  }

  /** `( x o1`: the '(' groups, the number is queued and the operator is
      pushed on the '('. */
  lemma {:induction false} GroupOpens(ts: seq<Token>, x: string, o1: Op, a: real)
    requires |ts| >= 3 && ts[0] == LParen && ts[1] == Number(x) && ts[2] == Operator(o1)
    requires ParseLiteral(x) == Some(a)
    ensures Aligned([StackOpen, StackOp(o1)], [None])
    ensures Postfix(ts) == Run(ts, 3, State([StackOpen, StackOp(o1)], [None], [RNum(a)]))
  {
    var s1 := State([StackOpen], [None], []);
    var s2 := State([StackOpen], [None], [RNum(a)]);
    assert Aligned(s1.ops, s1.counts) && Postfix(ts) == Run(ts, 1, s1) by {
      var none: seq<Option<nat>> := [];
      assert [] + [StackOpen] == [StackOpen] && none + [None] == [None];
      RunOpenGroup(ts, 0, State([], [], []));
    }
    assert Run(ts, 1, s1) == Run(ts, 2, s2) by {
      assert [] + [RNum(a)] == [RNum(a)];
      RunNumber(ts, 1, s1, x);
    }
    var s3 := State([StackOpen, StackOp(o1)], [None], [RNum(a)]);
    assert Aligned(s3.ops, s3.counts) && Run(ts, 2, s2) == Run(ts, 3, s3) by {
      assert [StackOpen] + [StackOp(o1)] == [StackOpen, StackOp(o1)];
      RunPush(ts, 2, s2, o1);
    }
  }

  /** `y )` closing the group: `x y o1` is queued and the stacks are empty. */
  lemma {:induction false} GroupCloses(ts: seq<Token>, o1: Op, y: string, a: real, b: real)
    requires |ts| >= 5 && ts[3] == Number(y) && ts[4] == RParen && ParseLiteral(y) == Some(b)
    ensures Aligned([StackOpen, StackOp(o1)], [None])
    ensures Run(ts, 3, State([StackOpen, StackOp(o1)], [None], [RNum(a)])) == Run(ts, 5, State([], [], [RNum(a), RNum(b), ROp(o1)]))
  {
    RunCloseOverOperator(ts, 4, o1, [RNum(a), RNum(b)]);
    assert [RNum(a)] + [RNum(b)] == [RNum(a), RNum(b)];
    RunNumber(ts, 3, State([StackOpen, StackOp(o1)], [None], [RNum(a)]), y);
    assert [RNum(a), RNum(b)] + [ROp(o1)] == [RNum(a), RNum(b), ROp(o1)];
  }

  /** `o2 z` after a closed group, then the end of the input. */
  lemma {:induction false} GroupTail(ts: seq<Token>, o2: Op, z: string, c: real, out: seq<RpnToken>)
    requires |ts| == 7 && ts[5] == Operator(o2) && ts[6] == Number(z) && ParseLiteral(z) == Some(c)
    ensures Run(ts, 5, State([], [], out)) == Ok(out + [RNum(c), ROp(o2)])
  {
    assert [] + [StackOp(o2)] == [StackOp(o2)];
    RunPush(ts, 5, State([], [], out), o2);
    RunNumber(ts, 6, State([StackOp(o2)], [], out), z);
    DrainOne(ts, o2, out + [RNum(c)]);
    assert out + [RNum(c)] + [ROp(o2)] == out + [RNum(c), ROp(o2)];
  }

  /** `( x o1 y ) o2 z`: the parentheses group x and y whatever the two
      operators' precedences. */
  lemma {:induction false} GroupedChain(ts: seq<Token>, x: string, y: string, z: string, o1: Op, o2: Op, a: real, b: real, c: real)
    requires |ts| == 7 && ts[0] == LParen && ts[1] == Number(x) && ts[2] == Operator(o1) && ts[3] == Number(y)
    requires ts[4] == RParen && ts[5] == Operator(o2) && ts[6] == Number(z)
    requires ParseLiteral(x) == Some(a) && ParseLiteral(y) == Some(b) && ParseLiteral(z) == Some(c)
    ensures Postfix(ts) == Ok([RNum(a), RNum(b), ROp(o1), RNum(c), ROp(o2)])
  {
    GroupOpens(ts, x, o1, a);
    GroupCloses(ts, o1, y, a, b);
    GroupTail(ts, o2, z, c, [RNum(a), RNum(b), ROp(o1)]);
    assert [RNum(a), RNum(b), ROp(o1)] + [RNum(c), ROp(o2)] == [RNum(a), RNum(b), ROp(o1), RNum(c), ROp(o2)];
  }
}
