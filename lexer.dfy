/** The tokenizer of ExpressionEvaluator (`Tokenize`): a left-to-right scan
    that skips white space, cuts numeric literals and identifiers, resolves
    the constants `pi` and `e`, turns an identifier directly followed by '('
    into a function marker, and decides for each '+' and '-' whether it is a
    sign or a binary operator. */
module Lexer {
  import opened Syntax
  import opened Numbers

  /** `char.IsWhiteSpace`: the Unicode space, line and paragraph separators
      plus U+0009..U+000D and U+0085. */
  predicate IsWhiteSpace(c: char) {
    || ('\U{9}' <= c <= '\U{D}') || c == ' ' || c == '\U{85}' || c == '\U{A0}'
    || c == '\U{1680}' || ('\U{2000}' <= c <= '\U{200A}') || c == '\U{2028}' || c == '\U{2029}'
    || c == '\U{202F}' || c == '\U{205F}' || c == '\U{3000}'
  }

  /** Letters, restricted to ASCII (see README). */
  predicate IsLetter(c: char) {
    'a' <= c <= 'z' || 'A' <= c <= 'Z'
  }

  predicate IsIdentStart(c: char) {
    IsLetter(c) || c == '_'
  }

  predicate IsIdentPart(c: char) {
    IsLetter(c) || IsDigit(c) || c == '_'
  }

  predicate IsOperatorChar(c: char) {
    c == '+' || c == '-' || c == '*' || c == '/' || c == '^'
  }

  predicate IsIdentifier(s: string) {
    |s| >= 1 && IsIdentStart(s[0]) && forall k :: 0 <= k < |s| ==> IsIdentPart(s[k])
  }

  /** Ordinal case folding, for the ASCII letters identifiers are made of. */
  function LowerChar(c: char): char {
    if 'A' <= c <= 'Z' then (c as int + 32) as char else c
  }

  /** A name folded to lower case, as the function table's
      `StringComparer.OrdinalIgnoreCase` compares it. */
  function Lower(s: string): (r: string)
    ensures |r| == |s| && forall k :: 0 <= k < |s| ==> r[k] == LowerChar(s[k])
  {
    seq(|s|, k requires 0 <= k < |s| => LowerChar(s[k]))
  }

  /** `Math.PI` and `Math.E` as `ToString(CultureInfo.InvariantCulture)` prints them. */
  const PiText: string := "3.141592653589793"
  const EText: string := "2.718281828459045"

  /** `string.Equals(s, "pi", StringComparison.OrdinalIgnoreCase)` */
  predicate IsPi(s: string) {
    |s| == 2 && LowerChar(s[0]) == 'p' && LowerChar(s[1]) == 'i'
  }

  /** `string.Equals(s, "e", StringComparison.OrdinalIgnoreCase)` */
  predicate IsE(s: string) {
    |s| == 1 && LowerChar(s[0]) == 'e'
  }

  /** An identifier the tokenizer replaces by a constant, in any letter case. */
  predicate IsConstantName(s: string) {
    IsPi(s) || IsE(s)
  }

  /** The multiplication and division glyphs become '*' and '/' before scanning. */
  function NormalizeChar(c: char): char {
    if c == '\U{D7}' then '*' else if c == '\U{F7}' then '/' else c
  }

  function Normalize(s: string): (r: string)
    ensures |r| == |s| && forall k :: 0 <= k < |s| ==> r[k] == NormalizeChar(s[k])
  {
    seq(|s|, k requires 0 <= k < |s| => NormalizeChar(s[k]))
  }

  /** The end of the longest run of characters satisfying `p` that starts
      at index `i`. */
  function RunEnd(s: string, i: nat, p: char -> bool): (j: nat)
    requires i <= |s|
    ensures i <= j <= |s|
    ensures forall k :: i <= k < j ==> p(s[k])
    ensures j == |s| || !p(s[j])
    decreases |s| - i
  {
    if i == |s| || !p(s[i]) then i else RunEnd(s, i + 1, p)
  }

  lemma RunEndIs(s: string, i: nat, p: char -> bool, j: nat)
    requires i <= j <= |s|
    requires forall k :: i <= k < j ==> p(s[k])
    requires j == |s| || !p(s[j])
    ensures RunEnd(s, i, p) == j
  {
  }

  /** No operand can stand left of position i: it is the first position, or
      it follows '(' or an operator. */
  predicate UnaryContext(ts: seq<Token>, i: nat)
    requires i <= |ts|
  {
    i == 0 || ts[i - 1] == LParen || ts[i - 1].Operator?
  }

  function BinaryOperator(ch: char): Op
    requires IsOperatorChar(ch)
  {
    match ch
    case '+' => Add
    case '-' => Sub
    case '*' => Mul
    case '/' => Div
    case _ => Pow
  }

  /** The operator an operator character stands for, given whether it is in
      unary position. */
  function OperatorFor(ch: char, unary: bool): Op
    requires IsOperatorChar(ch)
  {
    if unary && ch == '-' then Neg
    else if unary && ch == '+' then Plus
    else BinaryOperator(ch)
  }

  /** What one scanning step emits and where the next one starts. */
  datatype Lexed = Lexed(next: nat, token: Option<Token>)

  /** One iteration of the scanning loop at index `i` of the (normalised)
      input `s`, with the tokens emitted so far. */
  function NextToken(s: string, i: nat, prev: seq<Token>): (r: Result<Lexed>)
    requires i < |s|
    ensures r.Ok? ==> i < r.value.next <= |s|
  {
    var ch := s[i];
    if IsWhiteSpace(ch) then Ok(Lexed(i + 1, None))
    else if IsNumberChar(ch) then
      var j := RunEnd(s, i, IsNumberChar);
      Ok(Lexed(j, Some(Number(s[i..j]))))
    else if IsIdentStart(ch) then
      var j := RunEnd(s, i, IsIdentPart);
      var ident := s[i..j];
      if IsPi(ident) then Ok(Lexed(j, Some(Number(PiText))))
      else if IsE(ident) then Ok(Lexed(j, Some(Number(EText))))
      else if j < |s| && s[j] == '(' then Ok(Lexed(j, Some(Func(ident))))
      else Err(UnknownIdentifier(ident))
    else if ch == ',' then Ok(Lexed(i + 1, Some(Comma)))
    else if ch == '(' then Ok(Lexed(i + 1, Some(LParen)))
    else if ch == ')' then Ok(Lexed(i + 1, Some(RParen)))
    else if IsOperatorChar(ch) then Ok(Lexed(i + 1, Some(Operator(OperatorFor(ch, UnaryContext(prev, |prev|))))))
    else Err(UnexpectedCharacter(ch, i))
  }

  function Append(acc: seq<Token>, t: Option<Token>): seq<Token> {
    if t.Some? then acc + [t.value] else acc
  }

  /** The scan of `s` from index `i`, after `acc` was emitted. */
  function Scan(s: string, i: nat, acc: seq<Token>): Result<seq<Token>>
    requires i <= |s|
    decreases |s| - i
  {
    if i == |s| then Ok(acc)
    else match NextToken(s, i, acc)
      case Err(e) => Err(e)
      case Ok(Lexed(j, t)) => Scan(s, j, Append(acc, t))
  }

  /** The token list of an input expression. */
  function Tokens(expr: string): Result<seq<Token>> {
    Scan(Normalize(expr), 0, [])
  }

  /** One loop iteration of the scan. */
  lemma ScanAdvance(s: string, i: nat, tokens: seq<Token>, lexed: Lexed, next: seq<Token>)
    requires i < |s|
    requires NextToken(s, i, tokens) == Ok(lexed)
    requires next == Append(tokens, lexed.token)
    ensures Scan(s, i, tokens) == Scan(s, lexed.next, next)
  {
  }

  /** The inner loops of the scan: advance past the run of characters
      satisfying `p` that starts at `start`. */
  method SkipRun(s: string, start: nat, p: char -> bool) returns (i: nat)
    requires start < |s| && p(s[start])
    ensures i == RunEnd(s, start, p)
  {
    i := start + 1;
    while i < |s| && p(s[i])
      invariant start < i <= |s|
      invariant forall k :: start <= k < i ==> p(s[k])
    {
      i := i + 1;
    }
    RunEndIs(s, start, p, i);
  }

  /** One pass of the scanning loop's body at index `i`: the branch that
      the character at `i` selects. */
  method LexAt(s: string, i: nat, tokens: seq<Token>) returns (r: Result<Lexed>)
    requires i < |s|
    ensures r == NextToken(s, i, tokens)
  {
    var ch := s[i];
    if IsWhiteSpace(ch) {
      return Ok(Lexed(i + 1, None));
    }
    if IsNumberChar(ch) {
      var j := SkipRun(s, i, IsNumberChar);
      return Ok(Lexed(j, Some(Number(s[i..j]))));
    }
    if IsIdentStart(ch) {
      var j := SkipRun(s, i, IsIdentPart);
      var ident := s[i..j];
      if IsPi(ident) {
        return Ok(Lexed(j, Some(Number(PiText))));
      }
      if IsE(ident) {
        return Ok(Lexed(j, Some(Number(EText))));
      }
      if j < |s| && s[j] == '(' {
        return Ok(Lexed(j, Some(Func(ident))));
      }
      return Err(UnknownIdentifier(ident));
    }
    if ch == ',' {
      return Ok(Lexed(i + 1, Some(Comma)));
    }
    if ch == '(' || ch == ')' {
      return Ok(Lexed(i + 1, Some(if ch == '(' then LParen else RParen)));
    }
    if IsOperatorChar(ch) {
      var isUnary := |tokens| == 0 || tokens[|tokens| - 1] == LParen || tokens[|tokens| - 1].Operator?;
      if isUnary && (ch == '-' || ch == '+') {
        return Ok(Lexed(i + 1, Some(Operator(if ch == '-' then Neg else Plus))));
      }
      return Ok(Lexed(i + 1, Some(Operator(BinaryOperator(ch)))));
    }
    return Err(UnexpectedCharacter(ch, i));
  }

  method Tokenize(expr: string) returns (r: Result<seq<Token>>)
    ensures r == Tokens(expr)
  {
    var s := Normalize(expr);
    var tokens: seq<Token> := [];
    var i := 0;
    while i < |s|
      invariant 0 <= i <= |s|
      invariant Scan(s, i, tokens) == Tokens(expr)
    {
      var step := LexAt(s, i, tokens);
      match step {
        case Err(e) =>
          return Err(e);
        case Ok(lexed) =>
          ScanAdvance(s, i, tokens, lexed, Append(tokens, lexed.token));
          i, tokens := lexed.next, Append(tokens, lexed.token);
      }
    }
    return Ok(tokens);
  }

  // ---------------------------------------------------------------------
  // Properties of the token list

  /** The operators a '+' or '-' character can become. */
  predicate IsSignOp(op: Op) {
    op.Add? || op.Sub? || op.Neg? || op.Plus?
  }

  /** Every '+'/'-' token is unary exactly when no operand can stand to its left. */
  predicate SignsResolved(ts: seq<Token>) {
    forall k :: 0 <= k < |ts| && ts[k].Operator? && IsSignOp(ts[k].op) ==>
      (IsUnary(ts[k].op) <==> UnaryContext(ts, k))
  }

  lemma ExtendSignsResolved(acc: seq<Token>, t: Option<Token>)
    requires SignsResolved(acc)
    requires t.Some? && t.value.Operator? && IsSignOp(t.value.op) ==>
               (IsUnary(t.value.op) <==> UnaryContext(acc, |acc|))
    ensures SignsResolved(Append(acc, t))
  {
    var ts := Append(acc, t);
    forall k | 0 <= k < |ts| && ts[k].Operator? && IsSignOp(ts[k].op)
      ensures IsUnary(ts[k].op) <==> UnaryContext(ts, k)
    {
      if k < |acc| {
        assert ts[k] == acc[k];
        assert UnaryContext(ts, k) == UnaryContext(acc, k);
      }
    }
  }

  lemma {:induction false} ScanSignsResolved(s: string, i: nat, acc: seq<Token>)
    requires i <= |s|
    requires SignsResolved(acc)
    ensures Scan(s, i, acc).Ok? ==> SignsResolved(Scan(s, i, acc).value)
    decreases |s| - i
  {
    if i < |s| {
      match NextToken(s, i, acc)
      case Err(_) =>
      case Ok(Lexed(j, t)) =>
        ExtendSignsResolved(acc, t);
        ScanSignsResolved(s, j, Append(acc, t));
    }
  }

  /** A '+' or '-' is a sign exactly when it is the first token or follows '('
      or another operator; after a number, ')' or ',' it is binary. */
  lemma TokensSignsResolved(expr: string)
    ensures Tokens(expr).Ok? ==> SignsResolved(Tokens(expr).value)
  {
    ScanSignsResolved(Normalize(expr), 0, []);
  }

  /** Function markers carry an identifier that is not a constant, and the
      next token is always the '(' that opens the argument list. */
  predicate MarkersWellPlaced(ts: seq<Token>) {
    forall k :: 0 <= k < |ts| && ts[k].Func? ==>
      && IsIdentifier(ts[k].name) && !IsConstantName(ts[k].name)
      && k + 1 < |ts| && ts[k + 1] == LParen
  }

  /** The scan invariant behind `MarkersWellPlaced`: a marker that is the last
      token so far is directly followed by '(' in the input. */
  predicate MarkersPending(s: string, i: nat, acc: seq<Token>)
    requires i <= |s|
  {
    && (forall k :: 0 <= k < |acc| && acc[k].Func? ==>
          IsIdentifier(acc[k].name) && !IsConstantName(acc[k].name))
    && (forall k :: 0 <= k < |acc| - 1 && acc[k].Func? ==> acc[k + 1] == LParen)
    && (|acc| > 0 && acc[|acc| - 1].Func? ==> i < |s| && s[i] == '(')
  }

  lemma MarkerStep(s: string, i: nat, acc: seq<Token>)
    requires i < |s|
    requires MarkersPending(s, i, acc)
    requires NextToken(s, i, acc).Ok?
    ensures MarkersPending(s, NextToken(s, i, acc).value.next, Append(acc, NextToken(s, i, acc).value.token))
  {
    var lexed := NextToken(s, i, acc);
    var ts := Append(acc, lexed.value.token);
    if IsIdentStart(s[i]) {
      var j := RunEnd(s, i, IsIdentPart);
      var ident := s[i..j];
      assert forall k :: 0 <= k < |ident| ==> ident[k] == s[i + k];
    }
    forall k | 0 <= k < |ts| - 1 && ts[k].Func?
      ensures ts[k + 1] == LParen
    {
      if k + 1 < |acc| {
        assert ts[k] == acc[k] && ts[k + 1] == acc[k + 1];
      } else {
        assert s[i] == '(';
      }
    }
  }

  lemma {:induction false} ScanMarkersWellPlaced(s: string, i: nat, acc: seq<Token>)
    requires i <= |s|
    requires MarkersPending(s, i, acc)
    ensures Scan(s, i, acc).Ok? ==> MarkersWellPlaced(Scan(s, i, acc).value)
    decreases |s| - i
  {
    if i < |s| {
      match NextToken(s, i, acc)
      case Err(_) =>
      case Ok(Lexed(j, t)) =>
        MarkerStep(s, i, acc);
        ScanMarkersWellPlaced(s, j, Append(acc, t));
    }
  }

  /** An identifier becomes a function marker only when '(' follows it
      directly, and never when it is `pi` or `e`. */
  lemma TokensMarkersWellPlaced(expr: string)
    ensures Tokens(expr).Ok? ==> MarkersWellPlaced(Tokens(expr).value)
  {
    ScanMarkersWellPlaced(Normalize(expr), 0, []);
  }

  /** A character no branch of the scan accepts. */
  predicate Unclassified(c: char) {
    !IsWhiteSpace(c) && !IsNumberChar(c) && !IsIdentStart(c)
    && c != ',' && c != '(' && c != ')' && !IsOperatorChar(c)
  }

  /** `name` is a maximal identifier run of `s` starting at `p` that no '('
      follows. */
  predicate UnknownAt(s: string, p: nat, name: string) {
    && p + |name| <= |s| && s[p..p + |name|] == name
    && IsIdentifier(name) && !IsConstantName(name)
    && (p + |name| == |s| || (!IsIdentPart(s[p + |name|]) && s[p + |name|] != '('))
  }

  /** The only failures of the scan, and what they report. */
  predicate ScanError(s: string, e: Error) {
    match e
    case UnexpectedCharacter(c, p) => p < |s| && s[p] == c && Unclassified(c)
    case UnknownIdentifier(name) => exists p :: 0 <= p < |s| && UnknownAt(s, p, name)
    case _ => false
  }

  lemma ErrorStep(s: string, i: nat, acc: seq<Token>)
    requires i < |s|
    requires NextToken(s, i, acc).Err?
    ensures ScanError(s, NextToken(s, i, acc).error)
  {
    if IsIdentStart(s[i]) {
      var j := RunEnd(s, i, IsIdentPart);
      var ident := s[i..j];
      assert forall k :: 0 <= k < |ident| ==> ident[k] == s[i + k];
      assert s[i..i + |ident|] == ident;
      assert UnknownAt(s, i, ident);
    }
  }

  lemma {:induction false} ScanErrors(s: string, i: nat, acc: seq<Token>)
    requires i <= |s|
    ensures Scan(s, i, acc).Err? ==> ScanError(s, Scan(s, i, acc).error)
    decreases |s| - i
  {
    if i < |s| {
      match NextToken(s, i, acc)
      case Err(_) =>
        ErrorStep(s, i, acc);
      case Ok(Lexed(j, t)) =>
        ScanErrors(s, j, Append(acc, t));
    }
  }

  /** The tokenizer fails only on an unclassified character, reporting the
      character and its index, or on an identifier other than `pi`/`e` that
      '(' does not follow. */
  lemma TokensErrors(expr: string)
    ensures Tokens(expr).Err? ==> ScanError(Normalize(expr), Tokens(expr).error)
  {
    ScanErrors(Normalize(expr), 0, []);
  }

  // ---------------------------------------------------------------------
  // Scanning numbers and operators

  /** Input without the glyphs '×' and '÷' is scanned as it is. */
  lemma NormalizeKeeps(s: string)
    requires forall k :: 0 <= k < |s| ==> s[k] != '\U{D7}' && s[k] != '\U{F7}'
    ensures Normalize(s) == s
  {
  }

  /** A run of digits that a character other than a digit or '.' closes,
      or the end of the input, is one number token. */
  lemma {:induction false} LexDigits(s: string, i: nat, j: nat, acc: seq<Token>)
    requires i < j <= |s| && forall k :: i <= k < j ==> IsDigit(s[k])
    requires j == |s| || !IsNumberChar(s[j])
    ensures Scan(s, i, acc) == Scan(s, j, acc + [Number(s[i..j])])
  {
    RunEndIs(s, i, IsNumberChar, j);
    ScanAdvance(s, i, acc, Lexed(j, Some(Number(s[i..j]))), acc + [Number(s[i..j])]);
  }

  /** An operator character is one operator token, a sign exactly in unary
      position. */
  lemma {:induction false} LexOperator(s: string, i: nat, acc: seq<Token>)
    requires i < |s| && IsOperatorChar(s[i])
    ensures Scan(s, i, acc) == Scan(s, i + 1, acc + [Operator(OperatorFor(s[i], UnaryContext(acc, |acc|)))])
  {
    var t := Operator(OperatorFor(s[i], UnaryContext(acc, |acc|)));
    ScanAdvance(s, i, acc, Lexed(i + 1, Some(t)), acc + [t]);
  }

  /** A number and the operator after it: the operator is binary. */
  lemma {:induction false} LexOperand(s: string, i: nat, j: nat, acc: seq<Token>)
    requires i < j < |s| && IsOperatorChar(s[j]) && forall k :: i <= k < j ==> IsDigit(s[k])
    ensures Scan(s, i, acc) == Scan(s, j + 1, acc + [Number(s[i..j]), Operator(BinaryOperator(s[j]))])
  {
    var acc1 := acc + [Number(s[i..j])];
    LexDigits(s, i, j, acc);
    LexOperator(s, j, acc1);
    assert acc1 + [Operator(BinaryOperator(s[j]))] == acc + [Number(s[i..j]), Operator(BinaryOperator(s[j]))];
  }

  /** A number that ends the input ends the token list. */
  lemma {:induction false} LexLast(s: string, i: nat, acc: seq<Token>)
    requires i < |s| && forall k :: i <= k < |s| ==> IsDigit(s[k])
    ensures Scan(s, i, acc) == Ok(acc + [Number(s[i..])])
  {
    LexDigits(s, i, |s|, acc);
    assert s[i..|s|] == s[i..];
  }

  /** A digit that ends the input ends the token list. */
  lemma {:induction false} LexLastDigit(s: string, i: nat, acc: seq<Token>)
    requires i + 1 == |s| && IsDigit(s[i])
    ensures Scan(s, i, acc) == Ok(acc + [Number(s[i..i + 1])])
  {
    LexLast(s, i, acc);
    assert s[i..] == s[i..i + 1];
  }

  /** A number, a binary operator and a last number. */
  lemma {:induction false} OperandTail(s: string, i: nat, j: nat, acc: seq<Token>)
    requires i < j && j + 1 < |s| && IsOperatorChar(s[j])
    requires forall k :: i <= k < |s| && k != j ==> IsDigit(s[k])
    ensures Scan(s, i, acc) == Ok(acc + [Number(s[i..j]), Operator(BinaryOperator(s[j])), Number(s[j + 1..])])
  {
    var acc1 := acc + [Number(s[i..j]), Operator(BinaryOperator(s[j]))];
    LexOperand(s, i, j, acc);
    LexLast(s, j + 1, acc1);
    assert acc1 + [Number(s[j + 1..])] == acc + [Number(s[i..j]), Operator(BinaryOperator(s[j])), Number(s[j + 1..])];
  }

  /** Three numbers joined by two operator characters: five tokens, both
      operators binary. */
  lemma {:induction false} ChainTokens(s: string, i: nat, j: nat)
    requires 0 < i && i + 1 < j && j + 1 < |s| && IsOperatorChar(s[i]) && IsOperatorChar(s[j])
    requires (forall k :: 0 <= k < i ==> IsDigit(s[k])) && forall k :: i + 1 <= k < |s| && k != j ==> IsDigit(s[k])
    ensures Scan(s, 0, []) == Ok([Number(s[..i]), Operator(BinaryOperator(s[i])), Number(s[i + 1..j]),
      Operator(BinaryOperator(s[j])), Number(s[j + 1..])])
  {
    var acc1 := [Number(s[..i]), Operator(BinaryOperator(s[i]))];
    var rest := [Number(s[i + 1..j]), Operator(BinaryOperator(s[j])), Number(s[j + 1..])];
    assert Scan(s, 0, []) == Scan(s, i + 1, acc1) by {
      assert s[0..i] == s[..i] && [] + acc1 == acc1;
      LexOperand(s, 0, i, []);
    }
    assert Scan(s, i + 1, acc1) == Ok(acc1 + rest) by {
      OperandTail(s, i + 1, j, acc1);
    }
    assert acc1 + [Number(s[i + 1..j]), Operator(BinaryOperator(s[j])), Number(s[j + 1..])] ==
      [Number(s[..i]), Operator(BinaryOperator(s[i])), Number(s[i + 1..j]), Operator(BinaryOperator(s[j])), Number(s[j + 1..])];
  }

  /** A sign character at the start is a sign; the binary operator after its
      operand is not. */
  lemma {:induction false} SignedTokens(s: string, j: nat)
    requires 1 < j && j + 1 < |s| && (s[0] == '-' || s[0] == '+') && IsOperatorChar(s[j])
    requires forall k :: 1 <= k < |s| && k != j ==> IsDigit(s[k])
    ensures Scan(s, 0, []) == Ok([Operator(if s[0] == '-' then Neg else Plus), Number(s[1..j]),
      Operator(BinaryOperator(s[j])), Number(s[j + 1..])])
  {
    var sign := Operator(if s[0] == '-' then Neg else Plus);
    assert [] + [sign] == [sign] && UnaryContext([], 0);
    LexOperator(s, 0, []);
    OperandTail(s, 1, j, [sign]);
    assert [sign] + [Number(s[1..j]), Operator(BinaryOperator(s[j])), Number(s[j + 1..])] ==
      [sign, Number(s[1..j]), Operator(BinaryOperator(s[j])), Number(s[j + 1..])];
  }

  // ---------------------------------------------------------------------
  // Identifiers and unexpected characters

  /** An identifier run is `pi` or `e` in any letter case, which becomes the
      constant's number token; otherwise a function marker when '(' follows
      it directly, and an unknown-identifier error when it does not. */
  lemma {:induction false} LexIdentifier(s: string, i: nat, acc: seq<Token>)
    requires i < |s| && IsIdentStart(s[i])
    ensures var j := RunEnd(s, i, IsIdentPart);
      var name := s[i..j];
      && (IsPi(name) ==> Scan(s, i, acc) == Scan(s, j, acc + [Number(PiText)]))
      && (IsE(name) ==> Scan(s, i, acc) == Scan(s, j, acc + [Number(EText)]))
      && (!IsConstantName(name) && j < |s| && s[j] == '(' ==> Scan(s, i, acc) == Scan(s, j, acc + [Func(name)]))
      && (!IsConstantName(name) && !(j < |s| && s[j] == '(') ==> Scan(s, i, acc) == Err(UnknownIdentifier(name)))
  {
    assert !IsWhiteSpace(s[i]) && !IsNumberChar(s[i]);
    var lexed := NextToken(s, i, acc);
    if lexed.Ok? {
      ScanAdvance(s, i, acc, lexed.value, Append(acc, lexed.value.token));
    }
  }

  /** A character no branch accepts stops the scan with an error that
      reports the character and its index. */
  lemma {:induction false} LexUnexpected(s: string, i: nat, acc: seq<Token>)
    requires i < |s| && Unclassified(s[i])
    ensures Scan(s, i, acc) == Err(UnexpectedCharacter(s[i], i))
  {
  }

  /** ',', '(' and ')' are one token each. */
  lemma {:induction false} LexSymbol(s: string, i: nat, acc: seq<Token>)
    requires i < |s| && (s[i] == ',' || s[i] == '(' || s[i] == ')')
    ensures Scan(s, i, acc) == Scan(s, i + 1, acc + [if s[i] == ',' then Comma else if s[i] == '(' then LParen else RParen])
  {
    var t := if s[i] == ',' then Comma else if s[i] == '(' then LParen else RParen;
    ScanAdvance(s, i, acc, Lexed(i + 1, Some(t)), acc + [t]);
  }

  /** `( x o1` for a single digit x: '(' is a token and the operator after
      the digit is binary. */
  lemma {:induction false} OpenOperand(s: string, i: nat, acc: seq<Token>)
    requires i + 2 < |s| && s[i] == '(' && IsDigit(s[i + 1]) && IsOperatorChar(s[i + 2])
    ensures Scan(s, i, acc) == Scan(s, i + 3, acc + [LParen, Number(s[i + 1..i + 2]), Operator(BinaryOperator(s[i + 2]))])
  {
    LexOperand(s, i + 1, i + 2, acc + [LParen]);
    LexSymbol(s, i, acc);
    assert acc + [LParen] + [Number(s[i + 1..i + 2]), Operator(BinaryOperator(s[i + 2]))] ==
      acc + [LParen, Number(s[i + 1..i + 2]), Operator(BinaryOperator(s[i + 2]))];
  }

  /** A digit and the ')' after it. */
  lemma {:induction false} DigitClose(s: string, i: nat, acc: seq<Token>)
    requires i + 1 < |s| && IsDigit(s[i]) && s[i + 1] == ')'
    ensures Scan(s, i, acc) == Scan(s, i + 2, acc + [Number(s[i..i + 1]), RParen])
  {
    LexDigits(s, i, i + 1, acc);
    LexSymbol(s, i + 1, acc + [Number(s[i..i + 1])]);
    assert acc + [Number(s[i..i + 1])] + [RParen] == acc + [Number(s[i..i + 1]), RParen];
  }

  /** `( x o1 y )` for single digits x and y. */
  lemma {:induction false} GroupTokens(s: string, i: nat, acc: seq<Token>)
    requires i + 4 < |s| && s[i] == '(' && IsDigit(s[i + 1]) && IsOperatorChar(s[i + 2]) && IsDigit(s[i + 3]) && s[i + 4] == ')'
    ensures Scan(s, i, acc) == Scan(s, i + 5, acc + [LParen, Number(s[i + 1..i + 2]), Operator(BinaryOperator(s[i + 2])),
      Number(s[i + 3..i + 4]), RParen])
  {
    var acc1 := acc + [LParen, Number(s[i + 1..i + 2]), Operator(BinaryOperator(s[i + 2]))];
    OpenOperand(s, i, acc);
    DigitClose(s, i + 3, acc1);
    assert acc1 + [Number(s[i + 3..i + 4]), RParen] ==
      acc + [LParen, Number(s[i + 1..i + 2]), Operator(BinaryOperator(s[i + 2])), Number(s[i + 3..i + 4]), RParen];
  }

  /** `) o z` at the end of the text: the operator after ')' is binary. */
  lemma {:induction false} ClosedTail(s: string, i: nat, acc: seq<Token>)
    requires i + 2 == |s| && IsOperatorChar(s[i]) && IsDigit(s[i + 1])
    requires |acc| > 0 && acc[|acc| - 1] == RParen
    ensures Scan(s, i, acc) == Ok(acc + [Operator(BinaryOperator(s[i])), Number(s[i + 1..i + 2])])
  {
    var acc1 := acc + [Operator(BinaryOperator(s[i]))];
    LexLastDigit(s, i + 1, acc1);
    assert !UnaryContext(acc, |acc|);
    LexOperator(s, i, acc);
    assert acc1 + [Number(s[i + 1..i + 2])] == acc + [Operator(BinaryOperator(s[i])), Number(s[i + 1..i + 2])];
  }

  /** `( x o1 y ) o2 z` for single digits x, y and z: seven tokens, the
      operator after ')' binary. */
  lemma {:induction false} GroupedTokens(s: string)
    requires |s| == 7 && s[0] == '(' && IsDigit(s[1]) && IsOperatorChar(s[2]) && IsDigit(s[3]) && s[4] == ')'
    requires IsOperatorChar(s[5]) && IsDigit(s[6])
    ensures Scan(s, 0, []) == Ok([LParen, Number(s[1..2]), Operator(BinaryOperator(s[2])), Number(s[3..4]), RParen,
      Operator(BinaryOperator(s[5])), Number(s[6..7])])
  {
    var acc := [LParen, Number(s[1..2]), Operator(BinaryOperator(s[2])), Number(s[3..4]), RParen];
    ClosedTail(s, 5, acc);
    GroupTokens(s, 0, []);
    assert [] + acc == acc;
    assert acc + [Operator(BinaryOperator(s[5])), Number(s[6..7])] == [LParen, Number(s[1..2]), Operator(BinaryOperator(s[2])),
      Number(s[3..4]), RParen, Operator(BinaryOperator(s[5])), Number(s[6..7])];
  }
}
