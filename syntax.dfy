/** Vocabulary shared by the three stages of the expression evaluator
    (src/MyTools.Core/ExpressionEvaluator.cs): tokens, postfix tokens,
    operators with their precedence table, and the error kinds. */
module Syntax {

  datatype Option<+T> = None | Some(value: T)

  /** The failures `Evaluate` can end with. Message texts are not modelled. */
  datatype Error =
    | UnexpectedCharacter(ch: char, position: nat)
    | UnknownIdentifier(name: string)
    | UnknownFunction(name: string)
    | UnexpectedToken           // a token neither a number, operator, paren nor comma (a malformed literal)
    | MismatchedParentheses
    | MisplacedComma
    | MissingCallParentheses
    | InvalidExpression
    | InvalidFunctionArguments
    | IndexOutOfRange           // a registry function read an argument the call did not supply
    | NoElements                // min or max over no values
    | DivideByZero              // raised by the arithmetic provider
    | NonFinite                 // a registry formula divided by zero in floating point

  datatype Result<+T> = Ok(value: T) | Err(error: Error)
  {
    predicate IsFailure() {
      Err?
    }

    function PropagateFailure<U>(): Result<U>
      requires Err?
    {
      Err(error)
    }

    function Extract(): T
      requires Ok?
    {
      value
    }
  }

  /** The operator tags "+", "-", "*", "/", "^", "u-", "u+". */
  datatype Op = Add | Sub | Mul | Div | Pow | Neg | Plus

  predicate IsUnary(op: Op) {
    op.Neg? || op.Plus?
  }

  /** Binding strength: unary 4, power 3, multiplicative 2, additive 1. */
  function Precedence(op: Op): (p: nat)
    ensures 1 <= p <= 4
    ensures IsUnary(op) <==> p == 4
    ensures op.Pow? <==> p == 3
  {
    match op
    case Neg | Plus => 4
    case Pow => 3
    case Mul | Div => 2
    case Add | Sub => 1
  }

  /** Power and the unary signs group to the right, the others to the left. */
  predicate IsRightAssociative(op: Op) {
    op.Pow? || op.Neg? || op.Plus?
  }

  /** Tokens produced by the tokenizer (the source's strings "123", "fn:name",
      "(", ")", ",", "+", ..., "u-", "u+"). */
  datatype Token =
    | Number(lexeme: string)
    | Func(name: string)
    | LParen
    | RParen
    | Comma
    | Operator(op: Op)

  /** Tokens of the postfix queue: numbers, operators, calls "FN:name:argc",
      and a bare function marker "fn:name" should one ever reach the queue. */
  datatype RpnToken =
    | RNum(value: real)
    | ROp(op: Op)
    | RCall(name: string, argc: nat)
    | RMarker(name: string)
}
