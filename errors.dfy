/**
 * The error taxonomy of the engine (error.rs) and the `Result` alias every fallible
 * operation returns (define.rs).
 *
 * Three variants are used by the code but missing from error.rs as shipped:
 * `ExpectBinOpToken`, `ParamEmpty` and `ShouldBeList`; they are added here.
 * Offsets are character indices into the input.
 */
module Errors {

  datatype Error =
    | InvalidNumber(text: string)
    | UnexpectedEOF(offset: nat)
    | UnterminatedString(offset: nat)
    | InvalidBool(offset: nat)
    | NotSupportedChar(offset: nat, ch: char)
    | ReferenceNotExist(name: string)
    | FunctionNotExist(name: string)
    | NotSupportedOp(op: string)
    | BinaryOpNotRegistered(op: string)
    | UnaryOpNotRegistered(op: string)
    | InnerFunctionNotRegistered(name: string)
    | ShouldBeNumber
    | ShouldBeBool
    | ParamInvalid
    | ShouldBeString
    | InvalidTernaryExprNeedColon
    | ExpectedOpNotExist(op: string)
    | WrongContextValueType
    | UnexpectedToken
    | NotReferenceExpr
    | NoOpenDelim
    | NoCloseDelim
    | InvalidOp(op: string)
    | InvalidInteger
    | InvalidFloat
    | ExpectBinOpToken
    | ParamEmpty(name: string)
    | ShouldBeList

  datatype Option<+T> = None | Some(value: T) {
    predicate IsFailure() { None? }

    function PropagateFailure<U>(): Option<U>
      requires None?
    {
      None
    }

    function Extract(): T
      requires Some?
    {
      value
    }
  }

  /**
   * `Ok` and `Err` are Rust's `Result`. `Panic` stands for a Rust panic (a built-in
   * handler applied outside its domain, such as a division by zero); it is never an
   * `Error` and only the evaluator specifications produce it.
   */
  datatype Result<+T> = Ok(value: T) | Err(error: Error) | Panic {
    predicate IsFailure() { !Ok? }

    function PropagateFailure<U>(): Result<U>
      requires !Ok?
    {
      if Err? then Err(error) else Panic
    }

    function Extract(): T
      requires Ok?
    {
      value
    }
  }
}
