/**
 * Outcomes shared by the three stages of the yal pipeline. Every error of the
 * source is fatal: the first one aborts the whole run, so each stage returns
 * either its product or the one error that stopped it.
 */
module Results {

  /** Why the parser stopped. `OutOfTokens` stands for the source reading a
      token past the end of the array, which crashes with a JavaScript
      TypeError rather than a parser message. */
  datatype ParseReason =
    | OutOfTokens
    | ExpectedImport
    | ExpectedImportCurly
    | ExpectedImportName
    | ExpectedFrom
    | ExpectedModuleName
    | ExpectedFunc
    | ExpectedOpenParen
    | UnexpectedParameter
    | ExpectedBodyCurly
    | ExpectedNewLine
    | UnterminatedBody
    | UnexpectedPrimary
    | RedeclaredFunction(name: string)

  datatype Error =
    | LexError(position: nat)               // no rule matches at this offset
    | ParseError(at: nat, reason: ParseReason)
    | NoMainFunction                        // `main` is missing
    | NotAScriptFunction(name: string)      // a native entry run as a script
    | ArityMismatch(name: string)
    | RedeclaredVariable(name: string)
    | UndeclaredVariable(name: string)
    | MissingIdentifierToken               // identifier node without its token
    | UnknownFunction(name: string)
    | UnknownModule(name: string)
    | UnknownNativeFunction(name: string)
    | KindMismatch                          // operands of a Term differ in kind
    | CannotSubtract
    | CannotAdd
    | NotNumbers                            // a Factor operand is not a Number
    | UnrecognizedOperator
    | NativeFailure(message: string)        // the native callable itself failed
    | OutOfFuel                             // script call depth exceeded the bound
    | Unmodelled                            // a floating-point or coercion result

  datatype Result<T> = Ok(value: T) | Err(error: Error) {
    predicate IsFailure() { Err? }

    function PropagateFailure<U>(): Result<U>
      requires Err?
    {
      Err(error)
    }

    function Extract(): T
      requires Ok?
    {
      value
    }
  }

  datatype Option<T> = None | Some(value: T)
}
