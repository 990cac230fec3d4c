/**
  Values, errors and the failure-compatible wrappers shared by the whole model.

  Java references that may be null are modelled with `Option` (a `None` is a
  null reference); Java exceptions are modelled with `Result` and the `Error`
  datatype below.
 */
module Types {

  /** A property value held by a model or DTO object; `Null` is Java's null. */
  datatype Value = Null | Int(i: int) | Str(s: string) | Bool(b: bool)

  datatype Option<+T> = None | Some(value: T)

  datatype Result<+R, +E> = Success(value: R) | Failure(error: E)

  /** Why a reflective property get/set failed (the three checked exceptions of the accessor). */
  datatype AccessFailure =
    | NoSuchMethod        // the property does not exist
    | IllegalAccess       // the accessor exists but cannot be reached
    | InvocationTarget    // the getter or setter itself threw

  /** The exceptions the assembler lets escape to its caller. */
  datatype Error =
    | NullPointer                          // a checkNotNull failed, or a null was dereferenced
    | IllegalArgument                      // checkArgument: the class is not a @DataTransferObject
    | TransformerCreation                  // AssemblerException("Transformer creation error")
    | PropertyCopy(cause: AccessFailure)   // AssemblerException("Property copy error", cause)
    | Unchecked(exception: string)         // a runtime exception from a transformer or a refused setter argument, not wrapped
}
