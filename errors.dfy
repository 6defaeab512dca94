/** The exceptions the composite operators can raise, the result type that
    carries either a value or one of them, and an optional value (None). */
module Errors {

  datatype Error =
    | NoMatchingFn        // ValueError: no registered signature accepts the arguments
    | BadTypeDescriptor   // TypeError: a register descriptor is neither a str nor a Type
    | UnknownTypeName     // raised by the type-name lookup for a name it does not know
    | NotIterable         // TypeError: map() was handed an object that is not a tuple or list
    | NotCallable         // TypeError: a tuple or list was called as a function
    | MissingArgument     // IndexError: args[0] / args_list[0] of an empty argument tuple
    | MapWithoutIterable  // TypeError: map() called with no iterable at all
    | Raised(code: nat)   // any other exception raised by a user operation

  datatype Option<+T> = None | Some(value: T)

  datatype Result<+T> = Ok(value: T) | Err(error: Error)
}
