/** Values shared by every part of the model: optional values, the outcome of a
    call into user code, and the runner's own failures. */
module Common {

  datatype Option<+T> = None | Some(value: T)

  /** An exception thrown by a user callback. The runner never inspects it; it
      only passes it on, wrapped or not. */
  datatype Fault = Fault(code: nat)

  /** What a call into user code did: returned a value or threw. */
  datatype Try<+T> = Returned(value: T) | Threw(fault: Fault)

  /** The failures the runner itself raises. Each constructor names the Java
      exception and the check that raises it. */
  datatype Error =
    | UserCodeException(cause: Fault)          // UserCodeException.wrap around a callback failure
    | KeyIsNull                                // checkNotNull(key, "key cannot be null")
    | WindowIsNull                             // checkNotNull(window, "Window cannot be null")
    | NotInExactlyOneWindow(windowCount: nat)  // checkState in the merge evaluator
    | NotACombineFn                            // checkState in the override factory
    | NotExactlyOneElement(count: nat)         // Iterables.getOnlyElement on a collection of another size
    | AccumulatorCoderNotConstructible         // RuntimeException around CannotProvideCoderException

  datatype Result<+T> = Ok(value: T) | Err(error: Error)

  datatype Outcome = Pass | Fail(error: Error)
}
