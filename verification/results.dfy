/** Option, Result and the exceptions the modelled code raises. Each Python
    exception class that a modelled operation can raise is one constructor
    of `Error`; an operation that raises returns `Err(...)`. */
module Results {

  datatype Option<+T> = None | Some(value: T)

  datatype Error =
    | ConfigValidationError(messages: seq<string>)
    | ValueError(message: string)
    | KeyError(key: string)
    | IndexError
    | TypeError(message: string)
    | AttributeError(message: string)
    | NotImplementedError(message: string)
    | CalledProcessError(args: seq<string>, returncode: int, stdout: string, stderr: string)
    | NoKnownServiceManagerError(hostname: string)
    | NoKnownPackageManagerError(hostname: string)
    | NoRegistryClientError(hostname: string)
    | NoKnownBrokerError
    | BugTPRMissingError(bugId: int)
    | BugStatusUnknownError(bugId: int, status: string)
    | InvalidVersion(text: string)
    | ConnectionError
    | HTTPError(statusCode: int)
    | CallReportError
    | TaskReportError(href: string, field: string)
    | TaskTimedOutError(href: string)
    | UsageError(message: string)
    /** Python's recursion limit reached by a recursion that never ends. */
    | RecursionError
    /** An instance of the exception class a caller hands in, such as
        `unittest.SkipTest` for the `require` and `skip_if` guards. */
    | CallerException(message: string)
    /** A value of a Python type this model does not represent (for
        example a list where a string is rendered with `str()`). */
    | NotModelled(what: string)

  datatype Result<+T> = Ok(value: T) | Err(error: Error) {
    predicate IsFailure() { Err? }
    function PropagateFailure<U>(): Result<U>
      requires Err?
    {
      Err(error)
    }
    function Extract(): T
      requires Ok?
    {
      value
    }
  }
}
