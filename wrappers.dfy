// Optional values and error-carrying results, standing in for Python's
// `None` and for raised exceptions.

module Wrappers {

  datatype Option<T> = None | Some(value: T)

  datatype Result<T, E> = Ok(value: T) | Err(error: E)
}

// `cappa.Exit(message, code=...)`: the command stops with an exit code.
module Cli {

  datatype Exit = Exit(message: string, code: int)
}
