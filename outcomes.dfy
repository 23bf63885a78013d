/** Failures that the modelled core can surface, and the Result type that
    carries them in place of Python exceptions. */
module Outcomes {

  datatype Error =
    | Transport                 // the server could not be reached
    | HttpStatus(code: int)     // raise_for_status on a non-2xx status
    | InvalidJson               // response.json() on a body that is not JSON
    | MissingKey(key: string)   // KeyError when indexing a JSON object
    | NotAnObject               // indexing a JSON value that is not an object
    | NotAString                // a string operation on a JSON value that is not a string
    | TokensExpired             // the profile store could neither use nor refresh its tokens
    | ProfileFailure            // any other failure of the profile store

  datatype Result<+T> = Ok(value: T) | Err(error: Error)

  datatype Option<+T> = None | Some(value: T)
}
