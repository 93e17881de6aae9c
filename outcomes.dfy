/** Shapes of what a step of the request pipeline, or an outside service, gives back. */
module Outcomes {

  /** A value that may be absent. */
  datatype Option<+T> = None | Some(value: T)

  /** The value a step computed, or the exception that escaped from it. */
  datatype Result<+T, +E> = Success(value: T) | Failure(error: E)

  /** What the language-model client gives back for one prompt: the generated
      text, or the message of the exception it raised (network failure,
      blocked reply, missing text, ...). */
  datatype Reply = Generated(text: string) | Raised(message: string)
}
