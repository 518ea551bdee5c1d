/** The exceptions the modelled code raises, as values. */
module Results {

  datatype Option<+T> = None | Some(value: T)

  datatype Error =
    | ValueError
    | IndexError
    | TypeError
    | RuntimeError
    | RedisError
    | AnchorSubmissionError
    | SessionNotFound
    | SessionAlreadyEnded
    | AgentNotFound
    | TransitionNotAllowed

  datatype Result<+T> = Success(value: T) | Failure(error: Error)
}
