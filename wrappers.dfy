/** Failure-carrying results, and the exceptions the rules modules raise. */
module Wrappers {

  datatype Option<+T> = None | Some(value: T)

  /** The value of a Python call that either returns or raises. */
  datatype Result<+T, +E> = Success(value: T) | Failure(error: E)

  /** The value of a Python procedure that returns nothing or raises. */
  datatype Outcome<+E> = Pass | Fail(error: E)
}

module Exceptions {

  /** The exceptions raised by the rules modules, with their messages. */
  datatype Exception =
    | ArchetypeException(msg: string)
    | SkillException(msg: string)
    | RaceException(msg: string)
    | InsufficientFunds(msg: string)
    /** A dictionary or trait-handler lookup of a key that is not there. */
    | KeyError(key: string)
    /** An attribute read of a name the object does not have. */
    | AttributeError(name: string)
    /** A call of a name that is not defined. */
    | NameError(name: string)
}
