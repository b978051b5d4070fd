/** Values shared by every module of the model: optional values, results,
    the states a state machine can be in, and the Python exceptions the
    core raises. */
module Core {

  /** Python's `None` or a value. */
  datatype Option<+T> = None | Some(value: T)

  /** A state-machine state: one of the three `CoreStates`, or a member of
      an application enum, named by its enum and member name (for example
      `BartenderState.IDLE`). */
  datatype State =
    | ALL
    | UNDEFINED
    | EXCEPTION
    | Member(enumName: string, name: string)

  /** The exceptions that the core raises or lets through. */
  datatype Error =
    | InvalidStateMachineTransition(operation: string, current: State, allowed: seq<State>)
    | AttributeError(attribute: string)
    | KeyError
    | TypeError
    | ValueError
    | TimeoutError
    | ScalesTimeoutException
    | WaitingForWeightAbortedException
    | ZeroDivisionError
    | InvalidEnumerationValue
    | ComponentNotAvailable(component: string)
    /** an exception raised by code outside the core (an operation body, a callback) */
    | Raised(description: string)

  /** A call that returns a value or raises. */
  datatype Result<+T> = Ok(value: T) | Err(error: Error)
}
