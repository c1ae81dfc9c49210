/**
 * Option and Result types shared by every module of the model, and the
 * exception kinds the modelled Python and Java code raises.
 */
module Wrappers {

  datatype Option<T> = None | Some(value: T)
  {
    function GetOr(default: T): T
    {
      match this
      case None => default
      case Some(v) => v
    }
  }

  /** The exception classes raised by the modelled code; messages are not modelled. */
  datatype Error =
    | ValueError
    | IOError
    | RuntimeError
    | KeyError
    | AssertionError
    | ZeroDivisionError
    | ConversionException
    | ConvertError
    | IllegalArgumentException
    | StopIteration
    | IndexError
    | TypeError
    | AttributeError
    | RecursionError
    | WorkerFailure(reason: string)

  datatype Result<T> = Ok(value: T) | Err(error: Error)
  {
    predicate IsFailure()
    {
      Err?
    }

    function PropagateFailure<U>(): Result<U>
      requires Err?
    {
      Err(error)
    }

    function Extract(): T
      requires Ok?
    {
      value
    }
  }
}
