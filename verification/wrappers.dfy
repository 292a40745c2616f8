/** Option and Result, the failure-compatible wrappers used throughout the model. */
module Wrappers {

  datatype Option<+T> = None | Some(value: T) {
    function GetOr(default: T): T {
      match this
      case Some(v) => v
      case None => default
    }
  }

  datatype Result<+R, +E> = Success(value: R) | Failure(error: E)
}

/** The error domain of the library: each variant is one exception class of the source. */
module Errors {

  datatype Error =
    /** `Emyi\Db\Driver\Exception::unsupportedMethod(__METHOD__)`, carrying the method name */
    | UnsupportedMethod(name: string)
    /** PHP's fatal "call to undefined method" */
    | UndefinedMethod(name: string)
    /** PHP's fatal "class not found" when instantiating a class by name */
    | UndefinedClass(name: string)
    /** `Emyi\Db\Exception` (configuration and transaction errors) */
    | DbException(message: string, code: int)
    /** `Emyi\Db\ConnectionException` (failures of the native driver) */
    | ConnectionException(message: string, code: int)
}
