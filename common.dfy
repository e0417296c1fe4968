/** Small value types shared by every module of the model. */
module Common {

  /** A Java reference that may be null, or a boxed value that may be absent. */
  datatype Option<+T> = None | Some(value: T)

  /**
   * How a modelled Java operation ended.
   * AccessFailed stands for a CameraAccessException thrown by a device call;
   * NullPointer stands for a NullPointerException (a null dereference or the
   * unboxing of an absent Integer).
   */
  datatype Outcome = Ok | AccessFailed | NullPointer
}
