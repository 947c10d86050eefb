/** Small helper datatypes shared by every module of the model. */
module Wrappers {

  /** A value that may be absent: Go's nil, a missing header, "no error". */
  datatype Option<+T> = None | Some(value: T) {
    function GetOr(default: T): T {
      match this
      case Some(v) => v
      case None => default
    }
  }

  /** Bytes as Go's `byte`. */
  newtype Byte = x: int | 0 <= x < 256

  /** A uuid.UUID, identified by its canonical text form (what `%v` prints). */
  datatype Uuid = Uuid(text: string)

  /** uuid.Nil. */
  const NilUuid: Uuid := Uuid("00000000-0000-0000-0000-000000000000")

  /** Wall-clock instants as whole seconds; durations are differences of these. */
  type Time = int
}
