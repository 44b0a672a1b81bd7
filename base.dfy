/**
 * Value types shared by the DeviceUpdater model.
 */
module Base {

  /** An unsigned 8-bit value: one byte of an update artifact (`uint8_t`). */
  type Byte = b: int | 0 <= b < 256

  /** A value that may be absent: a file that may or may not open. */
  datatype Option<T> = None | Some(value: T)
}
