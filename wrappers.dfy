/** Small value wrappers shared by the modules of this model. */
module Wrappers {

  datatype Option<T> = None | Some(value: T)

  /** Bytes as the source reads them (`unsigned char`). */
  type Byte = b: int | 0 <= b < 256

  /** `unsigned int` (32 bits), as GL names and the samples' counters use it. */
  type UInt32 = n: int | 0 <= n < 0x1_0000_0000
}
