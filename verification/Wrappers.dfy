// Failure-compatible wrappers shared by every module of the model.
module Wrappers {

  datatype Option<+T> = None | Some(value: T)

  datatype Result<+T> = Ok(value: T) | Err(error: string)

  type Byte = b: nat | b < 256

  // One more than the largest Go uint64.
  const U64: nat := 0x1_0000_0000_0000_0000
}
