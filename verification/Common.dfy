/** Datatypes shared by every module. */
module Common {
  type Byte = n: int | 0 <= n < 256

  // The NTSTATUS values the driver returns.
  datatype Status =
    | Success | Cancelled | NotReady | BufferTooSmall | InvalidParameter | InsufficientResources | DeviceBusy
    | NoMatch | InvalidDeviceState

  datatype Option<+T> = None | Some(value: T)

  datatype Result<+T, +E> = Ok(value: T) | Err(error: E)
}
