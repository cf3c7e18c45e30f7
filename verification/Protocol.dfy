/** Messages and values shared by the backend and the runner. */
module Protocol {

  datatype Option<+T> = None | Some(value: T)

  /** An opaque identifier; only equality and the database's order on it are used. */
  type Uuid = nat

  const TWO_31: int := 0x8000_0000
  const TWO_32: int := 0x1_0000_0000
  const TWO_63: int := 0x8000_0000_0000_0000
  const TWO_64: int := 0x1_0000_0000_0000_0000

  type Int32 = x: int | -TWO_31 <= x < TWO_31
  type Int64 = x: int | -TWO_63 <= x < TWO_63
  type UInt64 = x: int | 0 <= x < TWO_64

  /** `x as u64` of a signed integer: negative values wrap around. */
  function SignedToUInt64(x: Int64): UInt64 {
    if x < 0 then x + TWO_64 else x
  }

  /** `x as i64` of an unsigned 64-bit integer. */
  function UInt64ToInt64(x: UInt64): Int64 {
    if x < TWO_63 then x else x - TWO_64
  }

  /** `x as i32` of an unsigned 64-bit integer: the low 32 bits, read as signed. */
  function UInt64ToInt32(x: UInt64): Int32 {
    var low := x % TWO_32;
    if low < TWO_31 then low else low - TWO_32
  }

  datatype Platform = X86_64Linux | AArch64Darwin

  datatype VM = VM(cpuCount: UInt64, memorySizeMb: UInt64, platform: Platform)

  datatype CompletionStatus = Failed | Success | Cancelled | TimedOut | Skipped

  datatype JobStatus = Queued | Running | Complete(completion: CompletionStatus)

  datatype ServerMessage =
    | NewJobAvailable(id: Uuid, vm: VM)
    | JobClaimed(id: Uuid, vm: VM)
    | JobTimedOut(id: Uuid)
    | JobCancelled(id: Uuid)

  datatype ClientMessage =
    | ClaimJob(id: Uuid, vm: VM)
    | UpdateJobStatus(id: Uuid, status: JobStatus)
    | RequestJob
}
