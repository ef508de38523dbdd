/** Small shared vocabulary: optional values, outcomes of a transaction, identifiers and clocks. */
module Prelude {
  datatype Option<+T> = None | Some(value: T)

  /** Why a transaction refused. `Integrity` stands for a violated unique constraint. */
  datatype Error = NotFound | NotOwner | Conflict | Integrity | Busy | Invalid | Missing

  datatype Result<+T> = Ok(value: T) | Err(error: Error)

  type UserId = nat
  type ConvId = nat
  type RunId = nat
  type MsgId = nat
  type JobId = nat
  type Token = nat
  type WorkerId = string

  /** Timestamps are whole microseconds, the resolution of the original's clock. */
  type Time = int

  const SECOND: int := 1_000_000

  function Max(a: int, b: int): int {
    if a < b then b else a
  }

  /** How long a lease lasts: at least ten seconds, whatever the caller asks for. */
  function LeaseSpan(leaseSeconds: int): int {
    Max(10, leaseSeconds) * SECOND
  }

  /** A text column keeps only its first `limit` characters. */
  function Clip(text: string, limit: nat): string {
    if |text| <= limit then text else text[..limit]
  }

  /** The name a worker's lease is stored under. */
  function OwnerName(w: WorkerId): WorkerId {
    if |w| <= 200 then w else w[..200]
  }
}
