// Value types shared by the whole pipeline (internal/domain/domain.go).
module Domain {

  type ReaderId = string
  type Epc = string
  /** Times are Unix milliseconds; clocks may jump in either direction. */
  type Millis = int

  datatype Option<+T> = None | Some(value: T)

  /** Per-reader send state. */
  datatype GateState =
    | PreflightPending
    | PreflightRetry
    | Active
    | ActiveWarning
    | SuspendedToken
    | SuspendedConfig
    | SuspendedRebind
  {
    /** The sender may pick rows of this reader. */
    predicate Sendable() {
      Active? || ActiveWarning?
    }

    /** New scans of this reader are not queued. */
    predicate Suspended() {
      SuspendedToken? || SuspendedConfig? || SuspendedRebind?
    }
  }

  /** What a preflight GET tells about the place a token is bound to. */
  datatype GateMeta = GateMeta(eventName: string, boothName: string, unitName: string, cooldownSec: int)

  const NO_META := GateMeta("", "", "", 0)

  /** One row of the durable queue. `checkedAt` is the text sent to the server, `checkedMs` its time. */
  datatype Row = Row(
    id: nat,
    reader: ReaderId,
    epc: Epc,
    checkedAt: string,
    checkedMs: Millis,
    attempts: nat,
    nextMs: Millis)

  /** Two rows describe the same scan: everything fixed at admission is equal. */
  predicate SameScan(a: Row, b: Row) {
    && a.id == b.id
    && a.reader == b.reader
    && a.epc == b.epc
    && a.checkedAt == b.checkedAt
    && a.checkedMs == b.checkedMs
  }

  /** Why a gate is in its state (an operator text in the source). */
  datatype Reason =
    | NoReason
    | Unreachable
    | BadBody
    | Rebound
    | NoCooldown
    | Revoked
    | Unexpected
    | TokenChanged
    | NotConfigured
    | OperatorResume

  /** A persisted gate row. */
  datatype GateRow = GateRow(
    state: GateState,
    reason: Reason,
    changedMs: Millis,
    fingerprint: string,
    meta: GateMeta)

  /** An in-memory registry entry. */
  datatype Entry = Entry(state: GateState, reason: Reason, fingerprint: string, meta: GateMeta)

  /** A configured reader's token, with the fingerprint the gate rows compare. */
  datatype Credential = Credential(token: string, fingerprint: string)

  datatype Decision = Complete | Drop | Retry | SuspendReader | HaltGlobal
}
