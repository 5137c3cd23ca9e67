// Decisions about a reader's gate: what a preflight reply, a meta refresh and a restart make of it
// (internal/sender/preflight.go, internal/sender/metarefresh.go, internal/gate/gate.go, internal/app/app.go).
module Gates {
  import opened Domain
  import opened Classifier
  import opened Tables

  /** The arguments of one gate write. An empty fingerprint means "not passed". */
  datatype Job = Job(
    reader: ReaderId,
    state: GateState,
    reason: Reason,
    now: Millis,
    fingerprint: string,
    meta: Option<GateMeta>)

  /** The sender's gate writes: its token was refused, or the reader has none. */
  function Revocation(reader: ReaderId, now: Millis): Job {
    Job(reader, SuspendedToken, Revoked, now, "", None)
  }

  function Unconfigured(reader: ReaderId, now: Millis): Job {
    Job(reader, SuspendedConfig, NotConfigured, now, "", None)
  }

  /** Memory half of Registry.Set, on the entry the reader had (None when it had none). */
  function Written(e: Option<Entry>, job: Job): Entry {
    var base := if e.Some? then e.value else Entry(job.state, NoReason, "", NO_META);
    Entry(job.state, job.reason,
          if job.fingerprint != "" then job.fingerprint else base.fingerprint,
          if job.meta.Some? then job.meta.value else base.meta)
  }

  /** Store half of Registry.Set. */
  function Persisted(db: Db, job: Job): Db {
    GateStored(db, job.reader, job.state, job.reason, job.now, job.fingerprint, job.meta)
  }

  function Lookup<K, V>(m: map<K, V>, k: K): Option<V> {
    if k in m then Some(m[k]) else None
  }

  /** The token changed and the place it is bound to is another booth. */
  predicate RebindTrips(prev: Option<Entry>, fingerprint: string, meta: GateMeta) {
    && prev.Some?
    && prev.value.fingerprint != "" && prev.value.fingerprint != fingerprint
    && prev.value.meta.boothName != "" && prev.value.meta.boothName != meta.boothName
  }

  /** The gate write a preflight reply leads to. It is final unless the server could not be reached. */
  function PreflightJob(reader: ReaderId, now: Millis, reply: PreflightReply,
                        prev: Option<Entry>, fingerprint: string): Job {
    if PreflightUnreachable(reply) then Job(reader, PreflightRetry, Unreachable, now, fingerprint, None)
    else if reply.status == 200 then
      if !ValidMeta(reply.meta) then Job(reader, SuspendedConfig, BadBody, now, fingerprint, None)
      else if RebindTrips(prev, fingerprint, reply.meta.value) then
        Job(reader, SuspendedRebind, Rebound, now, fingerprint, reply.meta)
      else if reply.meta.value.cooldownSec > 0 then Job(reader, Active, NoReason, now, fingerprint, reply.meta)
      else Job(reader, ActiveWarning, NoCooldown, now, fingerprint, reply.meta)
    else if reply.status == 404 then Job(reader, SuspendedToken, Revoked, now, fingerprint, None)
    else Job(reader, SuspendedConfig, Unexpected, now, fingerprint, None)
  }

  /** The gate write a meta refresh asks for; the fingerprint is the entry's own. */
  function RefreshJob(reader: ReaderId, now: Millis, meta: GateMeta, e: Entry): Job {
    Job(reader,
        if meta.cooldownSec == 0 then ActiveWarning else Active,
        if meta.cooldownSec == 0 then NoCooldown else NoReason,
        now, e.fingerprint, Some(meta))
  }

  /** RefreshMeta's check under the lock: the entry is sendable and would change. */
  predicate Refreshable(e: Option<Entry>, state: GateState, meta: GateMeta) {
    e.Some? && e.value.state.Sendable() && !(e.value.state == state && e.value.meta == meta)
  }

  /** The check, for the state the refresher computes from the cooldown. */
  predicate RefreshApplies(e: Option<Entry>, meta: GateMeta) {
    Refreshable(e, if meta.cooldownSec == 0 then ActiveWarning else Active, meta)
  }

  /** A stored token suspension is dropped at start: other fingerprint configured and nothing pending. */
  predicate Reverifies(db: Db, reader: ReaderId, fingerprint: string)
    requires reader in db.gates
  {
    && db.gates[reader].state == SuspendedToken
    && fingerprint != db.gates[reader].fingerprint
    && PendingIds(db, reader) == {}
  }

  /** What may go wrong in the store while a reader is restored: the count of its pending rows, or the
      write that stores the lift. Both errors are swallowed. */
  datatype Fault = NoFault | CountFails | WriteFails

  /** The restore drops the stored suspension from memory. */
  predicate Lifts(db: Db, reader: ReaderId, fingerprint: string, fault: Fault) {
    reader in db.gates && Reverifies(db, reader, fingerprint) && !fault.CountFails?
  }

  /** The registry entry a configured reader starts with. */
  function RestoredEntry(db: Db, reader: ReaderId, fingerprint: string, fault: Fault): Entry {
    if reader !in db.gates then Entry(PreflightPending, NoReason, "", NO_META)
    else
      var row := db.gates[reader];
      Entry(if row.state.Suspended() && !Lifts(db, reader, fingerprint, fault) then row.state else PreflightPending,
            row.reason, row.fingerprint, row.meta)
  }

  /** What restoring a reader leaves in the store. */
  function RestoredDb(db: Db, reader: ReaderId, fingerprint: string, now: Millis, fault: Fault): Db {
    if Lifts(db, reader, fingerprint, fault) && fault.NoFault?
    then GateStored(db, reader, PreflightPending, TokenChanged, now, fingerprint, None)
    else db
  }

  /** Operator resume of a suspended reader. */
  function Resumed(db: Db, reader: ReaderId, now: Millis): Db
    requires reader in db.gates
  {
    GateStored(db, reader, PreflightPending, OperatorResume, now, db.gates[reader].fingerprint, None)
  }
}
