// The gate registry as an object (internal/gate/gate.go), the calls that write it one at a time
// (preflight attempt, meta refresh, restore at start, operator resume), and its agreement with the store.
module RegistryObject {
  import opened Domain
  import opened Classifier
  import opened Tables
  import opened Gates
  import opened Storage
  import Pipeline

  class Registry {
    var entries: map<ReaderId, Entry>
    var halted: bool
    /** The one-slot channel the sender waits on. */
    var changed: bool

    constructor ()
      ensures entries == map[] && !halted && !changed
    {
      entries, halted, changed := map[], false, false;
    }

    method Init(reader: ReaderId, e: Entry)
      modifies this`entries
      ensures entries == old(entries)[reader := e]
    {
      entries := entries[reader := e];
    }

    /** Memory first, then the signal, then the store. */
    method Set(p: Store?, reader: ReaderId, state: GateState, reason: Reason, now: Millis,
               fingerprint: string, meta: Option<GateMeta>)
      modifies this`entries, this`changed, if p != null then {p} else {}
      ensures var job := Job(reader, state, reason, now, fingerprint, meta);
              && entries == old(entries)[reader := Written(Lookup(old(entries), reader), job)]
              && (p != null ==> p.Db() == Persisted(old(p.Db()), job))
      ensures changed
      ensures reader in entries && entries == old(entries)[reader := entries[reader]]
      ensures entries[reader].state == state && entries[reader].reason == reason
      ensures entries[reader].fingerprint == if fingerprint != "" then fingerprint
                                             else if reader in old(entries) then old(entries)[reader].fingerprint else ""
      ensures entries[reader].meta == if meta.Some? then meta.value
                                      else if reader in old(entries) then old(entries)[reader].meta else NO_META
      ensures p != null ==>
                && p.queue == old(p.queue) && p.nextId == old(p.nextId) && p.debounce == old(p.debounce)
                && reader in p.gates && p.gates == old(p.gates)[reader := p.gates[reader]]
                && p.gates[reader].state == state && p.gates[reader].reason == reason
                && p.gates[reader].changedMs == now && p.gates[reader].fingerprint == fingerprint
                && p.gates[reader].meta == if meta.Some? then meta.value
                                           else if reader in old(p.gates) then old(p.gates)[reader].meta else NO_META
    {
      var e := if reader in entries then entries[reader] else Entry(state, NoReason, "", NO_META);
      e := e.(state := state, reason := reason);
      if fingerprint != "" {
        e := e.(fingerprint := fingerprint);
      }
      if meta.Some? {
        e := e.(meta := meta.value);
      }
      entries := entries[reader := e];
      changed := true;
      if p != null {
        p.SetGate(reader, state, reason, now, fingerprint, meta);
      }
    }

    method RefreshMeta(p: Store?, reader: ReaderId, state: GateState, reason: Reason, now: Millis, meta: GateMeta)
      returns (applied: bool)
      modifies this`entries, this`changed, if p != null then {p} else {}
      ensures applied <==> Refreshable(Lookup(old(entries), reader), state, meta)
      ensures !applied ==> entries == old(entries) && changed == old(changed) && (p != null ==> p.Db() == old(p.Db()))
      ensures applied ==>
                var job := Job(reader, state, reason, now, old(entries)[reader].fingerprint, Some(meta));
                && entries == old(entries)[reader := Written(Lookup(old(entries), reader), job)]
                && (p != null ==> p.Db() == Persisted(old(p.Db()), job))
                && changed
    {
      if reader !in entries || !entries[reader].state.Sendable() {
        return false;
      }
      var e := entries[reader];
      if e.state == state && e.meta == meta {
        return false;
      }
      entries := entries[reader := e.(state := state, reason := reason, meta := meta)];
      changed := true;
      if p != null {
        p.SetGate(reader, state, reason, now, e.fingerprint, Some(meta));
      }
      applied := true;
    }

    /** The readers the sender may pick from, each once, in no particular order. */
    method SendableReaders() returns (out: seq<ReaderId>)
      ensures (set r | r in out) == Pipeline.SendableReaders(entries)
      ensures forall i, j :: 0 <= i < j < |out| ==> out[i] != out[j]
    {
      out := [];
      var left := entries.Keys;
      while left != {}
        invariant left <= entries.Keys
        invariant forall r :: r in out <==> r in entries && r !in left && entries[r].state.Sendable()
        invariant forall i, j :: 0 <= i < j < |out| ==> out[i] != out[j]
        decreases left
      {
        var id :| id in left;
        left := left - {id};
        if entries[id].state.Sendable() {
          out := out + [id];
        }
      }
    }

    method Suspended(reader: ReaderId) returns (b: bool)
      ensures b <==> reader in entries && entries[reader].state.Suspended()
    {
      b := reader in entries && entries[reader].state.Suspended();
    }

    method HaltGlobal()
      modifies this`halted, this`changed
      ensures halted && changed
    {
      halted := true;
      changed := true;
    }
  }

  // ---- Calls that write gates ----

  /** A reply that names an event, a booth or a unit. */
  predicate Names(res: PreflightReply) {
    res.meta.Some? &&
    (res.meta.value.eventName != "" || res.meta.value.boothName != "" || res.meta.value.unitName != "")
  }

  /** Which replies to a preflight lead to which state, and what else its one gate write holds. */
  ghost predicate Answered(was: map<ReaderId, Entry>, stored: map<ReaderId, GateRow>, entries: map<ReaderId, Entry>,
                           gates: map<ReaderId, GateRow>, reader: ReaderId, fingerprint: string, now: Millis, res: PreflightReply) {
    && reader in entries && entries == was[reader := entries[reader]]
    && reader in gates && gates == stored[reader := gates[reader]]
    && var e, row := entries[reader], gates[reader];
    var arrived := !res.transportErr && !res.bodyErr && res.status < 500;
    // the state
    && (e.state.PreflightRetry? <==> !arrived)
    && (e.state.SuspendedToken? <==> arrived && res.status == 404)
    && (e.state.SuspendedConfig? <==> arrived && res.status != 404 && (res.status == 200 ==> !Names(res)))
    && (e.state.SuspendedRebind? <==>
          && arrived && res.status == 200 && Names(res) && reader in was
          && was[reader].fingerprint != "" && was[reader].fingerprint != fingerprint
          && was[reader].meta.boothName != "" && was[reader].meta.boothName != res.meta.value.boothName)
    && (e.state.Active? <==>
          arrived && res.status == 200 && Names(res) && !e.state.SuspendedRebind? && res.meta.value.cooldownSec > 0)
    && (e.state.ActiveWarning? <==>
          arrived && res.status == 200 && Names(res) && !e.state.SuspendedRebind? && res.meta.value.cooldownSec <= 0)
    // memory and store
    && row.state == e.state && row.reason == e.reason && row.changedMs == now && row.fingerprint == fingerprint
    && (match e.state
        case PreflightRetry => e.reason == Unreachable
        case SuspendedToken => e.reason == Revoked
        case SuspendedConfig => e.reason == if res.status == 200 then BadBody else Unexpected
        case SuspendedRebind => e.reason == Rebound
        case ActiveWarning => e.reason == NoCooldown
        case _ => e.reason == NoReason)
    && (fingerprint != "" ==> e.fingerprint == fingerprint)
    && (if e.state.SuspendedRebind? || e.state.Sendable() then e.meta == row.meta == res.meta.value
        else && e.meta == (if reader in was then was[reader].meta else NO_META)
             && row.meta == (if reader in stored then stored[reader].meta else NO_META))
  }

  lemma {:induction false} AnsweredExactly(entries: map<ReaderId, Entry>, db: Db, reader: ReaderId, fingerprint: string, now: Millis, res: PreflightReply)
    ensures var job := PreflightJob(reader, now, res, Lookup(entries, reader), fingerprint);
            Answered(entries, db.gates, WriteEntries(entries, job), Persisted(db, job).gates, reader, fingerprint, now, res)
  {
  }

  /** One preflight attempt, given the reply it got; `done` when it was conclusive. */
  method Attempt(gates: Registry, p: Store, reader: ReaderId, fingerprint: string, now: Millis, res: PreflightReply)
    returns (done: bool)
    modifies gates, p
    ensures var job := PreflightJob(reader, now, res, Lookup(old(gates.entries), reader), fingerprint);
            && gates.entries == old(gates.entries)[reader := Written(Lookup(old(gates.entries), reader), job)]
            && p.Db() == Persisted(old(p.Db()), job)
            && (done <==> !job.state.PreflightRetry?)
    ensures gates.halted == old(gates.halted) && gates.changed
    ensures Answered(old(gates.entries), old(p.gates), gates.entries, p.gates, reader, fingerprint, now, res)
    ensures p.queue == old(p.queue) && p.nextId == old(p.nextId) && p.debounce == old(p.debounce)
  {
    AnsweredExactly(gates.entries, p.Db(), reader, fingerprint, now, res);
    hide Answered;
    if res.transportErr || res.bodyErr || res.status >= 500 {
      gates.Set(p, reader, PreflightRetry, Unreachable, now, fingerprint, None);
      return false;
    } else if res.status == 200 {
      if !ValidMeta(res.meta) {
        gates.Set(p, reader, SuspendedConfig, BadBody, now, fingerprint, None);
        return true;
      }
      var meta := res.meta.value;
      if reader in gates.entries {
        var prev := gates.entries[reader];
        if prev.fingerprint != "" && prev.fingerprint != fingerprint &&
           prev.meta.boothName != "" && prev.meta.boothName != meta.boothName {
          gates.Set(p, reader, SuspendedRebind, Rebound, now, fingerprint, Some(meta));
          return true;
        }
      }
      if meta.cooldownSec > 0 {
        gates.Set(p, reader, Active, NoReason, now, fingerprint, Some(meta));
      } else {
        gates.Set(p, reader, ActiveWarning, NoCooldown, now, fingerprint, Some(meta));
      }
      return true;
    } else if res.status == 404 {
      gates.Set(p, reader, SuspendedToken, Revoked, now, fingerprint, None);
      return true;
    } else {
      gates.Set(p, reader, SuspendedConfig, Unexpected, now, fingerprint, None);
      return true;
    }
  }

  /** One meta refresh, given the reply it would get; without a sendable entry no reply is fetched. */
  method Tick(gates: Registry, p: Store, reader: ReaderId, now: Millis, res: PreflightReply)
    modifies gates, p
    ensures var e := Lookup(old(gates.entries), reader);
            if PreflightOk(res) && RefreshApplies(e, res.meta.value) then
              var job := RefreshJob(reader, now, res.meta.value, e.value);
              && gates.entries == old(gates.entries)[reader := Written(e, job)] && p.Db() == Persisted(old(p.Db()), job)
              && gates.changed
            else gates.entries == old(gates.entries) && p.Db() == old(p.Db()) && gates.changed == old(gates.changed)
    ensures gates.halted == old(gates.halted)
    ensures p.queue == old(p.queue) && p.nextId == old(p.nextId) && p.debounce == old(p.debounce)
    // a valid 200 for a sendable reader: memory holds what it says, whether or not that is new
    ensures reader in old(gates.entries) && old(gates.entries)[reader].state.Sendable() &&
            !res.transportErr && !res.bodyErr && res.status == 200 && res.meta.Some? &&
            (res.meta.value.eventName != "" || res.meta.value.boothName != "" || res.meta.value.unitName != "") ==>
              var was := old(gates.entries)[reader];
              && reader in gates.entries && gates.entries == old(gates.entries)[reader := gates.entries[reader]]
              && gates.entries[reader].meta == res.meta.value && gates.entries[reader].fingerprint == was.fingerprint
              && gates.entries[reader].state == (if res.meta.value.cooldownSec == 0 then ActiveWarning else Active)
              && if gates.entries[reader].state == was.state && res.meta.value == was.meta
                 then gates.entries == old(gates.entries) && p.gates == old(p.gates)
                 else
                   && reader in p.gates && p.gates == old(p.gates)[reader := p.gates[reader]]
                   && p.gates[reader].state == gates.entries[reader].state
                   && p.gates[reader].reason == (if res.meta.value.cooldownSec == 0 then NoCooldown else NoReason)
                   && p.gates[reader].changedMs == now && p.gates[reader].fingerprint == was.fingerprint
                   && p.gates[reader].meta == res.meta.value
    // anything else: nothing changes
    ensures !(reader in old(gates.entries) && old(gates.entries)[reader].state.Sendable() &&
              !res.transportErr && !res.bodyErr && res.status == 200 && res.meta.Some? &&
              (res.meta.value.eventName != "" || res.meta.value.boothName != "" || res.meta.value.unitName != "")) ==>
              gates.entries == old(gates.entries) && p.gates == old(p.gates)
  {
    if reader !in gates.entries || !gates.entries[reader].state.Sendable() {
      return;
    }
    if res.transportErr || res.bodyErr || res.status != 200 || !ValidMeta(res.meta) {
      return;
    }
    var meta := res.meta.value;
    var state, reason := Active, NoReason;
    if meta.cooldownSec == 0 {
      state, reason := ActiveWarning, NoCooldown;
    }
    var applied := gates.RefreshMeta(p, reader, state, reason, now, meta);
  }

  function FaultOf(faults: map<ReaderId, Fault>, r: ReaderId): Fault {
    if r in faults then faults[r] else NoFault
  }

  /** The tables after restoring the readers of `done`, in any order: each reader's row depends on it alone. */
  ghost predicate RestoredAll(db: Db, after: Db, entries: map<ReaderId, Entry>,
                              creds: map<ReaderId, Credential>, done: set<ReaderId>, now: Millis,
                              faults: map<ReaderId, Fault>)
    requires done <= creds.Keys
  {
    && after == db.(gates := after.gates)
    && entries.Keys == done
    && (forall r :: r in done ==> entries[r] == RestoredEntry(db, r, creds[r].fingerprint, FaultOf(faults, r)))
    && (forall r :: r in done ==> Lookup(after.gates, r) ==
                                  Lookup(RestoredDb(db, r, creds[r].fingerprint, now, FaultOf(faults, r)).gates, r))
    && (forall r :: r !in done ==> Lookup(after.gates, r) == Lookup(db.gates, r))
  }

  lemma {:induction false} RestoredMore(db: Db, mid: Db, after: Db, before: map<ReaderId, Entry>, entries: map<ReaderId, Entry>,
                                        creds: map<ReaderId, Credential>, left: set<ReaderId>, r: ReaderId, now: Millis,
                                        faults: map<ReaderId, Fault>)
    requires r in left && left <= creds.Keys && RestoredAll(db, mid, before, creds, creds.Keys - left, now, faults)
    requires entries == before[r := RestoredEntry(db, r, creds[r].fingerprint, FaultOf(faults, r))]
    requires after == mid.(gates := after.gates)
    requires Lookup(after.gates, r) == Lookup(RestoredDb(db, r, creds[r].fingerprint, now, FaultOf(faults, r)).gates, r)
    requires forall q :: q != r ==> Lookup(after.gates, q) == Lookup(mid.gates, q)
    ensures RestoredAll(db, after, entries, creds, creds.Keys - (left - {r}), now, faults)
  {
    assert creds.Keys - (left - {r}) == creds.Keys - left + {r};
  }

  /** A stored token suspension does not survive a start: the token is another one, none of the reader's rows is
      queued, and they could be counted. */
  predicate Dropped(row: GateRow, fingerprint: string, queue: map<nat, Row>, r: ReaderId, fault: Fault) {
    && row.state == SuspendedToken && row.fingerprint != fingerprint && !fault.CountFails?
    && forall id :: id in queue ==> queue[id].reader != r
  }

  /** What a start makes of the stored rows `was`: the entries it begins with and the rows it leaves. */
  ghost predicate RestoredGates(was: map<ReaderId, GateRow>, queue: map<nat, Row>, gates: map<ReaderId, GateRow>,
                           entries: map<ReaderId, Entry>, creds: map<ReaderId, Credential>, now: Millis,
                           faults: map<ReaderId, Fault>) {
    && entries.Keys == creds.Keys
    && (forall r :: r in creds && r !in was ==> entries[r] == Entry(PreflightPending, NoReason, "", NO_META))
    && (forall r :: r in creds && r in was ==>
          var row, e := was[r], entries[r];
          && e.reason == row.reason && e.fingerprint == row.fingerprint && e.meta == row.meta
          && e.state == if row.state.Suspended() && !Dropped(row, creds[r].fingerprint, queue, r, FaultOf(faults, r))
                        then row.state else PreflightPending)
    && (forall r :: r in gates <==> r in was)
    && (forall r :: r in gates ==>
          var row := was[r];
          gates[r] == if r in creds && Dropped(row, creds[r].fingerprint, queue, r, FaultOf(faults, r)) && FaultOf(faults, r).NoFault?
                      then GateRow(PreflightPending, TokenChanged, now, creds[r].fingerprint, row.meta) else row)
  }

  lemma {:induction false} NonePending(db: Db, r: ReaderId)
    ensures PendingIds(db, r) == {} <==> forall id :: id in db.queue ==> db.queue[id].reader != r
  {
    if PendingIds(db, r) == {} {
      forall id | id in db.queue ensures db.queue[id].reader != r {
        assert id !in PendingIds(db, r);
      }
    }
  }

  lemma {:induction false} RestoredReader(db: Db, after: Db, e: Entry, r: ReaderId, fingerprint: string, now: Millis, fault: Fault)
    requires r in db.gates && e == RestoredEntry(db, r, fingerprint, fault)
    requires Lookup(after.gates, r) == Lookup(RestoredDb(db, r, fingerprint, now, fault).gates, r)
    ensures var row := db.gates[r];
            var dropped := Dropped(row, fingerprint, db.queue, r, fault);
            && e.reason == row.reason && e.fingerprint == row.fingerprint && e.meta == row.meta
            && e.state == (if row.state.Suspended() && !dropped then row.state else PreflightPending)
            && r in after.gates
            && after.gates[r] == if dropped && fault.NoFault?
                                 then GateRow(PreflightPending, TokenChanged, now, fingerprint, row.meta) else row
  {
    NonePending(db, r);
  }

  lemma {:induction false} RestoredExactly(db: Db, after: Db, entries: map<ReaderId, Entry>, creds: map<ReaderId, Credential>,
                                           now: Millis, faults: map<ReaderId, Fault>)
    requires RestoredAll(db, after, entries, creds, creds.Keys, now, faults)
    ensures RestoredGates(db.gates, db.queue, after.gates, entries, creds, now, faults)
    ensures after == db.(gates := after.gates)
  {
    hide RestoredEntry, RestoredDb, Dropped;
    forall r | r in creds && r in db.gates
      ensures r in after.gates && var row, e := db.gates[r], entries[r];
              var dropped := Dropped(row, creds[r].fingerprint, db.queue, r, FaultOf(faults, r));
              && e.reason == row.reason && e.fingerprint == row.fingerprint && e.meta == row.meta
              && e.state == (if row.state.Suspended() && !dropped then row.state else PreflightPending)
              && after.gates[r] == if dropped && FaultOf(faults, r).NoFault?
                                   then GateRow(PreflightPending, TokenChanged, now, creds[r].fingerprint, row.meta) else row
    {
      RestoredReader(db, after, entries[r], r, creds[r].fingerprint, now, FaultOf(faults, r));
    }
    forall r | r in creds && r !in db.gates
      ensures entries[r] == Entry(PreflightPending, NoReason, "", NO_META) && r !in after.gates
    {
      NeverStored(db, after, r, creds[r].fingerprint, now, FaultOf(faults, r));
    }
    forall r | r !in creds ensures Lookup(after.gates, r) == Lookup(db.gates, r) {
    }
  }

  lemma {:induction false} NeverStored(db: Db, after: Db, r: ReaderId, fingerprint: string, now: Millis, fault: Fault)
    requires r !in db.gates
    requires Lookup(after.gates, r) == Lookup(RestoredDb(db, r, fingerprint, now, fault).gates, r)
    ensures RestoredEntry(db, r, fingerprint, fault) == Entry(PreflightPending, NoReason, "", NO_META) && r !in after.gates
  {
  }

  lemma {:induction false} NothingRestored(db: Db, creds: map<ReaderId, Credential>, now: Millis, faults: map<ReaderId, Fault>)
    ensures RestoredAll(db, db, map[], creds, {}, now, faults)
  {
  }

  lemma {:induction false} NotYetRestored(db: Db, mid: Db, entries: map<ReaderId, Entry>, creds: map<ReaderId, Credential>,
                                          left: set<ReaderId>, r: ReaderId, now: Millis, faults: map<ReaderId, Fault>)
    requires r in left && left <= creds.Keys && RestoredAll(db, mid, entries, creds, creds.Keys - left, now, faults)
    ensures mid == db.(gates := mid.gates) && Lookup(mid.gates, r) == Lookup(db.gates, r)
    ensures PendingIds(mid, r) == PendingIds(db, r)
  {
  }

  /** The restore loop at start; `faults` says for which readers the store fails on the way. */
  method RestoreGates(gates: Registry, p: Store, creds: map<ReaderId, Credential>, now: Millis, faults: map<ReaderId, Fault>)
    requires gates.entries == map[]
    modifies gates`entries, p
    ensures RestoredAll(old(p.Db()), p.Db(), gates.entries, creds, creds.Keys, now, faults)
    ensures RestoredGates(old(p.gates), old(p.queue), p.gates, gates.entries, creds, now, faults)
    ensures p.queue == old(p.queue) && p.nextId == old(p.nextId) && p.debounce == old(p.debounce)
  {
    hide RestoredGates, RestoredAll;
    ghost var db := p.Db();
    var rows := p.gates;
    var left := creds.Keys;
    NothingRestored(db, creds, now, faults);
    assert creds.Keys - left == {};
    while left != {}
      invariant left <= creds.Keys && rows == db.gates
      invariant RestoredAll(db, p.Db(), gates.entries, creds, creds.Keys - left, now, faults)
      decreases left
    {
      var r :| r in left;
      ghost var mid, before := p.Db(), gates.entries;
      NotYetRestored(db, mid, before, creds, left, r, now, faults);
      var fingerprint := creds[r].fingerprint;
      if r in rows {
        var row := rows[r];
        var state := row.state;
        if !state.Suspended() {
          state := PreflightPending;
        }
        if state == SuspendedToken && fingerprint != row.fingerprint {
          var n := p.PendingCount(r);
          if !FaultOf(faults, r).CountFails? && n == 0 {
            state := PreflightPending;
            if !FaultOf(faults, r).WriteFails? {
              p.SetGate(r, state, TokenChanged, now, fingerprint, None);
            }
          }
        }
        gates.Init(r, Entry(state, row.reason, row.fingerprint, row.meta));
      } else {
        gates.Init(r, Entry(PreflightPending, NoReason, "", NO_META));
      }
      RestoredMore(db, mid, p.Db(), before, gates.entries, creds, left, r, now, faults);
      left := left - {r};
    }
    assert creds.Keys - left == creds.Keys;
    RestoredExactly(db, p.Db(), gates.entries, creds, now, faults);
  }

  datatype ResumeResult = Refusal | Ready(pending: nat, discarded: nat)

  /** Operator resume; the application lock keeps it apart from a running process. */
  method QueueResume(p: Store, creds: map<ReaderId, Credential>, reader: ReaderId, discard: bool, now: Millis)
    returns (res: ResumeResult)
    requires p.Valid()
    modifies p
    ensures p.Valid()
    ensures res.Ready? <==> reader in creds && reader in old(p.gates) && old(p.gates)[reader].state.Suspended()
    ensures res.Refusal? ==> p.Db() == old(p.Db())
    ensures res.Ready? ==>
              var db := if discard then Discarded(old(p.Db()), reader) else old(p.Db());
              && p.Db() == Resumed(db, reader, now)
              && res.pending == |PendingIds(old(p.Db()), reader)|
              && res.discarded == if discard then res.pending else 0
    ensures res.Ready? ==>
              && reader in p.gates && p.gates == old(p.gates)[reader := p.gates[reader]]
              && p.gates[reader].state == PreflightPending && p.gates[reader].reason == OperatorResume
              && p.gates[reader].changedMs == now && p.gates[reader].fingerprint == old(p.gates)[reader].fingerprint
              && p.gates[reader].meta == old(p.gates)[reader].meta
              && p.nextId == old(p.nextId) && p.debounce == old(p.debounce)
              && (forall id :: id in p.queue <==>
                    id in old(p.queue) && (discard ==> old(p.queue)[id].reader != reader))
              && (forall id :: id in p.queue ==> p.queue[id] == old(p.queue)[id])
  {
    if reader !in creds {
      return Refusal;
    }
    if reader !in p.gates || !p.gates[reader].state.Suspended() {
      return Refusal;
    }
    var fingerprint := p.gates[reader].fingerprint;
    var count := p.PendingCount(reader);
    var gone := 0;
    if discard {
      gone := p.DiscardPending(reader);
    }
    p.SetGate(reader, PreflightPending, OperatorResume, now, fingerprint, None);
    res := Ready(count, gone);
  }

  // ---- Registry and store agree ----

  /** The meta a Set without meta would leave is the same on both sides. */
  predicate MetaAgrees(entries: map<ReaderId, Entry>, db: Db, r: ReaderId) {
    r in entries ==> entries[r].meta == if r in db.gates then db.gates[r].meta else NO_META
  }

  predicate Agrees(entries: map<ReaderId, Entry>, db: Db, job: Job) {
    && job.reader in entries && job.reader in db.gates
    && var e, row := entries[job.reader], db.gates[job.reader];
    && row.state == e.state && row.reason == e.reason && row.meta == e.meta
    && (if job.fingerprint != "" then row.fingerprint == e.fingerprint == job.fingerprint else row.fingerprint == "")
  }

  function WriteEntries(entries: map<ReaderId, Entry>, job: Job): map<ReaderId, Entry> {
    entries[job.reader := Written(Lookup(entries, job.reader), job)]
  }

  /** The registry and the store after n whole calls. */
  function AfterCalls(entries: map<ReaderId, Entry>, db: Db, jobs: seq<Job>, n: nat): (map<ReaderId, Entry>, Db)
    requires n <= |jobs|
  {
    if n == 0 then (entries, db)
    else
      var (e, d) := AfterCalls(entries, db, jobs, n - 1);
      (WriteEntries(e, jobs[n - 1]), Persisted(d, jobs[n - 1]))
  }

  lemma {:induction false} MetaStaysAgreed(entries: map<ReaderId, Entry>, db: Db, jobs: seq<Job>, n: nat, r: ReaderId)
    requires n <= |jobs| && MetaAgrees(entries, db, r)
    requires r !in entries ==> r !in db.gates
    ensures var (e, d) := AfterCalls(entries, db, jobs, n); MetaAgrees(e, d, r) && (r !in e ==> r !in d.gates)
  {
    if n > 0 {
      MetaStaysAgreed(entries, db, jobs, n - 1, r);
    }
  }

  /** After every whole call of any sequence of gate writes, stored state, reason and meta equal the
      registry's, and so does the fingerprint if one was passed; the sender's empty one is blanked
      in the store and kept in memory. */
  lemma {:induction false} RegistryAndStoreAgree(entries: map<ReaderId, Entry>, db: Db, jobs: seq<Job>, n: nat)
    requires n < |jobs|
    requires MetaAgrees(entries, db, jobs[n].reader) && (jobs[n].reader !in entries ==> jobs[n].reader !in db.gates)
    ensures var (e, d) := AfterCalls(entries, db, jobs, n);
            var (e', d') := AfterCalls(entries, db, jobs, n + 1);
            && Agrees(e', d', jobs[n])
            && (jobs[n].fingerprint == "" && jobs[n].reader in e ==>
                  e'[jobs[n].reader].fingerprint == e[jobs[n].reader].fingerprint)
  {
    MetaStaysAgreed(entries, db, jobs, n, jobs[n].reader);
  }

  /** A restored process starts with the two sides agreeing on meta, whatever the store did. */
  lemma {:induction false} RestoreAgrees(db: Db, r: ReaderId, fingerprint: string, now: Millis, fault: Fault)
    ensures var entries := map[r := RestoredEntry(db, r, fingerprint, fault)];
            MetaAgrees(entries, RestoredDb(db, r, fingerprint, now, fault), r)
  {
  }
}
