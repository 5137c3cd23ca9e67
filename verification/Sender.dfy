// One sender, one row at a time (internal/sender/sender.go): deliver changes store and registry in place,
// and a pass at a fixed clock terminates, visiting rows in order and POSTing each at most once.
module SenderObject {
  import opened Domain
  import opened Classifier
  import opened Tables
  import opened Gates
  import opened Storage
  import opened RegistryObject
  import Pipeline

  /** Rows the sender may still take at this clock. */
  function Work(db: Db, entries: map<ReaderId, Entry>, now: Millis): set<nat> {
    DueIds(db, now, Pipeline.SendableReaders(entries))
  }

  /** Rows due in `after` were due in `before` and look the same. */
  ghost predicate WorkShrinks(before: Db, entries: map<ReaderId, Entry>, after: Db, entries': map<ReaderId, Entry>,
                              now: Millis, id: nat) {
    && Work(after, entries', now) <= Work(before, entries, now) - {id}
    && forall k :: k in Work(after, entries', now) ==> after.queue[k] == before.queue[k]
  }

  /** The store write a decision leads to; `ok` is false when it fails. */
  function SettledDb(db: Db, item: Row, now: Millis, d: Decision, ok: bool): Db {
    if !ok then db
    else match d
      case Complete => Completed(db, item.id)
      case Drop => Completed(db, item.id)
      case Retry => Retried(db, item.id, now + Pipeline.Backoff(item.attempts + 1))
      case SuspendReader => Completed(db, item.id)
      case HaltGlobal => Marked(db, item.id)
  }

  predicate WillPost(creds: map<ReaderId, Credential>, item: Row, now: Millis, maxAge: nat) {
    !Pipeline.TooOld(item, now, maxAge) && item.reader in creds
  }

  /** The gate write a delivery ends with, if any. */
  function ClosingJob(creds: map<ReaderId, Credential>, item: Row, now: Millis, maxAge: nat, res: Reply): Option<Job> {
    if Pipeline.TooOld(item, now, maxAge) then None
    else if item.reader !in creds then Some(Unconfigured(item.reader, now))
    else if Decide(res).SuspendReader? then Some(Revocation(item.reader, now))
    else None
  }

  /** The tables after delivering one row; `ok` and `stored` say whether the store took the write of the
      row and that of the gate. */
  function DeliveredDb(db: Db, creds: map<ReaderId, Credential>, item: Row, now: Millis, maxAge: nat, res: Reply,
                       ok: bool, stored: bool): Db {
    var rows := if Pipeline.TooOld(item, now, maxAge) then SettledDb(db, item, now, Drop, ok)
                else if item.reader in creds then SettledDb(db, item, now, Decide(res), ok)
                else db;
    var job := ClosingJob(creds, item, now, maxAge, res);
    if job.Some? && stored then Persisted(rows, job.value) else rows
  }

  function DeliveredEntries(entries: map<ReaderId, Entry>, creds: map<ReaderId, Credential>, item: Row,
                            now: Millis, maxAge: nat, res: Reply): map<ReaderId, Entry> {
    var job := ClosingJob(creds, item, now, maxAge, res);
    if job.Some? then WriteEntries(entries, job.value) else entries
  }

  predicate Halts(creds: map<ReaderId, Credential>, item: Row, now: Millis, maxAge: nat, res: Reply) {
    WillPost(creds, item, now, maxAge) && Decide(res).HaltGlobal?
  }

  /** Delivering the chosen row takes it out of the due work, or halts, exactly when the store takes the
      row's write or the reader's gate is closed. Otherwise the same row is due again at once. */
  lemma {:induction false} DeliveryShrinks(db: Db, entries: map<ReaderId, Entry>, creds: map<ReaderId, Credential>,
                                           item: Row, now: Millis, maxAge: nat, res: Reply, ok: bool, stored: bool)
    requires Tables.Valid(db) && item.id in Work(db, entries, now) && db.queue[item.id] == item
    requires !Halts(creds, item, now, maxAge, res)
    ensures WorkShrinks(db, entries, DeliveredDb(db, creds, item, now, maxAge, res, ok, stored),
                        DeliveredEntries(entries, creds, item, now, maxAge, res), now, item.id) <==>
            ok || ClosingJob(creds, item, now, maxAge, res).Some?
  {
    if !ok && ClosingJob(creds, item, now, maxAge, res).None? {
      assert DeliveredDb(db, creds, item, now, maxAge, res, ok, stored) == db;
    }
  }

  /** What becomes of the row: deleted, postponed by 5 s, 30 s or 2 min, marked, or as it was; all others stay. */
  ghost predicate RowFate(item: Row, now: Millis, posted: bool, expired: bool, d: Decision, ok: bool,
                          queue: map<nat, Row>, after: map<nat, Row>) {
    && (item.id in after <==>
          item.id in queue && !(ok && expired) && (posted && ok ==> d.Retry? || d.HaltGlobal?))
    && (item.id in after && !(posted && ok) ==> after[item.id] == queue[item.id])
    && (item.id in after && posted && ok ==>
          && SameScan(after[item.id], queue[item.id])
          && after[item.id].attempts == queue[item.id].attempts + 1
          && after[item.id].nextMs ==
               if d.HaltGlobal? then queue[item.id].nextMs
               else if item.attempts == 0 then now + 5_000
               else if item.attempts == 1 then now + 30_000
               else now + 120_000)
    && (forall id :: id != item.id ==> (id in after <==> id in queue))
    && (forall id :: id != item.id && id in after ==> after[id] == queue[id])
  }

  /** What becomes of the reader's gate: closed for a refused token, or for a missing one, else as it was.
      Memory keeps fingerprint and meta, the store blanks the fingerprint. */
  ghost predicate GateFate(reader: ReaderId, now: Millis, posted: bool, expired: bool, d: Decision, stored: bool,
                           was: map<ReaderId, Entry>, entries: map<ReaderId, Entry>,
                           before: map<ReaderId, GateRow>, after: map<ReaderId, GateRow>) {
    if expired || (posted && !d.SuspendReader?) then entries == was && after == before
    else
      var state, reason := if posted then SuspendedToken else SuspendedConfig, if posted then Revoked else NotConfigured;
      && reader in entries && entries == was[reader := entries[reader]]
      && entries[reader].state == state && entries[reader].reason == reason
      && (reader in was ==> entries[reader].fingerprint == was[reader].fingerprint && entries[reader].meta == was[reader].meta)
      && (if stored then
            after == before[reader := GateRow(state, reason, now, "", if reader in before then before[reader].meta else NO_META)]
          else after == before)
  }

  lemma {:induction false} DeliveredExactly(db: Db, entries: map<ReaderId, Entry>, creds: map<ReaderId, Credential>,
                                            item: Row, now: Millis, maxAge: nat, res: Reply, ok: bool, stored: bool)
    ensures var after := DeliveredDb(db, creds, item, now, maxAge, res, ok, stored);
            var expired, posted := item.checkedMs < now - maxAge, WillPost(creds, item, now, maxAge);
            && RowFate(item, now, posted, expired, Decide(res), ok, db.queue, after.queue)
            && GateFate(item.reader, now, posted, expired, Decide(res), stored, entries,
                        DeliveredEntries(entries, creds, item, now, maxAge, res), db.gates, after.gates)
            && after.nextId == db.nextId && after.debounce == db.debounce
  {
  }

  class Sender {
    const store: Store
    const gates: Registry
    const creds: map<ReaderId, Credential>
    const maxAge: nat

    constructor (store: Store, gates: Registry, creds: map<ReaderId, Credential>, maxAge: nat)
      ensures this.store == store && this.gates == gates && this.creds == creds && this.maxAge == maxAge
    {
      this.store, this.gates, this.creds, this.maxAge := store, gates, creds, maxAge;
    }

    /** `res` is what the server would answer, if the row is POSTed at all; `ok` and `stored` are false
        when the store fails on the row and on the gate. */
    method Deliver(item: Row, now: Millis, res: Reply, ok: bool, stored: bool) returns (posted: bool)
      requires store.Valid()
      modifies store, gates
      ensures store.Valid()
      ensures store.Db() == DeliveredDb(old(store.Db()), creds, item, now, maxAge, res, ok, stored)
      ensures gates.entries == DeliveredEntries(old(gates.entries), creds, item, now, maxAge, res)
      ensures gates.halted == (old(gates.halted) || Halts(creds, item, now, maxAge, res))
      ensures gates.changed == (old(gates.changed) || Halts(creds, item, now, maxAge, res) ||
                                ClosingJob(creds, item, now, maxAge, res).Some?)
      ensures posted == WillPost(creds, item, now, maxAge)
      ensures posted <==> item.checkedMs >= now - maxAge && item.reader in creds
      ensures RowFate(item, now, posted, item.checkedMs < now - maxAge, Decide(res), ok, old(store.queue), store.queue)
      ensures GateFate(item.reader, now, posted, item.checkedMs < now - maxAge, Decide(res), stored,
                       old(gates.entries), gates.entries, old(store.gates), store.gates)
      ensures store.nextId == old(store.nextId) && store.debounce == old(store.debounce)
      ensures gates.halted == (old(gates.halted) || (posted && Decide(res).HaltGlobal?))
    {
      DeliveredExactly(store.Db(), gates.entries, creds, item, now, maxAge, res, ok, stored);
      hide RowFate, GateFate;
      if item.checkedMs < now - maxAge {
        if ok {
          store.Complete(item.id);
        }
        return false;
      }
      if item.reader !in creds {
        gates.Set(if stored then store else null, item.reader, SuspendedConfig, NotConfigured, now, "", None);
        return false;
      }
      posted := true;
      match Decide(res)
      case Complete =>
        if ok {
          store.Complete(item.id);
        }
      case Drop =>
        if ok {
          store.Complete(item.id);
        }
      case Retry =>
        if ok {
          store.RetryLater(item.id, now + Pipeline.Backoff(item.attempts + 1));
        }
      case SuspendReader =>
        if ok {
          store.Complete(item.id);
        }
        gates.Set(if stored then store else null, item.reader, SuspendedToken, Revoked, now, "", None);
      case HaltGlobal =>
        if ok {
          store.MarkAttemptKeepDue(item.id);
        }
        gates.HaltGlobal();
    }

    /** One round of the main loop with a store that takes the row's write; None when nothing is due. */
    method Round(now: Millis, res: Reply, stored: bool) returns (item: Option<Row>, posted: bool)
      requires store.Valid() && !gates.halted
      modifies store, gates
      ensures store.Valid()
      ensures item.None? <==> old(Work(store.Db(), gates.entries, now)) == {}
      ensures item.None? ==> store.Db() == old(store.Db()) && gates.entries == old(gates.entries) && !gates.halted && !posted
      ensures item.Some? ==>
                && Chosen(old(store.Db()), old(gates.entries), now, item.value)
                && posted == WillPost(creds, item.value, now, maxAge)
                && gates.halted == Halts(creds, item.value, now, maxAge, res)
                && (!gates.halted ==>
                      WorkShrinks(old(store.Db()), old(gates.entries), store.Db(), gates.entries, now, item.value.id))
    {
      var readers := gates.SendableReaders();
      item := store.NextDue(now, readers);
      if item.None? {
        return None, false;
      }
      ghost var db, entries := store.Db(), gates.entries;
      posted := Deliver(item.value, now, res, true, stored);
      if !gates.halted {
        DeliveryShrinks(db, entries, creds, item.value, now, maxAge, res, true, stored);
      }
    }

    /** Rounds at one clock reading, until nothing is due or the sender is halted; `server` answers the
        k-th visited row and `stored` says whether a gate write on it is taken. It terminates, visits due
        rows in (checkedAt, id) order whatever the order of the reader list, POSTs each at most once, and
        sends nothing when it starts halted. */
    method Pass(now: Millis, server: nat -> Reply, stored: nat -> bool) returns (visited: seq<Row>, posted: seq<Row>)
      requires store.Valid()
      modifies store, gates
      ensures store.Valid()
      ensures gates.halted || Work(store.Db(), gates.entries, now) == {}
      ensures old(gates.halted) ==> visited == []
      ensures Visits(old(store.Db()), old(gates.entries), now, visited)
      ensures posted == PostedOf(visited, creds, now, maxAge)
    {
      visited, posted := [], [];
      ghost var db0, entries0 := store.Db(), gates.entries;
      while !gates.halted
        invariant store.Valid()
        invariant old(gates.halted) ==> visited == [] && gates.halted
        invariant Visits(db0, entries0, now, visited)
        invariant !gates.halted ==> Remains(db0, entries0, store.Db(), gates.entries, now, visited)
        invariant posted == PostedOf(visited, creds, now, maxAge)
        decreases if gates.halted then 0 else 1, |Work(store.Db(), gates.entries, now)|
      {
        ghost var db, entries := store.Db(), gates.entries;
        var item, sent := Round(now, server(|visited|), stored(|visited|));
        if item.None? {
          break;
        }
        VisitNext(db0, entries0, db, entries, now, visited, item.value);
        if !gates.halted {
          RemainsNext(db0, entries0, db, entries, store.Db(), gates.entries, now, visited, item.value);
          SmallerWork(Work(store.Db(), gates.entries, now), Work(db, entries, now), item.value.id);
        }
        assert (visited + [item.value])[..|visited|] == visited;
        visited := visited + [item.value];
        if sent {
          posted := posted + [item.value];
        }
      }
    }
  }

  /** The row NextDue would give for the sendable readers. */
  ghost predicate Chosen(db: Db, entries: map<ReaderId, Entry>, now: Millis, row: Row) {
    var work := Work(db, entries, now);
    row.id in work && db.queue[row.id] == row && IsFirst(db, work, row.id)
  }

  /** Visited rows are initially due ones, strictly increasing in (checkedAt, id), hence all different. */
  ghost predicate Visits(db0: Db, entries0: map<ReaderId, Entry>, now: Millis, visited: seq<Row>) {
    && (forall i, j :: 0 <= i < j < |visited| ==> Before(visited[i], visited[j]))
    && (forall i, j :: 0 <= i < j < |visited| ==> visited[i].id != visited[j].id)
    && (forall i :: 0 <= i < |visited| ==>
          visited[i].id in Work(db0, entries0, now) && visited[i] == db0.queue[visited[i].id])
  }

  /** What is still due was due at the start, is unchanged, and comes after everything visited. */
  ghost predicate Remains(db0: Db, entries0: map<ReaderId, Entry>, db: Db, entries: map<ReaderId, Entry>,
                          now: Millis, visited: seq<Row>) {
    var work := Work(db, entries, now);
    && work <= Work(db0, entries0, now)
    && (forall k :: k in work ==> db.queue[k] == db0.queue[k])
    && (forall i, k :: 0 <= i < |visited| && k in work ==> Before(visited[i], db.queue[k]) && visited[i].id != k)
  }

  lemma {:induction false} VisitNext(db0: Db, entries0: map<ReaderId, Entry>, db: Db, entries: map<ReaderId, Entry>,
                                     now: Millis, visited: seq<Row>, row: Row)
    requires Visits(db0, entries0, now, visited) && Remains(db0, entries0, db, entries, now, visited)
    requires Chosen(db, entries, now, row)
    ensures Visits(db0, entries0, now, visited + [row])
  {
  }

  lemma {:induction false} RemainsNext(db0: Db, entries0: map<ReaderId, Entry>, db: Db, entries: map<ReaderId, Entry>,
                                       after: Db, entries': map<ReaderId, Entry>,
                                       now: Millis, visited: seq<Row>, row: Row)
    requires Remains(db0, entries0, db, entries, now, visited) && Chosen(db, entries, now, row)
    requires WorkShrinks(db, entries, after, entries', now, row.id)
    ensures Remains(db0, entries0, after, entries', now, visited + [row])
  {
  }

  function PostedOf(visited: seq<Row>, creds: map<ReaderId, Credential>, now: Millis, maxAge: nat): seq<Row> {
    if visited == [] then []
    else
      var last := visited[|visited| - 1];
      PostedOf(visited[..|visited| - 1], creds, now, maxAge) + (if WillPost(creds, last, now, maxAge) then [last] else [])
  }

  lemma {:induction false} SmallerWork(a: set<nat>, b: set<nat>, id: nat)
    requires a <= b - {id} && id in b
    ensures |a| < |b|
  {
    SubsetSize(a, b - {id});
  }

  lemma {:induction false} SubsetSize(a: set<nat>, b: set<nat>)
    requires a <= b
    ensures |a| <= |b|
  {
    assert b == a + (b - a);
  }
}
