// The three SQLite tables as values, and the effect of each store method on them
// (internal/store/sqlite/store.go). Every method is one atomic, durable step.
module Tables {
  import opened Domain

  type Key = (ReaderId, Epc)

  /** `nextId` is SQLite's AUTOINCREMENT sequence: it never goes back. */
  datatype Db = Db(
    queue: map<nat, Row>,
    nextId: nat,
    debounce: map<Key, Millis>,
    gates: map<ReaderId, GateRow>)

  const EMPTY_DB := Db(map[], 1, map[], map[])

  ghost predicate Valid(db: Db) {
    forall id :: id in db.queue ==> db.queue[id].id == id && id < db.nextId
  }

  datatype Verdict = Verdict(accepted: bool, id: nat, clockBackward: bool)

  /** Debounce verdict for a scan at `at`, given the last accepted time of its key. */
  function Debounced(db: Db, key: Key, at: Millis, debounce: nat): bool {
    key in db.debounce &&
    (if at - db.debounce[key] < 0 then 0 else at - db.debounce[key]) < debounce
  }

  function AdmitVerdict(db: Db, key: Key, at: Millis, debounce: nat): Verdict {
    var backward := key in db.debounce && at < db.debounce[key];
    if Debounced(db, key, at, debounce) then Verdict(false, 0, backward)
    else Verdict(true, db.nextId, backward)
  }

  function NewRow(db: Db, key: Key, at: Millis, checkedAt: string): Row {
    Row(db.nextId, key.0, key.1, checkedAt, at, 0, at)
  }

  function Admitted(db: Db, key: Key, at: Millis, checkedAt: string, debounce: nat): Db {
    if Debounced(db, key, at, debounce) then db
    else db.(queue := db.queue[db.nextId := NewRow(db, key, at, checkedAt)],
             nextId := db.nextId + 1,
             debounce := db.debounce[key := at])
  }

  function Completed(db: Db, id: nat): Db {
    db.(queue := db.queue - {id})
  }

  function Retried(db: Db, id: nat, nextMs: Millis): Db {
    db.(queue := RetriedRows(db.queue, id, nextMs))
  }

  function RetriedRows(queue: map<nat, Row>, id: nat, nextMs: Millis): map<nat, Row> {
    if id in queue
    then queue[id := queue[id].(attempts := queue[id].attempts + 1, nextMs := nextMs)]
    else queue
  }

  function Marked(db: Db, id: nat): Db {
    if id in db.queue
    then db.(queue := db.queue[id := db.queue[id].(attempts := db.queue[id].attempts + 1)])
    else db
  }

  function ExpiredIds(db: Db, cutoff: Millis): set<nat> {
    set id | id in db.queue && db.queue[id].checkedMs < cutoff
  }

  function Expired(db: Db, cutoff: Millis): Db {
    db.(queue := db.queue - ExpiredIds(db, cutoff))
  }

  predicate HasPending(db: Db, key: Key) {
    exists id :: id in db.queue && db.queue[id].reader == key.0 && db.queue[id].epc == key.1
  }

  function StaleKeys(db: Db, before: Millis): set<Key> {
    set key | key in db.debounce && db.debounce[key] < before && !HasPending(db, key)
  }

  function Cleaned(db: Db, before: Millis): Db {
    db.(debounce := db.debounce - StaleKeys(db, before))
  }

  function PendingIds(db: Db, reader: ReaderId): set<nat> {
    set id | id in db.queue && db.queue[id].reader == reader
  }

  function Discarded(db: Db, reader: ReaderId): Db {
    db.(queue := db.queue - PendingIds(db, reader))
  }

  /** SetGate: without meta an existing row keeps its own, a new row starts with none. */
  function GateStored(db: Db, reader: ReaderId, state: GateState, reason: Reason, now: Millis,
                      fingerprint: string, meta: Option<GateMeta>): Db {
    var m := if meta.Some? then meta.value
             else if reader in db.gates then db.gates[reader].meta
             else NO_META;
    db.(gates := db.gates[reader := GateRow(state, reason, now, fingerprint, m)])
  }

  // ---- Choosing the next row ----

  /** Rows NextDue may pick. */
  function DueIds(db: Db, now: Millis, readers: set<ReaderId>): set<nat> {
    set id | id in db.queue && db.queue[id].nextMs <= now && db.queue[id].reader in readers
  }

  /** ORDER BY checked_at_unix_ms, id. */
  predicate Before(a: Row, b: Row) {
    a.checkedMs < b.checkedMs || (a.checkedMs == b.checkedMs && a.id < b.id)
  }

  predicate IsFirst(db: Db, ids: set<nat>, id: nat)
    requires forall k :: k in ids ==> k in db.queue
  {
    id in ids && forall k :: k in ids && k != id ==> Before(db.queue[id], db.queue[k])
  }

  lemma FirstExists(db: Db, ids: set<nat>)
    requires Valid(db) && ids != {} && forall k :: k in ids ==> k in db.queue
    ensures exists id :: IsFirst(db, ids, id)
    decreases ids
  {
    var x :| x in ids;
    var rest := ids - {x};
    if rest == {} {
      assert ids == {x};
      assert IsFirst(db, ids, x);
    } else {
      FirstExists(db, rest);
      var y :| IsFirst(db, rest, y);
      if Before(db.queue[x], db.queue[y]) {
        assert IsFirst(db, ids, x);
      } else {
        assert IsFirst(db, ids, y);
      }
    }
  }

  /** The row NextDue returns. */
  ghost function NextDue(db: Db, now: Millis, readers: set<ReaderId>): (r: Option<Row>)
    ensures Valid(db) ==> (r.None? <==> DueIds(db, now, readers) == {})
    ensures r.Some? ==> r.value.id in db.queue && db.queue[r.value.id] == r.value &&
                        IsFirst(db, DueIds(db, now, readers), r.value.id)
  {
    var due := DueIds(db, now, readers);
    if !Valid(db) || due == {} then None
    else
      FirstExists(db, due);
      var id :| IsFirst(db, due, id);
      Some(db.queue[id])
  }

  function ReaderIds(db: Db, readers: set<ReaderId>): set<nat> {
    set id | id in db.queue && db.queue[id].reader in readers
  }

  /** `m` is SELECT MIN(next_attempt_at_unix_ms) over the readers' rows; None when there is no row. */
  ghost predicate IsEarliestDue(db: Db, readers: set<ReaderId>, m: Option<Millis>) {
    var ids := ReaderIds(db, readers);
    if ids == {} then m.None?
    else m.Some? && (exists id :: id in ids && db.queue[id].nextMs == m.value) &&
         forall id :: id in ids ==> m.value <= db.queue[id].nextMs
  }
}
