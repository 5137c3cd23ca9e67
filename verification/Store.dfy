// The store as the object it is in the source: tables changed in place under one lock
// (internal/store/sqlite/store.go). Each method is proved against the table function that says what it does;
// Refinement relates those to the atomic steps of the pipeline machine.
module Storage {
  import opened Domain
  import opened Tables

  lemma FirstUnique(db: Db, ids: set<nat>, a: nat, b: nat)
    requires forall k :: k in ids ==> k in db.queue
    requires IsFirst(db, ids, a) && IsFirst(db, ids, b)
    ensures a == b
  {
  }

  /** What is logged about an expired row. */
  datatype ExpiredItem = ExpiredItem(reader: ReaderId, epc: Epc, checkedAt: string)

  function ItemOf(row: Row): ExpiredItem {
    ExpiredItem(row.reader, row.epc, row.checkedAt)
  }

  class Store {
    var queue: map<nat, Row>
    var nextId: nat
    var debounce: map<Key, Millis>
    var gates: map<ReaderId, GateRow>

    ghost predicate Valid()
      reads this
    {
      Tables.Valid(Db())
    }

    ghost function Db(): Db
      reads this
    {
      Tables.Db(queue, nextId, debounce, gates)
    }

    constructor ()
      ensures Db() == EMPTY_DB && Valid()
    {
      queue, nextId, debounce, gates := map[], 1, map[], map[];
    }

    method Admit(reader: ReaderId, epc: Epc, at: Millis, checkedAt: string, window: nat) returns (v: Verdict)
      requires Valid()
      modifies this
      ensures Valid()
      ensures v == AdmitVerdict(old(Db()), (reader, epc), at, window)
      ensures Db() == Admitted(old(Db()), (reader, epc), at, checkedAt, window)
      ensures v.clockBackward <==> (reader, epc) in old(debounce) && at < old(debounce)[(reader, epc)]
      ensures !v.accepted <==>
                (reader, epc) in old(debounce) && window > 0 && at < old(debounce)[(reader, epc)] + window
      ensures v.accepted ==>
                && v.id == old(nextId) && v.id !in old(queue) && v.id in queue
                && queue[v.id].id == v.id && queue[v.id].reader == reader && queue[v.id].epc == epc
                && queue[v.id].checkedAt == checkedAt && queue[v.id].checkedMs == at
                && queue[v.id].attempts == 0 && queue[v.id].nextMs == at
                && queue == old(queue)[v.id := queue[v.id]]
                && nextId == old(nextId) + 1 && debounce == old(debounce)[(reader, epc) := at]
      ensures !v.accepted ==> queue == old(queue) && nextId == old(nextId) && debounce == old(debounce)
      ensures gates == old(gates)
    {
      var key := (reader, epc);
      v := Verdict(false, 0, false);
      if key in debounce {
        var elapsed := at - debounce[key];
        if elapsed < 0 {
          v := v.(clockBackward := true);
          elapsed := 0;
        }
        if elapsed < window {
          return;
        }
      }
      var id := nextId;
      queue := queue[id := Row(id, reader, epc, checkedAt, at, 0, at)];
      nextId := nextId + 1;
      debounce := debounce[key := at];
      v := v.(accepted := true, id := id);
    }

    method NextDue(now: Millis, readers: seq<ReaderId>) returns (item: Option<Row>)
      requires Valid()
      ensures item == Tables.NextDue(Db(), now, (set r | r in readers))
      ensures item.None? <==> forall id :: id in queue && queue[id].reader in readers ==> queue[id].nextMs > now
      ensures item.Some? ==>
                && item.value.id in queue && queue[item.value.id] == item.value
                && item.value.reader in readers && item.value.nextMs <= now
                && forall id :: id in queue && queue[id].reader in readers && queue[id].nextMs <= now ==>
                     item.value.checkedMs < queue[id].checkedMs ||
                     (item.value.checkedMs == queue[id].checkedMs && item.value.id <= id)
    {
      if |readers| == 0 {
        return None;
      }
      var due := set id | id in queue && queue[id].nextMs <= now && queue[id].reader in readers;
      assert due == DueIds(Db(), now, (set r | r in readers));
      assert forall id :: id in queue && queue[id].nextMs <= now && queue[id].reader in readers ==> id in due;
      if due == {} {
        return None;
      }
      FirstExists(Db(), due);
      var id :| id in due && forall k :: k in due && k != id ==> Before(queue[id], queue[k]);
      item := Some(queue[id]);
      FirstUnique(Db(), due, id, Tables.NextDue(Db(), now, (set r | r in readers)).value.id);
    }

    /** MIN over the readers' rows. */
    method NextDueAt(readers: seq<ReaderId>) returns (due: Option<Millis>)
      ensures IsEarliestDue(Db(), (set r | r in readers), due)
      ensures due.None? <==> forall id :: id in queue ==> queue[id].reader !in readers
      ensures due.Some? ==> exists id :: id in queue && queue[id].reader in readers && queue[id].nextMs == due.value
      ensures due.Some? ==> forall id :: id in queue && queue[id].reader in readers ==> due.value <= queue[id].nextMs
    {
      var ids := set id | id in queue && queue[id].reader in readers;
      assert ids == ReaderIds(Db(), (set r | r in readers));
      assert forall id :: id in queue && queue[id].reader in readers ==> id in ids;
      due := None;
      var left := ids;
      while left != {}
        invariant left <= ids
        invariant due.None? <==> left == ids
        invariant due.Some? ==> exists id :: id in ids && queue[id].nextMs == due.value
        invariant due.Some? ==> forall id :: id in ids - left ==> due.value <= queue[id].nextMs
        decreases left
      {
        var id :| id in left;
        left := left - {id};
        assert id in ids - left;
        if due.None? || queue[id].nextMs < due.value {
          due := Some(queue[id].nextMs);
        }
      }
      assert ids - left == ids;
    }

    method Complete(id: nat)
      requires Valid()
      modifies this`queue
      ensures Valid() && Db() == Completed(old(Db()), id)
      ensures queue == old(queue) - {id}
    {
      queue := queue - {id};
    }

    method RetryLater(id: nat, nextMs: Millis)
      requires Valid()
      modifies this`queue
      ensures Valid() && Db() == Retried(old(Db()), id, nextMs)
      ensures id !in old(queue) ==> queue == old(queue)
      ensures id in old(queue) ==>
                && id in queue && SameScan(queue[id], old(queue)[id])
                && queue[id].attempts == old(queue)[id].attempts + 1 && queue[id].nextMs == nextMs
                && queue == old(queue)[id := queue[id]]
    {
      if id in queue {
        queue := queue[id := queue[id].(attempts := queue[id].attempts + 1, nextMs := nextMs)];
      }
    }

    method MarkAttemptKeepDue(id: nat)
      requires Valid()
      modifies this`queue
      ensures Valid() && Db() == Marked(old(Db()), id)
      ensures id !in old(queue) ==> queue == old(queue)
      ensures id in old(queue) ==>
                && id in queue && SameScan(queue[id], old(queue)[id])
                && queue[id].attempts == old(queue)[id].attempts + 1 && queue[id].nextMs == old(queue)[id].nextMs
                && queue == old(queue)[id := queue[id]]
    {
      if id in queue {
        queue := queue[id := queue[id].(attempts := queue[id].attempts + 1)];
      }
    }

    /** Deletes the rows scanned before the cutoff and reports each of them once. */
    method ExpireBefore(cutoff: Millis) returns (out: seq<ExpiredItem>)
      requires Valid()
      modifies this`queue
      ensures Valid() && Db() == Expired(old(Db()), cutoff)
      ensures forall id :: id in queue <==> id in old(queue) && old(queue)[id].checkedMs >= cutoff
      ensures forall id :: id in queue ==> queue[id] == old(queue)[id]
      ensures |out| == |ExpiredIds(old(Db()), cutoff)|
      ensures forall id :: id in old(queue) && old(queue)[id].checkedMs < cutoff ==> ItemOf(old(queue)[id]) in out
      ensures forall x :: x in out ==>
                exists id :: id in ExpiredIds(old(Db()), cutoff) && x == ItemOf(old(queue)[id])
    {
      var expired := set id | id in queue && queue[id].checkedMs < cutoff;
      var left := expired;
      out := [];
      while left != {}
        invariant left <= expired && |out| + |left| == |expired|
        invariant forall id :: id in expired - left ==> ItemOf(queue[id]) in out
        invariant forall x :: x in out ==> exists id :: id in expired && x == ItemOf(queue[id])
        decreases left
      {
        var id :| id in left;
        left := left - {id};
        out := out + [ItemOf(queue[id])];
      }
      assert expired - left == expired;
      if |out| > 0 {
        queue := queue - expired;
      } else {
        assert expired == {};
      }
    }

    method CleanupDebounce(before: Millis) returns (n: nat)
      modifies this`debounce
      ensures Db() == Cleaned(old(Db()), before)
      ensures n == |StaleKeys(old(Db()), before)|
      ensures forall key :: key in debounce <==>
                key in old(debounce) &&
                (old(debounce)[key] >= before ||
                 exists id :: id in queue && queue[id].reader == key.0 && queue[id].epc == key.1)
      ensures forall key :: key in debounce ==> debounce[key] == old(debounce)[key]
    {
      ghost var db := Db();
      var stale := set key | key in debounce && debounce[key] < before &&
                             !(exists id :: id in queue && queue[id].reader == key.0 && queue[id].epc == key.1);
      assert stale == StaleKeys(db, before);
      n := |stale|;
      debounce := debounce - stale;
    }

    method PendingCount(reader: ReaderId) returns (n: nat)
      ensures n == |PendingIds(Db(), reader)| == |set id | id in queue && queue[id].reader == reader|
    {
      var pending := set id | id in queue && queue[id].reader == reader;
      assert pending == PendingIds(Db(), reader);
      n := |pending|;
    }

    method DiscardPending(reader: ReaderId) returns (n: nat)
      requires Valid()
      modifies this`queue
      ensures Valid() && Db() == Discarded(old(Db()), reader)
      ensures n == |PendingIds(old(Db()), reader)|
      ensures forall id :: id in queue <==> id in old(queue) && old(queue)[id].reader != reader
      ensures forall id :: id in queue ==> queue[id] == old(queue)[id]
    {
      var pending := set id | id in queue && queue[id].reader == reader;
      assert pending == PendingIds(Db(), reader);
      n := |pending|;
      queue := queue - pending;
    }

    method SetGate(reader: ReaderId, state: GateState, reason: Reason, now: Millis,
                   fingerprint: string, meta: Option<GateMeta>)
      modifies this`gates
      ensures Db() == GateStored(old(Db()), reader, state, reason, now, fingerprint, meta)
      ensures reader in gates && gates == old(gates)[reader := gates[reader]]
      ensures gates[reader].state == state && gates[reader].reason == reason
      ensures gates[reader].changedMs == now && gates[reader].fingerprint == fingerprint
      ensures gates[reader].meta == if meta.Some? then meta.value
                                    else if reader in old(gates) then old(gates)[reader].meta else NO_META
    {
      var row := GateRow(state, reason, now, fingerprint, NO_META);
      if meta.Some? {
        row := row.(meta := meta.value);
      } else if reader in gates {
        row := row.(meta := gates[reader].meta);
      }
      gates := gates[reader := row];
    }
  }
}
