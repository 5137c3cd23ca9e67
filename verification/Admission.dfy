// Accepting one tag read (internal/admission/admission.go): gate first, then the store, then the sender's wake-up.
module AdmissionObject {
  import opened Domain
  import opened Tables
  import opened Storage
  import opened RegistryObject

  datatype Outcome = DroppedSuspended | EnqueueFailed | DebounceDrop | Enqueued(id: nat)

  /** The reader takes no new rows. */
  predicate Closed(entries: map<ReaderId, Entry>, reader: ReaderId) {
    reader in entries && entries[reader].state.Suspended()
  }

  /** What happens to a read; `ok` is false when the store fails. */
  function OutcomeOf(db: Db, entries: map<ReaderId, Entry>, key: Key, at: Millis, debounce: nat, ok: bool): Outcome {
    if Closed(entries, key.0) then DroppedSuspended
    else if !ok then EnqueueFailed
    else if Debounced(db, key, at, debounce) then DebounceDrop
    else Enqueued(db.nextId)
  }

  class Admission {
    const store: Store
    const gates: Registry
    const debounce: nat
    /** The sender's one-slot wake-up channel. */
    var wake: bool

    constructor (store: Store, gates: Registry, debounce: nat)
      ensures this.store == store && this.gates == gates && this.debounce == debounce && !wake
    {
      this.store, this.gates, this.debounce, wake := store, gates, debounce, false;
    }

    /** A row appears, and the sender is woken, exactly when the read is enqueued; in every other case the
        tables stay as they were. A suspended reader never gets a row. */
    method Handle(reader: ReaderId, epc: Epc, at: Millis, checkedAt: string, ok: bool) returns (outcome: Outcome)
      requires store.Valid()
      modifies this`wake, store
      ensures store.Valid()
      ensures outcome == OutcomeOf(old(store.Db()), gates.entries, (reader, epc), at, debounce, ok)
      ensures wake == (old(wake) || outcome.Enqueued?)
      ensures if outcome.Enqueued? then
                && store.Db() == Admitted(old(store.Db()), (reader, epc), at, checkedAt, debounce)
                && outcome.id !in old(store.queue) && outcome.id in store.queue
                && store.queue[outcome.id] == NewRow(old(store.Db()), (reader, epc), at, checkedAt)
              else store.Db() == old(store.Db())
      // which reads become a row, and what the row holds
      ensures outcome.DroppedSuspended? <==>
                reader in gates.entries &&
                (gates.entries[reader].state == SuspendedToken || gates.entries[reader].state == SuspendedConfig ||
                 gates.entries[reader].state == SuspendedRebind)
      ensures outcome.EnqueueFailed? <==> !outcome.DroppedSuspended? && !ok
      ensures outcome.DebounceDrop? <==>
                !outcome.DroppedSuspended? && ok && debounce > 0 && (reader, epc) in old(store.debounce) &&
                at < old(store.debounce)[(reader, epc)] + debounce
      ensures outcome.Enqueued? ==>
                && store.queue == old(store.queue)[outcome.id := store.queue[outcome.id]]
                && var row := store.queue[outcome.id];
                && row.id == outcome.id == old(store.nextId) && row.reader == reader && row.epc == epc
                && row.checkedAt == checkedAt && row.checkedMs == at && row.attempts == 0 && row.nextMs == at
                && store.nextId == old(store.nextId) + 1
                && store.debounce == old(store.debounce)[(reader, epc) := at]
      ensures !outcome.Enqueued? ==>
                store.queue == old(store.queue) && store.nextId == old(store.nextId) && store.debounce == old(store.debounce)
      ensures store.gates == old(store.gates)
    {
      var closed := gates.Suspended(reader);
      if closed {
        return DroppedSuspended;
      }
      if !ok {
        return EnqueueFailed;
      }
      var res := store.Admit(reader, epc, at, checkedAt, debounce);
      if !res.accepted {
        return DebounceDrop;
      }
      wake := true;
      outcome := Enqueued(res.id);
    }
  }

  /** After an enqueued read, the next one of the same reader and EPC is dropped exactly when it is stamped
      before the first one plus the debounce time, however far the clock went back. */
  lemma {:induction false} SecondReadDebounced(db: Db, entries: map<ReaderId, Entry>, key: Key, at: Millis, later: Millis,
                                               checkedAt: string, debounce: nat)
    requires OutcomeOf(db, entries, key, at, debounce, true).Enqueued? && debounce > 0
    ensures var after := Admitted(db, key, at, checkedAt, debounce);
            OutcomeOf(after, entries, key, later, debounce, true).DebounceDrop? <==> later < at + debounce
  {
  }
}
