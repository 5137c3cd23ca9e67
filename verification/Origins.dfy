// Where rows come from: over every run each row stems from a read of its own, and every POST carries that read.
module Origins {
  import opened Domain
  import opened Classifier
  import opened Tables
  import opened Gates
  import opened Pipeline
  import opened QueueSafety
  import opened Ledger

  predicate IsRead(a: Step, r: ReaderId, epc: Epc, at: Millis, checkedAt: string) {
    a == Admit(r, Arrive(epc, at, checkedAt))
  }

  /** The read a row was admitted from, among the first n steps. */
  ghost predicate ReadOfRow(acts: seq<Step>, n: nat, k: nat, row: Row) {
    k < n <= |acts| && IsRead(acts[k], row.reader, row.epc, row.checkedMs, row.checkedAt)
  }

  /** `from` gives each accepted row a read of its own. */
  ghost predicate Sourced(accepted: map<nat, Row>, acts: seq<Step>, n: nat, from: map<nat, nat>) {
    && from.Keys == accepted.Keys
    && (forall id :: id in from ==> ReadOfRow(acts, n, from[id], accepted[id]))
    && (forall i, j :: i in from && j in from && i != j ==> from[i] != from[j])
  }

  /** `held` gives each read in hand its step, from which no row has been made. */
  ghost predicate ReadsHeld(adm: map<ReaderId, AdmitPc>, acts: seq<Step>, n: nat, from: map<nat, nat>, held: map<ReaderId, nat>) {
    forall r :: r in adm && adm[r].AChecked? ==>
      && r in held && held[r] < n <= |acts|
      && IsRead(acts[held[r]], r, adm[r].epc, adm[r].at, adm[r].checkedAt)
      && forall id :: id in from ==> from[id] != held[r]
  }

  /** No read came in hand. */
  ghost predicate NoNewRead(adm: map<ReaderId, AdmitPc>, after: map<ReaderId, AdmitPc>) {
    forall r :: r in after && after[r].AChecked? ==> r in adm && after[r] == adm[r]
  }

  lemma {:induction false} PollReadsNone(s: Sys, a: PollAct, t: Sys)
    requires PollStep(s, a, t)
    ensures t.mem.adm == s.mem.adm
  {
    hide NextDue, IsEarliestDue, IdleWait;
  }

  lemma {:induction false} CloseReadsNone(s: Sys, a: CloseAct, t: Sys)
    requires CloseStep(s, a, t)
    ensures t.mem.adm == s.mem.adm
  {
    hide Written, Persisted;
  }

  lemma {:induction false} DeliverReadsNone(s: Sys, a: DeliverAct, t: Sys)
    requires DeliverStep(s, a, t)
    ensures t.mem.adm == s.mem.adm
  {
    if a.Settle? {
      var pc := s.mem.snd;
      SettledAddsNone(s, pc.now, pc.row, s.world.net[pc.request].token, Decide(pc.reply), a.ok);
      hide Settled, Decide;
    }
  }

  lemma {:induction false} PreReadsNone(s: Sys, r: ReaderId, a: PreAct, t: Sys)
    requires PreStep(s, r, a, t)
    ensures t.mem.adm == s.mem.adm
  {
    hide PreflightJob, Written, Persisted;
  }

  lemma {:induction false} MetaReadsNone(s: Sys, r: ReaderId, a: MetaAct, t: Sys)
    requires MetaStep(s, r, a, t)
    ensures t.mem.adm == s.mem.adm
  {
    hide RefreshJob, RefreshApplies, Written, Persisted;
  }

  lemma {:induction false} LifeReadsNone(s: Sys, a: LifeAct, t: Sys)
    requires LifeStep(s, a, t)
    ensures NoNewRead(s.mem.adm, t.mem.adm)
  {
    hide Lifts, StaleKeys, ValidConfig, RestoredEntry, RestoredDb, ExpiredIds, PendingIds;
  }

  lemma {:induction false} NoReadElsewhere(s: Sys, a: Step, t: Sys)
    requires Next(s, a, t) && !a.Admit?
    ensures NoNewRead(s.mem.adm, t.mem.adm) && t.hist.accepted == s.hist.accepted
  {
    hide PollStep, DeliverStep, CloseStep, PreStep, MetaStep, LifeStep;
    match a
    case Poll(x) => PollKeepsRows(s, x, t); PollReadsNone(s, x, t);
    case Deliver(x) => DeliverAddsNone(s, x, t); DeliverReadsNone(s, x, t);
    case Close(x) => CloseKeepsRows(s, x, t); CloseReadsNone(s, x, t);
    case Preflight(r, x) => PreflightKeepsRows(s, r, x, t); PreReadsNone(s, r, x, t);
    case Refresh(r, x) => RefreshKeepsRows(s, r, x, t); MetaReadsNone(s, r, x, t);
    case Life(x) => LifeAddsNone(s, x, t); LifeReadsNone(s, x, t);
    case Server(x) =>
  }

  lemma {:induction false} ReadsLater(accepted: map<nat, Row>, adm: map<ReaderId, AdmitPc>, after: map<ReaderId, AdmitPc>,
                                      acts: seq<Step>, n: nat, from: map<nat, nat>, held: map<ReaderId, nat>)
    requires Sourced(accepted, acts, n, from) && ReadsHeld(adm, acts, n, from, held)
    requires n < |acts| && NoNewRead(adm, after)
    ensures Sourced(accepted, acts, n + 1, from) && ReadsHeld(after, acts, n + 1, from, held)
  {
  }

  lemma {:induction false} ReadArrives(s: Sys, r: ReaderId, x: AdmitAct, t: Sys, acts: seq<Step>, n: nat,
                                       from: map<nat, nat>, held: map<ReaderId, nat>)
    requires n < |acts| && acts[n] == Admit(r, x) && x.Arrive? && AdmitStep(s, r, x, t)
    requires Sourced(s.hist.accepted, acts, n, from) && ReadsHeld(s.mem.adm, acts, n, from, held)
    ensures Sourced(t.hist.accepted, acts, n + 1, from) && ReadsHeld(t.mem.adm, acts, n + 1, from, held[r := n])
  {
  }

  /** A read in hand becomes a row. */
  lemma {:induction false} ReadUsed(accepted: map<nat, Row>, row: Row, adm: map<ReaderId, AdmitPc>, after: map<ReaderId, AdmitPc>, r: ReaderId,
                                    acts: seq<Step>, n: nat, from: map<nat, nat>, held: map<ReaderId, nat>)
    requires Sourced(accepted, acts, n, from) && ReadsHeld(adm, acts, n, from, held) && n < |acts|
    requires r in adm && adm[r].AChecked? && RowOf(row, r, adm[r]) && row.id !in accepted
    requires r in after && !after[r].AChecked? && after == adm[r := after[r]]
    ensures r in held && Sourced(accepted[row.id := row], acts, n + 1, from[row.id := held[r]])
    ensures ReadsHeld(after, acts, n + 1, from[row.id := held[r]], held)
  {
  }

  lemma {:induction false} ReadCommits(s: Sys, r: ReaderId, x: AdmitAct, t: Sys, acts: seq<Step>, n: nat,
                                       from: map<nat, nat>, held: map<ReaderId, nat>) returns (from': map<nat, nat>)
    requires QueueInv(s) && n < |acts| && acts[n] == Admit(r, x) && !x.Arrive? && AdmitStep(s, r, x, t)
    requires Sourced(s.hist.accepted, acts, n, from) && ReadsHeld(s.mem.adm, acts, n, from, held)
    ensures Sourced(t.hist.accepted, acts, n + 1, from') && ReadsHeld(t.mem.adm, acts, n + 1, from', held)
  {
    hide Sourced, ReadsHeld;
    AdmitChanges(s, r, x, t);
    CommitMoves(s, r, x, t);
    hide AdmitStep;
    from' := from;
    if t.db == s.db {
      ReadsLater(s.hist.accepted, s.mem.adm, t.mem.adm, acts, n, from, held);
    } else {
      var pc := s.mem.adm[r];
      var row := NewRow(s.db, (r, pc.epc), pc.at, pc.checkedAt);
      ReadUsed(s.hist.accepted, row, s.mem.adm, t.mem.adm, r, acts, n, from, held);
      from' := from[row.id := held[r]];
    }
  }

  /** The reader's admission moves on without a read in hand. */
  lemma {:induction false} CommitMoves(s: Sys, r: ReaderId, x: AdmitAct, t: Sys)
    requires AdmitStep(s, r, x, t) && !x.Arrive?
    ensures r in t.mem.adm && !t.mem.adm[r].AChecked? && t.mem.adm == s.mem.adm[r := t.mem.adm[r]]
  {
    hide Admitted, Debounced, NewRow;
    var idle, done := s.mem.adm[r := AIdle], s.mem.adm[r := ACommitted];
    match x
    case Commit(ok) => assert t.mem.adm == idle || t.mem.adm == done;
    case SignalWake => assert t.mem.adm == idle;
  }

  lemma {:induction false} Sources(ss: seq<Sys>, acts: seq<Step>, n: nat) returns (from: map<nat, nat>, held: map<ReaderId, nat>)
    requires FullRun(ss, acts) && n < |ss|
    ensures Sourced(ss[n].hist.accepted, acts, n, from) && ReadsHeld(ss[n].mem.adm, acts, n, from, held)
  {
    if n == 0 {
      return map[], map[];
    }
    hide Sourced, ReadsHeld, NoNewRead, AdmitStep, QueueInv, Init;
    from, held := Sources(ss, acts, n - 1);
    var s, a, t := ss[n - 1], acts[n - 1], ss[n];
    assert Next(s, a, t);
    if a.Admit? {
      if a.admit.Arrive? {
        ReadArrives(s, a.reader, a.admit, t, acts, n - 1, from, held);
        held := held[a.reader := n - 1];
      } else {
        QueueAlways(ss, acts, n - 1);
        from := ReadCommits(s, a.reader, a.admit, t, acts, n - 1, from, held);
      }
    } else {
      NoReadElsewhere(s, a, t);
      hide Next;
      ReadsLater(s.hist.accepted, s.mem.adm, t.mem.adm, acts, n - 1, from, held);
    }
  }

  /** Over every run: each accepted row stems from a read handed to admission earlier, of its reader, with its
      EPC, time and text, no two rows from the same read; and every POST carries the EPC and the text of the
      read its row stems from. */
  lemma {:induction false} OneRowPerRead(ss: seq<Sys>, acts: seq<Step>, n: nat) returns (from: map<nat, nat>)
    requires FullRun(ss, acts) && n < |ss|
    ensures from.Keys == ss[n].hist.accepted.Keys
    ensures forall id :: id in from ==>
              var row := ss[n].hist.accepted[id];
              from[id] < n && acts[from[id]] == Admit(row.reader, Arrive(row.epc, row.checkedMs, row.checkedAt))
    ensures forall i, j :: i in from && j in from && i != j ==> from[i] != from[j]
    ensures forall k :: 0 <= k < |ss[n].world.net| ==>
              var q := ss[n].world.net[k];
              && q.id in from && from[q.id] < n
              && acts[from[q.id]].Admit? && acts[from[q.id]].reader == q.reader && acts[from[q.id]].admit.Arrive?
              && acts[from[q.id]].admit.epc == q.epc && acts[from[q.id]].admit.checkedAt == q.checkedAt
  {
    hide Next, Init;
    var held;
    from, held := Sources(ss, acts, n);
    QueueAlways(ss, acts, n);
    forall id | id in from
      ensures ReadOfRow(acts, n, from[id], ss[n].hist.accepted[id])
    {
    }
    forall k | 0 <= k < |ss[n].world.net|
      ensures Faithful(ss[n].hist.accepted, ss[n].world.net[k])
    {
    }
  }
}
