// Debounce over runs of the whole machine: what is accepted of one reader and EPC is spaced, whatever
// crashes, restarts, sweeps and deliveries happen in between.
module Spacing {
  import opened Domain
  import opened Tables
  import opened Pipeline
  import opened QueueSafety
  import opened GateSafety

  /** Every start of the run is configured with this debounce time. */
  ghost predicate SameDebounce(acts: seq<Step>, d: nat) {
    forall k {:trigger acts[k]} :: 0 <= k < |acts| && acts[k].Life? && acts[k].life.Boot? ==> acts[k].life.cfg.debounce == d
  }

  predicate Sweeps(a: Step) {
    a.Life? && a.life.SweepClean?
  }

  /** The step hands a checked scan to the store. */
  predicate Commits(s: Sys, a: Step) {
    a.Admit? && a.admit.Commit? && a.reader in s.mem.adm && s.mem.adm[a.reader].AChecked?
  }

  /** No scan is stamped more than the debounce time before an earlier sweep. */
  ghost predicate ScansOnTime(ss: seq<Sys>, acts: seq<Step>, d: nat)
    requires |ss| == |acts| + 1
  {
    forall j, k {:trigger acts[j], acts[k]} :: 0 <= j < k < |acts| && Sweeps(acts[j]) && Commits(ss[k], acts[k]) ==>
      acts[j].life.now - d <= ss[k].mem.adm[acts[k].reader].at
  }

  /** An earlier sweep may have thrown away a debounce row of this time. */
  ghost predicate Swept(acts: seq<Step>, n: nat, ms: Millis, d: nat) {
    exists j {:trigger acts[j]} :: 0 <= j < n && j < |acts| && Sweeps(acts[j]) && ms < acts[j].life.now - Keep(d)
  }

  predicate OneKey(a: Row, b: Row) {
    a.reader == b.reader && a.epc == b.epc
  }

  /** Accepted scans of one key, in the order of their ids, are at least the debounce time apart. */
  ghost predicate Apart(accepted: map<nat, Row>, d: nat) {
    forall a, b :: a in accepted && b in accepted && a < b && OneKey(accepted[a], accepted[b]) ==>
      accepted[a].checkedMs + d <= accepted[b].checkedMs
  }

  /** The debounce table remembers every accepted scan, but for what was swept. */
  ghost predicate Remembered(accepted: map<nat, Row>, debounce: map<Key, Millis>, acts: seq<Step>, n: nat, d: nat) {
    forall id :: id in accepted ==> Known(accepted[id], debounce) || Swept(acts, n, accepted[id].checkedMs, d)
  }

  predicate Known(row: Row, debounce: map<Key, Millis>) {
    (row.reader, row.epc) in debounce && row.checkedMs <= debounce[(row.reader, row.epc)]
  }

  lemma {:induction false} DebounceConfig(ss: seq<Sys>, acts: seq<Step>, n: nat, d: nat)
    requires FullRun(ss, acts) && n < |ss| && SameDebounce(acts, d)
    ensures !ss[n].phase.Down? ==> ss[n].cfg.debounce == d
  {
    if n > 0 {
      DebounceConfig(ss, acts, n - 1, d);
      var a := acts[n - 1];
      assert Next(ss[n - 1], a, ss[n]);
      if a.Life? {
        LifeDebounce(ss[n - 1], a.life, ss[n], d);
      } else {
        PhaseFixed(ss[n - 1], a, ss[n]);
      }
    }
  }

  lemma {:induction false} LifeDebounce(s: Sys, a: LifeAct, t: Sys, d: nat)
    requires LifeStep(s, a, t) && (!s.phase.Down? ==> s.cfg.debounce == d) && (a.Boot? ==> a.cfg.debounce == d)
    ensures !t.phase.Down? ==> t.cfg.debounce == d
  {
  }

  // ---- Steps that neither accept nor sweep ----

  lemma {:induction false} DeliverKeepsDebounce(s: Sys, a: DeliverAct, t: Sys)
    requires DeliverStep(s, a, t)
    ensures t.db.debounce == s.db.debounce && t.hist.accepted == s.hist.accepted
  {
  }

  lemma {:induction false} LifeKeepsDebounce(s: Sys, a: LifeAct, t: Sys)
    requires LifeStep(s, a, t) && !a.SweepClean?
    ensures t.db.debounce == s.db.debounce && t.hist.accepted == s.hist.accepted
  {
    hide ExpiredIds, PendingIds;
  }

  lemma {:induction false} OthersKeepDebounce(s: Sys, a: Step, t: Sys)
    requires Next(s, a, t) && !Sweeps(a) && !a.Admit?
    ensures t.db.debounce == s.db.debounce && t.hist.accepted == s.hist.accepted
  {
    hide PollStep, DeliverStep, CloseStep, PreStep, MetaStep, AdmitStep, LifeStep;
    match a
    case Poll(x) => PollKeepsRows(s, x, t);
    case Deliver(x) => DeliverKeepsDebounce(s, x, t);
    case Close(x) => CloseKeepsRows(s, x, t);
    case Preflight(r, x) => PreflightKeepsRows(s, r, x, t);
    case Refresh(r, x) => RefreshKeepsRows(s, r, x, t);
    case Life(x) => LifeKeepsDebounce(s, x, t);
    case Server(x) =>
  }

  // ---- The two steps that matter ----

  lemma {:induction false} SweptLater(acts: seq<Step>, n: nat, ms: Millis, d: nat)
    requires Swept(acts, n, ms, d)
    ensures Swept(acts, n + 1, ms, d)
  {
  }

  lemma {:induction false} RememberedLater(accepted: map<nat, Row>, debounce: map<Key, Millis>, acts: seq<Step>, n: nat, d: nat)
    requires Remembered(accepted, debounce, acts, n, d)
    ensures Remembered(accepted, debounce, acts, n + 1, d)
  {
    hide Swept;
    forall id | id in accepted ensures Known(accepted[id], debounce) || Swept(acts, n + 1, accepted[id].checkedMs, d) {
      if !Known(accepted[id], debounce) {
        SweptLater(acts, n, accepted[id].checkedMs, d);
      }
    }
  }

  /** A sweep forgets only what it is older than. */
  lemma {:induction false} SweepRemembers(s: Sys, acts: seq<Step>, n: nat, t: Sys, d: nat)
    requires n < |acts| && Sweeps(acts[n]) && LifeStep(s, acts[n].life, t) && s.cfg.debounce == d
    requires Remembered(s.hist.accepted, s.db.debounce, acts, n, d)
    ensures t.hist.accepted == s.hist.accepted && Remembered(t.hist.accepted, t.db.debounce, acts, n + 1, d)
  {
    var before := acts[n].life.now - Keep(d);
    assert t.db.debounce == s.db.debounce - StaleKeys(s.db, before);
    forall id | id in s.hist.accepted
      ensures Known(s.hist.accepted[id], t.db.debounce) || Swept(acts, n + 1, s.hist.accepted[id].checkedMs, d)
    {
      var row := s.hist.accepted[id];
      if Known(row, s.db.debounce) {
        if (row.reader, row.epc) in StaleKeys(s.db, before) {
          assert row.checkedMs < before;
        }
      } else {
        SweptLater(acts, n, row.checkedMs, d);
      }
    }
  }

  /** An accepted scan comes at least the debounce time after every earlier one of its key. */
  lemma {:induction false} AcceptedLater(s: Sys, acts: seq<Step>, n: nat, key: Key, at: Millis, d: nat, id: nat)
    requires n <= |acts| && d > 0 && Remembered(s.hist.accepted, s.db.debounce, acts, n, d) && !Debounced(s.db, key, at, d)
    requires forall j {:trigger acts[j]} :: 0 <= j < n && Sweeps(acts[j]) ==> acts[j].life.now - d <= at
    requires id in s.hist.accepted && s.hist.accepted[id].reader == key.0 && s.hist.accepted[id].epc == key.1
    ensures s.hist.accepted[id].checkedMs + d <= at
  {
    var row := s.hist.accepted[id];
    assert (row.reader, row.epc) == key;
    if !Known(row, s.db.debounce) {
      var j :| 0 <= j < n && Sweeps(acts[j]) && row.checkedMs < acts[j].life.now - Keep(d);
      assert acts[j].life.now - d <= at;
    }
  }

  ghost predicate SpacingInv(s: Sys, acts: seq<Step>, n: nat, d: nat) {
    Apart(s.hist.accepted, d) && Remembered(s.hist.accepted, s.db.debounce, acts, n, d)
  }

  lemma {:induction false} CommitSpaced(s: Sys, acts: seq<Step>, n: nat, t: Sys, d: nat)
    requires n < |acts| && d > 0 && Partition(s.db, s.hist) && SpacingInv(s, acts, n, d) && s.cfg.debounce == d
    requires acts[n].Admit? && AdmitStep(s, acts[n].reader, acts[n].admit, t) && t.db != s.db
    requires forall j {:trigger acts[j]} :: 0 <= j < n && Sweeps(acts[j]) ==> acts[j].life.now - d <= s.mem.adm[acts[n].reader].at
    ensures SpacingInv(t, acts, n + 1, d)
  {
    var r := acts[n].reader;
    AdmitChanges(s, r, acts[n].admit, t);
    var pc := s.mem.adm[r];
    var key := (r, pc.epc);
    var row := NewRow(s.db, key, pc.at, pc.checkedAt);
    assert t.db.debounce == s.db.debounce[key := pc.at];
    forall id | id in s.hist.accepted && OneKey(s.hist.accepted[id], row) ensures s.hist.accepted[id].checkedMs + d <= pc.at {
      AcceptedLater(s, acts, n, key, pc.at, d, id);
    }
    RememberedLater(s.hist.accepted, s.db.debounce, acts, n, d);
    hide AdmitStep, Swept, Admitted, Debounced;
    forall id | id in t.hist.accepted
      ensures Known(t.hist.accepted[id], t.db.debounce) || Swept(acts, n + 1, t.hist.accepted[id].checkedMs, d)
    {
      if id != s.db.nextId {
        assert Known(s.hist.accepted[id], s.db.debounce) || Swept(acts, n + 1, s.hist.accepted[id].checkedMs, d);
      }
    }
    NewestSpaced(s.hist.accepted, s.db.nextId, row, d);
  }

  lemma {:induction false} NewestSpaced(accepted: map<nat, Row>, id: nat, row: Row, d: nat)
    requires Apart(accepted, d) && forall k :: k in accepted ==> k < id
    requires forall k :: k in accepted && OneKey(accepted[k], row) ==> accepted[k].checkedMs + d <= row.checkedMs
    ensures Apart(accepted[id := row], d)
  {
  }

  lemma {:induction false} SpacingStep(s: Sys, acts: seq<Step>, n: nat, t: Sys, d: nat)
    requires n < |acts| && d > 0 && QueueInv(s) && SpacingInv(s, acts, n, d) && Next(s, acts[n], t)
    requires !s.phase.Down? ==> s.cfg.debounce == d
    requires Commits(s, acts[n]) ==>
               forall j {:trigger acts[j]} :: 0 <= j < n && Sweeps(acts[j]) ==> acts[j].life.now - d <= s.mem.adm[acts[n].reader].at
    ensures SpacingInv(t, acts, n + 1, d)
  {
    var a := acts[n];
    RememberedLater(s.hist.accepted, s.db.debounce, acts, n, d);
    hide Remembered, Apart;
    if Sweeps(a) {
      SweepRemembers(s, acts, n, t, d);
    } else if a.Admit? {
      AdmitChanges(s, a.reader, a.admit, t);
      if t.db != s.db {
        AdmitCommits(s, a.reader, a.admit, t);
        CommitSpaced(s, acts, n, t, d);
      }
    } else {
      OthersKeepDebounce(s, a, t);
    }
  }

  lemma {:induction false} AdmitCommits(s: Sys, r: ReaderId, a: AdmitAct, t: Sys)
    requires AdmitStep(s, r, a, t) && t.db != s.db
    ensures Commits(s, Admit(r, a))
  {
  }

  lemma {:induction false} SpacingAlways(ss: seq<Sys>, acts: seq<Step>, n: nat, d: nat)
    requires FullRun(ss, acts) && n < |ss| && d > 0 && SameDebounce(acts, d) && ScansOnTime(ss, acts, d)
    ensures SpacingInv(ss[n], acts, n, d)
  {
    hide Next, SpacingInv, QueueInv;
    if n == 0 {
      NothingAccepted(ss[0], acts, d);
    } else {
      SpacingAlways(ss, acts, n - 1, d);
      QueueAlways(ss, acts, n - 1);
      DebounceConfig(ss, acts, n - 1, d);
      assert Next(ss[n - 1], acts[n - 1], ss[n]);
      SpacingStep(ss[n - 1], acts, n - 1, ss[n], d);
    }
  }

  lemma {:induction false} NothingAccepted(s: Sys, acts: seq<Step>, d: nat)
    requires Init(s)
    ensures SpacingInv(s, acts, 0, d)
  {
  }

  /** In every run with one debounce time, with crashes, restarts, sweeps and scans of any order that are not
      stamped more than the debounce time before an earlier sweep: any two accepted scans of one reader and
      EPC, the earlier accepted first, are at least the debounce time apart. */
  lemma {:induction false} AcceptedSpacedInRuns(ss: seq<Sys>, acts: seq<Step>, n: nat, d: nat, a: nat, b: nat)
    requires FullRun(ss, acts) && n < |ss| && d > 0 && SameDebounce(acts, d) && ScansOnTime(ss, acts, d)
    requires a in ss[n].hist.accepted && b in ss[n].hist.accepted && a < b
    requires OneKey(ss[n].hist.accepted[a], ss[n].hist.accepted[b])
    ensures ss[n].hist.accepted[a].checkedMs + d <= ss[n].hist.accepted[b].checkedMs
  {
    SpacingAlways(ss, acts, n, d);
  }
}
