// Debounce over whole runs of the store: spacing of accepted scans, and a cleanup nobody can notice
// (internal/store/sqlite/store.go Admit and CleanupDebounce, the sweeper of internal/app/app.go).
module Debounce {
  import opened Domain
  import opened Tables
  import Pipeline

  /** Everything that happens to the tables; receive times come in any order. */
  datatype Op =
    | Scan(key: Key, at: Millis, checkedAt: string)
    | Clean(before: Millis)
    | Finish(id: nat)
    | Postpone(id: nat, nextMs: Millis)
    | Mark(id: nat)
    | Expire(cutoff: Millis)
    | Discard(reader: ReaderId)
    | Gate(reader: ReaderId, row: GateRow)

  function Do(db: Db, op: Op, debounce: nat): Db {
    match op
    case Scan(key, at, checkedAt) => Admitted(db, key, at, checkedAt, debounce)
    case Clean(before) => Cleaned(db, before)
    case Finish(id) => Completed(db, id)
    case Postpone(id, nextMs) => Retried(db, id, nextMs)
    case Mark(id) => Marked(db, id)
    case Expire(cutoff) => Expired(db, cutoff)
    case Discard(reader) => Discarded(db, reader)
    case Gate(reader, row) => db.(gates := db.gates[reader := row])
  }

  /** The tables after the first n operations; with `cleaning` off, Clean does nothing. */
  function Play(db: Db, ops: seq<Op>, n: nat, debounce: nat, cleaning: bool): Db
    requires n <= |ops|
  {
    if n == 0 then db
    else
      var before := Play(db, ops, n - 1, debounce, cleaning);
      if ops[n - 1].Clean? && !cleaning then before else Do(before, ops[n - 1], debounce)
  }

  function VerdictOn(db: Db, op: Op, debounce: nat): Verdict {
    if op.Scan? then AdmitVerdict(db, op.key, op.at, debounce) else Verdict(false, 0, false)
  }

  // ---- Cleanup is invisible ----

  /** No scan is stamped earlier than an earlier cutoff plus the debounce time. */
  ghost predicate OnTime(ops: seq<Op>, debounce: nat) {
    forall j, k :: 0 <= j < k < |ops| && ops[j].Clean? && ops[k].Scan? ==> ops[j].before + debounce <= ops[k].at
  }

  /** A debounce time an earlier cleanup may have thrown away. */
  ghost predicate ThrownAway(ops: seq<Op>, n: nat, last: Millis) {
    exists j :: 0 <= j < n && j < |ops| && ops[j].Clean? && last < ops[j].before
  }

  /** `c` is `f` with some stale debounce rows missing. */
  ghost predicate Cleaner(c: Db, f: Db, ops: seq<Op>, n: nat) {
    && c == f.(debounce := c.debounce)
    && (forall key :: key in c.debounce ==> key in f.debounce && c.debounce[key] == f.debounce[key])
    && (forall key :: key in f.debounce && key !in c.debounce ==> ThrownAway(ops, n, f.debounce[key]))
  }

  lemma {:induction false} CleanerAgrees(c: Db, f: Db, ops: seq<Op>, n: nat, debounce: nat)
    requires n < |ops| && OnTime(ops, debounce) && Cleaner(c, f, ops, n)
    ensures VerdictOn(c, ops[n], debounce) == VerdictOn(f, ops[n], debounce)
  {
    if ops[n].Scan? {
      var key := ops[n].key;
      if key in f.debounce && key !in c.debounce {
        var j :| 0 <= j < n && ops[j].Clean? && f.debounce[key] < ops[j].before;
        assert ops[j].before + debounce <= ops[n].at;
      }
    }
  }

  lemma {:induction false} ThrownAwayStays(ops: seq<Op>, n: nat, last: Millis)
    requires ThrownAway(ops, n, last)
    ensures ThrownAway(ops, n + 1, last)
  {
  }

  lemma {:induction false} CleanerCleans(c: Db, f: Db, ops: seq<Op>, n: nat)
    requires n < |ops| && ops[n].Clean? && Cleaner(c, f, ops, n)
    ensures Cleaner(Cleaned(c, ops[n].before), f, ops, n + 1)
  {
    forall key | key in f.debounce && key !in Cleaned(c, ops[n].before).debounce
      ensures ThrownAway(ops, n + 1, f.debounce[key])
    {
      if key in c.debounce {
        assert f.debounce[key] < ops[n].before;
      } else {
        ThrownAwayStays(ops, n, f.debounce[key]);
      }
    }
  }

  lemma {:induction false} CleanerGoesOn(c: Db, f: Db, ops: seq<Op>, n: nat)
    requires Cleaner(c, f, ops, n)
    ensures Cleaner(c, f, ops, n + 1)
  {
    forall key | key in f.debounce && key !in c.debounce ensures ThrownAway(ops, n + 1, f.debounce[key]) {
      ThrownAwayStays(ops, n, f.debounce[key]);
    }
  }

  /** Operations other than Clean act alike, once the verdicts agree. */
  lemma {:induction false} CleanerDoes(c: Db, f: Db, ops: seq<Op>, n: nat, debounce: nat)
    requires n < |ops| && !ops[n].Clean? && Cleaner(c, f, ops, n + 1)
    requires VerdictOn(c, ops[n], debounce) == VerdictOn(f, ops[n], debounce)
    ensures Cleaner(Do(c, ops[n], debounce), Do(f, ops[n], debounce), ops, n + 1)
  {
    match ops[n]
    case Scan(key, at, checkedAt) =>
    case Postpone(id, nextMs) =>
    case Mark(id) =>
    case _ =>
  }

  lemma {:induction false} CleanerKept(c: Db, f: Db, ops: seq<Op>, n: nat, debounce: nat)
    requires n < |ops| && OnTime(ops, debounce) && Cleaner(c, f, ops, n)
    ensures Cleaner(Do(c, ops[n], debounce), if ops[n].Clean? then f else Do(f, ops[n], debounce), ops, n + 1)
  {
    if ops[n].Clean? {
      CleanerCleans(c, f, ops, n);
    } else {
      CleanerGoesOn(c, f, ops, n);
      CleanerAgrees(c, f, ops, n, debounce);
      CleanerDoes(c, f, ops, n, debounce);
    }
  }

  /** A store that cleans its debounce table and one that never does agree on every verdict, on every
      id and on every other table, for any run whose scans are on time. */
  lemma {:induction false} CleanupInvisible(db: Db, ops: seq<Op>, n: nat, debounce: nat)
    requires n <= |ops| && OnTime(ops, debounce)
    ensures var c, f := Play(db, ops, n, debounce, true), Play(db, ops, n, debounce, false);
            && Cleaner(c, f, ops, n)
            && (n < |ops| ==> VerdictOn(c, ops[n], debounce) == VerdictOn(f, ops[n], debounce))
  {
    if n > 0 {
      CleanupInvisible(db, ops, n - 1, debounce);
      CleanerKept(Play(db, ops, n - 1, debounce, true), Play(db, ops, n - 1, debounce, false), ops, n - 1, debounce);
    }
    if n < |ops| {
      CleanerAgrees(Play(db, ops, n, debounce, true), Play(db, ops, n, debounce, false), ops, n, debounce);
    }
  }

  /** Exactly which scans notice one cleanup: those of a removed key that come before the removed
      time plus the debounce time. */
  lemma {:induction false} CleanupVisibleIff(db: Db, before: Millis, key: Key, at: Millis, debounce: nat)
    ensures AdmitVerdict(Cleaned(db, before), key, at, debounce) != AdmitVerdict(db, key, at, debounce) <==>
            key in StaleKeys(db, before) && at < db.debounce[key] + debounce
  {
  }

  /** The sweeper cleans with cutoff now - Keep; then it is enough that no scan is stamped more than
      the debounce time before an earlier sweep. */
  lemma {:induction false} SweeperIsOnTime(ops: seq<Op>, sweeps: seq<Millis>, debounce: nat)
    requires |sweeps| == |ops|
    requires forall j :: 0 <= j < |ops| && ops[j].Clean? ==> ops[j].before == sweeps[j] - Pipeline.Keep(debounce)
    requires forall j, k :: 0 <= j < k < |ops| && ops[j].Clean? && ops[k].Scan? ==> sweeps[j] - debounce <= ops[k].at
    ensures OnTime(ops, debounce)
  {
    forall j, k | 0 <= j < k < |ops| && ops[j].Clean? && ops[k].Scan?
      ensures ops[j].before + debounce <= ops[k].at
    {
      assert sweeps[j] - debounce <= ops[k].at;
    }
  }

  // ---- Spacing ----

  /** Times at which scans of the key were accepted among the first n operations. */
  function Accepted(db: Db, ops: seq<Op>, n: nat, debounce: nat, cleaning: bool, key: Key): seq<Millis>
    requires n <= |ops|
  {
    if n == 0 then []
    else
      var earlier := Accepted(db, ops, n - 1, debounce, cleaning, key);
      var op := ops[n - 1];
      if op.Scan? && op.key == key && VerdictOn(Play(db, ops, n - 1, debounce, cleaning), op, debounce).accepted
      then earlier + [op.at]
      else earlier
  }

  ghost predicate Spaced(times: seq<Millis>, debounce: nat) {
    forall i, j :: 0 <= i < j < |times| ==> times[i] + debounce <= times[j]
  }

  lemma {:induction false} AcceptedTracked(db: Db, ops: seq<Op>, n: nat, debounce: nat, key: Key)
    requires n <= |ops| && key !in db.debounce && debounce > 0
    ensures var f, times := Play(db, ops, n, debounce, false), Accepted(db, ops, n, debounce, false, key);
            && (key in f.debounce <==> times != [])
            && (times != [] ==> f.debounce[key] == times[|times| - 1])
            && Spaced(times, debounce)
  {
    if n > 0 {
      AcceptedTracked(db, ops, n - 1, debounce, key);
      var times := Accepted(db, ops, n - 1, debounce, false, key);
      assert times != [] ==> forall i :: 0 <= i < |times| ==> times[i] <= times[|times| - 1];
    }
  }

  lemma {:induction false} AcceptedSame(db: Db, ops: seq<Op>, n: nat, debounce: nat, key: Key)
    requires n <= |ops| && OnTime(ops, debounce)
    ensures Accepted(db, ops, n, debounce, true, key) == Accepted(db, ops, n, debounce, false, key)
  {
    if n > 0 {
      AcceptedSame(db, ops, n - 1, debounce, key);
      CleanupInvisible(db, ops, n - 1, debounce);
    }
  }

  /** The real store, cleanup included: accepted times of one key strictly increase with gaps of at
      least the debounce time, whatever order receive times come in. */
  lemma {:induction false} AcceptedSpaced(db: Db, ops: seq<Op>, n: nat, debounce: nat, key: Key)
    requires n <= |ops| && OnTime(ops, debounce) && key !in db.debounce && debounce > 0
    ensures Spaced(Accepted(db, ops, n, debounce, true, key), debounce)
  {
    AcceptedSame(db, ops, n, debounce, key);
    AcceptedTracked(db, ops, n, debounce, key);
  }

  /** Every dropped scan is explained by an accepted one later than its own time minus the debounce time. */
  lemma {:induction false} DropExplained(db: Db, ops: seq<Op>, n: nat, debounce: nat)
    requires n < |ops| && ops[n].Scan? && OnTime(ops, debounce) && ops[n].key !in db.debounce && debounce > 0
    requires !VerdictOn(Play(db, ops, n, debounce, true), ops[n], debounce).accepted
    ensures exists a :: a in Accepted(db, ops, n, debounce, true, ops[n].key) && ops[n].at - debounce < a
  {
    var key := ops[n].key;
    CleanupInvisible(db, ops, n, debounce);
    AcceptedSame(db, ops, n, debounce, key);
    AcceptedTracked(db, ops, n, debounce, key);
    var times := Accepted(db, ops, n, debounce, true, key);
    assert times[|times| - 1] in times;
  }

  /** How many of the times lie in [lo, hi]. */
  function CountIn(times: seq<Millis>, lo: Millis, hi: Millis): nat {
    if times == [] then 0
    else CountIn(times[..|times| - 1], lo, hi) + (if lo <= times[|times| - 1] <= hi then 1 else 0)
  }

  lemma {:induction false} CountBelow(times: seq<Millis>, lo: Millis, hi: Millis, top: Millis)
    requires top <= hi && forall i :: 0 <= i < |times| ==> times[i] <= top
    ensures CountIn(times, lo, hi) == CountIn(times, lo, top)
  {
    if times != [] {
      CountBelow(times[..|times| - 1], lo, hi, top);
    }
  }

  lemma {:induction false} CountSpaced(times: seq<Millis>, lo: Millis, hi: Millis, debounce: nat)
    requires Spaced(times, debounce)
    ensures CountIn(times, lo, hi) > 0 ==> (CountIn(times, lo, hi) - 1) * debounce <= hi - lo
  {
    if times != [] {
      var x, front := times[|times| - 1], times[..|times| - 1];
      assert Spaced(front, debounce);
      if lo <= x <= hi {
        CountBelow(front, lo, hi, x - debounce);
        CountSpaced(front, lo, x - debounce, debounce);
        var c := CountIn(front, lo, hi);
        assert c > 0 ==> (c - 1) * debounce == c * debounce - debounce;
      } else {
        CountSpaced(front, lo, hi, debounce);
      }
    }
  }

  lemma {:induction false} MulMonotone(a: int, b: int, d: nat)
    requires a <= b
    ensures a * d <= b * d
  {
  }

  lemma {:induction false} MulCancel(a: int, b: int, d: nat)
    requires a * d < b * d
    ensures a < b
  {
    if b <= a {
      MulMonotone(b, a, d);
    }
  }

  lemma {:induction false} AtMostQuotient(c: nat, d: nat, w: nat)
    requires d > 0 && c * d <= w
    ensures c <= w / d
  {
    var q := w / d;
    assert w == q * d + w % d;
    assert (q + 1) * d == q * d + d;
    MulCancel(c, q + 1, d);
  }

  /** Any window of W milliseconds accepts at most W / debounce + 1 scans of one key. */
  lemma {:induction false} WindowBound(db: Db, ops: seq<Op>, n: nat, debounce: nat, key: Key, from: Millis, window: nat)
    requires n <= |ops| && OnTime(ops, debounce) && key !in db.debounce && debounce > 0
    ensures CountIn(Accepted(db, ops, n, debounce, true, key), from, from + window) <= window / debounce + 1
  {
    AcceptedSpaced(db, ops, n, debounce, key);
    CountSpaced(Accepted(db, ops, n, debounce, true, key), from, from + window, debounce);
    var c := CountIn(Accepted(db, ops, n, debounce, true, key), from, from + window);
    if c > 0 {
      AtMostQuotient(c - 1, debounce, window);
    }
  }
}
