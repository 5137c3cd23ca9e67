// How often one row can be POSTed: the backoff gaps add up against the age limit.
module Attempts {
  import opened Domain
  import opened Classifier
  import opened Tables
  import opened Pipeline
  import opened QueueSafety

  /** Total backoff imposed by the first n retries of a row. */
  function TotalBackoff(n: nat): nat {
    if n == 0 then 0 else TotalBackoff(n - 1) + Backoff(n)
  }

  /** The most POSTs that fit into `maxAge` of backoff gaps. */
  function Budget(maxAge: nat): nat {
    if maxAge < 5_000 then 1 else if maxAge < 35_000 then 2 else 3 + (maxAge - 35_000) / 120_000
  }

  lemma {:induction false} TotalBackoffClosed(n: nat)
    requires n >= 2
    ensures TotalBackoff(n) == 35_000 + 120_000 * (n - 2)
  {
    if n > 2 {
      TotalBackoffClosed(n - 1);
    } else {
      assert TotalBackoff(1) == 5_000;
    }
  }

  /** The budget is exact: n retries fit into the age exactly when another POST is within it. */
  lemma {:induction false} BudgetExact(n: nat, maxAge: nat)
    ensures TotalBackoff(n) <= maxAge <==> n + 1 <= Budget(maxAge)
  {
    assert TotalBackoff(1) == 5_000;
    if n >= 2 {
      TotalBackoffClosed(n);
    }
  }

  // ---- Invariant ----

  /** A row that is not in flight: its POSTs are accounted for and its next one is late enough. */
  ghost predicate Timely(h: History, net: seq<Request>, row: Row) {
    var retries := Count(h.retries, row.id);
    && Posts(net, row.id) <= retries + Count(h.cuts, row.id)
    && LateEnough(row, retries)
  }

  predicate LateEnough(row: Row, retries: nat) {
    row.attempts >= retries && row.nextMs >= row.checkedMs + TotalBackoff(retries)
  }

  /** Rows are filed under their own ids. */
  ghost predicate OwnIds(queue: map<nat, Row>) {
    forall id :: id in queue ==> queue[id].id == id
  }

  function FlyingId(pc: SenderPc): Option<nat> {
    if pc.SFlight? || pc.SReply? then Some(pc.row.id) else None
  }

  ghost predicate QueueTimely(queue: map<nat, Row>, h: History, net: seq<Request>, flying: Option<nat>) {
    forall id :: id in queue && flying != Some(id) ==> Timely(h, net, queue[id])
  }

  ghost predicate ItemTimely(h: History, net: seq<Request>, pc: SenderPc, maxAge: nat) {
    && (pc.SItem? ==> Timely(h, net, pc.row) && pc.row.nextMs <= pc.now)
    && (FlyingId(pc).Some? ==>
          var retries := Count(h.retries, pc.row.id);
          && Posts(net, pc.row.id) <= retries + Count(h.cuts, pc.row.id) + 1
          && LateEnough(pc.row, retries)
          && pc.row.nextMs <= pc.now
          && TotalBackoff(retries) <= maxAge)
  }

  ghost predicate Bounded(h: History, net: seq<Request>, maxAge: nat) {
    forall id: nat :: Posts(net, id) <= Budget(maxAge) + Count(h.cuts, id)
  }

  ghost predicate RetriesOfAccepted(h: History) {
    forall id :: id in h.retries ==> id in h.accepted
  }

  ghost predicate AttemptInv(s: Sys, maxAge: nat) {
    QueueInv(s) && Accounted(s, maxAge)
  }

  ghost predicate Accounted(s: Sys, maxAge: nat) {
    && RetriesOfAccepted(s.hist)
    && QueueTimely(s.db.queue, s.hist, s.world.net, FlyingId(s.mem.snd))
    && ItemTimely(s.hist, s.world.net, s.mem.snd, maxAge)
    && Bounded(s.hist, s.world.net, maxAge)
  }

  lemma {:induction false} PostsOfUnknown(net: seq<Request>, accepted: map<nat, Row>, id: nat)
    requires NetFaithful(net, accepted) && id !in accepted
    ensures Posts(net, id) == 0
  {
    if net != [] {
      assert Faithful(accepted, net[|net| - 1]);
      PostsOfUnknown(net[..|net| - 1], accepted, id);
    }
  }

  lemma {:induction false} PostsOfMore(net: seq<Request>, q: Request, id: nat)
    ensures Posts(net + [q], id) == Posts(net, id) + (if q.id == id then 1 else 0)
  {
    assert (net + [q])[..|net|] == net;
  }

  lemma {:induction false} AttemptKeptByPost(s: Sys, t: Sys, maxAge: nat)
    requires AttemptInv(s, maxAge) && DeliverStep(s, Post, t) && s.cfg.maxAge <= maxAge
    ensures Accounted(t, maxAge)
  {
    var row := s.mem.snd.row;
    var q := t.world.net[|s.world.net|];
    forall id: nat ensures Posts(t.world.net, id) == Posts(s.world.net, id) + (if row.id == id then 1 else 0) {
      PostsOfMore(s.world.net, q, id);
    }
    BudgetExact(Count(s.hist.retries, row.id), maxAge);
  }

  lemma {:induction false} BackoffGrows(a: nat, b: nat)
    requires a <= b
    ensures Backoff(a) <= Backoff(b)
  {
  }

  ghost predicate Landed(pc: SenderPc) {
    FlyingId(pc).None? && !pc.SItem?
  }

  /** One more cut of the row in flight balances its POST. */
  lemma {:induction false} CutBalances(queue: map<nat, Row>, h: History, net: seq<Request>, row: Row, maxAge: nat)
    requires QueueTimely(queue, h, net, Some(row.id)) && Bounded(h, net, maxAge)
    requires row.id in queue ==> LateEnough(queue[row.id], Count(h.retries, row.id)) && queue[row.id].id == row.id
    requires Posts(net, row.id) <= Count(h.retries, row.id) + Count(h.cuts, row.id) + 1
    requires OwnIds(queue)
    ensures var k := h.(cuts := Bump(h.cuts, row.id));
            QueueTimely(queue, k, net, None) && Bounded(k, net, maxAge)
  {
    var k := h.(cuts := Bump(h.cuts, row.id));
    forall id | id in queue ensures Timely(k, net, queue[id]) {
      assert id != row.id ==> Timely(h, net, queue[id]);
    }
  }

  lemma {:induction false} MarkTimely(db: Db, h: History, net: seq<Request>, id: nat, marked: bool)
    requires QueueTimely(db.queue, h, net, Some(id)) && Tables.Valid(db)
    ensures var after := if marked then Marked(db, id) else db;
            QueueTimely(after.queue, h, net, Some(id)) && OwnIds(after.queue)
  {
    hide Timely;
  }

  lemma {:induction false} LandedAccounted(t: Sys, maxAge: nat)
    requires RetriesOfAccepted(t.hist) && Landed(t.mem.snd)
    requires QueueTimely(t.db.queue, t.hist, t.world.net, None) && Bounded(t.hist, t.world.net, maxAge)
    ensures Accounted(t, maxAge)
  {
    hide Timely, Bounded;
  }

  lemma {:induction false} MarkLateEnough(db: Db, row: Row, marked: bool, retries: nat)
    requires LateEnough(row, retries) && (row.id in db.queue ==> db.queue[row.id] == row)
    ensures var after := if marked then Marked(db, row.id) else db;
            row.id in after.queue ==> LateEnough(after.queue[row.id], retries) && after.queue[row.id].id == row.id
  {
  }

  /** A flight that ends without a store write, or with a marked row, counts as cut short. */
  lemma {:induction false} CutEnds(s: Sys, marked: bool, pc: SenderPc, maxAge: nat)
    requires Accounted(s, maxAge) && FlyingId(s.mem.snd).Some? && Landed(pc)
    requires Tables.Valid(s.db) && HeldOk(s.db.queue, s.hist.accepted, s.mem.snd)
    ensures var id := s.mem.snd.row.id;
            var t := Sending(CutShort(if marked then s.(db := Marked(s.db, id)) else s, id), pc);
            Accounted(t, maxAge)
  {
    FlightFacts(s, maxAge);
    var row := s.mem.snd.row;
    var id := row.id;
    var db := if marked then Marked(s.db, id) else s.db;
    CutParts(s, db, id, pc);
    assert s.(db := s.db) == s;
    hide Accounted, HeldOk, TotalBackoff, Posts, Budget, Bounded, Timely, QueueTimely, LateEnough;
    hide Marked, Bump, CutShort, Sending, OwnIds;
    MarkTimely(s.db, s.hist, s.world.net, id, marked);
    MarkLateEnough(s.db, row, marked, Count(s.hist.retries, id));
    CutBalances(db.queue, s.hist, s.world.net, row, maxAge);
    LandedAccounted(Sending(CutShort(s.(db := db), id), pc), maxAge);
  }

  /** One more retry of the row in flight balances its POST and adds that retry's gap. */
  lemma {:induction false} RetryBalances(queue: map<nat, Row>, h: History, net: seq<Request>, row: Row, now: Millis, maxAge: nat)
    requires QueueTimely(queue, h, net, Some(row.id)) && Bounded(h, net, maxAge)
    requires OwnIds(queue)
    requires row.id in queue ==> queue[row.id] == row
    requires LateEnough(row, Count(h.retries, row.id)) && row.nextMs <= now
    requires Posts(net, row.id) <= Count(h.retries, row.id) + Count(h.cuts, row.id) + 1
    ensures var k := h.(retries := Bump(h.retries, row.id));
            QueueTimely(RetriedRows(queue, row.id, now + Backoff(row.attempts + 1)), k, net, None) && Bounded(k, net, maxAge)
  {
    BackoffGrows(Count(h.retries, row.id) + 1, row.attempts + 1);
    var k := h.(retries := Bump(h.retries, row.id));
    var rows := RetriedRows(queue, row.id, now + Backoff(row.attempts + 1));
    forall id | id in rows ensures Timely(k, net, rows[id]) {
      assert id != row.id ==> Timely(h, net, queue[id]);
    }
  }

  /** What is known of a row in flight. */
  lemma {:induction false} FlightFacts(s: Sys, maxAge: nat)
    requires Accounted(s, maxAge) && FlyingId(s.mem.snd).Some?
    requires Tables.Valid(s.db) && HeldOk(s.db.queue, s.hist.accepted, s.mem.snd)
    ensures var row, h := s.mem.snd.row, s.hist;
            && QueueTimely(s.db.queue, h, s.world.net, Some(row.id)) && Bounded(h, s.world.net, maxAge)
            && RetriesOfAccepted(h) && row.id in h.accepted
            && LateEnough(row, Count(h.retries, row.id)) && row.nextMs <= s.mem.snd.now
            && Posts(s.world.net, row.id) <= Count(h.retries, row.id) + Count(h.cuts, row.id) + 1
            && (row.id in s.db.queue ==> s.db.queue[row.id] == row)
            && OwnIds(s.db.queue)
  {
    hide TotalBackoff, Posts, Budget, Bounded, Timely, QueueTimely, LateEnough;
  }

  lemma {:induction false} RetriesBump(h: History, id: nat)
    requires RetriesOfAccepted(h) && id in h.accepted
    ensures RetriesOfAccepted(h.(retries := Bump(h.retries, id)))
  {
  }

  lemma {:induction false} PostponedParts(s: Sys, id: nat, next: Millis, pc: SenderPc)
    ensures var t := Sending(Postponed(s, id, next), pc);
            && t.db.queue == RetriedRows(s.db.queue, id, next) && t.hist == s.hist.(retries := Bump(s.hist.retries, id))
            && t.world == s.world && t.mem.snd == pc
  {
  }

  lemma {:induction false} CutParts(s: Sys, db: Db, id: nat, pc: SenderPc)
    ensures var t := Sending(CutShort(s.(db := db), id), pc);
            && t.db == db && t.hist == s.hist.(cuts := Bump(s.hist.cuts, id)) && t.world == s.world && t.mem.snd == pc
  {
  }

  lemma {:induction false} RetryEnds(s: Sys, pc: SenderPc, maxAge: nat)
    requires Accounted(s, maxAge) && FlyingId(s.mem.snd).Some? && Landed(pc)
    requires Tables.Valid(s.db) && HeldOk(s.db.queue, s.hist.accepted, s.mem.snd)
    ensures var row := s.mem.snd.row;
            var t := Sending(Postponed(s, row.id, s.mem.snd.now + Backoff(row.attempts + 1)), pc);
            Accounted(t, maxAge)
  {
    FlightFacts(s, maxAge);
    var row := s.mem.snd.row;
    var next := s.mem.snd.now + Backoff(row.attempts + 1);
    PostponedParts(s, row.id, next, pc);
    hide Accounted, HeldOk, TotalBackoff, Posts, Budget, Bounded, Timely, QueueTimely, LateEnough;
    hide RetriedRows, Backoff, Bump, RetriesOfAccepted, Postponed, Sending, OwnIds, Tables.Valid;
    RetryBalances(s.db.queue, s.hist, s.world.net, row, s.mem.snd.now, maxAge);
    RetriesBump(s.hist, row.id);
    LandedAccounted(Sending(Postponed(s, row.id, next), pc), maxAge);
  }

  /** Deleting rows never hurts, if the row in flight is among them or stays in flight. */
  lemma {:induction false} DeleteEnds(s: Sys, gone: set<nat>, why: Removal, pc: SenderPc, maxAge: nat)
    requires Accounted(s, maxAge)
    requires pc == s.mem.snd || (Landed(pc) && (FlyingId(s.mem.snd).Some? ==> s.mem.snd.row.id in gone))
    ensures var t := Sending(Delete(s, gone, why), pc);
            Accounted(t, maxAge)
  {
  }

  lemma {:induction false} AttemptKeptBySettle(s: Sys, d: Decision, ok: bool, maxAge: nat)
    requires AttemptInv(s, maxAge) && s.mem.snd.SReply?
    ensures var t := Settled(s, s.mem.snd.now, s.mem.snd.row, s.world.net[s.mem.snd.request].token, d, ok);
            Accounted(t, maxAge)
  {
    var row, token := s.mem.snd.row, s.world.net[s.mem.snd.request].token;
    var pc := match d case SuspendReader => SSuspend(s.mem.snd.now, row.reader) case HaltGlobal => SHalt case _ => STop;
    if !ok || d.HaltGlobal? {
      CutEnds(s, ok, pc, maxAge);
    } else if d.Retry? {
      RetryEnds(s, pc, maxAge);
    } else {
      var why := match d case Complete => Confirmed(token) case SuspendReader => TokenLost case _ => Refused;
      DeleteEnds(s, {row.id}, why, pc, maxAge);
    }
  }

  lemma {:induction false} QuietAccounted(s: Sys, t: Sys, maxAge: nat)
    requires AttemptInv(s, maxAge) && QueueInv(t)
    requires t.db.queue == s.db.queue && t.hist == s.hist && t.world.net == s.world.net
    requires t.mem.snd == s.mem.snd || (FlyingId(s.mem.snd).None? && Landed(t.mem.snd))
    ensures AttemptInv(t, maxAge)
  {
    hide QueueInv, Bounded, Timely, RetriesOfAccepted;
  }

  lemma {:induction false} AttemptKeptByPoll(s: Sys, a: PollAct, t: Sys, maxAge: nat)
    requires AttemptInv(s, maxAge) && PollStep(s, a, t)
    ensures AttemptInv(t, maxAge)
  {
    QueueKeptByPoll(s, a, t);
    PollKeepsRows(s, a, t);
    PollLanded(s, a, t);
  }

  lemma {:induction false} PollLanded(s: Sys, a: PollAct, t: Sys)
    requires PollStep(s, a, t)
    ensures Landed(s.mem.snd)
  {
  }

  lemma {:induction false} CloseLanded(s: Sys, a: CloseAct, t: Sys)
    requires CloseStep(s, a, t)
    ensures Landed(s.mem.snd)
  {
  }

  lemma {:induction false} AttemptKeptByDeliver(s: Sys, a: DeliverAct, t: Sys, maxAge: nat)
    requires AttemptInv(s, maxAge) && DeliverStep(s, a, t) && s.cfg.maxAge <= maxAge
    ensures AttemptInv(t, maxAge)
  {
    QueueKeptByDeliver(s, a, t);
    match a
    case Post => AttemptKeptByPost(s, t, maxAge);
    case Settle(ok) => AttemptKeptBySettle(s, Decide(s.mem.snd.reply), ok, maxAge);
    case DropAged(ok) => DeleteEnds(s, {s.mem.snd.row.id}, Aged, STop, maxAge);
    case _ =>
  }

  /** A row just admitted has no POST, no retry and no gap behind it. */
  lemma {:induction false} NewRowTimely(s: Sys, t: Sys, r: ReaderId, maxAge: nat)
    requires AttemptInv(s, maxAge) && Posts(s.world.net, s.db.nextId) == 0
    requires r in s.mem.adm && s.mem.adm[r].AChecked?
    requires var pc := s.mem.adm[r];
             var row := NewRow(s.db, (r, pc.epc), pc.at, pc.checkedAt);
             && t.db.queue == s.db.queue[s.db.nextId := row]
             && t.hist == s.hist.(accepted := s.hist.accepted[s.db.nextId := row])
             && t.world == s.world && t.mem.snd == s.mem.snd
    ensures Accounted(t, maxAge)
  {
    hide HeldOk, FlightOk, Posts, NetFaithful;
    var pc := s.mem.adm[r];
    var row := NewRow(s.db, (r, pc.epc), pc.at, pc.checkedAt);
    assert s.db.nextId !in s.hist.retries;
    assert Timely(t.hist, t.world.net, row);
    forall id | id in t.db.queue && FlyingId(t.mem.snd) != Some(id) ensures Timely(t.hist, t.world.net, t.db.queue[id]) {
      if id != s.db.nextId {
        assert Timely(s.hist, s.world.net, s.db.queue[id]);
      }
    }
  }

  lemma {:induction false} AttemptKeptByAdmit(s: Sys, r: ReaderId, a: AdmitAct, t: Sys, maxAge: nat)
    requires AttemptInv(s, maxAge) && AdmitStep(s, r, a, t)
    ensures AttemptInv(t, maxAge)
  {
    QueueKeptByAdmit(s, r, a, t);
    AdmitChanges(s, r, a, t);
    hide AdmitStep, Admitted, Debounced, Accounted;
    if t.db != s.db {
      PostsOfUnknown(s.world.net, s.hist.accepted, s.db.nextId);
      NewRowTimely(s, t, r, maxAge);
    } else {
      QuietAccounted(s, t, maxAge);
    }
  }

  lemma {:induction false} AttemptKeptByCrash(s: Sys, t: Sys, maxAge: nat)
    requires AttemptInv(s, maxAge) && LifeStep(s, Crash, t)
    ensures Accounted(t, maxAge)
  {
    hide Bounded, Timely, NetFaithful, QueueTimely;
    if InFlight(s.mem.snd).Some? {
      CutEnds(s, false, STop, maxAge);
    }
  }

  lemma {:induction false} SweepEnds(s: Sys, gone: set<nat>, why: Removal, maxAge: nat)
    requires Accounted(s, maxAge)
    ensures Accounted(Delete(s, gone, why), maxAge)
  {
    hide Accounted;
    var t := Delete(s, gone, why);
    DeleteEnds(s, gone, why, s.mem.snd, maxAge);
    assert Sending(t, s.mem.snd) == t;
  }

  lemma {:induction false} AttemptKeptBySweep(s: Sys, a: LifeAct, t: Sys, maxAge: nat)
    requires Accounted(s, maxAge) && LifeStep(s, a, t) && (a.SweepExpire? || a.ResumeDiscard?)
    ensures Accounted(t, maxAge)
  {
    hide Accounted, Delete;
    match a
    case SweepExpire(now) => SweepEnds(s, ExpiredIds(s.db, now - s.cfg.maxAge), Aged, maxAge);
    case ResumeDiscard(r) => SweepEnds(s, PendingIds(s.db, r), Thrown, maxAge);
  }

  lemma {:induction false} AttemptKeptByLife(s: Sys, a: LifeAct, t: Sys, maxAge: nat)
    requires AttemptInv(s, maxAge) && LifeStep(s, a, t)
    ensures AttemptInv(t, maxAge)
  {
    hide LifeStep, QueueInv, Accounted;
    QueueKeptByLife(s, a, t);
    match a
    case SweepExpire(now) => AttemptKeptBySweep(s, a, t, maxAge);
    case ResumeDiscard(r) => AttemptKeptBySweep(s, a, t, maxAge);
    case Crash => AttemptKeptByCrash(s, t, maxAge);
    case _ =>
      LifeKeepsRows(s, a, t);
      QuietAccounted(s, t, maxAge);
  }

  lemma {:induction false} AttemptKept(s: Sys, a: Step, t: Sys, maxAge: nat)
    requires AttemptInv(s, maxAge) && Next(s, a, t) && s.cfg.maxAge <= maxAge
    ensures AttemptInv(t, maxAge)
  {
    hide PollStep, DeliverStep, CloseStep, PreStep, MetaStep, AdmitStep, LifeStep, Accounted, QueueInv;
    match a
    case Poll(x) => AttemptKeptByPoll(s, x, t, maxAge);
    case Deliver(x) => AttemptKeptByDeliver(s, x, t, maxAge);
    case Close(x) => CloseKeepsRows(s, x, t); CloseLanded(s, x, t); QueueKept(s, a, t); QuietAccounted(s, t, maxAge);
    case Preflight(r, x) => PreflightKeepsRows(s, r, x, t); QueueKept(s, a, t); QuietAccounted(s, t, maxAge);
    case Refresh(r, x) => RefreshKeepsRows(s, r, x, t); QueueKept(s, a, t); QuietAccounted(s, t, maxAge);
    case Admit(r, x) => AttemptKeptByAdmit(s, r, x, t, maxAge);
    case Life(x) => AttemptKeptByLife(s, x, t, maxAge);
    case Server(x) => QueueKept(s, a, t); QuietAccounted(s, t, maxAge);
  }

  /** No configuration of the run keeps rows longer than this. */
  ghost predicate AgeCapped(acts: seq<Step>, maxAge: nat) {
    forall k :: 0 <= k < |acts| && acts[k].Life? && acts[k].life.Boot? ==> acts[k].life.cfg.maxAge <= maxAge
  }

  lemma {:induction false} ConfigSteps(s: Sys, a: Step, t: Sys)
    requires Next(s, a, t)
    ensures t.cfg == if a.Life? && a.life.Boot? then a.life.cfg else s.cfg
    ensures a.Life? && a.life.Boot? ==> ValidConfig(t.cfg)
  {
    match a
    case Poll(x) => PollKeepsRows(s, x, t);
    case Close(x) => CloseKeepsRows(s, x, t);
    case Preflight(r, x) => PreflightKeepsRows(s, r, x, t);
    case Refresh(r, x) => RefreshKeepsRows(s, r, x, t);
    case _ =>
  }

  lemma {:induction false} AttemptAlways(ss: seq<Sys>, acts: seq<Step>, n: nat, maxAge: nat)
    requires FullRun(ss, acts) && n < |ss| && AgeCapped(acts, maxAge)
    ensures AttemptInv(ss[n], maxAge) && ss[n].cfg.maxAge <= maxAge
  {
    if n > 0 {
      AttemptAlways(ss, acts, n - 1, maxAge);
      AttemptKept(ss[n - 1], acts[n - 1], ss[n], maxAge);
      ConfigSteps(ss[n - 1], acts[n - 1], ss[n]);
    }
  }

  /** Whatever the clock does: a row is POSTed at most Budget(maxAge) times, plus once for every
      attempt that a crash, a store failure or a global halt cut short. */
  lemma {:induction false} AttemptBound(ss: seq<Sys>, acts: seq<Step>, n: nat, maxAge: nat, id: nat)
    requires FullRun(ss, acts) && n < |ss| && AgeCapped(acts, maxAge)
    ensures Posts(ss[n].world.net, id) <= Budget(maxAge) + Count(ss[n].hist.cuts, id)
  {
    AttemptAlways(ss, acts, n, maxAge);
  }

  /** With the 24 hours a configuration may ask for at most: 722. */
  lemma {:induction false} AttemptBound24h(ss: seq<Sys>, acts: seq<Step>, n: nat, id: nat)
    requires FullRun(ss, acts) && n < |ss|
    ensures Posts(ss[n].world.net, id) <= 722 + Count(ss[n].hist.cuts, id)
  {
    forall k | 0 <= k < |acts| && acts[k].Life? && acts[k].life.Boot?
      ensures acts[k].life.cfg.maxAge <= 24 * HOUR
    {
      ConfigSteps(ss[k], acts[k], ss[k + 1]);
    }
    AttemptBound(ss, acts, n, 24 * HOUR, id);
  }
}
