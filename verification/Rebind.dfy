// The rebind guard over a whole process run: rows queued for one booth are not sent to another.
module Rebind {
  import opened Domain
  import opened Classifier
  import opened Gates
  import opened Pipeline
  import opened QueueSafety
  import opened GateSafety

  /** The guard can see a rebind: the restored entry names a token and a booth, and the token changed. */
  predicate Armed(e: Entry, fingerprint: string) {
    Unverified(e.state) && e.fingerprint != "" && e.fingerprint != fingerprint && e.meta.boothName != ""
  }

  predicate OtherBooth(e: Entry, reply: PreflightReply) {
    PreflightOk(reply) && reply.meta.value.boothName != e.meta.boothName
  }

  /** Exactly when a preflight reply suspends the reader as rebound. In particular the same booth never does,
      whatever else changed, and neither does any reply once the entry carries the configured fingerprint. */
  lemma {:induction false} RebindExactly(r: ReaderId, now: Millis, reply: PreflightReply, e: Entry, fingerprint: string)
    requires Unverified(e.state)
    ensures PreflightJob(r, now, reply, Some(e), fingerprint).state.SuspendedRebind? <==>
            Armed(e, fingerprint) && OtherBooth(e, reply)
  {
  }

  /** A failed first attempt disarms the guard: the retry already records the new token. */
  lemma {:induction false} RetryDisarms(r: ReaderId, now: Millis, lost: PreflightReply, later: Millis, reply: PreflightReply,
                                        e: Entry, fingerprint: string)
    requires fingerprint != "" && PreflightUnreachable(lost)
    ensures var e' := Written(Some(e), PreflightJob(r, now, lost, Some(e), fingerprint));
            !PreflightJob(r, later, reply, Some(e'), fingerprint).state.SuspendedRebind?
  {
  }

  // ---- Whole run ----

  /** Before the first reply: nothing has changed. */
  ghost predicate Waiting(m: Memory, r: ReaderId, e: Entry) {
    && r in m.reg && m.reg[r] == e && r in m.pre
    && (m.pre[r].PIdle? || m.pre[r].PFlight?)
  }

  /** After a first reply for another booth: the reader is on its way to, or in, SUSPENDED_REBIND. */
  ghost predicate Tripped(m: Memory, r: ReaderId, e: Entry) {
    && r in m.reg && r in m.pre
    && (|| (m.pre[r].PReplied? && OtherBooth(e, m.pre[r].reply) && m.reg[r] == e)
        || (m.pre[r].PDecided? && m.pre[r].job.state.SuspendedRebind? && m.reg[r] == e)
        || m.reg[r].state.SuspendedRebind?)
  }

  lemma {:induction false} WaitingPre(s: Sys, r: ReaderId, a: PreAct, t: Sys, e: Entry)
    requires PreStep(s, r, a, t) && Waiting(s.mem, r, e)
    ensures if a.PreReceive? then (OtherBooth(e, a.reply) ==> Tripped(t.mem, r, e)) else Waiting(t.mem, r, e)
  {
  }

  lemma {:induction false} TrippedPre(s: Sys, r: ReaderId, a: PreAct, t: Sys, e: Entry)
    requires PreStep(s, r, a, t) && Armed(e, s.cfg.creds[r].fingerprint) && Tripped(s.mem, r, e)
    requires r in s.mem.mr && ReaderOk(r, s.mem.reg[r], s.mem.pre[r], s.mem.mr[r], s.mem.snd)
    ensures Tripped(t.mem, r, e)
  {
    match a
    case PreRead =>
      var pc := s.mem.pre[r];
      if pc.PReplied? && s.mem.reg[r] == e {
        RebindExactly(r, pc.now, pc.reply, e, s.cfg.creds[r].fingerprint);
      }
    case _ =>
  }

  /** A refresh of a reader that is not sendable is idle, and the sender does not have it in hand: neither
      touches it. */
  ghost predicate SameReader(m: Memory, n: Memory, r: ReaderId) {
    && r in m.reg && r in n.reg && r in m.pre && r in n.pre
    && n.reg[r] == m.reg[r] && n.pre[r] == m.pre[r]
  }

  lemma {:induction false} SenderSpares(m: Memory, n: Memory, creds: map<ReaderId, Credential>, r: ReaderId)
    requires SenderMoves(m, n) && MemoryOk(m, creds) && r in m.reg && !Warm(m.reg[r].state)
    ensures SameReader(m, n, r)
  {
    assert ReaderOk(r, m.reg[r], m.pre[r], m.mr[r], m.snd);
    if m.snd.SSuspend? {
      assert Engaged(m.snd, m.snd.reader);
    }
  }

  lemma {:induction false} LocalSpares(m: Memory, n: Memory, creds: map<ReaderId, Credential>, q: ReaderId, r: ReaderId)
    requires Local(m, n, q) && MemoryOk(m, creds) && r in m.reg && q != r
    ensures SameReader(m, n, r)
  {
  }

  lemma {:induction false} RefreshSpares(s: Sys, q: ReaderId, a: MetaAct, t: Sys, r: ReaderId)
    requires MemoryOk(s.mem, s.cfg.creds) && MetaStep(s, q, a, t) && r in s.mem.reg && !Warm(s.mem.reg[r].state)
    ensures SameReader(s.mem, t.mem, r)
  {
    assert ReaderOk(r, s.mem.reg[r], s.mem.pre[r], s.mem.mr[r], s.mem.snd);
    MetaLocal(s, q, a, t);
    RefreshNeedsSendable(s, q, a, t);
    LocalSpares(s.mem, t.mem, s.cfg.creds, q, r);
  }

  lemma {:induction false} PreflightSpares(s: Sys, q: ReaderId, a: PreAct, t: Sys, r: ReaderId)
    requires MemoryOk(s.mem, s.cfg.creds) && PreStep(s, q, a, t) && r in s.mem.reg && q != r
    ensures SameReader(s.mem, t.mem, r)
  {
    PreLocal(s, q, a, t);
    LocalSpares(s.mem, t.mem, s.cfg.creds, q, r);
  }

  lemma {:induction false} LifeSameMemory(s: Sys, a: LifeAct, t: Sys)
    requires s.phase.Running? && LifeStep(s, a, t) && !a.Crash?
    ensures t.mem == s.mem && t.phase == s.phase && t.cfg == s.cfg
  {
  }

  lemma {:induction false} Spared(m: Memory, n: Memory, creds: map<ReaderId, Credential>, r: ReaderId)
    requires MemoryOk(m, creds) && r in m.reg && n.reg == m.reg && n.pre == m.pre
    ensures SameReader(m, n, r)
  {
  }

  lemma {:induction false} AdmitSpares(s: Sys, q: ReaderId, a: AdmitAct, t: Sys, r: ReaderId)
    requires MemoryOk(s.mem, s.cfg.creds) && AdmitStep(s, q, a, t) && r in s.mem.reg
    ensures SameReader(s.mem, t.mem, r)
  {
    AdmitKeepsGates(s, q, a, t);
    Spared(s.mem, t.mem, s.cfg.creds, r);
  }

  /** No other actor touches a reader that is not sendable in this process. */
  lemma {:induction false} Untouched(s: Sys, a: Step, t: Sys, r: ReaderId)
    requires GateInv(s) && s.phase.Running? && Next(s, a, t) && a != Life(Crash)
    requires r in s.mem.reg && !Warm(s.mem.reg[r].state) && !(a.Preflight? && a.reader == r)
    ensures SameReader(s.mem, t.mem, r)
  {
    hide MetaStep, PreStep, LifeStep, AdmitStep, MemoryOk, SenderMoves, Warm, SameReader;
    match a
    case Preflight(q, x) => PreflightSpares(s, q, x, t, r);
    case Refresh(q, x) => RefreshSpares(s, q, x, t, r);
    case Admit(q, x) => AdmitSpares(s, q, x, t, r);
    case Life(x) => LifeSameMemory(s, x, t); Spared(s.mem, t.mem, s.cfg.creds, r);
    case Server(x) => Spared(s.mem, t.mem, s.cfg.creds, r);
    case _ => SenderActs(s, a, t); SenderSpares(s.mem, t.mem, s.cfg.creds, r);
  }

  lemma {:induction false} ProcessGoesOn(s: Sys, a: Step, t: Sys)
    requires s.phase.Running? && Next(s, a, t) && a != Life(Crash)
    ensures t.phase.Running? && t.cfg == s.cfg
  {
    if a.Life? {
      LifeSameMemory(s, a.life, t);
    } else {
      PhaseFixed(s, a, t);
    }
  }

  /** From `s` to `t` no POST of the reader was sent, and its rows left only by age. */
  ghost predicate Silent(s: Sys, t: Sys, r: ReaderId) {
    && |s.world.net| <= |t.world.net|
    && (forall k :: |s.world.net| <= k < |t.world.net| ==> t.world.net[k].reader != r)
    && (forall id :: LeftSince(s.hist, t.hist, id, r) ==> t.hist.removed[id].Aged?)
  }

  predicate LeftSince(h: History, k: History, id: nat, r: ReaderId) {
    id in k.removed && id !in h.removed && id in k.accepted && k.accepted[id].reader == r
  }

  lemma {:induction false} SilentDeliver(s: Sys, a: DeliverAct, t: Sys, r: ReaderId)
    requires QueueInv(s) && DeliverStep(s, a, t) && !Engaged(s.mem.snd, r)
    ensures Silent(s, t, r)
  {
    var pc := s.mem.snd;
    assert SameScan(pc.row, s.hist.accepted[pc.row.id]);
    match a
    case Settle(ok) =>
      SilentSettle(s, pc.now, pc.row, s.world.net[pc.request].token, Decide(pc.reply), ok, r);
    case _ =>
  }

  lemma {:induction false} SilentSettle(s: Sys, now: Millis, row: Row, token: string, d: Decision, ok: bool, r: ReaderId)
    requires row.id in s.hist.accepted && s.hist.accepted[row.id].reader != r
    ensures Silent(s, Pipeline.Settled(s, now, row, token, d, ok), r)
  {
  }

  lemma {:induction false} SilentLife(s: Sys, a: LifeAct, t: Sys, r: ReaderId)
    requires s.phase.Running? && LifeStep(s, a, t)
    ensures Silent(s, t, r)
  {
  }

  lemma {:induction false} SilentAdmit(s: Sys, q: ReaderId, a: AdmitAct, t: Sys, r: ReaderId)
    requires AdmitStep(s, q, a, t)
    ensures Silent(s, t, r)
  {
    AdmitKeepsGates(s, q, a, t);
    assert t.hist.removed == s.hist.removed;
  }

  lemma {:induction false} SilentStep(s: Sys, a: Step, t: Sys, r: ReaderId)
    requires GateInv(s) && QueueInv(s) && s.phase.Running? && Next(s, a, t)
    requires r in s.mem.reg && !Warm(s.mem.reg[r].state)
    ensures Silent(s, t, r)
  {
    hide PollStep, DeliverStep, CloseStep, PreStep, MetaStep, AdmitStep;
    assert ReaderOk(r, s.mem.reg[r], s.mem.pre[r], s.mem.mr[r], s.mem.snd);
    match a
    case Poll(x) => PollKeepsRows(s, x, t);
    case Deliver(x) => SilentDeliver(s, x, t, r);
    case Close(x) => CloseKeepsRows(s, x, t);
    case Preflight(q, x) => PreflightKeepsRows(s, q, x, t);
    case Refresh(q, x) => RefreshKeepsRows(s, q, x, t);
    case Admit(q, x) => SilentAdmit(s, q, x, t, r);
    case Life(x) => SilentLife(s, x, t, r);
    case Server(x) =>
  }

  lemma {:induction false} SilentOn(s: Sys, t: Sys, u: Sys, r: ReaderId)
    requires Silent(s, t, r) && Silent(t, u, r) && t.world.net <= u.world.net && Grows(t.hist, u.hist)
    requires forall id :: id in t.hist.removed ==> id in t.hist.accepted
    ensures Silent(s, u, r)
  {
  }

  predicate IsReply(a: Step, r: ReaderId) {
    a.Preflight? && a.reader == r && a.pre.PreReceive?
  }

  ghost predicate NoReply(acts: seq<Step>, i: nat, j: nat, r: ReaderId) {
    forall k {:trigger acts[k]} :: i <= k < j && k < |acts| ==> !IsReply(acts[k], r)
  }

  /** If the reader's preflight gets a reply between i and j, the first one is a valid 200 for another booth. */
  ghost predicate FirstReplyElsewhere(acts: seq<Step>, i: nat, j: nat, r: ReaderId, e: Entry) {
    forall k {:trigger acts[k]} :: i <= k < j && k < |acts| && IsReply(acts[k], r) && NoReply(acts, i, k, r) ==>
      OtherBooth(e, acts[k].pre.reply)
  }

  /** The guard's own step. */
  lemma {:induction false} GuardKept(s: Sys, a: Step, t: Sys, r: ReaderId, e: Entry)
    requires GateInv(s) && s.phase.Running? && Next(s, a, t) && a != Life(Crash)
    requires r in s.cfg.creds && Armed(e, s.cfg.creds[r].fingerprint)
    requires Waiting(s.mem, r, e) || Tripped(s.mem, r, e)
    ensures t.phase.Running? && t.cfg == s.cfg
    ensures Tripped(s.mem, r, e) ==> Tripped(t.mem, r, e)
    ensures Waiting(s.mem, r, e) && !IsReply(a, r) ==> Waiting(t.mem, r, e)
    ensures Waiting(s.mem, r, e) && IsReply(a, r) && OtherBooth(e, a.pre.reply) ==> Tripped(t.mem, r, e)
  {
    if a.Preflight? && a.reader == r {
      PreflightKeepsRows(s, r, a.pre, t);
      if Waiting(s.mem, r, e) {
        WaitingPre(s, r, a.pre, t, e);
      }
      if Tripped(s.mem, r, e) {
        assert ReaderOk(r, s.mem.reg[r], s.mem.pre[r], s.mem.mr[r], s.mem.snd);
        TrippedPre(s, r, a.pre, t, e);
      }
    } else {
      ProcessGoesOn(s, a, t);
      Untouched(s, a, t, r);
    }
  }

  ghost predicate Guarded(ss: seq<Sys>, acts: seq<Step>, i: nat, n: nat, r: ReaderId)
    requires i <= n < |ss| && r in ss[i].mem.reg
  {
    var e := ss[i].mem.reg[r];
    && ss[n].phase.Running? && ss[n].cfg == ss[i].cfg
    && ((Waiting(ss[n].mem, r, e) && NoReply(acts, i, n, r)) || Tripped(ss[n].mem, r, e))
  }

  /** At i the process has the reader armed and its preflight has not begun; no crash until j. */
  ghost predicate ArmedAt(ss: seq<Sys>, acts: seq<Step>, i: nat, j: nat, r: ReaderId) {
    && FullRun(ss, acts) && i <= j < |ss| && SameProcess(acts, i, j)
    && ss[i].phase.Running? && r in ss[i].cfg.creds && r in ss[i].mem.reg
    && r in ss[i].mem.pre && ss[i].mem.pre[r].PIdle?
    && Armed(ss[i].mem.reg[r], ss[i].cfg.creds[r].fingerprint)
  }

  ghost predicate GuardSet(ss: seq<Sys>, acts: seq<Step>, i: nat, j: nat, r: ReaderId) {
    ArmedAt(ss, acts, i, j, r) && FirstReplyElsewhere(acts, i, j, r, ss[i].mem.reg[r])
  }

  lemma {:induction false} GuardHolds(ss: seq<Sys>, acts: seq<Step>, i: nat, j: nat, n: nat, r: ReaderId)
    requires GuardSet(ss, acts, i, j, r) && i <= n <= j
    ensures Guarded(ss, acts, i, n, r)
  {
    hide Next, Init, GateInv, Armed;
    if i < n {
      GuardHolds(ss, acts, i, j, n - 1, r);
      GatesAlways(ss, acts, n - 1);
      var a := acts[n - 1];
      GuardKept(ss[n - 1], a, ss[n], r, ss[i].mem.reg[r]);
    }
  }

  lemma {:induction false} GuardSilent(ss: seq<Sys>, acts: seq<Step>, i: nat, j: nat, n: nat, r: ReaderId)
    requires GuardSet(ss, acts, i, j, r) && i <= n < j
    ensures Silent(ss[n], ss[n + 1], r) && ss[n].world.net <= ss[n + 1].world.net
    ensures Grows(ss[n].hist, ss[n + 1].hist)
    ensures forall id :: id in ss[n].hist.removed ==> id in ss[n].hist.accepted
  {
    hide Next, Init, GateInv, Silent, Grows;
    GuardHolds(ss, acts, i, j, n, r);
    GatesAlways(ss, acts, n);
    QueueAlways(ss, acts, n);
    GrowsAt(ss, acts, n);
    SilentStep(ss[n], acts[n], ss[n + 1], r);
    NetGrows(ss[n], acts[n], ss[n + 1]);
  }

  lemma {:induction false} DeliverGrowsNet(s: Sys, a: DeliverAct, t: Sys)
    requires DeliverStep(s, a, t)
    ensures s.world.net <= t.world.net
  {
  }

  lemma {:induction false} NetGrows(s: Sys, a: Step, t: Sys)
    requires Next(s, a, t)
    ensures s.world.net <= t.world.net
  {
    hide PollStep, DeliverStep, CloseStep, PreStep, MetaStep, AdmitStep;
    match a
    case Poll(x) => PollKeepsRows(s, x, t);
    case Deliver(x) => DeliverGrowsNet(s, x, t);
    case Close(x) => CloseKeepsRows(s, x, t);
    case Preflight(q, x) => PreflightKeepsRows(s, q, x, t);
    case Refresh(q, x) => RefreshKeepsRows(s, q, x, t);
    case Admit(q, x) => AdmitKeepsGates(s, q, x, t);
    case Life(x) =>
    case Server(x) =>
  }

  /** A reader restored with another token's fingerprint and a known booth, whose first preflight reply
      is for another booth: until the process ends it is never sendable, no row of it is POSTed, and
      its rows leave the queue only by age. */
  lemma {:induction false} RebindGuard(ss: seq<Sys>, acts: seq<Step>, i: nat, j: nat, r: ReaderId)
    requires GuardSet(ss, acts, i, j, r)
    ensures r in ss[j].mem.reg && !ss[j].mem.reg[r].state.Sendable()
    ensures Silent(ss[i], ss[j], r)
    decreases j - i
  {
    GuardHolds(ss, acts, i, j, j, r);
    if i < j {
      assert FirstReplyElsewhere(acts, i, j - 1, r, ss[i].mem.reg[r]);
      RebindGuard(ss, acts, i, j - 1, r);
      GuardSilent(ss, acts, i, j, j - 1, r);
      SilentOn(ss[i], ss[j - 1], ss[j], r);
    }
  }

  // ---- The guard trips on the first reply or never ----

  /** Preflight of the reader has had a reply, and no later one can suspend it as rebound. */
  ghost predicate Disarmed(m: Memory, r: ReaderId, e: Entry, fingerprint: string) {
    && r in m.reg && r in m.pre && !m.reg[r].state.SuspendedRebind?
    && match m.pre[r]
       case PReplied(_, reply) => (m.reg[r] == e && !OtherBooth(e, reply)) || m.reg[r].fingerprint == fingerprint
       case PDecided(job) => !job.state.SuspendedRebind? && job.fingerprint == fingerprint
       case PDone => true
       case _ => m.reg[r].fingerprint == fingerprint
  }

  lemma {:induction false} DisarmedPre(s: Sys, r: ReaderId, a: PreAct, t: Sys, e: Entry)
    requires PreStep(s, r, a, t) && s.cfg.creds[r].fingerprint != "" && Unverified(e.state)
    requires s.mem.pre[r].PDecided? ==> s.mem.pre[r].job.reader == r
    requires Disarmed(s.mem, r, e, s.cfg.creds[r].fingerprint)
    ensures Disarmed(t.mem, r, e, s.cfg.creds[r].fingerprint)
  {
    match a
    case PreRead =>
      var pc := s.mem.pre[r];
      if s.mem.reg[r] == e {
        RebindExactly(r, pc.now, pc.reply, e, s.cfg.creds[r].fingerprint);
      }
    case _ =>
  }

  /** A refresh leaves the fingerprint alone and only opens. */
  lemma {:induction false} RefreshKeepsToken(s: Sys, r: ReaderId, a: MetaAct, t: Sys)
    requires MetaStep(s, r, a, t) && r in s.mem.reg
    ensures r in t.mem.reg && t.mem.reg[r].fingerprint == s.mem.reg[r].fingerprint
    ensures t.mem.reg[r] == s.mem.reg[r] || t.mem.reg[r].state.Sendable()
  {
    match a
    case MetaWrite(now) => hide Persisted;
    case _ => hide Persisted, Written, RefreshJob;
  }

  /** The reader's token in memory, and whether it is suspended as rebound, are preflight's alone. */
  ghost predicate SameToken(m: Memory, n: Memory, r: ReaderId) {
    && r in m.reg && r in n.reg && r in m.pre && r in n.pre
    && n.pre[r] == m.pre[r] && n.reg[r].fingerprint == m.reg[r].fingerprint
    && (n.reg[r] == m.reg[r] || !n.reg[r].state.SuspendedRebind?)
  }

  lemma {:induction false} SenderKeepsToken(m: Memory, n: Memory, creds: map<ReaderId, Credential>, r: ReaderId)
    requires SenderMoves(m, n) && MemoryOk(m, creds) && r in m.reg
    ensures SameToken(m, n, r)
  {
  }

  lemma {:induction false} LocalKeepsToken(m: Memory, n: Memory, creds: map<ReaderId, Credential>, q: ReaderId, r: ReaderId)
    requires Local(m, n, q) && MemoryOk(m, creds) && r in m.reg && q != r
    ensures SameToken(m, n, r)
  {
  }

  lemma {:induction false} RefreshSameToken(s: Sys, q: ReaderId, a: MetaAct, t: Sys, r: ReaderId)
    requires MemoryOk(s.mem, s.cfg.creds) && MetaStep(s, q, a, t) && r in s.mem.reg
    ensures SameToken(s.mem, t.mem, r)
  {
    MetaLocal(s, q, a, t);
    RefreshKeepsToken(s, q, a, t);
    RefreshKeepsPre(s, q, a, t);
    if q != r {
      LocalKeepsToken(s.mem, t.mem, s.cfg.creds, q, r);
    }
  }

  lemma {:induction false} PreflightSameToken(s: Sys, q: ReaderId, a: PreAct, t: Sys, r: ReaderId)
    requires MemoryOk(s.mem, s.cfg.creds) && PreStep(s, q, a, t) && r in s.mem.reg && q != r
    ensures SameToken(s.mem, t.mem, r)
  {
    PreLocal(s, q, a, t);
    LocalKeepsToken(s.mem, t.mem, s.cfg.creds, q, r);
  }

  lemma {:induction false} OthersKeepToken(s: Sys, a: Step, t: Sys, r: ReaderId)
    requires GateInv(s) && s.phase.Running? && Next(s, a, t) && a != Life(Crash)
    requires r in s.mem.reg && !(a.Preflight? && a.reader == r)
    ensures SameToken(s.mem, t.mem, r)
  {
    hide MetaStep, PreStep, LifeStep, AdmitStep, MemoryOk, SenderMoves;
    match a
    case Preflight(q, x) => PreflightSameToken(s, q, x, t, r);
    case Refresh(q, x) => RefreshSameToken(s, q, x, t, r);
    case Admit(q, x) => AdmitSpares(s, q, x, t, r);
    case Life(x) => LifeSameMemory(s, x, t); Spared(s.mem, t.mem, s.cfg.creds, r);
    case Server(x) => Spared(s.mem, t.mem, s.cfg.creds, r);
    case _ => SenderActs(s, a, t); SenderKeepsToken(s.mem, t.mem, s.cfg.creds, r);
  }

  lemma {:induction false} RefreshKeepsPre(s: Sys, q: ReaderId, a: MetaAct, t: Sys)
    requires MetaStep(s, q, a, t)
    ensures t.mem.pre == s.mem.pre
  {
    hide Persisted, Written, RefreshJob, RefreshApplies;
  }

  lemma {:induction false} DisarmedKept(s: Sys, a: Step, t: Sys, r: ReaderId, e: Entry)
    requires GateInv(s) && s.phase.Running? && Next(s, a, t) && a != Life(Crash)
    requires r in s.cfg.creds && Armed(e, s.cfg.creds[r].fingerprint) && s.cfg.creds[r].fingerprint != ""
    requires Disarmed(s.mem, r, e, s.cfg.creds[r].fingerprint)
    ensures Disarmed(t.mem, r, e, s.cfg.creds[r].fingerprint)
  {
    assert ReaderOk(r, s.mem.reg[r], s.mem.pre[r], s.mem.mr[r], s.mem.snd);
    if a.Preflight? && a.reader == r {
      DisarmedPre(s, r, a.pre, t, e);
    } else {
      OthersKeepToken(s, a, t, r);
      if s.mem.reg[r] == e {
        Untouched(s, a, t, r);
      }
    }
  }

  predicate FirstReplyAt(acts: seq<Step>, i: nat, k: nat, r: ReaderId)
    requires k < |acts|
  {
    IsReply(acts[k], r) && forall m {:trigger acts[m]} :: i <= m < k ==> !IsReply(acts[m], r)
  }

  /** The first reply since i came before n and is a valid 200 for another booth. */
  ghost predicate TrippedBefore(acts: seq<Step>, i: nat, n: nat, r: ReaderId, e: Entry) {
    exists k {:trigger acts[k]} :: i <= k < n && k < |acts| && FirstReplyAt(acts, i, k, r) && OtherBooth(e, acts[k].pre.reply)
  }

  /** The three things that can be true of an armed reader later in the process. */
  ghost predicate Decided(s: Sys, acts: seq<Step>, i: nat, n: nat, r: ReaderId, e: Entry, cfg: Config) {
    && s.phase.Running? && s.cfg == cfg && r in cfg.creds
    && (|| (Waiting(s.mem, r, e) && NoReply(acts, i, n, r))
        || TrippedBefore(acts, i, n, r, e)
        || Disarmed(s.mem, r, e, cfg.creds[r].fingerprint))
  }

  lemma {:induction false} DecidedStep(s: Sys, acts: seq<Step>, i: nat, n: nat, t: Sys, r: ReaderId, e: Entry, cfg: Config)
    requires GateInv(s) && i <= n < |acts| && Next(s, acts[n], t) && acts[n] != Life(Crash)
    requires Decided(s, acts, i, n, r, e, cfg) && Armed(e, cfg.creds[r].fingerprint) && cfg.creds[r].fingerprint != ""
    ensures Decided(t, acts, i, n + 1, r, e, cfg)
  {
    hide Next, GateInv, Disarmed, Waiting;
    var a := acts[n];
    ProcessGoesOn(s, a, t);
    if TrippedBefore(acts, i, n, r, e) {
    } else if Disarmed(s.mem, r, e, cfg.creds[r].fingerprint) {
      DisarmedKept(s, a, t, r, e);
    } else if !IsReply(a, r) {
      GuardKept(s, a, t, r, e);
    } else if OtherBooth(e, a.pre.reply) {
      assert FirstReplyAt(acts, i, n, r);
    } else {
      ReplyDisarms(s, r, a.pre, t, e, cfg.creds[r].fingerprint);
    }
  }

  lemma {:induction false} ReplyDisarms(s: Sys, r: ReaderId, a: PreAct, t: Sys, e: Entry, fingerprint: string)
    requires Next(s, Preflight(r, a), t) && a.PreReceive? && Waiting(s.mem, r, e) && !OtherBooth(e, a.reply)
    requires Unverified(e.state)
    ensures Disarmed(t.mem, r, e, fingerprint)
  {
  }

  lemma {:induction false} DecidedAlways(ss: seq<Sys>, acts: seq<Step>, i: nat, j: nat, n: nat, r: ReaderId)
    requires ArmedAt(ss, acts, i, j, r) && i <= n <= j
    ensures Decided(ss[n], acts, i, n, r, ss[i].mem.reg[r], ss[i].cfg)
  {
    hide Next, Init, Decided, GateInv;
    if i == n {
      DecidedStart(ss[i], acts, i, r);
    } else {
      DecidedAlways(ss, acts, i, j, n - 1, r);
      GatesAlways(ss, acts, n - 1);
      ConfigAlways(ss, acts, i);
      assert Next(ss[n - 1], acts[n - 1], ss[n]);
      assert acts[n - 1] != Life(Crash);
      DecidedStep(ss[n - 1], acts, i, n - 1, ss[n], r, ss[i].mem.reg[r], ss[i].cfg);
    }
  }

  lemma {:induction false} DecidedStart(s: Sys, acts: seq<Step>, i: nat, r: ReaderId)
    requires s.phase.Running? && r in s.cfg.creds && r in s.mem.reg && r in s.mem.pre && s.mem.pre[r].PIdle?
    ensures Decided(s, acts, i, i, r, s.mem.reg[r], s.cfg)
  {
  }

  /** For the whole process run: a reader that starts armed is ever suspended as rebound only if the very
      first reply of its preflight is a valid 200 for another booth. A lost or failed first attempt disarms
      the guard for good. */
  lemma {:induction false} RebindOnlyByFirstReply(ss: seq<Sys>, acts: seq<Step>, i: nat, j: nat, r: ReaderId)
    requires ArmedAt(ss, acts, i, j, r)
    requires r in ss[j].mem.reg && ss[j].mem.reg[r].state.SuspendedRebind?
    ensures TrippedBefore(acts, i, j, r, ss[i].mem.reg[r])
  {
    hide Next, Init;
    DecidedAlways(ss, acts, i, j, j, r);
  }
}
