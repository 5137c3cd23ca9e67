// Suspension across restarts: which stored suspensions survive crashes, restarts and late persists.
module Restarts {
  import opened Domain
  import opened Tables
  import opened Gates
  import opened Pipeline
  import opened Runs
  import opened QueueSafety
  import opened GateSafety

  /** A stored suspension no start lifts, or (not `firm`) none with the same token: a rebind or configuration
      suspension, or a token suspension that names its token. */
  predicate HardStop(row: GateRow, firm: bool) {
    row.state.SuspendedRebind? || row.state.SuspendedConfig? || (!firm && row.state.SuspendedToken? && row.fingerprint != "")
  }

  predicate Stopped(db: Db, r: ReaderId, firm: bool) {
    r in db.gates && HardStop(db.gates[r], firm)
  }

  predicate SameRow(db: Db, after: Db, r: ReaderId) {
    r in db.gates && r in after.gates && after.gates[r] == db.gates[r]
  }

  /** While a hard stop is stored, the process has the reader suspended and no actor touches it. */
  ghost predicate StopHeld(s: Sys, r: ReaderId, firm: bool) {
    Stopped(s.db, r, firm) && r in s.mem.reg ==>
      && s.mem.reg[r].state == s.db.gates[r].state
      && (s.phase.Running? ==> r in s.mem.pre && r in s.mem.mr &&
                               s.mem.pre[r].PDone? && Cold(s.mem.snd, s.mem.mr[r], r))
  }

  /** The persist halves of all gate writes. */
  lemma {:induction false} DeliverKeepsGates(s: Sys, a: DeliverAct, t: Sys)
    requires DeliverStep(s, a, t)
    ensures t.db.gates == s.db.gates && t.db.debounce == s.db.debounce
  {
  }

  lemma {:induction false} ClosePersists(s: Sys, a: CloseAct, t: Sys)
    requires CloseStep(s, a, t)
    ensures t.db.gates == s.db.gates ||
            (s.mem.snd.SPersist? && t.db.gates == Persisted(s.db, s.mem.snd.job).gates)
  {
  }

  lemma {:induction false} PrePersists(s: Sys, r: ReaderId, a: PreAct, t: Sys)
    requires PreStep(s, r, a, t)
    ensures t.db.gates == s.db.gates ||
            (s.mem.pre[r].PPersist? && t.db.gates == Persisted(s.db, s.mem.pre[r].job).gates)
    ensures s.mem.pre[r].PPersist? ==>
              t.mem == Preflighting(s.mem, r, if s.mem.pre[r].job.state.PreflightRetry? then PIdle else PDone)
    ensures !s.mem.pre[r].PDone?
  {
  }

  lemma {:induction false} MetaPersists(s: Sys, r: ReaderId, a: MetaAct, t: Sys)
    requires MetaStep(s, r, a, t)
    ensures t.db.gates == s.db.gates ||
            (s.mem.mr[r].MPersist? && t.db.gates == Persisted(s.db, s.mem.mr[r].job).gates)
  {
  }

  lemma {:induction false} StopKeptBySender(s: Sys, t: Sys, r: ReaderId, firm: bool)
    requires s.phase.Running? && MemoryOk(s.mem, s.cfg.creds) && StopHeld(s, r, firm)
    requires t.phase == s.phase && SenderMoves(s.mem, t.mem)
    requires t.db.gates == s.db.gates ||
             (s.mem.snd.SPersist? && t.db.gates == Persisted(s.db, s.mem.snd.job).gates)
    ensures StopHeld(t, r, firm)
    ensures Stopped(s.db, r, firm) ==> SameRow(s.db, t.db, r)
  {
    if s.mem.snd.SPersist? {
      assert Engaged(s.mem.snd, s.mem.snd.job.reader);
    }
    if s.mem.snd.SSuspend? {
      assert Engaged(s.mem.snd, s.mem.snd.reader);
    }
  }

  /** Preflight of the reader itself: not done, so no stop is held yet; storing a suspension sets one. */
  lemma {:induction false} OwnPreStop(s: Sys, a: PreAct, t: Sys, r: ReaderId, firm: bool)
    requires s.phase.Running? && MemoryOk(s.mem, s.cfg.creds) && StopHeld(s, r, firm) && PreStep(s, r, a, t)
    ensures StopHeld(t, r, firm) && !Stopped(s.db, r, firm)
  {
    PreLocal(s, r, a, t);
    PrePersists(s, r, a, t);
    PreflightKeepsRows(s, r, a, t);
    hide PreStep, Engaged;
  }

  /** A step that touches another reader only. */
  lemma {:induction false} StopKeptBeside(s: Sys, t: Sys, q: ReaderId, r: ReaderId, firm: bool)
    requires StopHeld(s, r, firm) && q != r && Local(s.mem, t.mem, q) && t.phase == s.phase
    requires Lookup(t.db.gates, r) == Lookup(s.db.gates, r)
    ensures StopHeld(t, r, firm) && (Stopped(s.db, r, firm) ==> SameRow(s.db, t.db, r))
  {
    hide Engaged;
  }

  lemma {:induction false} PreBeside(s: Sys, q: ReaderId, a: PreAct, t: Sys, r: ReaderId)
    requires MemoryOk(s.mem, s.cfg.creds) && PreStep(s, q, a, t) && q != r
    ensures Local(s.mem, t.mem, q) && t.phase == s.phase && Lookup(t.db.gates, r) == Lookup(s.db.gates, r)
  {
    PreLocal(s, q, a, t);
    PrePersists(s, q, a, t);
    PreflightKeepsRows(s, q, a, t);
    hide PreStep, Engaged;
  }

  lemma {:induction false} StopKeptByPre(s: Sys, q: ReaderId, a: PreAct, t: Sys, r: ReaderId, firm: bool)
    requires s.phase.Running? && MemoryOk(s.mem, s.cfg.creds) && StopHeld(s, r, firm) && PreStep(s, q, a, t)
    ensures StopHeld(t, r, firm)
    ensures Stopped(s.db, r, firm) ==> SameRow(s.db, t.db, r)
  {
    if q != r {
      PreBeside(s, q, a, t, r);
      hide PreStep, MemoryOk, StopHeld;
      StopKeptBeside(s, t, q, r, firm);
    } else {
      OwnPreStop(s, a, t, r, firm);
    }
  }

  lemma {:induction false} MetaBeside(s: Sys, q: ReaderId, a: MetaAct, t: Sys, r: ReaderId)
    requires MemoryOk(s.mem, s.cfg.creds) && MetaStep(s, q, a, t) && q != r
    ensures Local(s.mem, t.mem, q) && t.phase == s.phase && Lookup(t.db.gates, r) == Lookup(s.db.gates, r)
  {
    MetaLocal(s, q, a, t);
    MetaPersists(s, q, a, t);
    RefreshKeepsRows(s, q, a, t);
    hide MetaStep, Engaged;
  }

  /** A refresh of the reader itself finds no stop and stores none. */
  lemma {:induction false} OwnMetaStop(s: Sys, a: MetaAct, t: Sys, r: ReaderId, firm: bool)
    requires s.phase.Running? && MemoryOk(s.mem, s.cfg.creds) && StopHeld(s, r, firm) && MetaStep(s, r, a, t)
    ensures StopHeld(t, r, firm) && !Stopped(s.db, r, firm)
  {
    MetaLocal(s, r, a, t);
    MetaPersists(s, r, a, t);
    RefreshNeedsSendable(s, r, a, t);
    hide MetaStep, Engaged;
  }

  lemma {:induction false} StopKeptByMeta(s: Sys, q: ReaderId, a: MetaAct, t: Sys, r: ReaderId, firm: bool)
    requires s.phase.Running? && MemoryOk(s.mem, s.cfg.creds) && StopHeld(s, r, firm) && MetaStep(s, q, a, t)
    ensures StopHeld(t, r, firm)
    ensures Stopped(s.db, r, firm) ==> SameRow(s.db, t.db, r)
  {
    if q != r {
      MetaBeside(s, q, a, t, r);
      hide MetaStep, MemoryOk, StopHeld;
      StopKeptBeside(s, t, q, r, firm);
    } else {
      OwnMetaStop(s, a, t, r, firm);
    }
  }

  /** A lift whose store write failed: memory is open again and the store still has the suspension. */
  ghost predicate LostLift(s: Sys, a: Step, r: ReaderId) {
    LiftedBy(s, a, r) && a.life.fault.WriteFails?
  }

  lemma {:induction false} StopKeptByLife(s: Sys, a: LifeAct, t: Sys, r: ReaderId, firm: bool)
    requires GateInv(s) && StopHeld(s, r, firm) && LifeStep(s, a, t) && (firm || !LostLift(s, Life(a), r))
    ensures StopHeld(t, r, firm)
    ensures Stopped(s.db, r, firm) && Respects(s, Life(a), r) ==> SameRow(s.db, t.db, r)
  {
  }

  lemma {:induction false} StopKeptQuietly(s: Sys, t: Sys, r: ReaderId, firm: bool)
    requires StopHeld(s, r, firm) && t.phase == s.phase && t.db.gates == s.db.gates
    requires t.mem.reg == s.mem.reg && t.mem.pre == s.mem.pre && t.mem.mr == s.mem.mr && t.mem.snd == s.mem.snd
    ensures StopHeld(t, r, firm) && (Stopped(s.db, r, firm) ==> SameRow(s.db, t.db, r))
  {
  }

  lemma {:induction false} StopKept(s: Sys, a: Step, t: Sys, r: ReaderId, firm: bool)
    requires GateInv(s) && StopHeld(s, r, firm) && Next(s, a, t) && (firm || !LostLift(s, a, r))
    ensures StopHeld(t, r, firm)
    ensures Stopped(s.db, r, firm) && Respects(s, a, r) ==> SameRow(s.db, t.db, r)
  {
    hide LifeStep, DeliverStep, AdmitStep, PreStep, MetaStep, PollStep, CloseStep, SenderMoves, MemoryOk, StopHeld, Stopped, SameRow;
    match a
    case Poll(x) => SenderActs(s, a, t); PollKeepsRows(s, x, t); StopKeptBySender(s, t, r, firm);
    case Deliver(x) => SenderActs(s, a, t); PhaseFixed(s, a, t); DeliverKeepsGates(s, x, t); StopKeptBySender(s, t, r, firm);
    case Close(x) => SenderActs(s, a, t); CloseKeepsRows(s, x, t); ClosePersists(s, x, t); StopKeptBySender(s, t, r, firm);
    case Preflight(q, x) => StopKeptByPre(s, q, x, t, r, firm);
    case Refresh(q, x) => StopKeptByMeta(s, q, x, t, r, firm);
    case Admit(q, x) => AdmitKeepsGates(s, q, x, t); StopKeptQuietly(s, t, r, firm);
    case Life(x) => StopKeptByLife(s, x, t, r, firm);
    case Server(x) => StopKeptQuietly(s, t, r, firm);
  }

  ghost predicate RespectedFrom(ss: seq<Sys>, acts: seq<Step>, i: nat, j: nat, r: ReaderId)
    requires |ss| == |acts| + 1
  {
    forall k {:trigger acts[k]} :: i <= k < j && k < |acts| ==> Respects(ss[k], acts[k], r)
  }

  lemma {:induction false} RespectsStores(s: Sys, a: Step, r: ReaderId)
    requires Respects(s, a, r)
    ensures !LostLift(s, a, r)
  {
  }

  /** From a reachable state in which a hard stop is stored and held: no sequence of steps, crashes and
      restarts changes the stored row or makes the reader sendable, until an operator resumes it or a start
      lifts the token suspension, which takes another token and an empty queue for the reader. */
  lemma {:induction false} HardStopSurvives(ss: seq<Sys>, acts: seq<Step>, i: nat, j: nat, r: ReaderId)
    requires FullRun(ss, acts) && i <= j < |ss| && RespectedFrom(ss, acts, i, j, r)
    requires Stopped(ss[i].db, r, false) && StopHeld(ss[i], r, false)
    ensures SameRow(ss[i].db, ss[j].db, r) && StopHeld(ss[j], r, false)
    ensures r in ss[j].mem.reg ==> ss[j].mem.reg[r].state == ss[i].db.gates[r].state
    decreases j - i
  {
    hide Next, Init, Respects, LostLift, GateInv;
    if i < j {
      HardStopSurvives(ss, acts, i, j - 1, r);
      assert Respects(ss[j - 1], acts[j - 1], r);
      RespectsStores(ss[j - 1], acts[j - 1], r);
      GatesAlways(ss, acts, j - 1);
      StopKept(ss[j - 1], acts[j - 1], ss[j], r, false);
    }
  }

  /** A rebind or configuration suspension is held in every reachable state it is stored in, whatever the
      store did before. */
  lemma {:induction false} FirmAlways(ss: seq<Sys>, acts: seq<Step>, n: nat, r: ReaderId)
    requires FullRun(ss, acts) && n < |ss|
    ensures StopHeld(ss[n], r, true)
  {
    hide Next, StopHeld, GateInv;
    if n == 0 {
      GatesAlways(ss, acts, 0);
      StopHeldDown(ss[0], r, true);
    } else {
      FirmAlways(ss, acts, n - 1, r);
      GatesAlways(ss, acts, n - 1);
      assert Next(ss[n - 1], acts[n - 1], ss[n]);
      StopKept(ss[n - 1], acts[n - 1], ss[n], r, true);
    }
  }

  /** Once SUSPENDED_REBIND or SUSPENDED_CONFIG is stored, at any point of any run, it stays stored unchanged
      and is what every process has in memory, until an operator resumes the reader. */
  lemma {:induction false} FirmStopSurvives(ss: seq<Sys>, acts: seq<Step>, i: nat, j: nat, r: ReaderId)
    requires FullRun(ss, acts) && i <= j < |ss| && NotResumed(acts, i, j, r)
    requires Stopped(ss[i].db, r, true)
    ensures SameRow(ss[i].db, ss[j].db, r)
    ensures r in ss[j].mem.reg ==> ss[j].mem.reg[r].state == ss[i].db.gates[r].state
    decreases j - i
  {
    hide Next, Init, GateInv, Respects;
    FirmAlways(ss, acts, j, r);
    if i < j {
      FirmStopSurvives(ss, acts, i, j - 1, r);
      FirmAlways(ss, acts, j - 1, r);
      GatesAlways(ss, acts, j - 1);
      FirmRespected(ss[j - 1], acts[j - 1], r);
      StopKept(ss[j - 1], acts[j - 1], ss[j], r, true);
    }
  }

  ghost predicate NotResumed(acts: seq<Step>, i: nat, j: nat, r: ReaderId) {
    forall k {:trigger acts[k]} :: i <= k < j && k < |acts| ==> !IsResume(acts[k], r)
  }

  /** Only a token suspension can be lifted by a start. */
  lemma {:induction false} FirmRespected(s: Sys, a: Step, r: ReaderId)
    requires Stopped(s.db, r, true) && !IsResume(a, r)
    ensures Respects(s, a, r)
  {
  }

  lemma {:induction false} StopHeldDown(s: Sys, r: ReaderId, firm: bool)
    requires GateInv(s) && s.phase.Down?
    ensures StopHeld(s, r, firm)
  {
  }

  /** The run was down at p, and since then every lift of `r` was stored. */
  ghost predicate LiftsStored(ss: seq<Sys>, acts: seq<Step>, p: nat, i: nat, r: ReaderId)
    requires |ss| == |acts| + 1
  {
    && p <= i < |ss| && ss[p].phase.Down?
    && forall k {:trigger acts[k]} :: p <= k < i ==> !LostLift(ss[k], acts[k], r)
  }

  /** A token suspension that names its token is held, too, in a process in which no lift of the reader lost
      its store write. */
  lemma {:induction false} NamedStopHeld(ss: seq<Sys>, acts: seq<Step>, p: nat, n: nat, r: ReaderId)
    requires FullRun(ss, acts) && LiftsStored(ss, acts, p, n, r)
    ensures StopHeld(ss[n], r, false)
  {
    hide Next, Init, StopHeld, LostLift, GateInv;
    GatesAlways(ss, acts, n);
    if p == n {
      StopHeldDown(ss[n], r, false);
    } else {
      NamedStopHeld(ss, acts, p, n - 1, r);
      GatesAlways(ss, acts, n - 1);
      assert !LostLift(ss[n - 1], acts[n - 1], r);
      assert Next(ss[n - 1], acts[n - 1], ss[n]);
      StopKept(ss[n - 1], acts[n - 1], ss[n], r, false);
    }
  }

  /** No row of the reader is queued. */
  ghost predicate NothingPending(db: Db, r: ReaderId) {
    forall id :: id in db.queue ==> db.queue[id].reader != r
  }

  /** What one start does to any stored suspension: it leaves memory if and only if it is a token
      suspension, the configured token has another fingerprint, no row of the reader is queued and the
      count of them succeeds; it leaves the store exactly when, moreover, the write succeeds. */
  lemma {:induction false} RestoreLiftsIff(s: Sys, now: Millis, fault: Fault, t: Sys, r: ReaderId)
    requires LifeStep(s, Restore(r, now, fault), t)
    requires r in s.db.gates && s.db.gates[r].state.Suspended()
    ensures var lifted := && s.db.gates[r].state.SuspendedToken?
                          && s.cfg.creds[r].fingerprint != s.db.gates[r].fingerprint
                          && NothingPending(s.db, r) && !fault.CountFails?;
            && (!t.mem.reg[r].state.Suspended() <==> lifted)
            && (!t.db.gates[r].state.Suspended() <==> lifted && !fault.WriteFails?)
            && (!lifted ==> t.mem.reg[r].state == s.db.gates[r].state && t.db == s.db)
  {
    assert PendingIds(s.db, r) == {} <==> forall id :: id in s.db.queue ==> id !in PendingIds(s.db, r);
  }

  /** A lost lift exactly: a start leaves a reader stopped in the store but not in memory
      if and only if it lifts the stop and the write fails. */
  lemma {:induction false} LostLiftExactly(s: Sys, now: Millis, fault: Fault, t: Sys, r: ReaderId)
    requires LifeStep(s, Restore(r, now, fault), t) && Stopped(s.db, r, false)
    ensures Stopped(t.db, r, false) && t.mem.reg[r].state != t.db.gates[r].state <==> LostLift(s, Life(Restore(r, now, fault)), r)
  {
    RestoreLiftsIff(s, now, fault, t, r);
  }

  /** A suspension without a fingerprint counts every configured token as another one: a start lifts it
      exactly when no row of the reader is pending. */
  lemma {:induction false} SenderStopLiftedIff(s: Sys, now: Millis, t: Sys, r: ReaderId)
    requires LifeStep(s, Restore(r, now, NoFault), t) && s.cfg.creds[r].fingerprint != ""
    requires r in s.db.gates && s.db.gates[r].state.SuspendedToken? && s.db.gates[r].fingerprint == ""
    ensures !t.mem.reg[r].state.Suspended() <==> NothingPending(s.db, r)
    ensures !t.mem.reg[r].state.Suspended() <==> !t.db.gates[r].state.Suspended()
  {
    RestoreLiftsIff(s, now, NoFault, t, r);
  }

  /** Every suspension the sender stores, in any run, is a token suspension without a fingerprint. */
  lemma {:induction false} SenderStopUnnamed(ss: seq<Sys>, acts: seq<Step>, n: nat)
    requires FullRun(ss, acts) && n < |acts| && acts[n] == Close(SenderPersist(true))
    ensures ss[n].mem.snd.SPersist?
    ensures var r := ss[n].mem.snd.job.reader;
            r in ss[n + 1].db.gates && ss[n + 1].db.gates[r].state.SuspendedToken? && ss[n + 1].db.gates[r].fingerprint == ""
  {
    GatesAlways(ss, acts, n);
    assert Next(ss[n], acts[n], ss[n + 1]);
  }

  // ---- Late persists ----

  predicate InStore(db: Db, r: ReaderId) {
    r in db.gates && db.gates[r].state.Suspended()
  }

  /** A preflight or a meta refresh has opened the gate in memory and not yet stored that. */
  predicate OpeningUnstored(m: Memory, r: ReaderId) {
    || (r in m.mr && (m.mr[r].MNotify? || m.mr[r].MPersist?))
    || (r in m.pre && (m.pre[r].PNotify? || m.pre[r].PPersist?) && m.pre[r].job.state.Sendable())
  }

  /** Suspended in memory and in the store, and nothing can undo the latter in this process. */
  ghost predicate AtRest(s: Sys, r: ReaderId) {
    s.phase.Running? && InMemory(s.mem, r) && InStore(s.db, r) && !OpeningUnstored(s.mem, r)
  }

  lemma {:induction false} RestByPre(s: Sys, q: ReaderId, a: PreAct, t: Sys, r: ReaderId)
    requires MemoryOk(s.mem, s.cfg.creds) && AtRest(s, r) && PreStep(s, q, a, t)
    ensures InStore(t.db, r) && !OpeningUnstored(t.mem, r)
  {
    PrePersists(s, q, a, t);
    assert ReaderOk(q, s.mem.reg[q], s.mem.pre[q], s.mem.mr[q], s.mem.snd);
    assert ReaderOk(r, s.mem.reg[r], s.mem.pre[r], s.mem.mr[r], s.mem.snd);
  }

  lemma {:induction false} RestByMeta(s: Sys, q: ReaderId, a: MetaAct, t: Sys, r: ReaderId)
    requires MemoryOk(s.mem, s.cfg.creds) && AtRest(s, r) && MetaStep(s, q, a, t)
    ensures InStore(t.db, r) && !OpeningUnstored(t.mem, r)
  {
    MetaPersists(s, q, a, t);
    RefreshNeedsSendable(s, q, a, t);
    assert ReaderOk(q, s.mem.reg[q], s.mem.pre[q], s.mem.mr[q], s.mem.snd);
  }

  lemma {:induction false} RestByClose(s: Sys, a: CloseAct, t: Sys, r: ReaderId)
    requires MemoryOk(s.mem, s.cfg.creds) && AtRest(s, r) && CloseStep(s, a, t)
    ensures InStore(t.db, r) && !OpeningUnstored(t.mem, r) && t.phase == s.phase
  {
    CloseMoves(s, a, t);
    CloseKeepsRows(s, a, t);
    ClosePersists(s, a, t);
  }

  lemma {:induction false} RestByLife(s: Sys, a: LifeAct, t: Sys, r: ReaderId)
    requires AtRest(s, r) && LifeStep(s, a, t) && !a.Crash?
    ensures InStore(t.db, r) && !OpeningUnstored(t.mem, r) && t.phase == s.phase
  {
  }

  lemma {:induction false} RestKept(s: Sys, a: Step, t: Sys, r: ReaderId)
    requires GateInv(s) && AtRest(s, r) && Next(s, a, t) && a != Life(Crash)
    ensures AtRest(t, r)
  {
    hide LifeStep, DeliverStep, AdmitStep, PreStep, MetaStep, PollStep, CloseStep, MemoryOk, InMemory;
    SuspensionSticks(s, a, t, r);
    match a
    case Poll(x) => SenderActs(s, a, t); PollKeepsRows(s, x, t);
    case Deliver(x) => SenderActs(s, a, t); PhaseFixed(s, a, t); DeliverKeepsGates(s, x, t);
    case Close(x) => RestByClose(s, x, t, r);
    case Preflight(q, x) => RestByPre(s, q, x, t, r); PreflightKeepsRows(s, q, x, t);
    case Refresh(q, x) => RestByMeta(s, q, x, t, r); RefreshKeepsRows(s, q, x, t);
    case Admit(q, x) => AdmitKeepsGates(s, q, x, t);
    case Life(x) => RestByLife(s, x, t, r);
    case Server(x) =>
  }

  lemma {:induction false} RestAlong(ss: seq<Sys>, acts: seq<Step>, n: nat, r: ReaderId)
    requires Run(ss, acts) && n < |ss| && SameProcess(acts, 0, n) && GateInv(ss[0]) && AtRest(ss[0], r)
    ensures GateInv(ss[n]) && AtRest(ss[n], r)
  {
    hide Next, GateInv, AtRest;
    if n > 0 {
      RestAlong(ss, acts, n - 1, r);
      assert Next(ss[n - 1], acts[n - 1], ss[n]);
      assert acts[n - 1] != Life(Crash);
      GatesKept(ss[n - 1], acts[n - 1], ss[n]);
      RestKept(ss[n - 1], acts[n - 1], ss[n], r);
    }
  }

  /** The two steps that finish a meta refresh: notify, then persist. */
  lemma {:induction false} RefreshFinishes(s: Sys, r: ReaderId) returns (t: Sys, u: Sys)
    requires s.phase.Running? && r in s.mem.mr && s.mem.mr[r].MNotify?
    ensures Next(s, Refresh(r, MetaNotify), t) && Next(t, Refresh(r, MetaPersist(true)), u)
    ensures u.db == Persisted(s.db, s.mem.mr[r].job)
  {
    var m := s.mem;
    var n := Refreshing(m.(changed := true), r, MPersist(m.mr[r].job));
    t := s.(mem := n);
    u := GatePersisted(t, m.mr[r].job, true).(mem := Refreshing(n, r, MIdle));
  }

  lemma {:induction false} PreflightFinishes(s: Sys, r: ReaderId) returns (t: Sys, u: Sys)
    requires s.phase.Running? && r in s.mem.pre && r in s.cfg.creds && s.mem.pre[r].PNotify?
    ensures Next(s, Preflight(r, PreNotify), t) && Next(t, Preflight(r, PrePersist(true)), u)
    ensures u.db == Persisted(s.db, s.mem.pre[r].job)
  {
    var m := s.mem;
    var job := m.pre[r].job;
    var n := Preflighting(m.(changed := true), r, PPersist(job));
    t := s.(mem := n);
    u := GatePersisted(t, job, true).(mem := Preflighting(n, r, if job.state.PreflightRetry? then PIdle else PDone));
  }

  lemma {:induction false} OneStep(s: Sys, a: Step, t: Sys) returns (ss: seq<Sys>, acts: seq<Step>)
    requires Next(s, a, t) && a != Life(Crash)
    ensures Run(ss, acts) && ss[0] == s && ss[|acts|] == t && SameProcess(acts, 0, |acts|)
  {
    hide Next;
    ss, acts := [s, t], [a];
  }

  lemma {:induction false} TwoSteps(s: Sys, a: Step, t: Sys, b: Step, u: Sys) returns (ss: seq<Sys>, acts: seq<Step>)
    requires Next(s, a, t) && Next(t, b, u) && a != Life(Crash) && b != Life(Crash)
    ensures Run(ss, acts) && ss[0] == s && ss[|acts|] == u && SameProcess(acts, 0, |acts|)
  {
    hide Next;
    ss, acts := [s, t, u], [a, b];
  }

  lemma {:induction false} LateRefreshWins(s: Sys, r: ReaderId) returns (ss: seq<Sys>, acts: seq<Step>)
    requires s.phase.Running? && r in s.mem.mr && (s.mem.mr[r].MNotify? || s.mem.mr[r].MPersist?)
    requires s.mem.mr[r].job.reader == r && s.mem.mr[r].job.state.Sendable()
    ensures Run(ss, acts) && ss[0] == s && SameProcess(acts, 0, |acts|)
    ensures !InStore(ss[|acts|].db, r)
  {
    var q := s.mem.mr[r];
    if q.MNotify? {
      var t, u := RefreshFinishes(s, r);
      ss, acts := TwoSteps(s, Refresh(r, MetaNotify), t, Refresh(r, MetaPersist(true)), u);
    } else {
      var t := GatePersisted(s, q.job, true).(mem := Refreshing(s.mem, r, MIdle));
      assert MetaStep(s, r, MetaPersist(true), t);
      ss, acts := OneStep(s, Refresh(r, MetaPersist(true)), t);
    }
  }

  lemma {:induction false} LatePreflightWins(s: Sys, r: ReaderId) returns (ss: seq<Sys>, acts: seq<Step>)
    requires s.phase.Running? && r in s.mem.pre && r in s.cfg.creds && (s.mem.pre[r].PNotify? || s.mem.pre[r].PPersist?)
    requires s.mem.pre[r].job.reader == r && s.mem.pre[r].job.state.Sendable()
    ensures Run(ss, acts) && ss[0] == s && SameProcess(acts, 0, |acts|)
    ensures !InStore(ss[|acts|].db, r)
  {
    var p := s.mem.pre[r];
    if p.PNotify? {
      var t, u := PreflightFinishes(s, r);
      ss, acts := TwoSteps(s, Preflight(r, PreNotify), t, Preflight(r, PrePersist(true)), u);
    } else {
      var t := GatePersisted(s, p.job, true).(mem := Preflighting(s.mem, r, PDone));
      assert PreStep(s, r, PrePersist(true), t);
      ss, acts := OneStep(s, Preflight(r, PrePersist(true)), t);
    }
  }

  /** Whatever is in the store now: the opening still to be stored can overwrite it. */
  lemma {:induction false} LatePersistWins(s: Sys, r: ReaderId) returns (ss: seq<Sys>, acts: seq<Step>)
    requires GateInv(s) && s.phase.Running? && OpeningUnstored(s.mem, r)
    ensures Run(ss, acts) && ss[0] == s && SameProcess(acts, 0, |acts|)
    ensures !InStore(ss[|acts|].db, r)
  {
    hide Run;
    assert ReaderOk(r, s.mem.reg[r], s.mem.pre[r], s.mem.mr[r], s.mem.snd);
    if s.mem.mr[r].MNotify? || s.mem.mr[r].MPersist? {
      ss, acts := LateRefreshWins(s, r);
    } else {
      ss, acts := LatePreflightWins(s, r);
    }
  }

  /** A suspension that is in memory and in the store stays in the store for the whole process run
      exactly when no preflight or refresh still has to store an opening it made earlier. */
  lemma {:induction false} StoredSuspensionExact(s: Sys, r: ReaderId)
    requires GateInv(s) && s.phase.Running? && InMemory(s.mem, r) && InStore(s.db, r)
    ensures (forall ss: seq<Sys>, acts: seq<Step> ::
               Run(ss, acts) && ss[0] == s && SameProcess(acts, 0, |acts|) ==> InStore(ss[|acts|].db, r))
            <==> !OpeningUnstored(s.mem, r)
  {
    if OpeningUnstored(s.mem, r) {
      var ss, acts := LatePersistWins(s, r);
    } else {
      forall ss: seq<Sys>, acts: seq<Step> | Run(ss, acts) && ss[0] == s && SameProcess(acts, 0, |acts|)
        ensures InStore(ss[|acts|].db, r)
      {
        RestAlong(ss, acts, |acts|, r);
      }
    }
  }
}
