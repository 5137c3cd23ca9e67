// No lost wake-up: while the sender sleeps, every row it should send before its timer expires is
// announced by a buffered signal, or its announcer is between the commit and the signal.
module Wakeups {
  import opened Domain
  import opened Classifier
  import opened Tables
  import opened Gates
  import opened Pipeline
  import opened QueueSafety
  import opened GateSafety

  /** A token is buffered, or some actor has committed and not yet signalled. */
  ghost predicate Signal(m: Memory) {
    || m.wake
    || m.changed
    || (exists r :: r in m.adm && m.adm[r].ACommitted?)
    || (exists r :: r in m.pre && m.pre[r].PNotify?)
    || (exists r :: r in m.mr && m.mr[r].MNotify?)
  }

  /** No row of a sendable reader is due before `limit`. */
  ghost predicate NothingBefore(queue: map<nat, Row>, reg: map<ReaderId, Entry>, limit: Millis) {
    forall id :: id in queue && queue[id].reader in reg && reg[queue[id].reader].state.Sendable() ==>
      limit <= queue[id].nextMs
  }

  ghost predicate AllKnown(reg: map<ReaderId, Entry>, readers: set<ReaderId>) {
    forall r :: r in reg && reg[r].state.Sendable() ==> r in readers
  }

  /** What the sender has already ruled out at each point between polling and sleeping. */
  ghost predicate Covered(queue: map<nat, Row>, reg: map<ReaderId, Entry>, pc: SenderPc) {
    match pc
    case SGates(now, readers) => AllKnown(reg, readers)
    case SIdle(now) => NothingBefore(queue, reg, now + 1)
    case SIdleGates(now, readers) => NothingBefore(queue, reg, now + 1) && AllKnown(reg, readers)
    case SBlocked(Timed(deadline, lag)) => NothingBefore(queue, reg, deadline - lag)
    case _ => true
  }

  ghost predicate WakeInv(s: Sys) {
    Covered(s.db.queue, s.mem.reg, s.mem.snd) || Signal(s.mem)
  }

  lemma {:induction false} WakeKeptByPoll(s: Sys, a: PollAct, t: Sys)
    requires Tables.Valid(s.db) && WakeInv(s) && PollStep(s, a, t)
    ensures WakeInv(t)
  {
    match a
    case Pick =>
      if NextDue(s.db, s.mem.snd.now, s.mem.snd.readers).None? {
        assert forall id :: id in s.db.queue ==> id !in DueIds(s.db, s.mem.snd.now, s.mem.snd.readers);
      }
    case Arm(due, at) =>
      assert forall id :: id in s.db.queue && s.db.queue[id].reader in s.mem.snd.readers ==>
          id in ReaderIds(s.db, s.mem.snd.readers);
    case _ =>
  }

  lemma {:induction false} WakeKeptByDeliver(s: Sys, a: DeliverAct, t: Sys)
    requires DeliverStep(s, a, t)
    ensures WakeInv(t)
  {
    if a.Settle? {
      var pc := s.mem.snd;
      SettledCovers(s, pc.now, pc.row, s.world.net[pc.request].token, Decide(pc.reply), a.ok);
    }
  }

  lemma {:induction false} SettledCovers(s: Sys, now: Millis, row: Row, token: string, d: Decision, ok: bool)
    ensures WakeInv(Settled(s, now, row, token, d, ok))
  {
  }

  lemma {:induction false} WakeKeptByClose(s: Sys, a: CloseAct, t: Sys)
    requires CloseStep(s, a, t)
    ensures WakeInv(t)
  {
  }

  /** A pending announcement is passed on until it is a buffered signal. */
  lemma {:induction false} SignalStays(m: Memory, n: Memory)
    requires (m.wake ==> n.wake) && (m.changed ==> n.changed)
    requires forall r :: r in m.adm && m.adm[r].ACommitted? ==> n.wake || (r in n.adm && n.adm[r].ACommitted?)
    requires forall r :: r in m.pre && m.pre[r].PNotify? ==> n.changed || (r in n.pre && n.pre[r].PNotify?)
    requires forall r :: r in m.mr && m.mr[r].MNotify? ==> n.changed || (r in n.mr && n.mr[r].MNotify?)
    ensures Signal(m) ==> Signal(n)
  {
  }

  lemma {:induction false} WakeKeptByPre(s: Sys, r: ReaderId, a: PreAct, t: Sys)
    requires WakeInv(s) && PreStep(s, r, a, t)
    ensures WakeInv(t)
  {
    PreflightKeepsRows(s, r, a, t);
    SignalStays(s.mem, t.mem);
    assert r in t.mem.pre;
  }

  lemma {:induction false} WakeKeptByMeta(s: Sys, r: ReaderId, a: MetaAct, t: Sys)
    requires WakeInv(s) && MetaStep(s, r, a, t)
    ensures WakeInv(t)
  {
    RefreshKeepsRows(s, r, a, t);
    SignalStays(s.mem, t.mem);
    assert r in t.mem.mr;
  }

  lemma {:induction false} WakeKeptByAdmit(s: Sys, r: ReaderId, a: AdmitAct, t: Sys)
    requires WakeInv(s) && AdmitStep(s, r, a, t)
    ensures WakeInv(t)
  {
    SignalStays(s.mem, t.mem);
    assert r in t.mem.adm;
  }

  lemma {:induction false} WakeKeptByLife(s: Sys, a: LifeAct, t: Sys)
    requires GateInv(s) && WakeInv(s) && LifeStep(s, a, t)
    ensures WakeInv(t)
  {
    if s.phase.Running? && !a.Crash? {
      assert t.mem == s.mem && forall id :: id in t.db.queue ==> id in s.db.queue && t.db.queue[id] == s.db.queue[id];
    }
  }

  lemma {:induction false} WakeKept(s: Sys, a: Step, t: Sys)
    requires QueueInv(s) && GateInv(s) && WakeInv(s) && Next(s, a, t)
    ensures WakeInv(t)
  {
    match a
    case Poll(x) => WakeKeptByPoll(s, x, t);
    case Deliver(x) => WakeKeptByDeliver(s, x, t);
    case Close(x) => WakeKeptByClose(s, x, t);
    case Preflight(r, x) => WakeKeptByPre(s, r, x, t);
    case Refresh(r, x) => WakeKeptByMeta(s, r, x, t);
    case Admit(r, x) => WakeKeptByAdmit(s, r, x, t);
    case Life(x) => WakeKeptByLife(s, x, t);
    case Server(x) =>
  }

  lemma {:induction false} WakeAlways(ss: seq<Sys>, acts: seq<Step>, n: nat)
    requires FullRun(ss, acts) && n < |ss|
    ensures WakeInv(ss[n])
  {
    if n > 0 {
      WakeAlways(ss, acts, n - 1);
      QueueAlways(ss, acts, n - 1);
      GatesAlways(ss, acts, n - 1);
      WakeKept(ss[n - 1], acts[n - 1], ss[n]);
    }
  }

  /** A wait after a store fault lasts at most 30 seconds. */
  ghost predicate FaultWaitOk(pc: SenderPc) {
    pc.SBlocked? && pc.wait.AfterFault? ==> pc.wait.start < pc.wait.deadline <= pc.wait.start + MAX_IDLE
  }

  lemma {:induction false} FaultWaitStep(s: Sys, a: Step, t: Sys)
    requires GateInv(s) && FaultWaitOk(s.mem.snd) && Next(s, a, t)
    ensures FaultWaitOk(t.mem.snd)
  {
    hide PollStep, DeliverStep, CloseStep, LifeStep, PreStep, MetaStep, AdmitStep, ServerStep, GateInv;
    match a
    case Poll(x) => FaultWaitByPoll(s, x, t);
    case Deliver(x) => DeliverMemory(s, x, t);
    case Close(x) => CloseNotBlocked(s, x, t);
    case Life(x) => FaultWaitByLife(s, x, t);
    case _ => OthersKeepHalt(s, a, t);
  }

  lemma {:induction false} FaultWaitByPoll(s: Sys, a: PollAct, t: Sys)
    requires PollStep(s, a, t)
    ensures FaultWaitOk(t.mem.snd)
  {
    hide NextDue, IsEarliestDue;
  }

  lemma {:induction false} FaultWaitByLife(s: Sys, a: LifeAct, t: Sys)
    requires LifeStep(s, a, t) && FaultWaitOk(s.mem.snd)
    ensures FaultWaitOk(t.mem.snd)
  {
  }

  /** A settled reply moves the sender and nothing else in memory. */
  lemma {:induction false} SettledMemory(s: Sys, now: Millis, row: Row, token: string, d: Decision, ok: bool)
    ensures Settled(s, now, row, token, d, ok).mem ==
            s.mem.(snd := match d case SuspendReader => SSuspend(now, row.reader) case HaltGlobal => SHalt case _ => STop)
  {
  }

  lemma {:induction false} DeliverMemory(s: Sys, a: DeliverAct, t: Sys)
    requires DeliverStep(s, a, t)
    ensures HeldRow(s.mem.snd).Some? && t.mem.halted == s.mem.halted && !t.mem.snd.SBlocked?
  {
    match a
    case Settle(ok) =>
      var pc := s.mem.snd;
      SettledMemory(s, pc.now, pc.row, s.world.net[pc.request].token, Decide(pc.reply), ok);
      hide Settled, Decide;
    case _ => hide Delete;
  }

  lemma {:induction false} CloseNotBlocked(s: Sys, a: CloseAct, t: Sys)
    requires CloseStep(s, a, t)
    ensures !t.mem.snd.SBlocked?
  {
  }

  lemma {:induction false} FaultWaitAlways(ss: seq<Sys>, acts: seq<Step>, n: nat)
    requires FullRun(ss, acts) && n < |ss|
    ensures FaultWaitOk(ss[n].mem.snd)
  {
    hide Next, GateInv, FaultWaitOk;
    if n > 0 {
      FaultWaitAlways(ss, acts, n - 1);
      GatesAlways(ss, acts, n - 1);
      assert Next(ss[n - 1], acts[n - 1], ss[n]);
      FaultWaitStep(ss[n - 1], acts[n - 1], ss[n]);
    } else {
      FaultWaitStart(ss[0]);
    }
  }

  lemma {:induction false} FaultWaitStart(s: Sys)
    requires Init(s)
    ensures FaultWaitOk(s.mem.snd)
  {
  }

  /** The sender wakes by itself soon enough for a row due at `due`: a timer expires at most its lag after
      the row is due, and a wait after a store fault at most 30 seconds after it began. */
  predicate WakesInTime(wait: Wait, due: Millis) {
    match wait
    case Timed(deadline, lag) => deadline <= due + lag
    case AfterFault(start, deadline) => start < deadline <= start + MAX_IDLE
    case WhileHalted => false
  }

  /** In every reachable state in which the sender sleeps and is not halted, and for every row of a sendable
      reader: a wake-up is buffered or about to be sent, or the sender wakes by itself in time. */
  lemma {:induction false} NoLostWakeup(ss: seq<Sys>, acts: seq<Step>, n: nat, id: nat)
    requires FullRun(ss, acts) && n < |ss|
    requires ss[n].mem.snd.SBlocked? && !ss[n].mem.snd.wait.WhileHalted?
    requires id in ss[n].db.queue && ss[n].db.queue[id].reader in SendableReaders(ss[n].mem.reg)
    ensures Signal(ss[n].mem) || WakesInTime(ss[n].mem.snd.wait, ss[n].db.queue[id].nextMs)
  {
    WakeAlways(ss, acts, n);
    FaultWaitAlways(ss, acts, n);
  }

  /** When a poll at `now` finds nothing for a set of readers, the wait computed for the same set is
      positive, at most 30 seconds, and ends no later than the earliest row. */
  lemma {:induction false} IdleWaitSound(db: Db, now: Millis, readers: set<ReaderId>, due: Option<Millis>)
    requires Tables.Valid(db) && NextDue(db, now, readers).None? && IsEarliestDue(db, readers, due)
    ensures 0 < IdleWait(now, due) <= MAX_IDLE
    ensures forall id :: id in db.queue && db.queue[id].reader in readers ==>
                         now + IdleWait(now, due) <= db.queue[id].nextMs
  {
    forall id | id in db.queue && db.queue[id].reader in readers
      ensures now < db.queue[id].nextMs && due.Some? && due.value <= db.queue[id].nextMs
    {
      assert id in ReaderIds(db, readers) && id !in DueIds(db, now, readers);
    }
  }

  /** The clock reading the sender works with. */
  function ClockOf(pc: SenderPc): Option<Millis> {
    match pc
    case SGates(now, _) => Some(now)
    case SIdle(now) => Some(now)
    case SIdleGates(now, _) => Some(now)
    case SItem(now, _) => Some(now)
    case SFlight(now, _, _) => Some(now)
    case SReply(now, _, _, _) => Some(now)
    case SSuspend(now, _) => Some(now)
    case _ => None
  }

  /** The reading is the one made before the gates were read, and is kept until the row is dealt with; a sleep
      begins while halted, 5 s for a queue read that failed, 30 s for a failed look at the next due time, or
      with a timer for the time until then. */
  ghost predicate ClockAndSleep(s: Sys, a: Step, t: Sys) {
    && (ClockOf(t.mem.snd).Some? ==>
          a == Poll(ReadGates(ClockOf(t.mem.snd).value)) || ClockOf(s.mem.snd) == ClockOf(t.mem.snd))
    && (t.mem.snd.SBlocked? && t.mem.snd != s.mem.snd ==>
          match t.mem.snd.wait
          case WhileHalted => s.mem.halted
          case AfterFault(start, deadline) =>
            (a == Poll(PickFails(start)) && deadline == start + 5_000) || (a == Poll(ArmFails(start)) && deadline == start + 30_000)
          case Timed(deadline, lag) =>
            a.Poll? && a.poll.Arm? && ClockOf(s.mem.snd) == Some(a.poll.at - lag) &&
            deadline == a.poll.at + IdleWait(a.poll.at - lag, a.poll.due))
  }

  lemma {:induction false} PollSleeps(s: Sys, a: PollAct, t: Sys)
    requires PollStep(s, a, t)
    ensures ClockAndSleep(s, Poll(a), t)
  {
  }

  lemma {:induction false} DeliverSleeps(s: Sys, a: DeliverAct, t: Sys)
    requires DeliverStep(s, a, t)
    ensures ClockAndSleep(s, Deliver(a), t)
  {
    DeliverMemory(s, a, t);
    match a
    case Settle(ok) =>
      var pc := s.mem.snd;
      SettledMemory(s, pc.now, pc.row, s.world.net[pc.request].token, Decide(pc.reply), ok);
      hide Settled, Decide;
    case _ => hide Delete;
  }

  lemma {:induction false} CloseSleeps(s: Sys, a: CloseAct, t: Sys)
    requires CloseStep(s, a, t)
    ensures ClockAndSleep(s, Close(a), t)
  {
    hide Written, Persisted;
  }

  lemma {:induction false} NotAsleep(s: Sys, a: Step, t: Sys)
    requires t.mem.snd == s.mem.snd || t.mem.snd == STop
    ensures ClockAndSleep(s, a, t)
  {
  }

  lemma {:induction false} LifeLeavesSender(s: Sys, a: LifeAct, t: Sys)
    requires LifeStep(s, a, t)
    ensures t.mem.snd == s.mem.snd || t.mem.snd == STop
  {
    if !a.SweepExpire? && !a.ResumeDiscard? && !a.Crash? {
      LifeKeepsRows(s, a, t);
    }
    hide Lifts, StaleKeys, ValidConfig;
  }

  lemma {:induction false} SleepExactly(s: Sys, a: Step, t: Sys)
    requires Next(s, a, t)
    ensures ClockAndSleep(s, a, t)
  {
    hide PreStep, MetaStep, AdmitStep, PollStep, DeliverStep, CloseStep, LifeStep, ClockAndSleep;
    match a
    case Poll(x) => PollSleeps(s, x, t);
    case Deliver(x) => DeliverSleeps(s, x, t);
    case Close(x) => CloseSleeps(s, x, t);
    case Preflight(r, x) => PreflightKeepsRows(s, r, x, t); NotAsleep(s, a, t);
    case Refresh(r, x) => RefreshKeepsRows(s, r, x, t); NotAsleep(s, a, t);
    case Admit(r, x) => AdmitChanges(s, r, x, t); NotAsleep(s, a, t);
    case Life(x) => LifeLeavesSender(s, x, t); NotAsleep(s, a, t);
    case Server(x) => NotAsleep(s, a, t);
  }

  // ---- Global halt ----

  /** A halted sender is on its way to sleep, or asleep. */
  ghost predicate HaltInv(m: Memory) {
    m.halted ==> m.snd.SHaltNotify? || m.snd.STop? || m.snd.SBlocked?
  }

  lemma {:induction false} HaltByDeliver(s: Sys, a: DeliverAct, t: Sys)
    requires DeliverStep(s, a, t) && HaltInv(s.mem)
    ensures !s.mem.halted && t.mem.halted == s.mem.halted
  {
    DeliverMemory(s, a, t);
    hide DeliverStep;
  }

  lemma {:induction false} HaltByPoll(s: Sys, a: PollAct, t: Sys)
    requires PollStep(s, a, t) && HaltInv(s.mem)
    ensures t.mem.halted == s.mem.halted && HaltInv(t.mem) && t.world == s.world
  {
  }

  lemma {:induction false} HaltByClose(s: Sys, a: CloseAct, t: Sys)
    requires CloseStep(s, a, t) && HaltInv(s.mem)
    ensures HaltInv(t.mem) && t.world == s.world && (s.mem.halted ==> t.mem.halted)
  {
  }

  /** Preflight, refresh and admission leave the halt flag and the sender alone. */
  lemma {:induction false} OthersKeepHalt(s: Sys, a: Step, t: Sys)
    requires Next(s, a, t) && (a.Preflight? || a.Refresh? || a.Admit? || a.Server?)
    ensures t.mem.halted == s.mem.halted && t.mem.snd == s.mem.snd && t.world.net == s.world.net
  {
    match a
    case Preflight(r, x) => PreflightKeepsRows(s, r, x, t);
    case Refresh(r, x) => RefreshKeepsRows(s, r, x, t);
    case Admit(r, x) => AdmitKeepsGates(s, r, x, t);
    case Server(x) =>
  }

  lemma {:induction false} HaltStep(s: Sys, a: Step, t: Sys)
    requires GateInv(s) && HaltInv(s.mem) && Next(s, a, t)
    ensures HaltInv(t.mem)
    ensures s.mem.halted && a != Life(Crash) ==> t.mem.halted && t.world.net == s.world.net
  {
    match a
    case Poll(x) => HaltByPoll(s, x, t);
    case Deliver(x) => HaltByDeliver(s, x, t);
    case Close(x) => HaltByClose(s, x, t);
    case Life(x) =>
    case _ => OthersKeepHalt(s, a, t);
  }

  lemma {:induction false} HaltAlways(ss: seq<Sys>, acts: seq<Step>, n: nat)
    requires FullRun(ss, acts) && n < |ss|
    ensures HaltInv(ss[n].mem)
  {
    if n > 0 {
      HaltAlways(ss, acts, n - 1);
      GatesAlways(ss, acts, n - 1);
      HaltStep(ss[n - 1], acts[n - 1], ss[n]);
    }
  }

  /** After a global halt not one POST follows in that process run. */
  lemma {:induction false} NoPostAfterHalt(ss: seq<Sys>, acts: seq<Step>, i: nat, j: nat)
    requires FullRun(ss, acts) && i <= j < |ss| && SameProcess(acts, i, j) && ss[i].mem.halted
    ensures ss[j].mem.halted && ss[j].world.net == ss[i].world.net
  {
    if i < j {
      NoPostAfterHalt(ss, acts, i, j - 1);
      HaltAlways(ss, acts, j - 1);
      GatesAlways(ss, acts, j - 1);
      HaltStep(ss[j - 1], acts[j - 1], ss[j]);
    }
  }

  function WithHalt(s: Sys, halted: bool): Sys {
    s.(mem := s.mem.(halted := halted))
  }

  /** Admission does not see the halt: the admission steps possible in a halted state, and what they do,
      are exactly those of the same state without the halt. */
  lemma {:induction false} AdmissionIgnoresHalt(s: Sys, r: ReaderId, a: AdmitAct, t: Sys, halted: bool)
    ensures Next(s, Admit(r, a), t) <==>
            t.mem.halted == s.mem.halted && Next(WithHalt(s, halted), Admit(r, a), WithHalt(t, halted))
  {
    if Next(s, Admit(r, a), t) {
      AdmitHaltFree(s, r, a, t, halted);
    }
    if t.mem.halted == s.mem.halted && Next(WithHalt(s, halted), Admit(r, a), WithHalt(t, halted)) {
      AdmitHaltFree(WithHalt(s, halted), r, a, WithHalt(t, halted), s.mem.halted);
      assert WithHalt(WithHalt(s, halted), s.mem.halted) == s && WithHalt(WithHalt(t, halted), s.mem.halted) == t;
    }
  }

  lemma {:induction false} AdmitHaltFree(s: Sys, r: ReaderId, a: AdmitAct, t: Sys, halted: bool)
    requires AdmitStep(s, r, a, t)
    ensures t.mem.halted == s.mem.halted && AdmitStep(WithHalt(s, halted), r, a, WithHalt(t, halted))
  {
    hide Admitted, Debounced, NewRow;
    match a
    case Arrive(epc, at, checkedAt) =>
    case Commit(ok) =>
    case SignalWake =>
  }
}
