// When a stored suspension survives everything but a resume and a lift: the exact condition, over all
// continuations with crashes and restarts.
module Survival {
  import opened Domain
  import opened Classifier
  import opened Gates
  import opened Pipeline
  import opened Runs
  import opened QueueSafety
  import opened GateSafety
  import opened Restarts
  import opened Rebind
  import opened Delivery

  /** Preflight has a verdict that suspends the reader and has not written it yet. */
  ghost predicate Doomed(s: Sys, r: ReaderId) {
    && r in s.mem.reg && r in s.mem.pre && r in s.cfg.creds
    && match s.mem.pre[r]
       case PReplied(now, reply) =>
         PreflightJob(r, now, reply, Lookup(s.mem.reg, r), s.cfg.creds[r].fingerprint).state.Suspended()
       case PDecided(job) => job.state.Suspended()
       case _ => false
  }

  /** The process, if the reader is restored in it, has it suspended with no opening still to be stored, or
      is bound to suspend it. */
  ghost predicate Safe(s: Sys, r: ReaderId) {
    r in s.mem.reg ==> (InMemory(s.mem, r) && !OpeningUnstored(s.mem, r)) || Doomed(s, r)
  }

  ghost predicate Kept(s: Sys, r: ReaderId) {
    InStore(s.db, r) && Safe(s, r)
  }

  // ---- Safe states stay safe ----

  /** The reader's own state is untouched, or the sender has just suspended it. */
  lemma {:induction false} KeptBeside(s: Sys, t: Sys, r: ReaderId)
    requires Kept(s, r) && t.cfg == s.cfg && InStore(t.db, r)
    requires SameReader(s.mem, t.mem, r) && (r in s.mem.mr <==> r in t.mem.mr) && (r in s.mem.mr ==> t.mem.mr[r] == s.mem.mr[r])
    ensures Kept(t, r)
  {
    hide PreflightJob;
  }

  /** What the sender stores is a suspension. */
  lemma {:induction false} SenderStores(s: Sys, t: Sys, r: ReaderId)
    requires SenderJobOk(s.mem.snd) && InStore(s.db, r)
    requires t.db.gates == s.db.gates || (s.mem.snd.SPersist? && t.db.gates == Persisted(s.db, s.mem.snd.job).gates)
    ensures InStore(t.db, r)
  {
  }

  /** A reader that was sendable: suspended in memory, and the sender can only suspend it again. */
  lemma {:induction false} KeptWarm(s: Sys, t: Sys, r: ReaderId)
    requires Kept(s, r) && r in s.mem.reg && r in s.mem.pre && Warm(s.mem.reg[r].state) && SenderJobOk(s.mem.snd)
    requires Opened(s.mem.pre[r]) && SenderMoves(s.mem, t.mem)
    requires t.db.gates == s.db.gates || (s.mem.snd.SPersist? && t.db.gates == Persisted(s.db, s.mem.snd.job).gates)
    ensures Kept(t, r)
  {
    SenderStores(s, t, r);
    hide PreflightJob, Engaged, Persisted;
  }

  /** A step of the sender. */
  lemma {:induction false} KeptBySender(s: Sys, t: Sys, r: ReaderId)
    requires MemoryOk(s.mem, s.cfg.creds) && Kept(s, r) && SenderMoves(s.mem, t.mem) && t.cfg == s.cfg
    requires t.db.gates == s.db.gates || (s.mem.snd.SPersist? && t.db.gates == Persisted(s.db, s.mem.snd.job).gates)
    ensures Kept(t, r)
  {
    if r !in s.mem.reg {
      SenderStores(s, t, r);
    } else if Warm(s.mem.reg[r].state) {
      assert ReaderOk(r, s.mem.reg[r], s.mem.pre[r], s.mem.mr[r], s.mem.snd);
      KeptWarm(s, t, r);
    } else {
      SenderSpares(s.mem, t.mem, s.cfg.creds, r);
      SenderStores(s, t, r);
      hide MemoryOk;
      KeptBeside(s, t, r);
    }
  }

  lemma {:induction false} OwnRead(s: Sys, t: Sys, r: ReaderId)
    requires Kept(s, r) && PreStep(s, r, PreRead, t) && r in s.mem.reg && !InMemory(s.mem, r)
    ensures Kept(t, r)
  {
    hide PreflightJob;
  }

  lemma {:induction false} OwnWrite(s: Sys, t: Sys, r: ReaderId)
    requires Kept(s, r) && PreStep(s, r, PreWrite, t) && r in s.mem.reg && !InMemory(s.mem, r)
    requires s.mem.pre[r].job.reader == r && r in s.mem.mr && s.mem.mr[r].MIdle?
    ensures Kept(t, r)
  {
    hide PreflightJob;
  }

  lemma {:induction false} OwnNotify(s: Sys, t: Sys, r: ReaderId)
    requires Kept(s, r) && PreStep(s, r, PreNotify, t)
    ensures Kept(t, r)
  {
    hide PreflightJob;
  }

  lemma {:induction false} OwnPersist(s: Sys, ok: bool, t: Sys, r: ReaderId)
    requires Kept(s, r) && PreStep(s, r, PrePersist(ok), t) && r in s.mem.reg
    requires s.mem.pre[r].job.reader == r && s.mem.pre[r].job.state.Suspended()
    ensures Kept(t, r)
  {
    hide PreflightJob;
  }

  /** Preflight of the reader itself. */
  lemma {:induction false} KeptByOwnPre(s: Sys, a: PreAct, t: Sys, r: ReaderId)
    requires MemoryOk(s.mem, s.cfg.creds) && Kept(s, r) && PreStep(s, r, a, t)
    ensures Kept(t, r)
  {
    assert ReaderOk(r, s.mem.reg[r], s.mem.pre[r], s.mem.mr[r], s.mem.snd);
    hide MemoryOk, Engaged;
    match a
    case PreRead => OwnRead(s, t, r);
    case PreWrite => OwnWrite(s, t, r);
    case PreNotify => OwnNotify(s, t, r);
    case PrePersist(ok) => OwnPersist(s, ok, t, r);
    case _ => hide PreflightJob;
  }

  /** A refresh of a reader that is not sendable writes nothing. */
  lemma {:induction false} RefreshIdles(s: Sys, r: ReaderId, a: MetaAct, t: Sys)
    requires MetaStep(s, r, a, t) && r in s.mem.reg && !s.mem.reg[r].state.Sendable()
    requires !s.mem.mr[r].MNotify? && !s.mem.mr[r].MPersist?
    ensures t.mem.reg == s.mem.reg && t.db == s.db && r in t.mem.mr && !t.mem.mr[r].MNotify? && !t.mem.mr[r].MPersist?
  {
    hide RefreshJob, Written;
  }

  lemma {:induction false} KeptByOwnMeta(s: Sys, a: MetaAct, t: Sys, r: ReaderId)
    requires MemoryOk(s.mem, s.cfg.creds) && Kept(s, r) && MetaStep(s, r, a, t)
    ensures Kept(t, r)
  {
    assert ReaderOk(r, s.mem.reg[r], s.mem.pre[r], s.mem.mr[r], s.mem.snd);
    RefreshNeedsSendable(s, r, a, t);
    hide MemoryOk, Engaged, PreflightJob;
    RefreshIdles(s, r, a, t);
    RefreshKeepsPre(s, r, a, t);
    RefreshKeepsRows(s, r, a, t);
    hide MetaStep;
  }

  lemma {:induction false} KeptByPre(s: Sys, q: ReaderId, a: PreAct, t: Sys, r: ReaderId)
    requires MemoryOk(s.mem, s.cfg.creds) && Kept(s, r) && PreStep(s, q, a, t)
    ensures Kept(t, r)
  {
    if q == r {
      KeptByOwnPre(s, a, t, r);
    } else {
      PreBeside(s, q, a, t, r);
      PreflightKeepsRows(s, q, a, t);
      hide PreStep, Safe;
      if r in s.mem.reg {
        LocalSpares(s.mem, t.mem, s.cfg.creds, q, r);
        KeptLocally(s, t, q, r);
      } else {
        KeptAbsent(s, t, q, r);
      }
    }
  }

  lemma {:induction false} KeptLocally(s: Sys, t: Sys, q: ReaderId, r: ReaderId)
    requires Kept(s, r) && q != r && t.cfg == s.cfg && Local(s.mem, t.mem, q) && SameReader(s.mem, t.mem, r)
    requires Lookup(t.db.gates, r) == Lookup(s.db.gates, r)
    ensures Kept(t, r)
  {
    KeptBeside(s, t, r);
  }

  lemma {:induction false} KeptByMeta(s: Sys, q: ReaderId, a: MetaAct, t: Sys, r: ReaderId)
    requires MemoryOk(s.mem, s.cfg.creds) && Kept(s, r) && MetaStep(s, q, a, t)
    ensures Kept(t, r)
  {
    if q == r {
      KeptByOwnMeta(s, a, t, r);
    } else {
      MetaBeside(s, q, a, t, r);
      RefreshKeepsRows(s, q, a, t);
      hide MetaStep, Safe;
      if r in s.mem.reg {
        LocalSpares(s.mem, t.mem, s.cfg.creds, q, r);
        KeptLocally(s, t, q, r);
      } else {
        KeptAbsent(s, t, q, r);
      }
    }
  }

  lemma {:induction false} KeptByLife(s: Sys, a: LifeAct, t: Sys, r: ReaderId)
    requires GateInv(s) && Kept(s, r) && LifeStep(s, a, t) && Respects(s, Life(a), r)
    ensures Kept(t, r)
  {
    match a
    case Crash =>
    case Boot(cfg) =>
    case Restore(q, now, fault) => KeptByRestore(s, q, now, fault, t, r);
    case Launch => KeptByLaunch(s, t, r);
    case ResumeSet(q, now) =>
    case _ =>
      LifeKeepsMemory(s, a, t);
      KeptQuietly(s, t, r);
  }

  lemma {:induction false} KeptByRestore(s: Sys, q: ReaderId, now: Millis, fault: Fault, t: Sys, r: ReaderId)
    requires GateInv(s) && Kept(s, r) && LifeStep(s, Restore(q, now, fault), t)
    requires Respects(s, Life(Restore(q, now, fault)), r)
    ensures Kept(t, r)
  {
    if q == r {
      RestoreLiftsIff(s, now, fault, t, r);
      RespectsNoLift(s, now, fault, r);
    }
  }

  lemma {:induction false} RespectsNoLift(s: Sys, now: Millis, fault: Fault, r: ReaderId)
    requires Respects(s, Life(Restore(r, now, fault)), r) && r in s.cfg.creds
    ensures !Lifts(s.db, r, s.cfg.creds[r].fingerprint, fault)
  {
  }

  lemma {:induction false} KeptByLaunch(s: Sys, t: Sys, r: ReaderId)
    requires GateInv(s) && Kept(s, r) && LifeStep(s, Launch, t)
    ensures Kept(t, r)
  {
  }

  lemma {:induction false} KeptQuietly(s: Sys, t: Sys, r: ReaderId)
    requires Kept(s, r) && t.cfg == s.cfg && t.db.gates == s.db.gates
    requires t.mem.reg == s.mem.reg && t.mem.pre == s.mem.pre && t.mem.mr == s.mem.mr
    ensures Kept(t, r)
  {
    hide PreflightJob;
  }

  lemma {:induction false} KeptStep(s: Sys, a: Step, t: Sys, r: ReaderId)
    requires GateInv(s) && Kept(s, r) && Next(s, a, t) && Respects(s, a, r)
    ensures Kept(t, r)
  {
    hide PollStep, DeliverStep, CloseStep, PreStep, MetaStep, AdmitStep, LifeStep, MemoryOk, SenderMoves, Safe;
    match a
    case Poll(x) => SenderActs(s, a, t); PollKeepsRows(s, x, t); KeptBySender(s, t, r);
    case Deliver(x) => SenderActs(s, a, t); PhaseFixed(s, a, t); DeliverKeepsGates(s, x, t); KeptBySender(s, t, r);
    case Close(x) => SenderActs(s, a, t); CloseKeepsRows(s, x, t); ClosePersists(s, x, t); KeptBySender(s, t, r);
    case Preflight(q, x) => KeptByPre(s, q, x, t, r);
    case Refresh(q, x) => KeptByMeta(s, q, x, t, r);
    case Admit(q, x) => AdmitKeepsGates(s, q, x, t); KeptQuietly(s, t, r);
    case Life(x) => KeptByLife(s, x, t, r);
    case Server(x) => KeptQuietly(s, t, r);
  }

  /** A reader the process does not know: its gate row is not written either. */
  lemma {:induction false} KeptAbsent(s: Sys, t: Sys, q: ReaderId, r: ReaderId)
    requires Kept(s, r) && r !in s.mem.reg && Local(s.mem, t.mem, q) && Lookup(t.db.gates, r) == Lookup(s.db.gates, r)
    ensures Kept(t, r)
  {
  }

  lemma {:induction false} KeptAlong(ss: seq<Sys>, acts: seq<Step>, s: Sys, t: Sys, n: nat, r: ReaderId)
    requires Path(ss, acts, s, Lifting(r), t) && n < |ss| && GateInv(s) && Kept(s, r)
    ensures GateInv(ss[n]) && Kept(ss[n], r)
  {
    hide Next, GateInv, Kept, Respects;
    if n > 0 {
      KeptAlong(ss, acts, s, t, n - 1, r);
      assert Next(ss[n - 1], acts[n - 1], ss[n]);
      assert !Banned(Lifting(r), ss[n - 1], acts[n - 1]);
      GatesKept(ss[n - 1], acts[n - 1], ss[n]);
      KeptStep(ss[n - 1], acts[n - 1], ss[n], r);
    }
  }

  lemma {:induction false} KeptReaches(s: Sys, t: Sys, r: ReaderId)
    requires GateInv(s) && Kept(s, r) && Reaches(s, Lifting(r), t)
    ensures Kept(t, r)
  {
    hide GateInv, Kept, Next;
    var ss, acts :| Path(ss, acts, s, Lifting(r), t);
    KeptAlong(ss, acts, s, t, |acts|, r);
  }

  // ---- Every other state can lose the suspension ----

  /** Some continuation without a resume or a lift of `r` ends with the store not suspended. */
  ghost predicate Loses(s: Sys, r: ReaderId) {
    exists t: Sys :: Reaches(s, Lifting(r), t) && !InStore(t.db, r)
  }

  lemma {:induction false} LostNow(s: Sys, r: ReaderId)
    requires !InStore(s.db, r)
    ensures Loses(s, r)
  {
    Stay(s, Lifting(r));
  }

  lemma {:induction false} LosesFirst(s: Sys, a: Step, t: Sys, r: ReaderId)
    requires Next(s, a, t) && Respects(s, a, r) && Loses(t, r)
    ensures Loses(s, r)
  {
    hide Next, Reaches, InStore;
    var u :| Reaches(t, Lifting(r), u) && !InStore(u.db, r);
    Step1(s, Lifting(r), a, t);
    Join(s, Lifting(r), t, u);
  }

  /** Preflight steps are no resume and no lift. */
  lemma {:induction false} PreLoses(s: Sys, r: ReaderId, a: PreAct, t: Sys)
    requires s.phase.Running? && PreStep(s, r, a, t) && Loses(t, r)
    ensures Loses(s, r)
  {
    hide Loses;
    LosesFirst(s, Preflight(r, a), t, r);
  }

  lemma {:induction false} MetaLoses(s: Sys, r: ReaderId, a: MetaAct, t: Sys)
    requires s.phase.Running? && MetaStep(s, r, a, t) && Loses(t, r)
    ensures Loses(s, r)
  {
    hide Loses;
    LosesFirst(s, Refresh(r, a), t, r);
  }

  ghost predicate At(s: Sys, r: ReaderId) {
    s.phase.Running? && r in s.cfg.creds && r in s.mem.reg && r in s.mem.pre && r in s.mem.mr
  }

  /** A gate write of preflight that does not suspend is still to be stored. */
  lemma {:induction false} LosesByWrite(s: Sys, r: ReaderId, job: Job)
    requires At(s, r) && job.reader == r && !job.state.Suspended()
    requires s.mem.pre[r] == PNotify(job) || s.mem.pre[r] == PPersist(job)
    ensures Loses(s, r)
  {
    hide Loses;
    var u := s;
    if s.mem.pre[r].PNotify? {
      u := s.(mem := Preflighting(s.mem.(changed := true), r, PPersist(job)));
    }
    var v := GatePersisted(u, job, true).(mem := Preflighting(u.mem, r, if job.state.PreflightRetry? then PIdle else PDone));
    LostNow(v, r);
    assert PreStep(u, r, PrePersist(true), v);
    PreLoses(u, r, PrePersist(true), v);
    if s.mem.pre[r].PNotify? {
      assert PreStep(s, r, PreNotify, u);
      PreLoses(s, r, PreNotify, u);
    }
  }

  lemma {:induction false} LosesByDecision(s: Sys, r: ReaderId, job: Job)
    requires At(s, r) && job.reader == r && !job.state.Suspended() && s.mem.pre[r] == PDecided(job)
    ensures Loses(s, r)
  {
    hide Loses;
    var t := s.(mem := Preflighting(GateWritten(s.mem, job), r, PNotify(job)));
    LosesByWrite(t, r, job);
    assert PreStep(s, r, PreWrite, t);
    PreLoses(s, r, PreWrite, t);
  }

  lemma {:induction false} LosesByReply(s: Sys, r: ReaderId, now: Millis, reply: PreflightReply)
    requires At(s, r) && s.mem.pre[r] == PReplied(now, reply)
    requires !PreflightJob(r, now, reply, Lookup(s.mem.reg, r), s.cfg.creds[r].fingerprint).state.Suspended()
    ensures Loses(s, r)
  {
    var job := PreflightJob(r, now, reply, Lookup(s.mem.reg, r), s.cfg.creds[r].fingerprint);
    assert job.reader == r;
    hide Loses, PreflightJob;
    var t := s.(mem := Preflighting(s.mem, r, PDecided(job)));
    LosesByDecision(t, r, job);
    assert PreStep(s, r, PreRead, t);
    PreLoses(s, r, PreRead, t);
  }

  /** Preflight has not had its reply: an unreachable server makes it store PREFLIGHT_RETRY. */
  lemma {:induction false} LosesByRetry(s: Sys, r: ReaderId)
    requires At(s, r) && (s.mem.pre[r].PIdle? || s.mem.pre[r].PFlight?)
    ensures Loses(s, r)
  {
    hide Loses;
    var u := s;
    if s.mem.pre[r].PIdle? {
      u := s.(mem := Preflighting(s.mem, r, PFlight(0)));
    }
    var reply := PreflightReply(true, false, 0, None);
    var v := u.(mem := Preflighting(u.mem, r, PReplied(u.mem.pre[r].now, reply)));
    LosesByReply(v, r, u.mem.pre[r].now, reply);
    assert PreStep(u, r, PreReceive(reply), v);
    PreLoses(u, r, PreReceive(reply), v);
    if s.mem.pre[r].PIdle? {
      assert PreStep(s, r, PreSend(0), u);
      PreLoses(s, r, PreSend(0), u);
    }
  }

  lemma {:induction false} LosesByRefreshWrite(s: Sys, r: ReaderId, job: Job)
    requires At(s, r) && job.reader == r && !job.state.Suspended()
    requires s.mem.mr[r] == MNotify(job) || s.mem.mr[r] == MPersist(job)
    ensures Loses(s, r)
  {
    hide Loses;
    var u := s;
    if s.mem.mr[r].MNotify? {
      u := s.(mem := Refreshing(s.mem.(changed := true), r, MPersist(job)));
    }
    var v := GatePersisted(u, job, true).(mem := Refreshing(u.mem, r, MIdle));
    LostNow(v, r);
    assert MetaStep(u, r, MetaPersist(true), v);
    MetaLoses(u, r, MetaPersist(true), v);
    if s.mem.mr[r].MNotify? {
      assert MetaStep(s, r, MetaNotify, u);
      MetaLoses(s, r, MetaNotify, u);
    }
  }

  lemma {:induction false} LosesByApplying(s: Sys, r: ReaderId, meta: GateMeta)
    requires At(s, r) && s.mem.mr[r] == MReplied(meta) && RefreshApplies(Lookup(s.mem.reg, r), meta)
    ensures Loses(s, r)
  {
    hide Loses;
    var job := RefreshJob(r, 0, meta, s.mem.reg[r]);
    var t := s.(mem := Refreshing(GateWritten(s.mem, job), r, MNotify(job)));
    LosesByRefreshWrite(t, r, job);
    assert MetaStep(s, r, MetaWrite(0), t);
    MetaLoses(s, r, MetaWrite(0), t);
  }

  /** A sendable reader whose refresh is idle or waiting: new data make it store ACTIVE. */
  lemma {:induction false} LosesByRefresh(s: Sys, r: ReaderId)
    requires At(s, r) && s.mem.reg[r].state.Sendable() && (s.mem.mr[r].MIdle? || s.mem.mr[r].MFlight?)
    ensures Loses(s, r)
  {
    hide Loses;
    var u := s;
    if s.mem.mr[r].MIdle? {
      u := s.(mem := Refreshing(s.mem, r, MFlight));
    }
    var meta := GateMeta("e", "", "", s.mem.reg[r].meta.cooldownSec + 1);
    var reply := PreflightReply(false, false, 200, Some(meta));
    var v := u.(mem := Refreshing(u.mem, r, MReplied(meta)));
    LosesByApplying(v, r, meta);
    assert MetaStep(u, r, MetaReceive(reply), v);
    MetaLoses(u, r, MetaReceive(reply), v);
    if s.mem.mr[r].MIdle? {
      assert MetaStep(s, r, MetaCheck, u);
      MetaLoses(s, r, MetaCheck, u);
    }
  }

  lemma {:induction false} LosesWhenSendable(s: Sys, r: ReaderId)
    requires At(s, r) && MemoryOk(s.mem, s.cfg.creds) && s.mem.reg[r].state.Sendable()
    ensures Loses(s, r)
  {
    hide Loses;
    assert ReaderOk(r, s.mem.reg[r], s.mem.pre[r], s.mem.mr[r], s.mem.snd);
    match s.mem.mr[r]
    case MIdle => LosesByRefresh(s, r);
    case MFlight => LosesByRefresh(s, r);
    case MNotify(job) => LosesByRefreshWrite(s, r, job);
    case MPersist(job) => LosesByRefreshWrite(s, r, job);
    case MReplied(meta) =>
      if RefreshApplies(Lookup(s.mem.reg, r), meta) {
        LosesByApplying(s, r, meta);
      } else {
        var t := s.(mem := Refreshing(s.mem, r, MIdle));
        LosesByRefresh(t, r);
        assert MetaStep(s, r, MetaWrite(0), t);
        MetaLoses(s, r, MetaWrite(0), t);
      }
  }

  lemma {:induction false} LosesWhenUnverified(s: Sys, r: ReaderId)
    requires At(s, r) && MemoryOk(s.mem, s.cfg.creds) && Unverified(s.mem.reg[r].state) && !Doomed(s, r)
    ensures Loses(s, r)
  {
    hide Loses, PreflightJob;
    assert ReaderOk(r, s.mem.reg[r], s.mem.pre[r], s.mem.mr[r], s.mem.snd);
    match s.mem.pre[r]
    case PIdle => LosesByRetry(s, r);
    case PFlight(_) => LosesByRetry(s, r);
    case PReplied(now, reply) => LosesByReply(s, r, now, reply);
    case PDecided(job) => LosesByDecision(s, r, job);
    case PNotify(job) => LosesByWrite(s, r, job);
    case PPersist(job) => LosesByWrite(s, r, job);
    case PDone =>
  }

  lemma {:induction false} LosesRunning(s: Sys, r: ReaderId)
    requires GateInv(s) && s.phase.Running? && r in s.mem.reg && !Safe(s, r)
    ensures Loses(s, r)
  {
    hide Loses, PreflightJob;
    assert ReaderOk(r, s.mem.reg[r], s.mem.pre[r], s.mem.mr[r], s.mem.snd);
    if s.mem.reg[r].state.Sendable() {
      LosesWhenSendable(s, r);
    } else if Unverified(s.mem.reg[r].state) {
      LosesWhenUnverified(s, r);
    } else if s.mem.mr[r].MNotify? || s.mem.mr[r].MPersist? {
      LosesByRefreshWrite(s, r, s.mem.mr[r].job);
    } else {
      LosesByWrite(s, r, s.mem.pre[r].job);
    }
  }

  /** A start that has the reader open restores the others, launches, and preflights it. */
  lemma {:induction false} LosesBooting(s: Sys, r: ReaderId)
    requires GateInv(s) && s.phase.Booting? && r in s.mem.reg && !InMemory(s.mem, r)
    ensures Loses(s, r)
    decreases s.cfg.creds.Keys - s.mem.reg.Keys
  {
    hide Loses;
    var left := s.cfg.creds.Keys - s.mem.reg.Keys;
    if left == {} {
      var t := s.(phase := Running, mem := Launched(s.mem));
      forall q | q in s.cfg.creds ensures q in s.mem.reg {
        assert q !in left;
      }
      assert s.mem.reg.Keys == s.cfg.creds.Keys;
      assert LifeStep(s, Launch, t);
      LosesByRetry(t, r);
      LosesFirst(s, Life(Launch), t, r);
    } else {
      var q :| q in left;
      var t := RestoreOther(s, q, r);
      LosesBooting(t, r);
      LosesFirst(s, Life(Restore(q, 0, NoFault)), t, r);
    }
  }

  lemma {:induction false} RestoreOther(s: Sys, q: ReaderId, r: ReaderId) returns (t: Sys)
    requires GateInv(s) && s.phase.Booting? && r in s.mem.reg && !InMemory(s.mem, r)
    requires q in s.cfg.creds && q !in s.mem.reg
    ensures Next(s, Life(Restore(q, 0, NoFault)), t) && Respects(s, Life(Restore(q, 0, NoFault)), r)
    ensures GateInv(t) && t.phase.Booting? && t.cfg == s.cfg && t.mem.reg.Keys == s.mem.reg.Keys + {q}
    ensures r in t.mem.reg && !InMemory(t.mem, r)
  {
    var fingerprint := s.cfg.creds[q].fingerprint;
    t := s.(db := RestoredDb(s.db, q, fingerprint, 0, NoFault),
            mem := s.mem.(reg := s.mem.reg[q := RestoredEntry(s.db, q, fingerprint, NoFault)]));
    assert LifeStep(s, Restore(q, 0, NoFault), t);
    GatesKeptByLife(s, Restore(q, 0, NoFault), t);
  }

  lemma {:induction false} UnsafeLoses(s: Sys, r: ReaderId)
    requires GateInv(s) && !Safe(s, r)
    ensures Loses(s, r)
  {
    hide Loses;
    match s.phase
    case Down =>
    case Booting => LosesBooting(s, r);
    case Running => LosesRunning(s, r);
  }

  /** For every reachable state with a stored suspension of any kind: it stays stored through every
      continuation with crashes and restarts, but for a resume or a lift of the reader, if and only if the
      process at hand, when it has the reader at all, has it suspended with no opening still to be stored,
      or already holds a preflight verdict that suspends it. */
  lemma {:induction false} SuspensionSurvivesIff(s: Sys, r: ReaderId)
    requires Reachable(s) && InStore(s.db, r)
    ensures (forall t: Sys :: Reaches(s, Lifting(r), t) ==> InStore(t.db, r)) <==> Safe(s, r)
  {
    hide Safe, GateInv, Reaches, Reachable;
    ReachableGates(s);
    if Safe(s, r) {
      forall t: Sys | Reaches(s, Lifting(r), t) ensures InStore(t.db, r) {
        KeptReaches(s, t, r);
      }
    } else {
      UnsafeLoses(s, r);
    }
  }

  // ---- A firm stop silences the reader ----

  lemma {:induction false} FirmNoPost(s: Sys, a: Step, t: Sys, r: ReaderId)
    requires GateInv(s) && StopHeld(s, r, true) && Stopped(s.db, r, true) && Next(s, a, t)
    ensures s.world.net <= t.world.net && forall k :: |s.world.net| <= k < |t.world.net| ==> t.world.net[k].reader != r
  {
    hide GateInv, StopHeld, Next;
    OnlyPostSends(s, a, t);
    if a == Deliver(Post) {
      PostOfOther(s, t, r);
    }
  }

  /** The row a POST is made of belongs to a reader the sender has in hand. */
  lemma {:induction false} PostOfOther(s: Sys, t: Sys, r: ReaderId)
    requires GateInv(s) && StopHeld(s, r, true) && Stopped(s.db, r, true) && Next(s, Deliver(Post), t)
    ensures s.world.net <= t.world.net && forall k :: |s.world.net| <= k < |t.world.net| ==> t.world.net[k].reader != r
  {
    var row := s.mem.snd.row;
    assert Engaged(s.mem.snd, row.reader);
    assert t.world.net == s.world.net + [RequestOf(row, s.cfg.creds[row.reader].token)];
  }

  /** While SUSPENDED_REBIND or SUSPENDED_CONFIG is stored, from any point of any run on and through any
      crashes and restarts until a resume, not one row of the reader is POSTed. */
  lemma {:induction false} FirmStopSilent(ss: seq<Sys>, acts: seq<Step>, i: nat, j: nat, r: ReaderId)
    requires FullRun(ss, acts) && i <= j < |ss| && NotResumed(acts, i, j, r) && Stopped(ss[i].db, r, true)
    ensures ss[i].world.net <= ss[j].world.net
    ensures forall k :: |ss[i].world.net| <= k < |ss[j].world.net| ==> ss[j].world.net[k].reader != r
    decreases j - i
  {
    hide Next, Init, GateInv, StopHeld;
    if i < j {
      FirmStopSilent(ss, acts, i, j - 1, r);
      FirmStopSurvives(ss, acts, i, j - 1, r);
      FirmAlways(ss, acts, j - 1, r);
      GatesAlways(ss, acts, j - 1);
      assert Next(ss[j - 1], acts[j - 1], ss[j]);
      FirmNoPost(ss[j - 1], acts[j - 1], ss[j], r);
    }
  }
}
