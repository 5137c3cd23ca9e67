// The gate protocol in one process: three concurrent writers per reader, late replies, and a memory write
// that is separate from its persist. Suspension is absorbing in memory.
module GateSafety {
  import opened Domain
  import opened Classifier
  import opened Gates
  import opened Pipeline
  import opened Runs
  import opened QueueSafety

  /** Preflight has made its last memory write. */
  predicate Opened(p: PrePc) {
    p.PDone? || ((p.PNotify? || p.PPersist?) && !p.job.state.PreflightRetry?)
  }

  /** Preflight has not decided yet. */
  predicate Unverified(g: GateState) {
    g.PreflightPending? || g.PreflightRetry?
  }

  /** The sender has the reader in hand. */
  predicate Engaged(pc: SenderPc, r: ReaderId) {
    match pc
    case SGates(_, readers) => r in readers
    case SItem(_, row) => row.reader == r
    case SFlight(_, row, _) => row.reader == r
    case SReply(_, row, _, _) => row.reader == r
    case SSuspend(_, reader) => reader == r
    case SNotify(job) => job.reader == r
    case SPersist(job) => job.reader == r
    case _ => false
  }

  /** Neither sender nor meta refresh has anything under way for the reader. */
  predicate Cold(snd: SenderPc, q: MetaPc, r: ReaderId) {
    !Engaged(snd, r) && q.MIdle?
  }

  /** States a reader can have after it was sendable in this process. */
  predicate Warm(g: GateState) {
    g.Sendable() || g.SuspendedToken?
  }

  /** How the entry, the preflight and the refresher of one reader fit together. */
  ghost predicate ReaderOk(r: ReaderId, e: Entry, p: PrePc, q: MetaPc, snd: SenderPc) {
    && (Opened(p) <==> !Unverified(e.state))
    && (!Warm(e.state) ==> Cold(snd, q, r))
    && (p.PDecided? || p.PNotify? || p.PPersist? ==> p.job.reader == r && !p.job.state.PreflightPending?)
    && (p.PNotify? || p.PPersist? ==>
          (p.job.state.Suspended() ==> e.state == p.job.state && Cold(snd, q, r)))
    && (q.MNotify? || q.MPersist? ==> q.job.reader == r && q.job.state.Sendable())
  }

  /** The sender only ever writes suspensions. */
  ghost predicate SenderJobOk(pc: SenderPc) {
    pc.SNotify? || pc.SPersist? ==> pc.job.state.SuspendedToken? && pc.job.fingerprint == ""
  }

  ghost predicate MemoryOk(m: Memory, creds: map<ReaderId, Credential>) {
    && m.reg.Keys == m.pre.Keys == m.mr.Keys == creds.Keys
    && (forall r :: r in m.reg ==> ReaderOk(r, m.reg[r], m.pre[r], m.mr[r], m.snd))
    && (forall r :: Engaged(m.snd, r) ==> r in m.reg)
    && SenderJobOk(m.snd)
  }

  ghost predicate GateInv(s: Sys) {
    match s.phase
    case Down => s.mem == BLANK
    case Booting =>
      && s.mem == BLANK.(reg := s.mem.reg) && s.mem.reg.Keys <= s.cfg.creds.Keys
      && forall r :: r in s.mem.reg ==> Unverified(s.mem.reg[r].state) || s.mem.reg[r].state.Suspended()
    case Running => MemoryOk(s.mem, s.cfg.creds)
  }

  /** `m` and `n` differ only in what belongs to reader `r`, and in the change signal. */
  ghost predicate Local(m: Memory, n: Memory, r: ReaderId) {
    && r in m.reg && r in n.reg && r in m.pre && r in n.pre && r in m.mr && r in n.mr
    && (n.reg == m.reg || n.reg == m.reg[r := n.reg[r]])
    && (n.pre == m.pre || n.pre == m.pre[r := n.pre[r]])
    && (n.mr == m.mr || n.mr == m.mr[r := n.mr[r]])
    && n.snd == m.snd
  }

  lemma {:induction false} LocalKeeps(m: Memory, n: Memory, r: ReaderId, creds: map<ReaderId, Credential>)
    requires MemoryOk(m, creds) && Local(m, n, r)
    requires ReaderOk(r, n.reg[r], n.pre[r], n.mr[r], n.snd)
    ensures MemoryOk(n, creds)
  {
  }

  lemma {:induction false} PreLocal(s: Sys, r: ReaderId, a: PreAct, t: Sys)
    requires PreStep(s, r, a, t)
    requires r in s.mem.reg && r in s.mem.mr
    requires ReaderOk(r, s.mem.reg[r], s.mem.pre[r], s.mem.mr[r], s.mem.snd)
    ensures Local(s.mem, t.mem, r)
    ensures ReaderOk(r, t.mem.reg[r], t.mem.pre[r], t.mem.mr[r], t.mem.snd)
    ensures s.mem.reg[r].state.Suspended() ==> t.mem.reg == s.mem.reg
  {
    PreShape(s, r, a, t);
    match a
    case PreRead => hide Written;
    case PreWrite =>
    case PrePersist(ok) => hide Persisted, Written;
    case _ => hide Persisted, Written, PreflightJob;
  }

  lemma {:induction false} PreShape(s: Sys, r: ReaderId, a: PreAct, t: Sys)
    requires PreStep(s, r, a, t) && r in s.mem.reg && r in s.mem.mr
    requires s.mem.pre[r].PDecided? ==> s.mem.pre[r].job.reader == r
    ensures Local(s.mem, t.mem, r)
  {
  }

  lemma {:induction false} MetaLocal(s: Sys, r: ReaderId, a: MetaAct, t: Sys)
    requires MetaStep(s, r, a, t)
    requires r in s.mem.reg && r in s.mem.pre
    requires ReaderOk(r, s.mem.reg[r], s.mem.pre[r], s.mem.mr[r], s.mem.snd)
    ensures Local(s.mem, t.mem, r)
    ensures ReaderOk(r, t.mem.reg[r], t.mem.pre[r], t.mem.mr[r], t.mem.snd)
    ensures s.mem.reg[r].state.Suspended() ==> t.mem.reg == s.mem.reg
  {
    MetaShape(s, r, a, t);
    match a
    case MetaWrite(now) => hide Persisted;
    case MetaPersist(ok) => hide Persisted, Written, RefreshJob;
    case _ => hide Persisted, Written, RefreshJob;
  }

  lemma {:induction false} MetaShape(s: Sys, r: ReaderId, a: MetaAct, t: Sys)
    requires MetaStep(s, r, a, t) && r in s.mem.reg && r in s.mem.pre
    ensures Local(s.mem, t.mem, r)
  {
  }

  /** A refresh starts only on a sendable entry. */
  lemma {:induction false} RefreshNeedsSendable(s: Sys, q: ReaderId, a: MetaAct, t: Sys)
    requires MetaStep(s, q, a, t)
    ensures s.mem.mr[q].MIdle? ==> q in s.mem.reg && s.mem.reg[q].state.Sendable()
  {
  }

  /** The sender's only gate write: suspend the reader whose token was refused. */
  function Revoking(reg: map<ReaderId, Entry>, r: ReaderId): map<ReaderId, Entry>
    requires r in reg
  {
    reg[r := reg[r].(state := SuspendedToken, reason := Revoked)]
  }

  predicate Revokes(m: Memory, n: Memory) {
    m.snd.SSuspend? && m.snd.reader in m.reg && n.reg == Revoking(m.reg, m.snd.reader) && Engaged(n.snd, m.snd.reader)
  }

  /** What one sender step may do to the gates: change nothing or revoke, and take in hand only
      readers that are sendable. */
  ghost predicate SenderMoves(m: Memory, n: Memory) {
    && n.pre == m.pre && n.mr == m.mr && SenderJobOk(n.snd)
    && (n.reg == m.reg || Revokes(m, n))
    && forall r :: Engaged(n.snd, r) ==> Engaged(m.snd, r) || (r in m.reg && m.reg[r].state.Sendable())
  }

  lemma {:induction false} PollMoves(s: Sys, a: PollAct, t: Sys)
    requires PollStep(s, a, t)
    ensures SenderMoves(s.mem, t.mem) && t.mem.reg == s.mem.reg
  {
  }

  lemma {:induction false} SettleMoves(s: Sys, now: Millis, row: Row, token: string, d: Decision, ok: bool)
    requires Engaged(s.mem.snd, row.reader)
    ensures var t := Settled(s, now, row, token, d, ok);
            SenderMoves(s.mem, t.mem) && t.mem.reg == s.mem.reg
  {
  }

  /** The branch for a reader without a token is dead: sendable readers are configured. */
  lemma {:induction false} DeliverMoves(s: Sys, a: DeliverAct, t: Sys)
    requires DeliverStep(s, a, t)
    requires forall r :: Engaged(s.mem.snd, r) ==> r in s.cfg.creds
    ensures SenderMoves(s.mem, t.mem) && t.mem.reg == s.mem.reg && !a.TokenMissing?
  {
    var pc := s.mem.snd;
    assert Engaged(pc, pc.row.reader);
    if a.Settle? {
      SettleMoves(s, pc.now, pc.row, s.world.net[pc.request].token, Decide(pc.reply), a.ok);
    }
  }

  lemma {:induction false} CloseMoves(s: Sys, a: CloseAct, t: Sys)
    requires CloseStep(s, a, t) && SenderJobOk(s.mem.snd)
    requires forall r :: Engaged(s.mem.snd, r) ==> r in s.mem.reg
    ensures SenderMoves(s.mem, t.mem)
  {
    if s.mem.snd.SSuspend? {
      assert Engaged(s.mem.snd, s.mem.snd.reader);
    }
  }

  predicate BySender(a: Step) {
    a.Poll? || a.Deliver? || a.Close?
  }

  /** Every step of the sender is a sender's move. */
  lemma {:induction false} SenderActs(s: Sys, a: Step, t: Sys)
    requires MemoryOk(s.mem, s.cfg.creds) && Next(s, a, t) && BySender(a)
    ensures SenderMoves(s.mem, t.mem)
  {
    match a
    case Poll(x) => PollMoves(s, x, t);
    case Deliver(x) => DeliverMoves(s, x, t);
    case Close(x) => CloseMoves(s, x, t);
  }

  lemma {:induction false} GatesKeptByMoves(m: Memory, n: Memory, creds: map<ReaderId, Credential>)
    requires MemoryOk(m, creds) && SenderMoves(m, n)
    ensures MemoryOk(n, creds)
  {
    if m.snd.SSuspend? {
      assert Engaged(m.snd, m.snd.reader);
    }
    forall r | r in n.reg ensures ReaderOk(r, n.reg[r], n.pre[r], n.mr[r], n.snd) {
      assert ReaderOk(r, m.reg[r], m.pre[r], m.mr[r], m.snd);
    }
  }

  lemma {:induction false} LaunchOk(s: Sys, t: Sys)
    requires GateInv(s) && LifeStep(s, Launch, t)
    ensures GateInv(t)
  {
  }

  lemma {:induction false} LifeKeepsMemory(s: Sys, a: LifeAct, t: Sys)
    requires LifeStep(s, a, t) && (a.SweepExpire? || a.SweepClean? || a.ResumeDiscard? || a.ResumeSet?)
    ensures t.mem == s.mem && t.phase == s.phase && t.cfg == s.cfg
  {
  }

  lemma {:induction false} GatesKeptByLife(s: Sys, a: LifeAct, t: Sys)
    requires GateInv(s) && LifeStep(s, a, t)
    ensures GateInv(t)
  {
    match a
    case Crash =>
    case Boot(cfg) =>
    case Restore(r, now, fault) => hide RestoredDb;
    case Launch => LaunchOk(s, t);
    case _ => LifeKeepsMemory(s, a, t);
  }

  lemma {:induction false} AdmitKeepsGates(s: Sys, r: ReaderId, a: AdmitAct, t: Sys)
    requires AdmitStep(s, r, a, t)
    ensures t.phase == s.phase && t.cfg == s.cfg && t.db.gates == s.db.gates && t.world == s.world
    ensures t.mem == s.mem.(adm := t.mem.adm, wake := t.mem.wake)
  {
  }

  /** Only life steps start, stop or reconfigure the process. */
  lemma {:induction false} PhaseFixed(s: Sys, a: Step, t: Sys)
    requires Next(s, a, t) && !a.Life?
    ensures t.phase == s.phase && t.cfg == s.cfg
  {
    hide PollStep, CloseStep, PreStep, MetaStep, AdmitStep;
    match a
    case Poll(x) => PollKeepsRows(s, x, t);
    case Deliver(x) =>
    case Close(x) => CloseKeepsRows(s, x, t);
    case Preflight(r, x) => PreflightKeepsRows(s, r, x, t);
    case Refresh(r, x) => RefreshKeepsRows(s, r, x, t);
    case Admit(r, x) => AdmitKeepsGates(s, r, x, t);
    case Server(x) =>
  }

  lemma {:induction false} PreKnown(s: Sys, r: ReaderId, a: PreAct, t: Sys)
    requires PreStep(s, r, a, t)
    ensures r in s.mem.pre
  {
  }

  lemma {:induction false} MetaKnown(s: Sys, r: ReaderId, a: MetaAct, t: Sys)
    requires MetaStep(s, r, a, t)
    ensures r in s.mem.mr
  {
  }

  /** The memory of a running process stays consistent under every actor. */
  lemma {:induction false} MemoryKept(s: Sys, a: Step, t: Sys)
    requires s.phase.Running? && MemoryOk(s.mem, s.cfg.creds) && Next(s, a, t) && !a.Life?
    ensures MemoryOk(t.mem, s.cfg.creds)
  {
    hide PollStep, DeliverStep, CloseStep, PreStep, MetaStep, AdmitStep;
    match a
    case Preflight(r, x) =>
      assert r in s.mem.pre && r in s.mem.reg by { PreKnown(s, r, x, t); }
      PreLocal(s, r, x, t);
      LocalKeeps(s.mem, t.mem, r, s.cfg.creds);
    case Refresh(r, x) =>
      assert r in s.mem.mr && r in s.mem.reg by { MetaKnown(s, r, x, t); }
      MetaLocal(s, r, x, t);
      LocalKeeps(s.mem, t.mem, r, s.cfg.creds);
    case Admit(r, x) => AdmitKeepsGates(s, r, x, t);
    case Server(x) =>
    case _ =>
      SenderActs(s, a, t);
      GatesKeptByMoves(s.mem, t.mem, s.cfg.creds);
  }

  lemma {:induction false} GatesKept(s: Sys, a: Step, t: Sys)
    requires GateInv(s) && Next(s, a, t)
    ensures GateInv(t)
  {
    if a.Life? {
      GatesKeptByLife(s, a.life, t);
    } else {
      PhaseFixed(s, a, t);
      if s.phase.Running? {
        MemoryKept(s, a, t);
      }
    }
  }

  lemma {:induction false} GatesAlways(ss: seq<Sys>, acts: seq<Step>, n: nat)
    requires FullRun(ss, acts) && n < |ss|
    ensures GateInv(ss[n])
  {
    if n > 0 {
      GatesAlways(ss, acts, n - 1);
      GatesKept(ss[n - 1], acts[n - 1], ss[n]);
    }
  }

  lemma {:induction false} ReachableGates(s: Sys)
    requires Reachable(s)
    ensures GateInv(s)
  {
    hide Reachable;
    var ss, acts := RunTo(s);
    GatesAlways(ss, acts, |acts|);
  }

  lemma {:induction false} LifeConfig(s: Sys, a: LifeAct, t: Sys)
    requires LifeStep(s, a, t) && (!s.phase.Down? ==> ValidConfig(s.cfg))
    ensures !t.phase.Down? ==> ValidConfig(t.cfg)
  {
  }

  /** A process that is up has a valid configuration. */
  lemma {:induction false} ConfigAlways(ss: seq<Sys>, acts: seq<Step>, n: nat)
    requires FullRun(ss, acts) && n < |ss|
    ensures !ss[n].phase.Down? ==> ValidConfig(ss[n].cfg)
  {
    if n > 0 {
      ConfigAlways(ss, acts, n - 1);
      assert Next(ss[n - 1], acts[n - 1], ss[n]);
      if acts[n - 1].Life? {
        LifeConfig(ss[n - 1], acts[n - 1].life, ss[n]);
      } else {
        PhaseFixed(ss[n - 1], acts[n - 1], ss[n]);
      }
    }
  }

  // ---- Suspension in memory ----

  predicate InMemory(m: Memory, r: ReaderId) {
    r in m.reg && m.reg[r].state.Suspended()
  }

  lemma {:induction false} PreSticks(s: Sys, q: ReaderId, a: PreAct, t: Sys, r: ReaderId)
    requires MemoryOk(s.mem, s.cfg.creds) && PreStep(s, q, a, t) && InMemory(s.mem, r)
    ensures InMemory(t.mem, r)
  {
    PreLocal(s, q, a, t);
  }

  lemma {:induction false} MetaSticks(s: Sys, q: ReaderId, a: MetaAct, t: Sys, r: ReaderId)
    requires MemoryOk(s.mem, s.cfg.creds) && MetaStep(s, q, a, t) && InMemory(s.mem, r)
    ensures InMemory(t.mem, r)
  {
    MetaLocal(s, q, a, t);
  }

  lemma {:induction false} SuspensionSticks(s: Sys, a: Step, t: Sys, r: ReaderId)
    requires GateInv(s) && Next(s, a, t) && a != Life(Crash) && InMemory(s.mem, r)
    ensures InMemory(t.mem, r)
  {
    hide MetaStep, PreStep, LifeStep, AdmitStep, DeliverStep;
    match a
    case Preflight(q, x) => PreSticks(s, q, x, t, r);
    case Refresh(q, x) => MetaSticks(s, q, x, t, r);
    case Admit(q, x) => AdmitKeepsGates(s, q, x, t);
    case Life(x) => LifeKeepsSuspended(s, x, t, r);
    case Server(x) =>
    case _ =>
      hide MemoryOk;
      SenderActs(s, a, t);
  }

  lemma {:induction false} LifeKeepsSuspended(s: Sys, a: LifeAct, t: Sys, r: ReaderId)
    requires LifeStep(s, a, t) && !a.Crash? && InMemory(s.mem, r)
    ensures InMemory(t.mem, r)
  {
  }

  /** No crash between positions i and j: one process run. */
  ghost predicate SameProcess(acts: seq<Step>, i: nat, j: nat) {
    forall k :: i <= k < j && k < |acts| ==> acts[k] != Life(Crash)
  }

  /** Under every interleaving of preflight, sender and meta refresh, with replies as late as they
      like: a reader suspended in memory stays suspended until the process ends. */
  lemma {:induction false} SuspensionAbsorbing(ss: seq<Sys>, acts: seq<Step>, i: nat, j: nat, r: ReaderId)
    requires FullRun(ss, acts) && i <= j < |ss| && SameProcess(acts, i, j)
    requires InMemory(ss[i].mem, r)
    ensures InMemory(ss[j].mem, r) && !ss[j].mem.reg[r].state.Sendable()
  {
    if i < j {
      SuspensionAbsorbing(ss, acts, i, j - 1, r);
      GatesAlways(ss, acts, j - 1);
      SuspensionSticks(ss[j - 1], acts[j - 1], ss[j], r);
    }
  }
}
