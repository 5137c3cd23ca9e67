// The durable check-in pipeline as one state machine: admission, sender, preflight, meta refresh,
// sweeper, operator and server interleave freely, and the process may crash at any step.
// A crash keeps only the tables. Replies may be late, lost or repeated; clocks are arbitrary.
module Pipeline {
  import opened Domain
  import opened Classifier
  import opened Tables
  import opened Gates

  datatype Config = Config(creds: map<ReaderId, Credential>, debounce: nat, maxAge: nat)

  /** Before the first start. */
  const NO_CONFIG := Config(map[], 0, 0)

  const HOUR: nat := 3_600_000

  /** What configuration validation guarantees. */
  predicate ValidConfig(c: Config) {
    && 1_000 <= c.debounce <= HOUR
    && HOUR <= c.maxAge <= 24 * HOUR
    && forall r :: r in c.creds ==> c.creds[r].fingerprint != ""
  }

  /** One check-in POST. */
  datatype Request = Request(id: nat, reader: ReaderId, token: string, epc: Epc, checkedAt: string)

  /** Why a row left the queue. */
  datatype Removal = Confirmed(token: string) | Refused | TokenLost | Aged | Thrown

  // ---- Program counters ----

  /** A timer expires at `deadline`; it was started `lag` after the clock reading it was computed from. */
  datatype Wait = Timed(deadline: Millis, lag: Millis) | WhileHalted | AfterFault(start: Millis, deadline: Millis)

  datatype SenderPc =
    | STop
    | SPoll
    | SGates(now: Millis, readers: set<ReaderId>)
    | SIdle(now: Millis)
    | SIdleGates(now: Millis, readers: set<ReaderId>)
    | SBlocked(wait: Wait)
    | SItem(now: Millis, row: Row)
    | SFlight(now: Millis, row: Row, request: nat)
    | SReply(now: Millis, row: Row, request: nat, reply: Reply)
    | SSuspend(now: Millis, reader: ReaderId)
    | SNotify(job: Job)
    | SPersist(job: Job)
    | SHalt
    | SHaltNotify

  datatype PrePc =
    | PIdle
    | PFlight(now: Millis)
    | PReplied(now: Millis, reply: PreflightReply)
    | PDecided(job: Job)
    | PNotify(job: Job)
    | PPersist(job: Job)
    | PDone

  datatype MetaPc =
    | MIdle
    | MFlight
    | MReplied(meta: GateMeta)
    | MNotify(job: Job)
    | MPersist(job: Job)

  datatype AdmitPc =
    | AIdle
    | AChecked(epc: Epc, at: Millis, checkedAt: string)
    | ACommitted

  datatype Phase = Down | Booting | Running

  // ---- State ----

  /** What a crash loses. */
  datatype Memory = Memory(
    reg: map<ReaderId, Entry>,
    halted: bool,
    wake: bool,
    changed: bool,
    snd: SenderPc,
    pre: map<ReaderId, PrePc>,
    mr: map<ReaderId, MetaPc>,
    adm: map<ReaderId, AdmitPc>)

  const BLANK := Memory(map[], false, false, false, STop, map[], map[], map[])

  /** Every POST ever sent, the requests that made a server record, and the replies sent back. */
  datatype World = World(net: seq<Request>, records: seq<nat>, replies: set<(nat, Reply)>)

  /** Rows as admitted, why rows left, and the attempts that ended in a retry or were cut short. */
  datatype History = History(
    accepted: map<nat, Row>,
    removed: map<nat, Removal>,
    retries: map<nat, nat>,
    cuts: map<nat, nat>)

  datatype Sys = Sys(db: Db, phase: Phase, cfg: Config, mem: Memory, world: World, hist: History)

  ghost predicate Init(s: Sys) {
    && s.db == EMPTY_DB
    && s.phase == Down
    && s.cfg == NO_CONFIG
    && s.mem == BLANK
    && s.world == World([], [], {})
    && s.hist == History(map[], map[], map[], map[])
  }

  function Count(m: map<nat, nat>, id: nat): nat {
    if id in m then m[id] else 0
  }

  function Bump(m: map<nat, nat>, id: nat): map<nat, nat> {
    m[id := Count(m, id) + 1]
  }

  /** Number of POSTs of a row. */
  function Posts(net: seq<Request>, id: nat): nat {
    if net == [] then 0
    else Posts(net[..|net| - 1], id) + (if net[|net| - 1].id == id then 1 else 0)
  }

  function Backoff(failed: nat): nat {
    if failed <= 1 then 5_000 else if failed == 2 then 30_000 else 120_000
  }

  const MAX_IDLE: nat := 30_000

  /** The wait after a failed queue read. */
  const FAULT_WAIT: nat := 5_000

  /** The sender's wait, from the earliest due time of the sendable readers. */
  function IdleWait(now: Millis, due: Option<Millis>): (d: nat)
    ensures d <= MAX_IDLE
    ensures due.Some? && due.value >= now ==> now + d <= due.value
    ensures due.Some? && due.value > now ==> d > 0
    ensures due.Some? && now <= due.value <= now + 30_000 ==> now + d == due.value
    ensures due.None? || due.value > now + 30_000 ==> d == 30_000
  {
    if due.None? then MAX_IDLE
    else if due.value - now < 0 then 0
    else if due.value - now > MAX_IDLE then MAX_IDLE
    else due.value - now
  }

  /** Delete the rows `gone` from the queue and remember why. */
  function Delete(s: Sys, gone: set<nat>, why: Removal): Sys {
    s.(db := s.db.(queue := s.db.queue - gone),
       hist := s.hist.(removed := s.hist.removed + (map id | id in gone && id in s.db.queue :: why)))
  }

  /** The attempt of a row ended without a store write. */
  function CutShort(s: Sys, id: nat): Sys {
    s.(hist := s.hist.(cuts := Bump(s.hist.cuts, id)))
  }

  function SendableReaders(reg: map<ReaderId, Entry>): set<ReaderId> {
    set r | r in reg && reg[r].state.Sendable()
  }

  // ---- Sender (internal/sender/sender.go) ----

  /** Looking for work and waiting for it. */
  datatype PollAct =
    | CheckHalt
    | ReadGates(now: Millis)
    | Pick
    | PickFails(at: Millis)
    | ReadGatesAgain
    | Arm(due: Option<Millis>, at: Millis)
    | ArmFails(at: Millis)
    | TakeWake
    | TakeChanged
    | TimerFires

  /** Delivering one row. */
  datatype DeliverAct =
    | DropAged(ok: bool)
    | TokenMissing
    | Post
    | Receive(reply: Reply)
    | Settle(ok: bool)

  /** Closing a gate or halting. */
  datatype CloseAct =
    | SuspendWrite
    | SenderNotify
    | SenderPersist(ok: bool)
    | Halt
    | HaltNotify

  /** The store write a classified reply leads to; `ok` is false when the store fails. */
  function Settled(s: Sys, now: Millis, row: Row, token: string, d: Decision, ok: bool): Sys {
    match d
    case Complete =>
      Sending(if ok then Delete(s, {row.id}, Confirmed(token)) else CutShort(s, row.id), STop)
    case Drop =>
      Sending(if ok then Delete(s, {row.id}, Refused) else CutShort(s, row.id), STop)
    case Retry =>
      Sending(if ok then Postponed(s, row.id, now + Backoff(row.attempts + 1)) else CutShort(s, row.id), STop)
    case SuspendReader =>
      Sending(if ok then Delete(s, {row.id}, TokenLost) else CutShort(s, row.id), SSuspend(now, row.reader))
    case HaltGlobal =>
      Sending(CutShort(if ok then s.(db := Marked(s.db, row.id)) else s, row.id), SHalt)
  }

  function Postponed(s: Sys, id: nat, nextMs: Millis): Sys {
    s.(db := Retried(s.db, id, nextMs), hist := s.hist.(retries := Bump(s.hist.retries, id)))
  }

  function Sending(s: Sys, pc: SenderPc): Sys {
    s.(mem := s.mem.(snd := pc))
  }

  /** The memory half of a gate write by some actor. */
  function GateWritten(m: Memory, job: Job): Memory {
    m.(reg := m.reg[job.reader := Written(Lookup(m.reg, job.reader), job)])
  }

  /** The store half; `ok` is false when the store fails. */
  function GatePersisted(s: Sys, job: Job, ok: bool): Sys {
    if ok then s.(db := Persisted(s.db, job)) else s
  }

  predicate TooOld(row: Row, now: Millis, maxAge: nat) {
    row.checkedMs < now - maxAge
  }

  function RequestOf(row: Row, token: string): Request {
    Request(row.id, row.reader, token, row.epc, row.checkedAt)
  }

  ghost predicate PollStep(s: Sys, a: PollAct, t: Sys) {
    var m := s.mem;
    var pc := m.snd;
    match a
    case CheckHalt =>
      pc.STop? && t == Sending(s, if m.halted then SBlocked(WhileHalted) else SPoll)
    case ReadGates(now) =>
      pc.SPoll? && t == Sending(s, SGates(now, SendableReaders(m.reg)))
    case Pick =>
      pc.SGates? &&
      var r := NextDue(s.db, pc.now, pc.readers);
      t == Sending(s, if r.None? then SIdle(pc.now) else SItem(pc.now, r.value))
    case PickFails(at) =>
      pc.SGates? && t == Sending(s, SBlocked(AfterFault(at, at + FAULT_WAIT)))
    case ReadGatesAgain =>
      pc.SIdle? && t == Sending(s, SIdleGates(pc.now, SendableReaders(m.reg)))
    case Arm(due, at) =>
      pc.SIdleGates? && IsEarliestDue(s.db, pc.readers, due) &&
      t == Sending(s, SBlocked(Timed(at + IdleWait(pc.now, due), at - pc.now)))
    case ArmFails(at) =>
      pc.SIdleGates? && t == Sending(s, SBlocked(AfterFault(at, at + MAX_IDLE)))
    case TakeWake =>
      pc.SBlocked? && m.wake && t == s.(mem := m.(wake := false, snd := STop))
    case TakeChanged =>
      pc.SBlocked? && m.changed && t == s.(mem := m.(changed := false, snd := STop))
    case TimerFires =>
      pc.SBlocked? && t == Sending(s, STop)
  }

  ghost predicate DeliverStep(s: Sys, a: DeliverAct, t: Sys) {
    var m := s.mem;
    var pc := m.snd;
    match a
    case DropAged(ok) =>
      pc.SItem? && TooOld(pc.row, pc.now, s.cfg.maxAge) &&
      t == Sending(if ok then Delete(s, {pc.row.id}, Aged) else s, STop)
    case TokenMissing =>
      pc.SItem? && !TooOld(pc.row, pc.now, s.cfg.maxAge) && pc.row.reader !in s.cfg.creds &&
      var job := Unconfigured(pc.row.reader, pc.now);
      t == Sending(s.(mem := GateWritten(m, job)), SNotify(job))
    case Post =>
      pc.SItem? && !TooOld(pc.row, pc.now, s.cfg.maxAge) && pc.row.reader in s.cfg.creds &&
      var q := RequestOf(pc.row, s.cfg.creds[pc.row.reader].token);
      t == Sending(s.(world := s.world.(net := s.world.net + [q])), SFlight(pc.now, pc.row, |s.world.net|))
    case Receive(reply) =>
      pc.SFlight? && (!Arrived(reply) || (pc.request, reply) in s.world.replies) &&
      t == Sending(s, SReply(pc.now, pc.row, pc.request, reply))
    case Settle(ok) =>
      pc.SReply? && pc.request < |s.world.net| &&
      t == Settled(s, pc.now, pc.row, s.world.net[pc.request].token, Decide(pc.reply), ok)
  }

  ghost predicate CloseStep(s: Sys, a: CloseAct, t: Sys) {
    var m := s.mem;
    var pc := m.snd;
    match a
    case SuspendWrite =>
      pc.SSuspend? &&
      var job := Revocation(pc.reader, pc.now);
      t == Sending(s.(mem := GateWritten(m, job)), SNotify(job))
    case SenderNotify =>
      pc.SNotify? && t == s.(mem := m.(changed := true, snd := SPersist(pc.job)))
    case SenderPersist(ok) =>
      pc.SPersist? && t == Sending(GatePersisted(s, pc.job, ok), STop)
    case Halt =>
      pc.SHalt? && t == s.(mem := m.(halted := true, snd := SHaltNotify))
    case HaltNotify =>
      pc.SHaltNotify? && t == s.(mem := m.(changed := true, snd := STop))
  }

  // ---- Preflight (internal/sender/preflight.go) ----

  datatype PreAct =
    | PreSend(now: Millis)
    | PreReceive(reply: PreflightReply)
    | PreRead
    | PreWrite
    | PreNotify
    | PrePersist(ok: bool)

  function Preflighting(m: Memory, r: ReaderId, pc: PrePc): Memory {
    m.(pre := m.pre[r := pc])
  }

  ghost predicate PreStep(s: Sys, r: ReaderId, a: PreAct, t: Sys) {
    var m := s.mem;
    r in m.pre && r in s.cfg.creds &&
    var pc := m.pre[r];
    match a
    case PreSend(now) =>
      pc.PIdle? && t == s.(mem := Preflighting(m, r, PFlight(now)))
    case PreReceive(reply) =>
      pc.PFlight? && t == s.(mem := Preflighting(m, r, PReplied(pc.now, reply)))
    case PreRead =>
      pc.PReplied? &&
      var job := PreflightJob(r, pc.now, pc.reply, Lookup(m.reg, r), s.cfg.creds[r].fingerprint);
      t == s.(mem := Preflighting(m, r, PDecided(job)))
    case PreWrite =>
      pc.PDecided? && t == s.(mem := Preflighting(GateWritten(m, pc.job), r, PNotify(pc.job)))
    case PreNotify =>
      pc.PNotify? && t == s.(mem := Preflighting(m.(changed := true), r, PPersist(pc.job)))
    case PrePersist(ok) =>
      pc.PPersist? &&
      var s1 := GatePersisted(s, pc.job, ok);
      t == s1.(mem := Preflighting(m, r, if pc.job.state.PreflightRetry? then PIdle else PDone))
  }

  // ---- Meta refresh (internal/sender/metarefresh.go, internal/gate/gate.go) ----

  datatype MetaAct =
    | MetaCheck
    | MetaReceive(reply: PreflightReply)
    | MetaWrite(now: Millis)
    | MetaNotify
    | MetaPersist(ok: bool)

  function Refreshing(m: Memory, r: ReaderId, pc: MetaPc): Memory {
    m.(mr := m.mr[r := pc])
  }

  ghost predicate MetaStep(s: Sys, r: ReaderId, a: MetaAct, t: Sys) {
    var m := s.mem;
    r in m.mr &&
    var pc := m.mr[r];
    match a
    case MetaCheck =>
      pc.MIdle? && r in m.reg && m.reg[r].state.Sendable() && t == s.(mem := Refreshing(m, r, MFlight))
    case MetaReceive(reply) =>
      pc.MFlight? &&
      t == s.(mem := Refreshing(m, r, if PreflightOk(reply) then MReplied(reply.meta.value) else MIdle))
    case MetaWrite(now) =>
      pc.MReplied? &&
      if RefreshApplies(Lookup(m.reg, r), pc.meta) then
        var job := RefreshJob(r, now, pc.meta, m.reg[r]);
        t == s.(mem := Refreshing(GateWritten(m, job), r, MNotify(job)))
      else t == s.(mem := Refreshing(m, r, MIdle))
    case MetaNotify =>
      pc.MNotify? && t == s.(mem := Refreshing(m.(changed := true), r, MPersist(pc.job)))
    case MetaPersist(ok) =>
      pc.MPersist? && var s1 := GatePersisted(s, pc.job, ok); t == s1.(mem := Refreshing(m, r, MIdle))
  }

  // ---- Admission (internal/admission/admission.go) ----

  datatype AdmitAct =
    | Arrive(epc: Epc, at: Millis, checkedAt: string)
    | Commit(ok: bool)
    | SignalWake

  function Admitting(m: Memory, r: ReaderId, pc: AdmitPc): Memory {
    m.(adm := m.adm[r := pc])
  }

  ghost predicate AdmitStep(s: Sys, r: ReaderId, a: AdmitAct, t: Sys) {
    var m := s.mem;
    r in m.adm &&
    var pc := m.adm[r];
    match a
    case Arrive(epc, at, checkedAt) =>
      pc.AIdle? && !(r in m.reg && m.reg[r].state.Suspended()) &&
      t == s.(mem := Admitting(m, r, AChecked(epc, at, checkedAt)))
    case Commit(ok) =>
      pc.AChecked? &&
      var key := (r, pc.epc);
      if ok && !Debounced(s.db, key, pc.at, s.cfg.debounce) then
        var row := NewRow(s.db, key, pc.at, pc.checkedAt);
        t == s.(db := Admitted(s.db, key, pc.at, pc.checkedAt, s.cfg.debounce),
                mem := Admitting(m, r, ACommitted),
                hist := s.hist.(accepted := s.hist.accepted[row.id := row]))
      else t == s.(mem := Admitting(m, r, AIdle))
    case SignalWake =>
      pc.ACommitted? && t == s.(mem := Admitting(m.(wake := true), r, AIdle))
  }

  // ---- Sweeper and process life (internal/app/app.go, internal/app/resume.go) ----

  /** Debounce rows younger than this survive a sweep. */
  function Keep(debounce: nat): (k: nat)
    ensures k >= 600_000 && k >= 2 * debounce && (k == 600_000 || k == 2 * debounce)
  {
    if 2 * debounce < 600_000 then 600_000 else 2 * debounce
  }

  datatype LifeAct =
    | SweepExpire(now: Millis)
    | SweepClean(now: Millis)
    | Crash
    | Boot(cfg: Config)
    | Restore(r: ReaderId, now: Millis, fault: Fault)
    | Launch
    | ResumeDiscard(r: ReaderId)
    | ResumeSet(r: ReaderId, now: Millis)

  /** The row whose attempt a crash cuts short. */
  function InFlight(pc: SenderPc): Option<Row> {
    if pc.SFlight? || pc.SReply? then Some(pc.row) else None
  }

  predicate Resumable(s: Sys, r: ReaderId) {
    s.phase.Down? && r in s.db.gates && s.db.gates[r].state.Suspended()
  }

  /** The actors a freshly restored process starts: preflight skips suspended readers. */
  function Launched(m: Memory): Memory {
    m.(pre := map r | r in m.reg :: if m.reg[r].state.Suspended() then PDone else PIdle,
       mr := map r | r in m.reg :: MIdle,
       adm := map r | r in m.reg :: AIdle)
  }

  ghost predicate LifeStep(s: Sys, a: LifeAct, t: Sys) {
    match a
    case SweepExpire(now) =>
      s.phase.Running? && t == Delete(s, ExpiredIds(s.db, now - s.cfg.maxAge), Aged)
    case SweepClean(now) =>
      s.phase.Running? && t == s.(db := Cleaned(s.db, now - Keep(s.cfg.debounce)))
    case Crash =>
      !s.phase.Down? &&
      var s1 := if InFlight(s.mem.snd).Some? then CutShort(s, InFlight(s.mem.snd).value.id) else s;
      t == s1.(phase := Down, mem := BLANK)
    case Boot(cfg) =>
      s.phase.Down? && ValidConfig(cfg) && t == s.(phase := Booting, cfg := cfg)
    case Restore(r, now, fault) =>
      s.phase.Booting? && r in s.cfg.creds && r !in s.mem.reg &&
      var fingerprint := s.cfg.creds[r].fingerprint;
      t == s.(db := RestoredDb(s.db, r, fingerprint, now, fault),
              mem := s.mem.(reg := s.mem.reg[r := RestoredEntry(s.db, r, fingerprint, fault)]))
    case Launch =>
      s.phase.Booting? && s.mem.reg.Keys == s.cfg.creds.Keys &&
      t == s.(phase := Running, mem := Launched(s.mem))
    case ResumeDiscard(r) =>
      Resumable(s, r) && t == Delete(s, PendingIds(s.db, r), Thrown)
    case ResumeSet(r, now) =>
      Resumable(s, r) && t == s.(db := Resumed(s.db, r, now))
  }

  // ---- Server ----

  datatype ServerAct =
    | Record(request: nat)
    | Answer(request: nat, reply: Reply)

  predicate SameKey(a: Request, b: Request) {
    a.token == b.token && a.epc == b.epc && a.checkedAt == b.checkedAt
  }

  /** The server holds a check-in of this token and EPC. */
  ghost predicate Recorded(w: World, token: string, epc: Epc) {
    exists i :: 0 <= i < |w.records| && w.records[i] < |w.net| &&
                w.net[w.records[i]].token == token && w.net[w.records[i]].epc == epc
  }

  /** A reply may claim success only for a token and EPC the server has recorded. */
  ghost predicate Honest(w: World, request: nat, reply: Reply) {
    request < |w.net| && (Decide(reply).Complete? ==> Recorded(w, w.net[request].token, w.net[request].epc))
  }

  ghost predicate NotYetRecorded(w: World, q: Request) {
    forall k :: 0 <= k < |w.records| && w.records[k] < |w.net| ==> !SameKey(w.net[w.records[k]], q)
  }

  /** Any request ever sent may reach the server, late or repeatedly. The server does not record the
      same token, EPC and checkedAt twice; everything else about its replies is free. */
  ghost predicate ServerStep(s: Sys, a: ServerAct, t: Sys) {
    var w := s.world;
    match a
    case Record(i) =>
      i < |w.net| && NotYetRecorded(w, w.net[i]) && t == s.(world := w.(records := w.records + [i]))
    case Answer(i, reply) =>
      Honest(w, i, reply) && t == s.(world := w.(replies := w.replies + {(i, reply)}))
  }

  // ---- The whole machine ----

  datatype Step =
    | Poll(poll: PollAct)
    | Deliver(deliver: DeliverAct)
    | Close(close: CloseAct)
    | Preflight(reader: ReaderId, pre: PreAct)
    | Refresh(reader: ReaderId, refresh: MetaAct)
    | Admit(reader: ReaderId, admit: AdmitAct)
    | Life(life: LifeAct)
    | Server(server: ServerAct)

  ghost predicate Next(s: Sys, a: Step, t: Sys) {
    match a
    case Poll(x) => s.phase.Running? && PollStep(s, x, t)
    case Deliver(x) => s.phase.Running? && DeliverStep(s, x, t)
    case Close(x) => s.phase.Running? && CloseStep(s, x, t)
    case Preflight(r, x) => s.phase.Running? && PreStep(s, r, x, t)
    case Refresh(r, x) => s.phase.Running? && MetaStep(s, r, x, t)
    case Admit(r, x) => s.phase.Running? && AdmitStep(s, r, x, t)
    case Life(x) => LifeStep(s, x, t)
    case Server(x) => ServerStep(s, x, t)
  }

  /** `ss` is a finite run of the machine doing the steps `acts`, from any state. */
  ghost predicate Run(ss: seq<Sys>, acts: seq<Step>) {
    && |ss| == |acts| + 1
    && forall i {:trigger acts[i]} :: 0 <= i < |acts| ==> Next(ss[i], acts[i], ss[i + 1])
  }

  /** A run from the empty store. */
  ghost predicate FullRun(ss: seq<Sys>, acts: seq<Step>) {
    Run(ss, acts) && Init(ss[0])
  }
}
