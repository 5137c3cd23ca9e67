// What happens to an accepted scan: conservation of rows and fidelity of every POST.
module QueueSafety {
  import opened Domain
  import opened Classifier
  import opened Tables
  import opened Gates
  import opened Pipeline

  // ---- Conservation ----

  function HeldRow(pc: SenderPc): Option<Row> {
    if pc.SItem? || pc.SFlight? || pc.SReply? then Some(pc.row) else None
  }

  /** Every id ever given out is queued or removed, never both, and a queued row is the scan admitted. */
  ghost predicate Partition(db: Db, h: History) {
    && Tables.Valid(db)
    && db.nextId >= 1
    && (forall id :: id in h.accepted <==> 1 <= id < db.nextId)
    && (forall id :: id in h.accepted <==> id in db.queue || id in h.removed)
    && (forall id :: id in db.queue ==> id !in h.removed)
    && (forall id :: id in db.queue ==> SameScan(db.queue[id], h.accepted[id]))
  }

  /** The sender's copy of a row is of an accepted scan, and current while the row is still queued. */
  ghost predicate Held(queue: map<nat, Row>, accepted: map<nat, Row>, row: Row) {
    && row.id in accepted && SameScan(row, accepted[row.id])
    && (row.id in queue ==> queue[row.id] == row)
  }

  ghost predicate HeldOk(queue: map<nat, Row>, accepted: map<nat, Row>, pc: SenderPc) {
    HeldRow(pc).Some? ==> Held(queue, accepted, HeldRow(pc).value)
  }

  /** The POST carries what admission fixed. */
  ghost predicate Faithful(accepted: map<nat, Row>, q: Request) {
    q.id in accepted && q == RequestOf(accepted[q.id], q.token)
  }

  ghost predicate NetFaithful(net: seq<Request>, accepted: map<nat, Row>) {
    forall i :: 0 <= i < |net| ==> Faithful(accepted, net[i])
  }

  ghost predicate FlightOk(net: seq<Request>, pc: SenderPc) {
    pc.SFlight? || pc.SReply? ==> pc.request < |net| && net[pc.request].id == pc.row.id
  }

  ghost predicate QueueInv(s: Sys) {
    && Partition(s.db, s.hist)
    && HeldOk(s.db.queue, s.hist.accepted, s.mem.snd)
    && NetFaithful(s.world.net, s.hist.accepted)
    && FlightOk(s.world.net, s.mem.snd)
  }

  /** History only grows: nothing accepted is forgotten, nothing removed comes back. */
  ghost predicate Grows(h: History, k: History) {
    && (forall id :: id in h.accepted ==> id in k.accepted && k.accepted[id] == h.accepted[id])
    && (forall id :: id in h.removed ==> id in k.removed && k.removed[id] == h.removed[id])
  }

  lemma {:induction false} DeleteKeeps(s: Sys, gone: set<nat>, why: Removal)
    requires QueueInv(s)
    ensures var t := Delete(s, gone, why); QueueInv(t) && Grows(s.hist, t.hist)
  {
  }

  lemma {:induction false} PostponeKeeps(s: Sys, id: nat, nextMs: Millis)
    requires QueueInv(s)
    ensures QueueInv(Sending(Postponed(s, id, nextMs), STop))
  {
  }

  lemma {:induction false} MarkKeeps(s: Sys, id: nat)
    requires QueueInv(s)
    ensures QueueInv(Sending(CutShort(s.(db := Marked(s.db, id)), id), SHalt))
  {
  }

  lemma {:induction false} AdmitKeeps(db: Db, h: History, key: Key, at: Millis, checkedAt: string, debounce: nat)
    requires Partition(db, h) && !Debounced(db, key, at, debounce)
    ensures var row := NewRow(db, key, at, checkedAt);
            var k := h.(accepted := h.accepted[row.id := row]);
            Partition(Admitted(db, key, at, checkedAt, debounce), k) && Grows(h, k) && row.id !in h.accepted
  {
  }

  lemma {:induction false} MoveKeeps(s: Sys, pc: SenderPc)
    requires QueueInv(s) && HeldRow(pc).None?
    ensures QueueInv(Sending(s, pc))
  {
  }

  lemma {:induction false} DeleteMoves(s: Sys, id: nat, why: Removal, pc: SenderPc)
    requires QueueInv(s) && HeldRow(pc).None?
    ensures var t := Sending(Delete(s, {id}, why), pc); QueueInv(t) && Grows(s.hist, t.hist)
  {
    DeleteKeeps(s, {id}, why);
    MoveKeeps(Delete(s, {id}, why), pc);
  }

  lemma {:induction false} SettledKeeps(s: Sys, now: Millis, row: Row, token: string, d: Decision, ok: bool)
    requires QueueInv(s)
    ensures var t := Settled(s, now, row, token, d, ok); QueueInv(t) && Grows(s.hist, t.hist)
  {
    var pc := match d case SuspendReader => SSuspend(now, row.reader) case HaltGlobal => SHalt case _ => STop;
    MoveKeeps(CutShort(s, row.id), pc);
    match d
    case Complete => DeleteMoves(s, row.id, Confirmed(token), pc);
    case Drop => DeleteMoves(s, row.id, Refused, pc);
    case SuspendReader => DeleteMoves(s, row.id, TokenLost, pc);
    case Retry => PostponeKeeps(s, row.id, now + Backoff(row.attempts + 1));
    case HaltGlobal => MarkKeeps(s, row.id);
  }

  /** Polling changes only the sender's own position and consumes signals. */
  lemma {:induction false} PollKeepsRows(s: Sys, a: PollAct, t: Sys)
    requires PollStep(s, a, t)
    ensures t == s.(mem := s.mem.(snd := t.mem.snd, wake := t.mem.wake, changed := t.mem.changed))
    ensures InFlight(t.mem.snd).None? && !t.mem.snd.SReply?
    ensures t.mem.snd.SItem? ==> t.mem.snd.row.id in s.db.queue && s.db.queue[t.mem.snd.row.id] == t.mem.snd.row &&
                                 t.mem.snd.row.nextMs <= t.mem.snd.now
  {
  }

  /** Closing a gate touches no row. */
  lemma {:induction false} CloseKeepsRows(s: Sys, a: CloseAct, t: Sys)
    requires CloseStep(s, a, t)
    ensures t.hist == s.hist && t.world == s.world && t.cfg == s.cfg && t.phase == s.phase
    ensures t.db == s.db.(gates := t.db.gates)
    ensures HeldRow(t.mem.snd).None?
  {
  }

  /** Rows, history and requests are what they were, and the sender holds the same row or none. */
  predicate Quiet(s: Sys, t: Sys) {
    && t.db.queue == s.db.queue && t.db.nextId == s.db.nextId && t.hist == s.hist && t.world.net == s.world.net
    && (t.mem.snd == s.mem.snd || HeldRow(t.mem.snd).None?)
  }

  lemma {:induction false} QuietKeeps(s: Sys, t: Sys)
    requires QueueInv(s) && Quiet(s, t)
    ensures QueueInv(t) && Grows(s.hist, t.hist)
  {
  }

  lemma {:induction false} QueueKeptByPoll(s: Sys, a: PollAct, t: Sys)
    requires QueueInv(s) && PollStep(s, a, t)
    ensures QueueInv(t) && t.hist == s.hist
  {
    PollKeepsRows(s, a, t);
  }

  lemma {:induction false} QueueKeptByDeliver(s: Sys, a: DeliverAct, t: Sys)
    requires QueueInv(s) && DeliverStep(s, a, t)
    ensures QueueInv(t) && Grows(s.hist, t.hist)
  {
    match a
    case Settle(ok) =>
      var pc := s.mem.snd;
      SettledKeeps(s, pc.now, pc.row, s.world.net[pc.request].token, Decide(pc.reply), ok);
    case DropAged(ok) => DeleteMoves(s, s.mem.snd.row.id, Aged, STop);
    case _ =>
  }

  /** The other life steps touch no row, no history and no request, and the sender only in a crash. */
  lemma {:induction false} LifeKeepsRows(s: Sys, a: LifeAct, t: Sys)
    requires LifeStep(s, a, t) && !a.SweepExpire? && !a.ResumeDiscard? && !a.Crash?
    ensures t.db.queue == s.db.queue && t.db.nextId == s.db.nextId && t.hist == s.hist && t.world == s.world
    ensures t.mem.snd == s.mem.snd
  {
    hide Lifts, StaleKeys, ValidConfig;
  }

  lemma {:induction false} CrashKeeps(s: Sys, t: Sys)
    requires QueueInv(s) && LifeStep(s, Crash, t)
    ensures QueueInv(t) && Grows(s.hist, t.hist)
  {
  }

  lemma {:induction false} QueueKeptByLife(s: Sys, a: LifeAct, t: Sys)
    requires QueueInv(s) && LifeStep(s, a, t)
    ensures QueueInv(t) && Grows(s.hist, t.hist)
  {
    match a
    case SweepExpire(now) => DeleteKeeps(s, ExpiredIds(s.db, now - s.cfg.maxAge), Aged);
    case ResumeDiscard(r) => DeleteKeeps(s, PendingIds(s.db, r), Thrown);
    case Crash => CrashKeeps(s, t);
    case _ =>
      LifeKeepsRows(s, a, t);
      QuietKeeps(s, t);
  }

  lemma {:induction false} AdmittedRow(db: Db, key: Key, at: Millis, checkedAt: string, debounce: nat)
    requires !Debounced(db, key, at, debounce)
    ensures var after := Admitted(db, key, at, checkedAt, debounce);
            && after.queue == db.queue[db.nextId := NewRow(db, key, at, checkedAt)] && after.nextId == db.nextId + 1
            && after.gates == db.gates && NewRow(db, key, at, checkedAt).id == db.nextId
  {
  }

  /** What an admission step changes: nothing but its own position and the wake-up, or one new row. */
  lemma {:induction false} AdmitChanges(s: Sys, r: ReaderId, a: AdmitAct, t: Sys)
    requires AdmitStep(s, r, a, t)
    ensures t.mem.snd == s.mem.snd && t.world == s.world && t.cfg == s.cfg
    ensures t.db == s.db ==> t.hist == s.hist
    ensures t.db != s.db ==>
              && r in s.mem.adm && s.mem.adm[r].AChecked?
              && var pc := s.mem.adm[r];
              var key := (r, pc.epc);
              && !Debounced(s.db, key, pc.at, s.cfg.debounce)
              && t.db == Admitted(s.db, key, pc.at, pc.checkedAt, s.cfg.debounce)
              && t.hist == s.hist.(accepted := s.hist.accepted[s.db.nextId := NewRow(s.db, key, pc.at, pc.checkedAt)])
              && t.db.queue == s.db.queue[s.db.nextId := NewRow(s.db, key, pc.at, pc.checkedAt)]
  {
    match a
    case Commit(ok) =>
      var pc := s.mem.adm[r];
      if !Debounced(s.db, (r, pc.epc), pc.at, s.cfg.debounce) {
        AdmittedRow(s.db, (r, pc.epc), pc.at, pc.checkedAt, s.cfg.debounce);
      }
      hide Admitted, Debounced, NewRow;
    case Arrive(epc, at, checkedAt) =>
    case SignalWake =>
  }

  lemma {:induction false} HeldStays(queue: map<nat, Row>, after: map<nat, Row>, h: History, k: History, pc: SenderPc)
    requires HeldOk(queue, h.accepted, pc) && Grows(h, k)
    requires forall id :: id in h.accepted && id in after ==> id in queue && after[id] == queue[id]
    ensures HeldOk(after, k.accepted, pc)
  {
  }

  lemma {:induction false} NetStays(net: seq<Request>, h: History, k: History)
    requires NetFaithful(net, h.accepted) && Grows(h, k)
    ensures NetFaithful(net, k.accepted)
  {
  }

  lemma {:induction false} QueueKeptByAdmit(s: Sys, r: ReaderId, a: AdmitAct, t: Sys)
    requires QueueInv(s) && AdmitStep(s, r, a, t)
    ensures QueueInv(t) && Grows(s.hist, t.hist)
  {
    AdmitChanges(s, r, a, t);
    hide AdmitStep, Admitted, Debounced, NewRow;
    if t.db != s.db {
      var pc := s.mem.adm[r];
      AdmitKeeps(s.db, s.hist, (r, pc.epc), pc.at, pc.checkedAt, s.cfg.debounce);
      HeldStays(s.db.queue, t.db.queue, s.hist, t.hist, s.mem.snd);
      NetStays(s.world.net, s.hist, t.hist);
    }
  }

  /** Gate writers touch neither rows nor history. */
  lemma {:induction false} PreflightKeepsRows(s: Sys, r: ReaderId, a: PreAct, t: Sys)
    requires PreStep(s, r, a, t)
    ensures t.hist == s.hist && t.world == s.world && t.cfg == s.cfg && t.phase == s.phase
    ensures t.mem.snd == s.mem.snd && t.mem.halted == s.mem.halted
    ensures t.db == s.db.(gates := t.db.gates)
  {
    hide PreflightJob, Written;
  }

  lemma {:induction false} RefreshKeepsRows(s: Sys, r: ReaderId, a: MetaAct, t: Sys)
    requires MetaStep(s, r, a, t)
    ensures t.hist == s.hist && t.world == s.world && t.cfg == s.cfg && t.phase == s.phase
    ensures t.mem.snd == s.mem.snd && t.mem.halted == s.mem.halted
    ensures t.db == s.db.(gates := t.db.gates)
  {
    hide RefreshJob, Written, RefreshApplies;
  }

  lemma {:induction false} QueueKept(s: Sys, a: Step, t: Sys)
    requires QueueInv(s) && Next(s, a, t)
    ensures QueueInv(t) && Grows(s.hist, t.hist)
  {
    hide PollStep, DeliverStep, CloseStep, PreStep, MetaStep, AdmitStep, LifeStep, QueueInv;
    match a
    case Poll(x) => QueueKeptByPoll(s, x, t);
    case Deliver(x) => QueueKeptByDeliver(s, x, t);
    case Close(x) => CloseKeepsRows(s, x, t); QuietKeeps(s, t);
    case Preflight(r, x) => PreflightKeepsRows(s, r, x, t); QuietKeeps(s, t);
    case Refresh(r, x) => RefreshKeepsRows(s, r, x, t); QuietKeeps(s, t);
    case Admit(r, x) => QueueKeptByAdmit(s, r, x, t);
    case Life(x) => QueueKeptByLife(s, x, t);
    case Server(x) => QuietKeeps(s, t);
  }

  lemma {:induction false} QueueAlways(ss: seq<Sys>, acts: seq<Step>, n: nat)
    requires FullRun(ss, acts) && n < |ss|
    ensures QueueInv(ss[n])
  {
    if n > 0 {
      QueueAlways(ss, acts, n - 1);
      QueueKept(ss[n - 1], acts[n - 1], ss[n]);
    }
  }

  lemma {:induction false} GrowsOn(g: History, h: History, k: History)
    requires Grows(g, h) && Grows(h, k)
    ensures Grows(g, k)
  {
  }

  lemma {:induction false} GrowsAt(ss: seq<Sys>, acts: seq<Step>, n: nat)
    requires FullRun(ss, acts) && n < |acts|
    ensures Grows(ss[n].hist, ss[n + 1].hist)
  {
    QueueAlways(ss, acts, n);
    QueueKept(ss[n], acts[n], ss[n + 1]);
  }

  lemma {:induction false} GrowsAlong(ss: seq<Sys>, acts: seq<Step>, i: nat, j: nat)
    requires FullRun(ss, acts) && i <= j < |ss|
    ensures Grows(ss[i].hist, ss[j].hist)
  {
    if i < j {
      GrowsAlong(ss, acts, i, j - 1);
      GrowsAt(ss, acts, j - 1);
      GrowsOn(ss[i].hist, ss[j - 1].hist, ss[j].hist);
    }
  }

  /** Over every run with crashes, sweeps and resumes: accepted ids are exactly the queued and the
      removed ones, the two never overlap, ids are given out once, a removed row stays removed for
      the same reason, and every POST carries the scan fixed at admission. */
  lemma {:induction false} Conservation(ss: seq<Sys>, acts: seq<Step>, i: nat, j: nat)
    requires FullRun(ss, acts) && i <= j < |ss|
    ensures var s, t := ss[i], ss[j];
            && t.hist.accepted.Keys == t.db.queue.Keys + t.hist.removed.Keys
            && t.db.queue.Keys !! t.hist.removed.Keys
            && (forall id :: id in t.hist.accepted <==> 1 <= id < t.db.nextId)
            && (forall id :: id in s.hist.accepted ==>
                  id in t.hist.accepted && t.hist.accepted[id] == s.hist.accepted[id])
            && (forall id :: id in s.hist.removed ==>
                  id in t.hist.removed && t.hist.removed[id] == s.hist.removed[id] && id !in t.db.queue)
            && (forall k :: 0 <= k < |t.world.net| ==>
                  var q := t.world.net[k];
                  q.id in t.hist.accepted && q == RequestOf(t.hist.accepted[q.id], q.token))
            && (forall id :: id in t.db.queue ==> SameScan(t.db.queue[id], t.hist.accepted[id]))
  {
    QueueAlways(ss, acts, j);
    GrowsAlong(ss, acts, i, j);
  }
}
