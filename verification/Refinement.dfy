// The objects and the state machine say the same: what one call of Deliver, Handle, Attempt, Tick,
// RestoreGates or QueueResume does at once, the machine does in its separate steps, when no other actor
// moves in between.
module Refinement {
  import opened Domain
  import opened Classifier
  import opened Tables
  import opened Gates
  import opened Pipeline
  import opened Runs
  import opened RegistryObject
  import opened SenderObject
  import opened AdmissionObject

  // ---- Store methods ----

  /** The machine's deletions are the store's. */
  lemma {:induction false} DeleteMatches(s: Sys, id: nat, cutoff: Millis, r: ReaderId, why: Removal)
    ensures Delete(s, {id}, why).db == Completed(s.db, id)
    ensures Delete(s, ExpiredIds(s.db, cutoff), why).db == Expired(s.db, cutoff)
    ensures Delete(s, PendingIds(s.db, r), why).db == Discarded(s.db, r)
  {
  }

  lemma {:induction false} SettledMatches(s: Sys, now: Millis, row: Row, token: string, d: Decision, ok: bool)
    ensures var t := Settled(s, now, row, token, d, ok);
            && t.db == SettledDb(s.db, row, now, d, ok)
            && t.mem == s.mem.(snd := t.mem.snd) && t.phase == s.phase && t.cfg == s.cfg && t.world == s.world
            && t.mem.snd == match d case SuspendReader => SSuspend(now, row.reader) case HaltGlobal => SHalt case _ => STop
  {
  }

  // ---- Deliver ----

  /** The machine is where Deliver ends. */
  ghost predicate Delivered(s: Sys, t: Sys, item: Row, now: Millis, res: Reply, ok: bool, stored: bool) {
    && t.mem.snd.STop?
    && t.db == DeliveredDb(s.db, s.cfg.creds, item, now, s.cfg.maxAge, res, ok, stored)
    && t.mem.reg == DeliveredEntries(s.mem.reg, s.cfg.creds, item, now, s.cfg.maxAge, res)
    && t.mem.halted == (s.mem.halted || Halts(s.cfg.creds, item, now, s.cfg.maxAge, res))
    && t.mem.changed == (s.mem.changed || Halts(s.cfg.creds, item, now, s.cfg.maxAge, res) ||
                         ClosingJob(s.cfg.creds, item, now, s.cfg.maxAge, res).Some?)
  }

  /** Notify and persist, after the memory write of a gate. */
  lemma {:induction false} CloseRuns(u: Sys, job: Job, stored: bool) returns (w: Sys)
    requires u.phase.Running? && u.mem.snd == SNotify(job)
    ensures Reaches(u, Crashes, w) && w.mem == u.mem.(changed := true, snd := STop)
    ensures w.db == if stored then Persisted(u.db, job) else u.db
  {
    Stay(u, Crashes);
    var v := u.(mem := u.mem.(changed := true, snd := SPersist(job)));
    assert CloseStep(u, SenderNotify, v);
    Works(u, Crashes, u, Close(SenderNotify), v);
    w := Sending(GatePersisted(v, job, stored), STop);
    assert CloseStep(v, SenderPersist(stored), w);
    Works(u, Crashes, v, Close(SenderPersist(stored)), w);
  }

  lemma {:induction false} SuspendRuns(t: Sys, now: Millis, r: ReaderId, stored: bool) returns (w: Sys)
    requires t.phase.Running? && t.mem.snd == SSuspend(now, r)
    ensures var job := Revocation(r, now);
            && Reaches(t, Crashes, w) && w.mem == t.mem.(reg := WriteEntries(t.mem.reg, job), changed := true, snd := STop)
            && w.db == if stored then Persisted(t.db, job) else t.db
  {
    Stay(t, Crashes);
    var job := Revocation(r, now);
    var u := Sending(t.(mem := GateWritten(t.mem, job)), SNotify(job));
    assert CloseStep(t, SuspendWrite, u);
    Works(t, Crashes, t, Close(SuspendWrite), u);
    w := CloseRuns(u, job, stored);
    Join(t, Crashes, u, w);
  }

  lemma {:induction false} HaltRuns(t: Sys) returns (w: Sys)
    requires t.phase.Running? && t.mem.snd == SHalt
    ensures Reaches(t, Crashes, w) && w == t.(mem := t.mem.(halted := true, changed := true, snd := STop))
  {
    Stay(t, Crashes);
    var u := t.(mem := t.mem.(halted := true, snd := SHaltNotify));
    assert CloseStep(t, Halt, u);
    Works(t, Crashes, t, Close(Halt), u);
    w := u.(mem := u.mem.(changed := true, snd := STop));
    assert CloseStep(u, HaltNotify, w);
    Works(t, Crashes, u, Close(HaltNotify), w);
  }

  lemma {:induction false} SettleRuns(s: Sys, row: Row, now: Millis, request: nat, res: Reply, ok: bool) returns (t: Sys)
    requires s.phase.Running? && s.mem.snd == SReply(now, row, request, res) && request < |s.world.net|
    ensures Reaches(s, Crashes, t) && t.phase.Running? && t.db == SettledDb(s.db, row, now, Decide(res), ok)
    ensures t.mem == s.mem.(snd := match Decide(res)
                                   case SuspendReader => SSuspend(now, row.reader) case HaltGlobal => SHalt case _ => STop)
  {
    var d, token := Decide(res), s.world.net[request].token;
    t := Settled(s, now, row, token, d, ok);
    SettledMatches(s, now, row, token, d, ok);
    hide Settled, SettledDb;
    assert DeliverStep(s, Settle(ok), t);
    Stay(s, Crashes);
    Works(s, Crashes, s, Deliver(Settle(ok)), t);
  }

  /** The end of a POSTed delivery, piece by piece. */
  lemma {:induction false} DeliveredBy(s: Sys, w: Sys, row: Row, now: Millis, res: Reply, ok: bool, stored: bool)
    requires WillPost(s.cfg.creds, row, now, s.cfg.maxAge) && w.mem.snd.STop?
    requires var rows := SettledDb(s.db, row, now, Decide(res), ok);
             w.db == if Decide(res).SuspendReader? && stored then Persisted(rows, Revocation(row.reader, now)) else rows
    requires w.mem.reg == if Decide(res).SuspendReader? then WriteEntries(s.mem.reg, Revocation(row.reader, now)) else s.mem.reg
    requires w.mem.halted == (s.mem.halted || Decide(res).HaltGlobal?)
    requires w.mem.changed == (s.mem.changed || Decide(res).HaltGlobal? || Decide(res).SuspendReader?)
    ensures Delivered(s, w, row, now, res, ok, stored)
  {
    hide SettledDb, Decide, Persisted, WriteEntries;
  }

  /** With the reply in hand: settle, then close the gate or halt. */
  lemma {:induction false} ReplyRuns(s: Sys, row: Row, now: Millis, request: nat, res: Reply, ok: bool, stored: bool) returns (w: Sys)
    requires s.phase.Running? && s.mem.snd == SReply(now, row, request, res) && request < |s.world.net|
    requires WillPost(s.cfg.creds, row, now, s.cfg.maxAge)
    ensures Reaches(s, Crashes, w) && Delivered(s, w, row, now, res, ok, stored)
  {
    hide Reaches, SettledDb, Decide, Persisted, WriteEntries, Delivered, WillPost;
    w := SettleRuns(s, row, now, request, res, ok);
    match Decide(res) {
      case SuspendReader =>
        var t := w;
        w := SuspendRuns(t, now, row.reader, stored);
        Join(s, Crashes, t, w);
      case HaltGlobal =>
        var t := w;
        w := HaltRuns(t);
        Join(s, Crashes, t, w);
      case _ =>
    }
    DeliveredBy(s, w, row, now, res, ok, stored);
  }

  lemma {:induction false} AgedRuns(s: Sys, row: Row, now: Millis, ok: bool) returns (w: Sys)
    requires s.phase.Running? && s.mem.snd == SItem(now, row) && TooOld(row, now, s.cfg.maxAge)
    ensures Reaches(s, Crashes, w) && w.mem == s.mem.(snd := STop) && w.db == SettledDb(s.db, row, now, Drop, ok)
  {
    Stay(s, Crashes);
    DeleteMatches(s, row.id, 0, row.reader, Removal.Aged);
    w := Sending(if ok then Delete(s, {row.id}, Removal.Aged) else s, STop);
    assert DeliverStep(s, DropAged(ok), w);
    Works(s, Crashes, s, Deliver(DropAged(ok)), w);
  }

  lemma {:induction false} UnconfiguredRuns(s: Sys, row: Row, now: Millis, stored: bool) returns (w: Sys)
    requires s.phase.Running? && s.mem.snd == SItem(now, row) && !TooOld(row, now, s.cfg.maxAge) && row.reader !in s.cfg.creds
    ensures var job := Unconfigured(row.reader, now);
            && Reaches(s, Crashes, w) && w.mem == s.mem.(reg := WriteEntries(s.mem.reg, job), changed := true, snd := STop)
            && w.db == if stored then Persisted(s.db, job) else s.db
  {
    Stay(s, Crashes);
    var job := Unconfigured(row.reader, now);
    var t := Sending(s.(mem := GateWritten(s.mem, job)), SNotify(job));
    assert DeliverStep(s, TokenMissing, t);
    Works(s, Crashes, s, Deliver(TokenMissing), t);
    w := CloseRuns(t, job, stored);
    Join(s, Crashes, t, w);
  }

  /** Without a POST: the row is too old, or its reader has no token. */
  lemma {:induction false} NoPostRuns(s: Sys, row: Row, now: Millis, res: Reply, ok: bool, stored: bool) returns (w: Sys)
    requires s.phase.Running? && s.mem.snd == SItem(now, row) && !WillPost(s.cfg.creds, row, now, s.cfg.maxAge)
    ensures Reaches(s, Crashes, w) && Delivered(s, w, row, now, res, ok, stored)
  {
    hide Reaches, SettledDb, Decide, Persisted, WriteEntries;
    if TooOld(row, now, s.cfg.maxAge) {
      w := AgedRuns(s, row, now, ok);
    } else {
      w := UnconfiguredRuns(s, row, now, stored);
    }
  }

  /** A row in hand, the answer the server gives and what the store takes: the machine can finish the
      delivery alone, and then its tables, registry, halt and change signal are those Deliver computes. */
  lemma {:induction false} DeliverMatchesMachine(s: Sys, row: Row, now: Millis, request: nat, res: Reply, ok: bool, stored: bool)
    returns (w: Sys)
    requires s.phase.Running?
    requires if WillPost(s.cfg.creds, row, now, s.cfg.maxAge)
             then s.mem.snd == SReply(now, row, request, res) && request < |s.world.net|
             else s.mem.snd == SItem(now, row)
    ensures Reaches(s, Crashes, w) && Delivered(s, w, row, now, res, ok, stored)
  {
    hide Reaches, Delivered;
    if WillPost(s.cfg.creds, row, now, s.cfg.maxAge) {
      w := ReplyRuns(s, row, now, request, res, ok, stored);
    } else {
      w := NoPostRuns(s, row, now, res, ok, stored);
    }
  }

  // ---- Handle ----

  /** A read handed to admission: the machine refuses it exactly when Handle does; otherwise its steps end
      with the tables and the wake-up Handle leaves. */
  lemma {:induction false} HandleMatchesMachine(s: Sys, r: ReaderId, epc: Epc, at: Millis, checkedAt: string, ok: bool)
    returns (w: Sys)
    requires s.phase.Running? && r in s.mem.adm && s.mem.adm[r].AIdle?
    ensures var out := OutcomeOf(s.db, s.mem.reg, (r, epc), at, s.cfg.debounce, ok);
            && (out.DroppedSuspended? <==> !exists t :: Next(s, Admit(r, Arrive(epc, at, checkedAt)), t))
            && (!out.DroppedSuspended? ==>
                  && Reaches(s, Crashes, w) && w.mem.adm == s.mem.adm && w.mem.wake == (s.mem.wake || out.Enqueued?)
                  && w.db == if out.Enqueued? then Admitted(s.db, (r, epc), at, checkedAt, s.cfg.debounce) else s.db)
  {
    w := s;
    if Closed(s.mem.reg, r) {
      return;
    }
    var t := s.(mem := Admitting(s.mem, r, AChecked(epc, at, checkedAt)));
    assert AdmitStep(s, r, Arrive(epc, at, checkedAt), t);
    assert Next(s, Admit(r, Arrive(epc, at, checkedAt)), t);
    Stay(s, Crashes);
    Works(s, Crashes, s, Admit(r, Arrive(epc, at, checkedAt)), t);
    w := CommitRuns(t, r, ok);
    Join(s, Crashes, t, w);
  }

  lemma {:induction false} CommitRuns(t: Sys, r: ReaderId, ok: bool) returns (w: Sys)
    requires t.phase.Running? && r in t.mem.adm && t.mem.adm[r].AChecked?
    ensures var pc := t.mem.adm[r];
            var queued := ok && !Debounced(t.db, (r, pc.epc), pc.at, t.cfg.debounce);
            && Reaches(t, Crashes, w) && w.mem == t.mem.(adm := t.mem.adm[r := AIdle], wake := t.mem.wake || queued)
            && w.db == if queued then Admitted(t.db, (r, pc.epc), pc.at, pc.checkedAt, t.cfg.debounce) else t.db
  {
    Stay(t, Crashes);
    var pc := t.mem.adm[r];
    var key := (r, pc.epc);
    if ok && !Debounced(t.db, key, pc.at, t.cfg.debounce) {
      var row := NewRow(t.db, key, pc.at, pc.checkedAt);
      var u := t.(db := Admitted(t.db, key, pc.at, pc.checkedAt, t.cfg.debounce),
                  mem := Admitting(t.mem, r, ACommitted),
                  hist := t.hist.(accepted := t.hist.accepted[row.id := row]));
      assert AdmitStep(t, r, Commit(ok), u);
      Works(t, Crashes, t, Admit(r, Commit(ok)), u);
      w := u.(mem := Admitting(u.mem.(wake := true), r, AIdle));
      assert AdmitStep(u, r, SignalWake, w);
      Works(t, Crashes, u, Admit(r, SignalWake), w);
    } else {
      w := t.(mem := Admitting(t.mem, r, AIdle));
      assert AdmitStep(t, r, Commit(ok), w);
      Works(t, Crashes, t, Admit(r, Commit(ok)), w);
    }
  }

  // ---- Gate writers ----

  /** The machine after a preflight attempt on its own. */
  function Attempted(s: Sys, r: ReaderId, job: Job, stored: bool): Sys {
    s.(db := if stored then Persisted(s.db, job) else s.db,
       mem := Preflighting(GateWritten(s.mem, job).(changed := true), r, if job.state.PreflightRetry? then PIdle else PDone))
  }

  lemma {:induction false} AttemptWrites(s: Sys, r: ReaderId, now: Millis, reply: PreflightReply, job: Job, ban: Ban) returns (u: Sys)
    requires s.phase.Running? && r in s.cfg.creds && r in s.mem.pre && s.mem.pre[r] == PReplied(now, reply)
    requires job == PreflightJob(r, now, reply, Lookup(s.mem.reg, r), s.cfg.creds[r].fingerprint) && job.reader == r
    ensures Reaches(s, ban, u) && u == s.(mem := Preflighting(GateWritten(s.mem, job), r, PNotify(job)))
  {
    hide PreflightJob;
    Stay(s, ban);
    var t := s.(mem := Preflighting(s.mem, r, PDecided(job)));
    assert PreStep(s, r, PreRead, t);
    Works(s, ban, s, Preflight(r, PreRead), t);
    u := t.(mem := Preflighting(GateWritten(t.mem, job), r, PNotify(job)));
    assert PreStep(t, r, PreWrite, u);
    Works(s, ban, t, Preflight(r, PreWrite), u);
    hide Reaches, PreStep;
    assert s.mem.pre[r := PDecided(job)][r := PNotify(job)] == s.mem.pre[r := PNotify(job)];
  }

  /** A preflight reply in hand: read, write, notify and persist end with the registry entry and the gate row
      that Attempt leaves, and preflight is done exactly when Attempt is conclusive. */
  lemma {:induction false} AttemptMatchesMachine(s: Sys, r: ReaderId, now: Millis, reply: PreflightReply, stored: bool, ban: Ban) returns (w: Sys)
    requires s.phase.Running? && r in s.cfg.creds && r in s.mem.pre && s.mem.pre[r] == PReplied(now, reply)
    ensures Reaches(s, ban, w)
    ensures w == Attempted(s, r, PreflightJob(r, now, reply, Lookup(s.mem.reg, r), s.cfg.creds[r].fingerprint), stored)
  {
    var job := PreflightJob(r, now, reply, Lookup(s.mem.reg, r), s.cfg.creds[r].fingerprint);
    assert job.reader == r;
    hide PreflightJob;
    var u := AttemptWrites(s, r, now, reply, job, ban);
    hide Reaches;
    w := AttemptEnds(u, r, job, stored, ban);
    Join(s, ban, u, w);
    var last := if job.state.PreflightRetry? then PIdle else PDone;
    assert s.mem.pre[r := PNotify(job)][r := last] == s.mem.pre[r := last];
  }

  lemma {:induction false} AttemptEnds(u: Sys, r: ReaderId, job: Job, stored: bool, ban: Ban) returns (w: Sys)
    requires u.phase.Running? && r in u.cfg.creds && r in u.mem.pre && u.mem.pre[r] == PNotify(job)
    ensures Reaches(u, ban, w)
    ensures w == u.(db := if stored then Persisted(u.db, job) else u.db,
                    mem := Preflighting(u.mem.(changed := true), r, if job.state.PreflightRetry? then PIdle else PDone))
  {
    Stay(u, ban);
    var last := if job.state.PreflightRetry? then PIdle else PDone;
    var v := u.(mem := Preflighting(u.mem.(changed := true), r, PPersist(job)));
    assert PreStep(u, r, PreNotify, v);
    Works(u, ban, u, Preflight(r, PreNotify), v);
    w := GatePersisted(v, job, stored).(mem := Preflighting(v.mem, r, last));
    assert PreStep(v, r, PrePersist(stored), w);
    Works(u, ban, v, Preflight(r, PrePersist(stored)), w);
    hide Reaches, PreStep;
    assert v.mem.pre[r := last] == u.mem.pre[r := last];
  }

  /** What Tick leaves, given a reply. */
  ghost predicate Ticked(s: Sys, w: Sys, r: ReaderId, now: Millis, reply: PreflightReply, stored: bool) {
    var e := Lookup(s.mem.reg, r);
    if PreflightOk(reply) && RefreshApplies(e, reply.meta.value) then
      var job := RefreshJob(r, now, reply.meta.value, e.value);
      && w.mem.reg == WriteEntries(s.mem.reg, job) && w.mem.changed
      && w.db == if stored then Persisted(s.db, job) else s.db
    else w.mem.reg == s.mem.reg && w.mem.changed == s.mem.changed && w.db == s.db
  }

  /** A refresh can start exactly for a sendable reader; on its own it ends as Tick does. */
  lemma {:induction false} TickMatchesMachine(s: Sys, r: ReaderId, now: Millis, reply: PreflightReply, stored: bool) returns (w: Sys)
    requires s.phase.Running? && r in s.mem.mr && s.mem.mr[r].MIdle?
    ensures (exists t :: Next(s, Refresh(r, MetaCheck), t)) <==> r in s.mem.reg && s.mem.reg[r].state.Sendable()
    ensures r in s.mem.reg && s.mem.reg[r].state.Sendable() ==> Reaches(s, Crashes, w) && Ticked(s, w, r, now, reply, stored)
    ensures !(r in s.mem.reg && s.mem.reg[r].state.Sendable()) ==> Ticked(s, s, r, now, reply, stored)
  {
    w := s;
    if r in s.mem.reg && s.mem.reg[r].state.Sendable() {
      Stay(s, Crashes);
      var t := s.(mem := Refreshing(s.mem, r, MFlight));
      assert MetaStep(s, r, MetaCheck, t);
      assert Next(s, Refresh(r, MetaCheck), t);
      Works(s, Crashes, s, Refresh(r, MetaCheck), t);
      var u := t.(mem := Refreshing(t.mem, r, if PreflightOk(reply) then MReplied(reply.meta.value) else MIdle));
      assert MetaStep(t, r, MetaReceive(reply), u);
      Works(s, Crashes, t, Refresh(r, MetaReceive(reply)), u);
      w := u;
      if PreflightOk(reply) {
        w := RefreshRuns(u, r, now, reply.meta.value, stored);
        Join(s, Crashes, u, w);
      }
    }
  }

  lemma {:induction false} RefreshRuns(u: Sys, r: ReaderId, now: Millis, meta: GateMeta, stored: bool) returns (w: Sys)
    requires u.phase.Running? && r in u.mem.mr && u.mem.mr[r] == MReplied(meta) && r in u.mem.reg
    ensures Reaches(u, Crashes, w)
    ensures RefreshApplies(Lookup(u.mem.reg, r), meta) ==>
              var job := RefreshJob(r, now, meta, u.mem.reg[r]);
              && w.mem.reg == WriteEntries(u.mem.reg, job) && w.mem.changed
              && w.db == if stored then Persisted(u.db, job) else u.db
    ensures !RefreshApplies(Lookup(u.mem.reg, r), meta) ==>
              w.mem.reg == u.mem.reg && w.mem.changed == u.mem.changed && w.db == u.db
  {
    Stay(u, Crashes);
    if RefreshApplies(Lookup(u.mem.reg, r), meta) {
      var job := RefreshJob(r, now, meta, u.mem.reg[r]);
      var v := u.(mem := Refreshing(GateWritten(u.mem, job), r, MNotify(job)));
      assert MetaStep(u, r, MetaWrite(now), v);
      Works(u, Crashes, u, Refresh(r, MetaWrite(now)), v);
      w := RefreshEnds(v, r, job, stored);
      Join(u, Crashes, v, w);
    } else {
      w := u.(mem := Refreshing(u.mem, r, MIdle));
      assert MetaStep(u, r, MetaWrite(now), w);
      Works(u, Crashes, u, Refresh(r, MetaWrite(now)), w);
    }
  }

  lemma {:induction false} RefreshEnds(v: Sys, r: ReaderId, job: Job, stored: bool) returns (w: Sys)
    requires v.phase.Running? && r in v.mem.mr && v.mem.mr[r] == MNotify(job)
    ensures Reaches(v, Crashes, w) && w.mem.reg == v.mem.reg && w.mem.changed
    ensures w.db == if stored then Persisted(v.db, job) else v.db
  {
    Stay(v, Crashes);
    var x := v.(mem := Refreshing(v.mem.(changed := true), r, MPersist(job)));
    assert MetaStep(v, r, MetaNotify, x);
    Works(v, Crashes, v, Refresh(r, MetaNotify), x);
    w := GatePersisted(x, job, stored).(mem := Refreshing(x.mem, r, MIdle));
    assert MetaStep(x, r, MetaPersist(stored), w);
    Works(v, Crashes, x, Refresh(r, MetaPersist(stored)), w);
  }

  // ---- Restore and resume ----

  /** A start that has restored all readers but `left`, from the tables `db`, restores those one by one, in
      any order, to what RestoreGates leaves. */
  lemma {:induction false} RestoreMatchesMachine(db: Db, t: Sys, left: set<ReaderId>, now: Millis, faults: map<ReaderId, Fault>)
    returns (w: Sys)
    requires t.phase.Booting? && left <= t.cfg.creds.Keys
    requires RestoredAll(db, t.db, t.mem.reg, t.cfg.creds, t.cfg.creds.Keys - left, now, faults)
    ensures Reaches(t, Crashes, w) && w.phase.Booting? && w.cfg == t.cfg
    ensures RestoredAll(db, w.db, w.mem.reg, w.cfg.creds, w.cfg.creds.Keys, now, faults)
    decreases left
  {
    if left == {} {
      assert t.cfg.creds.Keys - left == t.cfg.creds.Keys;
      Stay(t, Crashes);
      return t;
    }
    hide Reaches, RestoredAll;
    var r :| r in left;
    var u := RestoreOneRuns(db, t, left, r, now, faults);
    w := RestoreMatchesMachine(db, u, left - {r}, now, faults);
    Join(t, Crashes, u, w);
  }

  lemma {:induction false} RestoreOneRuns(db: Db, t: Sys, left: set<ReaderId>, r: ReaderId, now: Millis, faults: map<ReaderId, Fault>)
    returns (u: Sys)
    requires t.phase.Booting? && r in left && left <= t.cfg.creds.Keys
    requires RestoredAll(db, t.db, t.mem.reg, t.cfg.creds, t.cfg.creds.Keys - left, now, faults)
    ensures Reaches(t, Crashes, u) && u.phase.Booting? && u.cfg == t.cfg
    ensures RestoredAll(db, u.db, u.mem.reg, u.cfg.creds, u.cfg.creds.Keys - (left - {r}), now, faults)
  {
    var fingerprint, fault := t.cfg.creds[r].fingerprint, FaultOf(faults, r);
    u := t.(db := RestoredDb(t.db, r, fingerprint, now, fault),
            mem := t.mem.(reg := t.mem.reg[r := RestoredEntry(t.db, r, fingerprint, fault)]));
    assert LifeStep(t, Restore(r, now, fault), u);
    Stay(t, Crashes);
    Onward(t, Crashes, t, Life(Restore(r, now, fault)), u);
    hide Reaches, LifeStep;
    SameReaderRestored(db, t.db, r, fingerprint, now, fault);
    RestoredMore(db, t.db, u.db, t.mem.reg, u.mem.reg, t.cfg.creds, left, r, now, faults);
  }

  /** Restoring depends on the reader's own row and on the queue. */
  lemma {:induction false} SameReaderRestored(db: Db, mid: Db, r: ReaderId, fingerprint: string, now: Millis, fault: Fault)
    requires mid == db.(gates := mid.gates) && Lookup(mid.gates, r) == Lookup(db.gates, r)
    ensures RestoredEntry(mid, r, fingerprint, fault) == RestoredEntry(db, r, fingerprint, fault)
    ensures var after := RestoredDb(mid, r, fingerprint, now, fault);
            && after == mid.(gates := after.gates)
            && Lookup(after.gates, r) == Lookup(RestoredDb(db, r, fingerprint, now, fault).gates, r)
            && forall q :: q != r ==> Lookup(after.gates, q) == Lookup(mid.gates, q)
  {
    assert PendingIds(mid, r) == PendingIds(db, r);
  }

  lemma {:induction false} DiscardRuns(s: Sys, r: ReaderId) returns (t: Sys)
    requires Resumable(s, r)
    ensures Reaches(s, Crashes, t) && t.phase == s.phase && t.db == Discarded(s.db, r) && Resumable(t, r)
  {
    Stay(s, Crashes);
    DeleteMatches(s, 0, 0, r, Thrown);
    t := Delete(s, PendingIds(s.db, r), Thrown);
    assert LifeStep(s, ResumeDiscard(r), t);
    Onward(s, Crashes, s, Life(ResumeDiscard(r)), t);
  }

  lemma {:induction false} ResumeRuns(t: Sys, r: ReaderId, now: Millis) returns (w: Sys)
    requires Resumable(t, r)
    ensures Reaches(t, Crashes, w) && w.db == Resumed(t.db, r, now)
  {
    Stay(t, Crashes);
    w := t.(db := Resumed(t.db, r, now));
    assert LifeStep(t, ResumeSet(r, now), w);
    Onward(t, Crashes, t, Life(ResumeSet(r, now)), w);
  }

  /** A stopped machine allows a resume exactly for a suspended reader, and it leaves the tables as
      QueueResume does. */
  lemma {:induction false} ResumeMatchesMachine(s: Sys, r: ReaderId, discard: bool, now: Millis) returns (w: Sys)
    requires s.phase.Down?
    ensures (exists t :: Next(s, Life(ResumeSet(r, now)), t)) <==> r in s.db.gates && s.db.gates[r].state.Suspended()
    ensures r in s.db.gates && s.db.gates[r].state.Suspended() ==>
              Reaches(s, Crashes, w) && w.db == Resumed(if discard then Discarded(s.db, r) else s.db, r, now)
  {
    w := s;
    if r in s.db.gates && s.db.gates[r].state.Suspended() {
      assert LifeStep(s, ResumeSet(r, now), s.(db := Resumed(s.db, r, now)));
      assert Next(s, Life(ResumeSet(r, now)), s.(db := Resumed(s.db, r, now)));
      Stay(s, Crashes);
      if discard {
        w := DiscardRuns(s, r);
      }
      var t := w;
      w := ResumeRuns(t, r, now);
      Join(s, Crashes, t, w);
    }
  }
}
