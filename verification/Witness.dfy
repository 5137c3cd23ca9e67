// Runs from the empty store that show where stored suspensions are lost: one in which an older opening
// overwrites the sender's suspension, and one in which a restart with the same token lifts it.
module Witness {
  import opened Domain
  import opened Classifier
  import opened Tables
  import opened Gates
  import opened Pipeline
  import opened Runs
  import opened GateSafety
  import opened Restarts

  const FRESH := Entry(PreflightPending, NoReason, "", NO_META)

  function Fresh(done: set<ReaderId>): map<ReaderId, Entry> {
    map q | q in done :: FRESH
  }

  /** A first start is under way and the readers of `done` are restored. */
  predicate Restoring(s: Sys, cfg: Config, done: set<ReaderId>) {
    && s.phase.Booting? && s.cfg == cfg && s.db == EMPTY_DB && s.world == World([], [], {}) && s.hist.cuts == map[]
    && s.mem == BLANK.(reg := Fresh(done))
  }

  lemma {:induction false} RestoreRest(s: Sys, cfg: Config, done: set<ReaderId>) returns (t: Sys)
    requires Reachable(s) && Restoring(s, cfg, done) && done <= cfg.creds.Keys
    ensures Reachable(t) && Restoring(t, cfg, cfg.creds.Keys)
    decreases cfg.creds.Keys - done
  {
    var left := cfg.creds.Keys - done;
    if left == {} {
      forall q | q in cfg.creds ensures q in done {
        assert q !in left;
      }
      assert done == cfg.creds.Keys;
      return s;
    }
    var q :| q in left;
    var u := s.(mem := s.mem.(reg := s.mem.reg[q := FRESH]));
    assert Fresh(done)[q := FRESH] == Fresh(done + {q});
    assert LifeStep(s, Restore(q, 0, NoFault), u);
    Extend(s, Life(Restore(q, 0, NoFault)), u);
    t := RestoreRest(u, cfg, done + {q});
  }

  /** A process has just started on an empty store. */
  predicate Started(s: Sys, cfg: Config) {
    && s.phase.Running? && s.cfg == cfg && s.db == EMPTY_DB && s.world == World([], [], {}) && s.hist.cuts == map[]
    && s.mem == Launched(BLANK.(reg := Fresh(cfg.creds.Keys)))
  }

  lemma {:induction false} Booted(cfg: Config) returns (s: Sys)
    requires ValidConfig(cfg)
    ensures Reachable(s) && Restoring(s, cfg, {})
  {
    var s0 := Sys(EMPTY_DB, Down, NO_CONFIG, BLANK, World([], [], {}), History(map[], map[], map[], map[]));
    Stay(s0, NoBan);
    assert Reachable(s0) by { hide Reaches; }
    s := s0.(phase := Booting, cfg := cfg);
    Extend(s0, Life(Boot(cfg)), s);
  }

  lemma {:induction false} Start(cfg: Config) returns (s: Sys)
    requires ValidConfig(cfg)
    ensures Reachable(s) && Started(s, cfg)
  {
    var b := Booted(cfg);
    var t := RestoreRest(b, cfg, {});
    s := t.(phase := Running, mem := Launched(t.mem));
    assert t.mem.reg.Keys == cfg.creds.Keys;
    assert LifeStep(t, Launch, s);
    Extend(t, Life(Launch), s);
  }

  /** One row is queued and due. */
  predicate Queued(s: Sys, r: ReaderId, cfg: Config, row: Row) {
    && s.phase.Running? && s.cfg == cfg && s.world == World([], [], {}) && s.hist.cuts == map[]
    && s.db.queue == map[row.id := row] && row.id < s.db.nextId && s.db.gates == map[]
    && row.reader == r && row.checkedMs == row.nextMs == row.attempts == 0
    && r in s.mem.reg && s.mem.reg[r] == FRESH
    && s.mem.snd.STop? && !s.mem.halted && r in s.mem.pre && s.mem.pre[r].PIdle? && r in s.mem.mr
    && r in s.mem.adm && s.mem.adm[r].ACommitted? && !s.mem.wake && Calm(s.mem, r)
  }

  /** Nobody is about to signal, but for the admission of `r`. */
  predicate Calm(m: Memory, r: ReaderId) {
    && (forall q :: q in m.adm && q != r ==> m.adm[q].AIdle?)
    && (forall q :: q in m.pre ==> !m.pre[q].PNotify?)
    && (forall q :: q in m.mr ==> !m.mr[q].MNotify?)
  }

  lemma {:induction false} Scan(s: Sys, r: ReaderId, cfg: Config, epc: Epc, checkedAt: string) returns (u: Sys, row: Row)
    requires Reachable(s) && Started(s, cfg) && r in cfg.creds
    ensures Reachable(u) && Queued(u, r, cfg, row)
  {
    var t := s.(mem := Admitting(s.mem, r, AChecked(epc, 0, checkedAt)));
    assert AdmitStep(s, r, Arrive(epc, 0, checkedAt), t);
    Extend(s, Admit(r, Arrive(epc, 0, checkedAt)), t);
    row := NewRow(t.db, (r, epc), 0, checkedAt);
    u := t.(db := Admitted(t.db, (r, epc), 0, checkedAt, cfg.debounce),
            mem := Admitting(t.mem, r, ACommitted),
            hist := t.hist.(accepted := t.hist.accepted[row.id := row]));
    assert AdmitStep(t, r, Commit(true), u);
    Extend(t, Admit(r, Commit(true)), u);
  }

  /** Preflight has opened the gate in memory; its notify and its persist are still to come. */
  predicate OpenedInMemory(s: Sys, r: ReaderId, cfg: Config, row: Row) {
    && s.phase.Running? && s.cfg == cfg && s.world == World([], [], {})
    && s.db.queue == map[row.id := row] && row.id < s.db.nextId && r !in s.db.gates
    && row.reader == r && row.checkedMs == row.nextMs == 0
    && r in s.mem.reg && s.mem.reg[r].state.Sendable()
    && s.mem.snd.STop? && !s.mem.halted
    && r in s.mem.pre && s.mem.pre[r].PNotify? && s.mem.pre[r].job.state.Sendable()
  }

  lemma {:induction false} Verify(s: Sys, r: ReaderId, cfg: Config, row: Row, reply: PreflightReply) returns (w: Sys)
    requires Reachable(s) && Queued(s, r, cfg, row) && r in cfg.creds && PreflightOk(reply)
    ensures Reachable(w) && OpenedInMemory(w, r, cfg, row)
  {
    var t := s.(mem := Preflighting(s.mem, r, PFlight(0)));
    assert PreStep(s, r, PreSend(0), t);
    Extend(s, Preflight(r, PreSend(0)), t);
    var u := t.(mem := Preflighting(t.mem, r, PReplied(0, reply)));
    assert PreStep(t, r, PreReceive(reply), u);
    Extend(t, Preflight(r, PreReceive(reply)), u);
    w := Decided(u, r, cfg, row, reply);
  }

  lemma {:induction false} Decided(u: Sys, r: ReaderId, cfg: Config, row: Row, reply: PreflightReply) returns (w: Sys)
    requires Reachable(u) && Queued(u.(mem := Preflighting(u.mem, r, PIdle)), r, cfg, row) && r in cfg.creds && PreflightOk(reply)
    requires r in u.mem.pre && u.mem.pre[r] == PReplied(0, reply)
    ensures Reachable(w) && OpenedInMemory(w, r, cfg, row)
  {
    var job := PreflightJob(r, 0, reply, Lookup(u.mem.reg, r), cfg.creds[r].fingerprint);
    assert job.state.Sendable();
    var v := u.(mem := Preflighting(u.mem, r, PDecided(job)));
    assert PreStep(u, r, PreRead, v);
    Extend(u, Preflight(r, PreRead), v);
    w := v.(mem := Preflighting(GateWritten(v.mem, job), r, PNotify(job)));
    assert PreStep(v, r, PreWrite, w);
    Extend(v, Preflight(r, PreWrite), w);
  }

  /** The sender has POSTed the only row. */
  predicate Sent(s: Sys, r: ReaderId, cfg: Config, row: Row) {
    && s.phase.Running? && s.cfg == cfg && |s.world.net| == 1 && s.mem.snd == SFlight(0, row, 0) && row.reader == r
    && s.db.queue == map[row.id := row]
    && r in s.mem.reg && r in s.mem.pre && s.mem.pre[r].PNotify? && s.mem.pre[r].job.state.Sendable()
  }

  /** The sender is at the top of its loop and the only row is due for a sendable reader. */
  predicate ReadyToSend(s: Sys, r: ReaderId, cfg: Config, row: Row, now: Millis) {
    && s.phase.Running? && s.cfg == cfg
    && s.db.queue == map[row.id := row] && row.id < s.db.nextId && row.reader == r && row.nextMs <= now
    && r in s.mem.reg && s.mem.reg[r].state.Sendable() && s.mem.snd.STop? && !s.mem.halted
  }

  lemma {:induction false} Picked(s: Sys, r: ReaderId, cfg: Config, row: Row, now: Millis, ban: Ban) returns (v: Sys)
    requires ReadyToSend(s, r, cfg, row, now)
    ensures Reaches(s, ban, v) && v == Sending(s, SItem(now, row))
  {
    Stay(s, ban);
    var t := Sending(s, SPoll);
    assert PollStep(s, CheckHalt, t);
    Works(s, ban, s, Poll(CheckHalt), t);
    var u := Sending(t, SGates(now, SendableReaders(t.mem.reg)));
    assert PollStep(t, ReadGates(now), u);
    Works(s, ban, t, Poll(ReadGates(now)), u);
    v := Sending(s, SItem(now, row));
    assert row.id in DueIds(u.db, now, SendableReaders(t.mem.reg));
    assert PollStep(u, Pick, v);
    Works(s, ban, u, Poll(Pick), v);
  }

  lemma {:induction false} PostOnly(s: Sys, r: ReaderId, cfg: Config, row: Row, now: Millis, ban: Ban) returns (w: Sys)
    requires ReadyToSend(s, r, cfg, row, now) && r in cfg.creds && !TooOld(row, now, cfg.maxAge)
    ensures Reaches(s, ban, w) && w.phase == s.phase && w.cfg == cfg && w.db == s.db && w.hist == s.hist
    ensures w.mem == s.mem.(snd := SFlight(now, row, |s.world.net|))
    ensures w.world == s.world.(net := s.world.net + [RequestOf(row, cfg.creds[r].token)])
  {
    var v := Picked(s, r, cfg, row, now, ban);
    w := Sending(v.(world := v.world.(net := v.world.net + [RequestOf(row, cfg.creds[r].token)])), SFlight(now, row, |s.world.net|));
    assert DeliverStep(v, Post, w);
    Works(s, ban, v, Deliver(Post), w);
  }

  lemma {:induction false} Send(s: Sys, r: ReaderId, cfg: Config, row: Row) returns (w: Sys)
    requires Reachable(s) && OpenedInMemory(s, r, cfg, row) && r in cfg.creds
    ensures Reachable(w) && Sent(w, r, cfg, row)
  {
    hide Reachable, Reaches;
    w := PostOnly(s, r, cfg, row, 0, NoBan);
    ReachableOn(s, NoBan, w);
  }

  /** The row is gone and the reader is about to be suspended. */
  predicate Revoked404(s: Sys, r: ReaderId, cfg: Config) {
    && s.phase.Running? && s.cfg == cfg && s.db.queue == map[] && s.mem.snd == SSuspend(0, r)
    && r in s.mem.reg && r in s.mem.pre && s.mem.pre[r].PNotify? && s.mem.pre[r].job.state.Sendable()
  }

  lemma {:induction false} Revoke(s: Sys, r: ReaderId, cfg: Config, row: Row, reply: Reply) returns (v: Sys)
    requires Reachable(s) && Sent(s, r, cfg, row) && Decide(reply).SuspendReader?
    ensures Reachable(v) && Revoked404(v, r, cfg)
  {
    var t := s.(world := s.world.(replies := s.world.replies + {(0, reply)}));
    assert ServerStep(s, Answer(0, reply), t);
    Extend(s, Server(Answer(0, reply)), t);
    var u := Sending(t, SReply(0, row, 0, reply));
    assert DeliverStep(t, Receive(reply), u);
    Extend(t, Deliver(Receive(reply)), u);
    v := Settled(u, 0, row, u.world.net[0].token, Decide(reply), true);
    assert DeliverStep(u, Settle(true), v);
    Extend(u, Deliver(Settle(true)), v);
  }

  /** The sender's suspension is in memory and in the store, nothing is queued, and an earlier opening is
      still unstored. */
  predicate SuspendedBySender(s: Sys, r: ReaderId, cfg: Config) {
    && s.phase.Running? && s.cfg == cfg && s.db.queue == map[]
    && InMemory(s.mem, r) && OpeningUnstored(s.mem, r)
    && r in s.db.gates && s.db.gates[r].state.SuspendedToken? && s.db.gates[r].fingerprint == ""
    && InFlight(s.mem.snd).None?
  }

  lemma {:induction false} Suspend(s: Sys, r: ReaderId, cfg: Config) returns (v: Sys)
    requires Reachable(s) && Revoked404(s, r, cfg)
    ensures Reachable(v) && SuspendedBySender(v, r, cfg)
  {
    var job := Revocation(r, 0);
    var t := Sending(s.(mem := GateWritten(s.mem, job)), SNotify(job));
    assert CloseStep(s, SuspendWrite, t);
    Extend(s, Close(SuspendWrite), t);
    var u := t.(mem := t.mem.(changed := true, snd := SPersist(job)));
    assert CloseStep(t, SenderNotify, u);
    Extend(t, Close(SenderNotify), u);
    v := Sending(GatePersisted(u, job, true), STop);
    assert CloseStep(u, SenderPersist(true), v);
    Extend(u, Close(SenderPersist(true)), v);
  }

  /** For every configuration, every reader of it, every scan, every valid preflight reply and every reply
      that revokes the token, such a state is reached from the empty store. */
  lemma {:induction false} SuspensionReached(r: ReaderId, cfg: Config, epc: Epc, checkedAt: string, ok: PreflightReply, revoked: Reply)
    returns (s: Sys)
    requires ValidConfig(cfg) && r in cfg.creds && PreflightOk(ok) && Decide(revoked).SuspendReader?
    ensures Reachable(s) && SuspendedBySender(s, r, cfg)
  {
    hide Reachable, Next, Started, Queued, OpenedInMemory, Sent, Revoked404, SuspendedBySender;
    var a := Start(cfg);
    var b, row := Scan(a, r, cfg, epc, checkedAt);
    var c := Verify(b, r, cfg, row, ok);
    var d := Send(c, r, cfg, row);
    var e := Revoke(d, r, cfg, row, revoked);
    s := Suspend(e, r, cfg);
  }

  /** The race is real: from the empty store a run leads to a stored token suspension that an older opening
      then overwrites, in the same process. */
  lemma {:induction false} LatePersistReachable(r: ReaderId, cfg: Config, epc: Epc, checkedAt: string, ok: PreflightReply, revoked: Reply)
    returns (s: Sys, ss: seq<Sys>, acts: seq<Step>)
    requires ValidConfig(cfg) && r in cfg.creds && PreflightOk(ok) && Decide(revoked).SuspendReader?
    ensures Reachable(s) && s.phase.Running? && InMemory(s.mem, r) && InStore(s.db, r)
    ensures Run(ss, acts) && ss[0] == s && SameProcess(acts, 0, |acts|) && !InStore(ss[|acts|].db, r)
  {
    hide Reachable, Next;
    s := SuspensionReached(r, cfg, epc, checkedAt, ok, revoked);
    ReachableGates(s);
    ss, acts := LatePersistWins(s, r);
  }

  /** A restart does not keep a reader that a revoked token stopped: the sender's suspension is in memory and
      in the store, the process crashes and starts again with the very same configuration and token, and
      restoring the reader leaves it PREFLIGHT_PENDING in memory and in the store. */
  lemma {:induction false} SameTokenLifted(r: ReaderId, cfg: Config, epc: Epc, checkedAt: string, ok: PreflightReply, revoked: Reply)
    returns (ss: seq<Sys>, acts: seq<Step>)
    requires ValidConfig(cfg) && r in cfg.creds && PreflightOk(ok) && Decide(revoked).SuspendReader?
    ensures Run(ss, acts) && acts == [Life(Crash), Life(Boot(cfg)), Life(Restore(r, 0, NoFault))]
    ensures Reachable(ss[0]) && ss[0].cfg == cfg && InMemory(ss[0].mem, r) && InStore(ss[0].db, r)
    ensures r in ss[3].mem.reg && ss[3].mem.reg[r].state.PreflightPending?
    ensures r in ss[3].db.gates && ss[3].db.gates[r].state.PreflightPending?
  {
    var s := SuspensionReached(r, cfg, epc, checkedAt, ok, revoked);
    hide Reachable;
    var t, u, v := RestartLifts(s, r, cfg);
    hide Next;
    ss, acts := [s, t, u, v], [Life(Crash), Life(Boot(cfg)), Life(Restore(r, 0, NoFault))];
  }

  lemma {:induction false} RestartLifts(s: Sys, r: ReaderId, cfg: Config) returns (t: Sys, u: Sys, v: Sys)
    requires SuspendedBySender(s, r, cfg) && ValidConfig(cfg) && r in cfg.creds
    ensures Next(s, Life(Crash), t) && Next(t, Life(Boot(cfg)), u) && Next(u, Life(Restore(r, 0, NoFault)), v)
    ensures r in v.mem.reg && v.mem.reg[r].state.PreflightPending?
    ensures r in v.db.gates && v.db.gates[r].state.PreflightPending?
  {
    t := s.(phase := Down, mem := BLANK);
    assert LifeStep(s, Crash, t);
    u := t.(phase := Booting, cfg := cfg);
    assert LifeStep(t, Boot(cfg), u);
    var fingerprint := cfg.creds[r].fingerprint;
    v := u.(db := RestoredDb(u.db, r, fingerprint, 0, NoFault),
            mem := u.mem.(reg := u.mem.reg[r := RestoredEntry(u.db, r, fingerprint, NoFault)]));
    assert PendingIds(u.db, r) == {};
    assert LifeStep(u, Restore(r, 0, NoFault), v);
  }
}
