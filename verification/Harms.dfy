// Runs that show what two swallowed failures lead to: a reader that sends although the store says it is
// suspended, and rows of one booth sent with the token of another.
module Harms {
  import opened Domain
  import opened Classifier
  import opened Tables
  import opened Gates
  import opened Pipeline
  import opened Runs
  import opened Refinement
  import opened Witness

  /** One whole preflight attempt with a given reply. */
  lemma {:induction false} Preflighted(s: Sys, r: ReaderId, reply: PreflightReply, stored: bool, ban: Ban) returns (w: Sys)
    requires s.phase.Running? && r in s.cfg.creds && r in s.mem.pre && s.mem.pre[r].PIdle?
    ensures Reaches(s, ban, w)
    ensures var job := PreflightJob(r, 0, reply, Lookup(s.mem.reg, r), s.cfg.creds[r].fingerprint);
            && w.phase == s.phase && w.cfg == s.cfg && w.world == s.world && w.hist == s.hist
            && w.db == (if stored then Persisted(s.db, job) else s.db)
            && w.mem.reg == s.mem.reg[r := Written(Lookup(s.mem.reg, r), job)]
            && r in w.mem.pre && w.mem.pre[r] == (if job.state.PreflightRetry? then PIdle else PDone)
            && (forall q :: q in s.mem.pre && q != r ==> q in w.mem.pre && w.mem.pre[q] == s.mem.pre[q])
            && (forall q :: q in w.mem.pre ==> q in s.mem.pre)
            && w.mem.snd == s.mem.snd && w.mem.halted == s.mem.halted && w.mem.wake == s.mem.wake && w.mem.changed
            && w.mem.adm == s.mem.adm && w.mem.mr == s.mem.mr
  {
    JobReader(r, reply, Lookup(s.mem.reg, r), s.cfg.creds[r].fingerprint);
    hide PreflightJob;
    Stay(s, ban);
    var t := s.(mem := Preflighting(s.mem, r, PFlight(0)));
    assert PreStep(s, r, PreSend(0), t);
    Works(s, ban, s, Preflight(r, PreSend(0)), t);
    var u := t.(mem := Preflighting(t.mem, r, PReplied(0, reply)));
    assert PreStep(t, r, PreReceive(reply), u);
    Works(s, ban, t, Preflight(r, PreReceive(reply)), u);
    hide Reaches, PreStep;
    w := AttemptMatchesMachine(u, r, 0, reply, stored, ban);
    Join(s, ban, u, w);
  }

  lemma {:induction false} JobReader(r: ReaderId, reply: PreflightReply, e: Option<Entry>, fingerprint: string)
    ensures PreflightJob(r, 0, reply, e, fingerprint).reader == r
  {
  }

  /** A crash with nothing in flight, and a start with another configuration. */
  lemma {:induction false} Reboot(s: Sys, cfg: Config, r: ReaderId) returns (u: Sys)
    requires s.phase.Running? && InFlight(s.mem.snd).None? && ValidConfig(cfg)
    ensures Reaches(s, Resumes(r), u)
    ensures u.phase.Booting? && u.cfg == cfg && u.db == s.db && u.mem == BLANK && u.world == s.world
  {
    Stay(s, Resumes(r));
    var t := s.(phase := Down, mem := BLANK);
    assert LifeStep(s, Crash, t);
    Onward(s, Resumes(r), s, Life(Crash), t);
    u := t.(phase := Booting, cfg := cfg);
    assert LifeStep(t, Boot(cfg), u);
    Onward(s, Resumes(r), t, Life(Boot(cfg)), u);
  }

  lemma {:induction false} Restored(s: Sys, r: ReaderId, fault: Fault, ban: Ban) returns (t: Sys)
    requires s.phase.Booting? && r in s.cfg.creds && r !in s.mem.reg && !ban.Lifting?
    ensures Reaches(s, ban, t) && t.phase == s.phase && t.cfg == s.cfg && t.world == s.world
    ensures t.db == RestoredDb(s.db, r, s.cfg.creds[r].fingerprint, 0, fault)
    ensures t.mem == s.mem.(reg := s.mem.reg[r := RestoredEntry(s.db, r, s.cfg.creds[r].fingerprint, fault)])
  {
    hide Lifts;
    var fingerprint := s.cfg.creds[r].fingerprint;
    t := s.(db := RestoredDb(s.db, r, fingerprint, 0, fault),
            mem := s.mem.(reg := s.mem.reg[r := RestoredEntry(s.db, r, fingerprint, fault)]));
    assert LifeStep(s, Restore(r, 0, fault), t);
    Step1(s, ban, Life(Restore(r, 0, fault)), t);
  }

  /** The other readers, which have no stored gate, are restored, and the process is launched. */
  lemma {:induction false} RestLaunched(s: Sys, r: ReaderId, ban: Ban) returns (t: Sys)
    requires s.phase.Booting? && r in s.mem.reg && s.mem.reg.Keys <= s.cfg.creds.Keys && !ban.Lifting?
    requires s.db.gates.Keys <= {r} && s.mem == BLANK.(reg := s.mem.reg) && !s.mem.reg[r].state.Suspended()
    ensures Reaches(s, ban, t) && t.phase.Running? && t.cfg == s.cfg && t.db == s.db && t.world == s.world
    ensures r in t.mem.reg && t.mem.reg[r] == s.mem.reg[r] && r in t.mem.pre && t.mem.pre[r].PIdle?
    ensures t.mem.snd == STop && !t.mem.halted
    decreases s.cfg.creds.Keys - s.mem.reg.Keys
  {
    var left := s.cfg.creds.Keys - s.mem.reg.Keys;
    if left == {} {
      forall q | q in s.cfg.creds ensures q in s.mem.reg {
        assert q !in left;
      }
      t := s.(phase := Running, mem := Launched(s.mem));
      assert s.mem.reg.Keys == s.cfg.creds.Keys;
      assert LifeStep(s, Launch, t);
      Step1(s, ban, Life(Launch), t);
    } else {
      hide Reaches;
      var q :| q in left;
      var u := Restored(s, q, NoFault, ban);
      assert q !in s.db.gates;
      t := RestLaunched(u, r, ban);
      Join(s, ban, u, t);
    }
  }

  // ---- A lost lift ----

  /** A preflight 404 stores SUSPENDED_TOKEN with its fingerprint. The process crashes and starts with another
      token, the lift is not stored, and at `t` the reader is open in memory and suspended in the store. In
      the same process preflight then opens it, and with its own store write failing the reader is sendable at
      `w` while the store still says suspended. */
  lemma {:induction false} LostLiftReached(r: ReaderId, cfg: Config, other: Config, refused: PreflightReply, ok: PreflightReply)
    returns (t: Sys, w: Sys)
    requires ValidConfig(cfg) && ValidConfig(other) && r in cfg.creds && r in other.creds
    requires cfg.creds[r].fingerprint != other.creds[r].fingerprint
    requires !PreflightUnreachable(refused) && refused.status == 404 && PreflightOk(ok)
    ensures Reachable(t) && r in t.mem.reg && t.mem.reg[r].state.PreflightPending?
    ensures r in t.db.gates && t.db.gates[r].state.SuspendedToken? && t.db.gates[r].fingerprint == cfg.creds[r].fingerprint
    ensures Reaches(t, Crashes, w) && w.phase.Running? && w.db == t.db && r in w.mem.reg && w.mem.reg[r].state.Sendable()
  {
    var a := Start(cfg);
    hide Reachable, Reaches;
    t := LiftLost(a, r, cfg, other, refused);
    ReachableOn(a, Resumes(r), t);
    var d := RestLaunched(t, r, Crashes);
    w := Preflighted(d, r, ok, false, Crashes);
    Join(t, Crashes, d, w);
  }

  lemma {:induction false} LiftLost(a: Sys, r: ReaderId, cfg: Config, other: Config, refused: PreflightReply) returns (t: Sys)
    requires Started(a, cfg) && ValidConfig(other) && r in cfg.creds && r in other.creds
    requires cfg.creds[r].fingerprint != other.creds[r].fingerprint && !PreflightUnreachable(refused) && refused.status == 404
    ensures Reaches(a, Resumes(r), t) && t.phase.Booting? && t.cfg == other
    ensures t.db.gates.Keys == {r} && t.db.gates[r].state.SuspendedToken? && t.db.gates[r].fingerprint == cfg.creds[r].fingerprint
    ensures r in t.mem.reg && t.mem == BLANK.(reg := map[r := t.mem.reg[r]])
    ensures t.mem.reg[r].state.PreflightPending? && t.mem.reg[r].meta == NO_META
  {
    hide Reaches;
    var b := Preflighted(a, r, refused, true, Resumes(r));
    var c := Reboot(b, other, r);
    Join(a, Resumes(r), b, c);
    assert PendingIds(c.db, r) == {};
    t := Restored(c, r, WriteFails, Resumes(r));
    Join(a, Resumes(r), c, t);
  }

  // ---- A defeated guard ----

  /** The preflight of the first process has opened the gate for its booth and stored that; one row waits. */
  predicate BoothKnown(s: Sys, r: ReaderId, cfg: Config, row: Row, meta: GateMeta) {
    && s.phase.Running? && s.cfg == cfg && s.world == World([], [], {})
    && s.db.queue == map[row.id := row] && row.id < s.db.nextId && row.reader == r && row.checkedMs == row.nextMs == 0
    && s.db.gates.Keys == {r} && s.db.gates[r].state.Sendable() && r in cfg.creds
    && s.db.gates[r].fingerprint == cfg.creds[r].fingerprint && s.db.gates[r].meta == meta
    && r in s.mem.reg && s.mem.reg[r].state.Sendable() && s.mem.reg[r].meta == meta && s.mem.snd.STop?
  }

  lemma {:induction false} FirstProcess(r: ReaderId, cfg: Config, epc: Epc, checkedAt: string, ok: PreflightReply) returns (p: Sys, row: Row)
    requires ValidConfig(cfg) && r in cfg.creds && PreflightOk(ok)
    ensures Reachable(p) && BoothKnown(p, r, cfg, row, ok.meta.value)
  {
    hide Reachable, Reaches;
    var a := Start(cfg);
    var b;
    b, row := Scan(a, r, cfg, epc, checkedAt);
    p := Preflighted(b, r, ok, true, NoBan);
    ReachableOn(b, NoBan, p);
  }

  /** The second process has the row, and the guard armed. */
  predicate GuardArmed(s: Sys, r: ReaderId, other: Config, row: Row, meta: GateMeta, fingerprint: string) {
    && s.phase.Running? && s.cfg == other && s.world == World([], [], {}) && r in other.creds
    && s.db.queue == map[row.id := row] && row.id < s.db.nextId && row.reader == r && row.checkedMs == row.nextMs == 0
    && r in s.mem.reg && s.mem.reg[r].state.PreflightPending? && s.mem.reg[r].fingerprint == fingerprint
    && s.mem.reg[r].meta == meta && r in s.mem.pre && s.mem.pre[r].PIdle? && s.mem.snd.STop? && !s.mem.halted
  }

  lemma {:induction false} SecondProcess(p: Sys, r: ReaderId, cfg: Config, other: Config, row: Row, meta: GateMeta) returns (d: Sys)
    requires BoothKnown(p, r, cfg, row, meta) && ValidConfig(other) && r in other.creds
    ensures Reaches(p, Resumes(r), d) && GuardArmed(d, r, other, row, meta, cfg.creds[r].fingerprint)
  {
    hide Reaches;
    var b := Reboot(p, other, r);
    var c := Restored(b, r, NoFault, Resumes(r));
    Join(p, Resumes(r), b, c);
    d := RestLaunched(c, r, Resumes(r));
    Join(p, Resumes(r), c, d);
  }

  /** One unreachable attempt, then the other booth's reply: the gate opens. */
  lemma {:induction false} GuardDefeated(d: Sys, r: ReaderId, other: Config, row: Row, meta: GateMeta, fingerprint: string,
                                         lost: PreflightReply, elsewhere: PreflightReply) returns (f: Sys)
    requires GuardArmed(d, r, other, row, meta, fingerprint) && other.creds[r].fingerprint != ""
    requires PreflightUnreachable(lost) && PreflightOk(elsewhere)
    ensures Reaches(d, Resumes(r), f) && ReadyToSend(f, r, other, row, 0) && f.world.net == [] && row.checkedMs == 0 && f.mem.reg[r].meta == elsewhere.meta.value
  {
    hide Reaches;
    var e := Preflighted(d, r, lost, true, Resumes(r));
    assert e.mem.reg[r].fingerprint == other.creds[r].fingerprint;
    f := Preflighted(e, r, elsewhere, true, Resumes(r));
    Join(d, Resumes(r), e, f);
  }

  /** For every two configurations that give a reader different tokens, and every two booths: from a reachable
      state in which a row waits that was queued while the reader was verified for the first booth, a run
      without a resume leads to a state in which that very row has been POSTed with the second token, to the
      second booth. On the way one preflight attempt did not reach the server. */
  lemma {:induction false} SentToOtherBooth(r: ReaderId, cfg: Config, other: Config, epc: Epc, checkedAt: string,
                                            ok: PreflightReply, lost: PreflightReply, elsewhere: PreflightReply)
    returns (p: Sys, w: Sys, row: Row)
    requires ValidConfig(cfg) && ValidConfig(other) && r in cfg.creds && r in other.creds
    requires cfg.creds[r].fingerprint != other.creds[r].fingerprint
    requires PreflightOk(ok) && PreflightUnreachable(lost) && PreflightOk(elsewhere)
    requires ok.meta.value.boothName != "" && elsewhere.meta.value.boothName != ok.meta.value.boothName
    ensures Reachable(p) && p.cfg == cfg && p.world.net == []
    ensures row.reader == r && row.id in p.db.queue && p.db.queue[row.id] == row
    ensures r in p.mem.reg && p.mem.reg[r].meta == ok.meta.value && r in p.db.gates && p.db.gates[r].meta == ok.meta.value
    ensures Reaches(p, Resumes(r), w) && w.world.net == [RequestOf(row, other.creds[r].token)]
    ensures r in w.mem.reg && w.mem.reg[r].meta == elsewhere.meta.value
  {
    hide Reachable, Reaches;
    p, row := FirstProcess(r, cfg, epc, checkedAt, ok);
    var d := SecondProcess(p, r, cfg, other, row, ok.meta.value);
    var f := GuardDefeated(d, r, other, row, ok.meta.value, cfg.creds[r].fingerprint, lost, elsewhere);
    Join(p, Resumes(r), d, f);
    w := PostOnly(f, r, other, row, 0, Resumes(r));
    Join(p, Resumes(r), f, w);
  }
}
