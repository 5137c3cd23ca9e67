// What an operator resume achieves: the next process that starts with the reader verifies its token afresh.
module Resuming {
  import opened Domain
  import opened Classifier
  import opened Tables
  import opened Gates
  import opened Pipeline
  import opened Runs
  import opened QueueSafety
  import opened GateSafety
  import opened RegistryObject
  import opened Refinement
  import opened Harms

  /** No process runs, the row is stored, and a process that has restored the reader has it waiting for
      preflight with what the row says. */
  ghost predicate Reopening(s: Sys, r: ReaderId, row: GateRow) {
    && !s.phase.Running? && row.state == PreflightPending
    && r in s.db.gates && s.db.gates[r] == row
    && (r in s.mem.reg ==> s.mem.reg[r] == Entry(PreflightPending, row.reason, row.fingerprint, row.meta))
  }

  lemma {:induction false} StillReopening(s: Sys, a: LifeAct, t: Sys, r: ReaderId, row: GateRow)
    requires Reopening(s, r, row) && LifeStep(s, a, t) && a != Launch
    ensures Reopening(t, r, row)
  {
  }

  lemma {:induction false} ReopeningKept(s: Sys, a: Step, t: Sys, r: ReaderId, row: GateRow)
    requires Reopening(s, r, row) && Next(s, a, t) && a != Life(Launch)
    ensures Reopening(t, r, row)
  {
    hide LifeStep, PollStep, DeliverStep, CloseStep, PreStep, MetaStep, AdmitStep;
    if a.Life? {
      StillReopening(s, a.life, t, r, row);
    }
  }

  /** What resuming stores. */
  lemma {:induction false} ResumeStores(s: Sys, r: ReaderId, now: Millis, t: Sys)
    requires GateInv(s) && Next(s, Life(ResumeSet(r, now)), t)
    ensures r in s.db.gates && s.db.gates[r].state.Suspended()
    ensures Reopening(t, r, GateRow(PreflightPending, OperatorResume, now, s.db.gates[r].fingerprint, s.db.gates[r].meta))
    ensures t.db == s.db.(gates := s.db.gates[r := t.db.gates[r]]) && t.hist == s.hist
  {
  }

  lemma {:induction false} ReopeningUntil(ss: seq<Sys>, acts: seq<Step>, i: nat, j: nat, r: ReaderId, row: GateRow)
    requires Run(ss, acts) && i <= j <= |acts| && Reopening(ss[i], r, row)
    requires forall k {:trigger acts[k]} :: i <= k < j ==> acts[k] != Life(Launch)
    ensures Reopening(ss[j], r, row)
    decreases j - i
  {
    hide Next, Reopening;
    if i < j {
      ReopeningUntil(ss, acts, i, j - 1, r, row);
      assert acts[j - 1] != Life(Launch);
      assert Next(ss[j - 1], acts[j - 1], ss[j]);
      ReopeningKept(ss[j - 1], acts[j - 1], ss[j], r, row);
    }
  }

  lemma {:induction false} LaunchedPending(s: Sys, t: Sys, r: ReaderId, row: GateRow)
    requires Reopening(s, r, row) && Next(s, Life(Launch), t) && r in s.cfg.creds
    ensures r in t.mem.reg && t.mem.reg[r] == Entry(PreflightPending, row.reason, row.fingerprint, row.meta)
    ensures r in t.mem.pre && t.mem.pre[r].PIdle? && r in t.db.gates && t.db.gates[r] == row
  {
  }

  /** Any run: after an operator resume of a reader, the next process to be launched, whatever its
      configuration and however many starts crash before it, has the reader, if configured, in
      PREFLIGHT_PENDING with its preflight about to start; fingerprint and meta are those of the suspended row. */
  lemma {:induction false} ResumeReopens(ss: seq<Sys>, acts: seq<Step>, i: nat, j: nat, r: ReaderId, now: Millis)
    requires FullRun(ss, acts) && i < j < |acts| && acts[i] == Life(ResumeSet(r, now)) && acts[j] == Life(Launch)
    requires forall k {:trigger acts[k]} :: i < k < j ==> acts[k] != Life(Launch)
    requires r in ss[j].cfg.creds
    ensures r in ss[i].db.gates && ss[i].db.gates[r].state.Suspended()
    ensures var was, t := ss[i].db.gates[r], ss[j + 1];
            && r in t.mem.reg && t.mem.reg[r] == Entry(PreflightPending, OperatorResume, was.fingerprint, was.meta)
            && r in t.mem.pre && t.mem.pre[r].PIdle?
            && r in t.db.gates && t.db.gates[r] == GateRow(PreflightPending, OperatorResume, now, was.fingerprint, was.meta)
  {
    hide Next, Reopening, GateInv;
    GatesAlways(ss, acts, i);
    assert Next(ss[i], acts[i], ss[i + 1]);
    ResumeStores(ss[i], r, now, ss[i + 1]);
    var was := ss[i].db.gates[r];
    var row := GateRow(PreflightPending, OperatorResume, now, was.fingerprint, was.meta);
    ReopeningUntil(ss, acts, i + 1, j, r, row);
    assert Next(ss[j], acts[j], ss[j + 1]);
    LaunchedPending(ss[j], ss[j + 1], r, row);
  }

  // ---- Such runs exist, and a verified reader sends again ----

  /** Resume and boot. */
  lemma {:induction false} Rebooted(s: Sys, r: ReaderId, now: Millis, cfg: Config) returns (u: Sys)
    requires s.mem == BLANK && Resumable(s, r) && ValidConfig(cfg)
    ensures Reaches(s, Crashes, u) && u.phase.Booting? && u.cfg == cfg && u.mem == BLANK
    ensures Reopening(u, r, GateRow(PreflightPending, OperatorResume, now, s.db.gates[r].fingerprint, s.db.gates[r].meta))
    ensures u.db.queue == s.db.queue
  {
    Stay(s, Crashes);
    var t := s.(db := Resumed(s.db, r, now));
    assert LifeStep(s, ResumeSet(r, now), t);
    Onward(s, Crashes, s, Life(ResumeSet(r, now)), t);
    u := t.(phase := Booting, cfg := cfg);
    assert LifeStep(t, Boot(cfg), u);
    Onward(s, Crashes, t, Life(Boot(cfg)), u);
  }

  lemma {:induction false} ReopenedRow(u: Sys, db: Db, entries: map<ReaderId, Entry>, r: ReaderId, row: GateRow)
    requires Reopening(u, r, row) && r in u.cfg.creds
    requires RestoredGates(u.db.gates, u.db.queue, db.gates, entries, u.cfg.creds, 0, map[])
    ensures entries.Keys == u.cfg.creds.Keys
    ensures r in entries && entries[r] == Entry(PreflightPending, row.reason, row.fingerprint, row.meta)
    ensures r in db.gates && db.gates[r] == row
  {
  }

  /** Restore every reader. */
  lemma {:induction false} AllRestored(u: Sys, r: ReaderId, row: GateRow) returns (w: Sys)
    requires u.phase.Booting? && u.mem == BLANK && Reopening(u, r, row) && r in u.cfg.creds
    ensures Reaches(u, Crashes, w) && w.phase.Booting? && w.cfg == u.cfg && w.db.queue == u.db.queue
    ensures w.mem.reg.Keys == w.cfg.creds.Keys
    ensures r in w.mem.reg && w.mem.reg[r] == Entry(PreflightPending, row.reason, row.fingerprint, row.meta)
    ensures r in w.db.gates && w.db.gates[r] == row
  {
    hide Reaches, RestoredAll, Reopening, RestoredGates;
    assert u.cfg.creds.Keys - u.cfg.creds.Keys == {};
    NothingRestored(u.db, u.cfg.creds, 0, map[]);
    w := RestoreMatchesMachine(u.db, u, u.cfg.creds.Keys, 0, map[]);
    RestoredExactly(u.db, w.db, w.mem.reg, w.cfg.creds, 0, map[]);
    ReopenedRow(u, w.db, w.mem.reg, r, row);
  }

  /** Restore every reader, and launch. */
  lemma {:induction false} AllLaunched(u: Sys, r: ReaderId, row: GateRow) returns (v: Sys)
    requires u.phase.Booting? && u.mem == BLANK && Reopening(u, r, row) && r in u.cfg.creds
    ensures Reaches(u, Crashes, v) && v.phase.Running? && v.cfg == u.cfg && v.db.queue == u.db.queue
    ensures r in v.mem.reg && v.mem.reg[r] == Entry(PreflightPending, row.reason, row.fingerprint, row.meta)
    ensures r in v.mem.pre && v.mem.pre[r].PIdle? && r in v.db.gates && v.db.gates[r] == row
  {
    hide Reaches;
    var w := AllRestored(u, r, row);
    v := w.(phase := Running, mem := Launched(w.mem));
    assert LifeStep(w, Launch, v);
    Onward(u, Crashes, w, Life(Launch), v);
  }

  /** From every stopped state with a suspended reader and for every configuration that has it: a resume and a
      start lead to a process in which the reader waits for preflight; a valid reply then makes it sendable, in
      memory and in the store, if and only if it is not another token's reply for another booth. */
  lemma {:induction false} ResumedSendsIff(s: Sys, r: ReaderId, now: Millis, cfg: Config, ok: PreflightReply) returns (v: Sys, w: Sys)
    requires s.mem == BLANK && Resumable(s, r) && ValidConfig(cfg) && r in cfg.creds
    requires !ok.transportErr && !ok.bodyErr && ok.status == 200 && Names(ok)
    ensures Reaches(s, Crashes, v) && v.phase.Running? && v.cfg == cfg && v.db.queue == s.db.queue
    ensures r in v.mem.reg && v.mem.reg[r].state.PreflightPending? && r in v.mem.pre && v.mem.pre[r].PIdle?
    ensures Reaches(v, Crashes, w) && r in w.mem.reg && r in w.db.gates && w.db.gates[r].state == w.mem.reg[r].state
    ensures var was := s.db.gates[r];
            w.mem.reg[r].state.Sendable() <==>
            !(was.fingerprint != "" && was.fingerprint != cfg.creds[r].fingerprint &&
              was.meta.boothName != "" && was.meta.boothName != ok.meta.value.boothName)
  {
    hide Reaches;
    var was := s.db.gates[r];
    var u := Rebooted(s, r, now, cfg);
    v := AllLaunched(u, r, GateRow(PreflightPending, OperatorResume, now, was.fingerprint, was.meta));
    Join(s, Crashes, u, v);
    w := Preflighted(v, r, ok, true, Crashes);
    AnsweredExactly(v.mem.reg, v.db, r, cfg.creds[r].fingerprint, 0, ok);
  }
}
