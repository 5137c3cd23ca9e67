// Runs as a relation between states: which states a machine can reach from which, without the steps a
// caller bans.
module Runs {
  import opened Domain
  import opened Gates
  import opened Pipeline

  predicate IsResume(a: Step, r: ReaderId) {
    a.Life? && a.life.ResumeSet? && a.life.r == r
  }

  /** A start that drops the stored suspension of `r` from memory. */
  ghost predicate LiftedBy(s: Sys, a: Step, r: ReaderId) {
    && a.Life? && a.life.Restore? && a.life.r == r
    && r in s.cfg.creds && Lifts(s.db, r, s.cfg.creds[r].fingerprint, a.life.fault)
  }

  /** The step does not lift a stop of `r`: no resume of it, and no start that lifts a token suspension. */
  ghost predicate Respects(s: Sys, a: Step, r: ReaderId) {
    !IsResume(a, r) && !LiftedBy(s, a, r)
  }

  /** Steps a run does without: none, crashes, resumes of a reader, or resumes and lifts of it. */
  datatype Ban = NoBan | Crashes | Resumes(r: ReaderId) | Lifting(r: ReaderId)

  ghost predicate Banned(ban: Ban, s: Sys, a: Step) {
    match ban
    case NoBan => false
    case Crashes => a == Life(Crash)
    case Resumes(r) => IsResume(a, r)
    case Lifting(r) => !Respects(s, a, r)
  }

  ghost predicate Path(ss: seq<Sys>, acts: seq<Step>, s: Sys, ban: Ban, t: Sys) {
    && Run(ss, acts) && ss[0] == s && ss[|acts|] == t
    && forall k {:trigger acts[k]} :: 0 <= k < |acts| ==> !Banned(ban, ss[k], acts[k])
  }

  /** Some run without banned steps leads from `s` to `t`. */
  ghost predicate Reaches(s: Sys, ban: Ban, t: Sys) {
    exists ss: seq<Sys>, acts: seq<Step> :: Path(ss, acts, s, ban, t)
  }

  /** Some run from the empty store leads to `s`. */
  ghost predicate Reachable(s: Sys) {
    exists s0: Sys :: Init(s0) && Reaches(s0, NoBan, s)
  }

  lemma {:induction false} Stay(s: Sys, ban: Ban)
    ensures Reaches(s, ban, s)
  {
    assert Path([s], [], s, ban, s);
  }

  lemma {:induction false} Step1(s: Sys, ban: Ban, a: Step, t: Sys)
    requires Next(s, a, t) && !Banned(ban, s, a)
    ensures Reaches(s, ban, t)
  {
    hide Next, Banned;
    assert Path([s, t], [a], s, ban, t);
  }

  lemma {:induction false} PathsJoin(ss: seq<Sys>, acts: seq<Step>, ts: seq<Sys>, bs: seq<Step>, s: Sys, ban: Ban, t: Sys, u: Sys)
    requires Path(ss, acts, s, ban, t) && Path(ts, bs, t, ban, u)
    ensures Path(ss + ts[1..], acts + bs, s, ban, u)
  {
    hide Next, Banned;
    var us, cs := ss + ts[1..], acts + bs;
    forall i | 0 <= i < |cs| ensures Next(us[i], cs[i], us[i + 1]) && !Banned(ban, us[i], cs[i]) {
      if i < |acts| {
        assert cs[i] == acts[i];
      } else {
        var k := i - |acts|;
        assert cs[i] == bs[k] && us[i] == ts[k] && us[i + 1] == ts[k + 1];
      }
    }
  }

  lemma {:induction false} Join(s: Sys, ban: Ban, t: Sys, u: Sys)
    requires Reaches(s, ban, t) && Reaches(t, ban, u)
    ensures Reaches(s, ban, u)
  {
    var ss, acts :| Path(ss, acts, s, ban, t);
    var ts, bs :| Path(ts, bs, t, ban, u);
    PathsJoin(ss, acts, ts, bs, s, ban, t, u);
    var us, cs := ss + ts[1..], acts + bs;
    assert Path(us, cs, s, ban, u);
  }

  lemma {:induction false} Onward(s: Sys, ban: Ban, t: Sys, a: Step, u: Sys)
    requires Reaches(s, ban, t) && Next(t, a, u) && !Banned(ban, t, a)
    ensures Reaches(s, ban, u)
  {
    hide Next, Banned, Reaches;
    Step1(t, ban, a, u);
    Join(s, ban, t, u);
  }

  /** Only life steps are ever banned. */
  lemma {:induction false} Works(s: Sys, ban: Ban, t: Sys, a: Step, u: Sys)
    requires Reaches(s, ban, t) && Next(t, a, u) && !a.Life?
    ensures Reaches(s, ban, u)
  {
    hide Next, Reaches;
    Onward(s, ban, t, a, u);
  }

  /** Dropping the ban. */
  lemma {:induction false} Unbanned(s: Sys, ban: Ban, t: Sys)
    requires Reaches(s, ban, t)
    ensures Reaches(s, NoBan, t)
  {
    hide Next;
    var ss, acts :| Path(ss, acts, s, ban, t);
    assert Path(ss, acts, s, NoBan, t);
  }

  lemma {:induction false} ReachableOn(s: Sys, ban: Ban, t: Sys)
    requires Reachable(s) && Reaches(s, ban, t)
    ensures Reachable(t)
  {
    hide Reaches, Init;
    var s0 :| Init(s0) && Reaches(s0, NoBan, s);
    Unbanned(s, ban, t);
    Join(s0, NoBan, s, t);
  }

  lemma {:induction false} Extend(s: Sys, a: Step, t: Sys)
    requires Reachable(s) && Next(s, a, t)
    ensures Reachable(t)
  {
    hide Reaches, Next, Reachable;
    Step1(s, NoBan, a, t);
    ReachableOn(s, NoBan, t);
  }

  /** The run behind a reachable state. */
  lemma {:induction false} RunTo(s: Sys) returns (ss: seq<Sys>, acts: seq<Step>)
    requires Reachable(s)
    ensures FullRun(ss, acts) && ss[|acts|] == s
  {
    hide Next, Init;
    var s0 :| Init(s0) && Reaches(s0, NoBan, s);
    ss, acts :| Path(ss, acts, s0, NoBan, s);
  }
}
