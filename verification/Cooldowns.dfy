// ACTIVE_WARNING means "cooldown 0" for every reader made sendable in a run.
module Cooldowns {
  import opened Domain
  import opened Classifier
  import opened Gates
  import opened Pipeline
  import opened GateSafety

  /** The warning state tells the truth about the cooldown. */
  predicate Truthful(state: GateState, meta: GateMeta) {
    state.Sendable() ==> (state.ActiveWarning? <==> meta.cooldownSec == 0)
  }

  predicate NonNegative(reply: PreflightReply) {
    PreflightOk(reply) ==> reply.meta.value.cooldownSec >= 0
  }

  /** One preflight write is truthful exactly when the cooldown it was told is not negative. */
  lemma {:induction false} PreflightTruthfulIff(r: ReaderId, now: Millis, reply: PreflightReply,
                                                prev: Option<Entry>, fingerprint: string)
    ensures var job := PreflightJob(r, now, reply, prev, fingerprint);
            job.state.Sendable() ==>
              PreflightOk(reply) && job.meta == reply.meta &&
              (Truthful(job.state, job.meta.value) <==> reply.meta.value.cooldownSec >= 0)
  {
  }

  predicate PcTruthful(p: PrePc) {
    && (p.PReplied? ==> NonNegative(p.reply))
    && (p.PDecided? && p.job.state.Sendable() ==> p.job.meta.Some? && Truthful(p.job.state, p.job.meta.value))
  }

  ghost predicate CooldownInv(m: Memory) {
    && (forall r :: r in m.reg ==> Truthful(m.reg[r].state, m.reg[r].meta))
    && (forall r :: r in m.pre ==> PcTruthful(m.pre[r]))
  }

  ghost predicate NonNegativeStep(a: Step) {
    a.Preflight? && a.pre.PreReceive? ==> NonNegative(a.pre.reply)
  }

  lemma {:induction false} CooldownByPre(s: Sys, r: ReaderId, a: PreAct, t: Sys)
    requires PreStep(s, r, a, t) && NonNegativeStep(Preflight(r, a)) && CooldownInv(s.mem)
    ensures CooldownInv(t.mem)
  {
    if a.PreRead? {
      PreflightTruthfulIff(r, s.mem.pre[r].now, s.mem.pre[r].reply, Lookup(s.mem.reg, r), s.cfg.creds[r].fingerprint);
    }
  }

  lemma {:induction false} CooldownByMeta(s: Sys, r: ReaderId, a: MetaAct, t: Sys)
    requires MetaStep(s, r, a, t) && CooldownInv(s.mem)
    ensures CooldownInv(t.mem)
  {
  }

  lemma {:induction false} CooldownByLife(s: Sys, a: LifeAct, t: Sys)
    requires LifeStep(s, a, t) && CooldownInv(s.mem)
    ensures CooldownInv(t.mem)
  {
  }

  lemma {:induction false} CooldownKept(s: Sys, a: Step, t: Sys)
    requires GateInv(s) && CooldownInv(s.mem) && Next(s, a, t) && NonNegativeStep(a)
    ensures CooldownInv(t.mem)
  {
    match a
    case Poll(x) => PollMoves(s, x, t);
    case Deliver(x) => DeliverMoves(s, x, t);
    case Close(x) => CloseMoves(s, x, t);
    case Preflight(r, x) => CooldownByPre(s, r, x, t);
    case Refresh(r, x) => CooldownByMeta(s, r, x, t);
    case Admit(r, x) => AdmitKeepsGates(s, r, x, t);
    case Life(x) => CooldownByLife(s, x, t);
    case Server(x) =>
  }

  /** With non-negative cooldowns from the server, every sendable entry of every reachable state is
      ACTIVE_WARNING exactly when its cooldown is 0. */
  lemma {:induction false} WarningMeansNoCooldown(ss: seq<Sys>, acts: seq<Step>, n: nat)
    requires FullRun(ss, acts) && n < |ss|
    requires forall k :: 0 <= k < |acts| ==> NonNegativeStep(acts[k])
    ensures CooldownInv(ss[n].mem)
  {
    if n > 0 {
      WarningMeansNoCooldown(ss, acts, n - 1);
      GatesAlways(ss, acts, n - 1);
      CooldownKept(ss[n - 1], acts[n - 1], ss[n]);
    }
  }
}
