// The queue's ledger: for every step of the machine, exactly which row appears, leaves or changes and how;
// for every run, where a row comes from and that a settled one is never sent again.
module Ledger {
  import opened Domain
  import opened Classifier
  import opened Tables
  import opened Gates
  import opened Pipeline
  import opened QueueSafety
  import opened Delivery
  import opened Attempts

  // ---- One step ----

  /** The sender's reply ends the row, and the store takes it. */
  predicate Settles(s: Sys, a: Step, id: nat) {
    && a == Deliver(Settle(true)) && s.mem.snd.SReply? && s.mem.snd.row.id == id
    && !Decide(s.mem.snd.reply).Retry? && !Decide(s.mem.snd.reply).HaltGlobal?
  }

  /** The sender finds its row too old, or a sweep finds the row too old. */
  predicate Ages(s: Sys, a: Step, id: nat)
    requires id in s.db.queue
  {
    || (a == Deliver(DropAged(true)) && s.mem.snd.SItem? && s.mem.snd.row.id == id &&
        s.mem.snd.row.checkedMs < s.mem.snd.now - s.cfg.maxAge)
    || (a.Life? && a.life.SweepExpire? && s.db.queue[id].checkedMs < a.life.now - s.cfg.maxAge)
  }

  /** The operator discards the rows of the reader. */
  predicate Discards(s: Sys, a: Step, id: nat)
    requires id in s.db.queue
  {
    a.Life? && a.life.ResumeDiscard? && s.db.queue[id].reader == a.life.r
  }

  /** The sender's reply keeps the row for another attempt, and the store takes it. */
  predicate Keeps(s: Sys, a: Step, id: nat) {
    && a == Deliver(Settle(true)) && s.mem.snd.SReply? && s.mem.snd.row.id == id
    && (Decide(s.mem.snd.reply).Retry? || Decide(s.mem.snd.reply).HaltGlobal?)
  }

  /** Admission commits a read, and no accepted one of its reader and EPC is too recent. */
  predicate Accepts(s: Sys, a: Step) {
    && a.Admit? && a.admit == Commit(true) && a.reader in s.mem.adm && s.mem.adm[a.reader].AChecked?
    && var pc := s.mem.adm[a.reader];
    var key := (a.reader, pc.epc);
    !(key in s.db.debounce && s.cfg.debounce > 0 && pc.at < s.db.debounce[key] + s.cfg.debounce)
  }

  /** What the step makes of a queued row. */
  ghost predicate RowAccount(s: Sys, a: Step, t: Sys, id: nat)
    requires id in s.db.queue
  {
    && (id !in t.db.queue <==> Settles(s, a, id) || Ages(s, a, id) || Discards(s, a, id))
    && (id in t.db.queue && !Keeps(s, a, id) ==> t.db.queue[id] == s.db.queue[id])
    && (Keeps(s, a, id) ==>
          && id in t.db.queue
          && var was, row, pc := s.db.queue[id], t.db.queue[id], s.mem.snd;
          && SameScan(row, was) && row.attempts == was.attempts + 1
          && row.nextMs == if Decide(pc.reply).HaltGlobal? then was.nextMs
                           else if was.attempts == 0 then pc.now + 5_000
                           else if was.attempts == 1 then pc.now + 30_000
                           else pc.now + 120_000)
  }

  /** What the history says of a row that left. */
  ghost predicate CauseKept(s: Sys, a: Step, t: Sys, id: nat)
    requires id in s.db.queue
  {
    && (id in t.hist.removed <==> id !in t.db.queue)
    && (Settles(s, a, id) ==>
          var pc := s.mem.snd;
          && pc.request < |s.world.net| && id in t.hist.removed
          && t.hist.removed[id] == match Decide(pc.reply)
                                   case Complete => Confirmed(s.world.net[pc.request].token)
                                   case SuspendReader => TokenLost
                                   case _ => Refused)
    && (Ages(s, a, id) ==> id in t.hist.removed && t.hist.removed[id] == Aged)
    && (Discards(s, a, id) ==> id in t.hist.removed && t.hist.removed[id] == Thrown)
  }

  /** Settling touches the row settled and no other. */
  lemma {:induction false} SettledBeside(s: Sys, now: Millis, row: Row, token: string, d: Decision, ok: bool, id: nat)
    requires id in s.db.queue && (id != row.id || !ok)
    ensures var t := Settled(s, now, row, token, d, ok);
            id in t.db.queue && t.db.queue[id] == s.db.queue[id] && (id in t.hist.removed <==> id in s.hist.removed)
  {
  }

  lemma {:induction false} SettleAccount(s: Sys, ok: bool, t: Sys, id: nat)
    requires QueueInv(s) && DeliverStep(s, Settle(ok), t) && id in s.db.queue
    ensures RowAccount(s, Deliver(Settle(ok)), t, id) && CauseKept(s, Deliver(Settle(ok)), t, id)
  {
    var pc := s.mem.snd;
    hide Decide;
    if id != pc.row.id || !ok {
      SettledBeside(s, pc.now, pc.row, s.world.net[pc.request].token, Decide(pc.reply), ok, id);
      hide Settled;
    } else {
      SettledRow(s, pc.now, pc.row, s.world.net[pc.request].token, Decide(pc.reply));
      hide Settled;
    }
  }

  /** What settling makes of the row itself. */
  lemma {:induction false} SettledRow(s: Sys, now: Millis, row: Row, token: string, d: Decision)
    requires row.id in s.db.queue && s.db.queue[row.id] == row && row.id !in s.hist.removed
    ensures var t := Settled(s, now, row, token, d, true);
            && (row.id in t.db.queue <==> d.Retry? || d.HaltGlobal?)
            && (d.Retry? || d.HaltGlobal? ==>
                  && row.id !in t.hist.removed
                  && t.db.queue[row.id] == row.(attempts := row.attempts + 1,
                                                nextMs := if d.HaltGlobal? then row.nextMs
                                                          else if row.attempts == 0 then now + 5_000
                                                          else if row.attempts == 1 then now + 30_000
                                                          else now + 120_000))
            && (!d.Retry? && !d.HaltGlobal? ==>
                  && row.id in t.hist.removed
                  && t.hist.removed[row.id] == match d
                                               case Complete => Confirmed(token)
                                               case SuspendReader => TokenLost
                                               case _ => Refused)
  {
  }

  lemma {:induction false} DeliverAccount(s: Sys, a: DeliverAct, t: Sys, id: nat)
    requires QueueInv(s) && DeliverStep(s, a, t) && id in s.db.queue && !a.Settle?
    ensures RowAccount(s, Deliver(a), t, id) && CauseKept(s, Deliver(a), t, id)
  {
  }

  lemma {:induction false} LifeAccount(s: Sys, a: LifeAct, t: Sys, id: nat)
    requires QueueInv(s) && LifeStep(s, a, t) && id in s.db.queue
    ensures RowAccount(s, Life(a), t, id) && CauseKept(s, Life(a), t, id)
  {
    if a.SweepExpire? || a.ResumeDiscard? || a.Crash? {
      LossAccount(s, a, t, id);
    } else {
      LifeKeepsRows(s, a, t);
      hide LifeStep;
    }
  }

  lemma {:induction false} LossAccount(s: Sys, a: LifeAct, t: Sys, id: nat)
    requires QueueInv(s) && LifeStep(s, a, t) && id in s.db.queue && (a.SweepExpire? || a.ResumeDiscard? || a.Crash?)
    ensures RowAccount(s, Life(a), t, id) && CauseKept(s, Life(a), t, id)
  {
  }

  lemma {:induction false} QuietAccount(s: Sys, a: Step, t: Sys, id: nat)
    requires QueueInv(s) && id in s.db.queue && id in t.db.queue && t.db.queue[id] == s.db.queue[id]
    requires t.hist.removed == s.hist.removed && !a.Deliver? && !a.Life?
    ensures RowAccount(s, a, t, id) && CauseKept(s, a, t, id)
  {
  }

  /** Every step, every queued row: it leaves in exactly four cases, each recorded; it changes in exactly one,
      by one attempt and the delay of that attempt; in all others it stays as it is. */
  lemma {:induction false} RowLedger(s: Sys, a: Step, t: Sys, id: nat)
    requires QueueInv(s) && Next(s, a, t) && id in s.db.queue
    ensures RowAccount(s, a, t, id) && CauseKept(s, a, t, id)
  {
    hide PollStep, DeliverStep, CloseStep, PreStep, MetaStep, AdmitStep, LifeStep, RowAccount, CauseKept;
    match a
    case Poll(x) => PollKeepsRows(s, x, t); QuietAccount(s, a, t, id);
    case Deliver(x) =>
      if x.Settle? {
        SettleAccount(s, x.ok, t, id);
      } else {
        DeliverAccount(s, x, t, id);
      }
    case Close(x) => CloseKeepsRows(s, x, t); QuietAccount(s, a, t, id);
    case Preflight(r, x) => PreflightKeepsRows(s, r, x, t); QuietAccount(s, a, t, id);
    case Refresh(r, x) => RefreshKeepsRows(s, r, x, t); QuietAccount(s, a, t, id);
    case Admit(r, x) => AdmitChanges(s, r, x, t); QuietAccount(s, a, t, id);
    case Life(x) => LifeAccount(s, x, t, id);
    case Server(x) => QuietAccount(s, a, t, id);
  }

  /** What admission put into a row. */
  ghost predicate RowOf(row: Row, r: ReaderId, pc: AdmitPc)
    requires pc.AChecked?
  {
    && row.reader == r && row.epc == pc.epc && row.checkedAt == pc.checkedAt && row.checkedMs == pc.at
    && row.attempts == 0 && row.nextMs == pc.at
  }

  /** A row appears in exactly one case: admission commits a read, and it holds what was read. */
  ghost predicate NewAccount(s: Sys, a: Step, t: Sys, id: nat) {
    && (id in t.db.queue <==> Accepts(s, a) && id == s.db.nextId)
    && (id in t.hist.accepted && id !in s.hist.accepted <==> id in t.db.queue)
    && (id in t.db.queue ==>
          && RowOf(t.db.queue[id], a.reader, s.mem.adm[a.reader])
          && t.db.queue[id].id == id && t.hist.accepted[id] == t.db.queue[id])
  }

  lemma {:induction false} AdmitAccount(s: Sys, r: ReaderId, a: AdmitAct, t: Sys, id: nat)
    requires QueueInv(s) && AdmitStep(s, r, a, t) && id !in s.db.queue
    ensures NewAccount(s, Admit(r, a), t, id)
  {
  }

  lemma {:induction false} DeliverAddsNone(s: Sys, a: DeliverAct, t: Sys)
    requires DeliverStep(s, a, t)
    ensures t.db.queue.Keys <= s.db.queue.Keys && t.hist.accepted == s.hist.accepted
  {
    if a.Settle? {
      var pc := s.mem.snd;
      SettledAddsNone(s, pc.now, pc.row, s.world.net[pc.request].token, Decide(pc.reply), a.ok);
      hide Settled, Decide;
    }
  }

  lemma {:induction false} SettledAddsNone(s: Sys, now: Millis, row: Row, token: string, d: Decision, ok: bool)
    ensures var t := Settled(s, now, row, token, d, ok);
            t.db.queue.Keys <= s.db.queue.Keys && t.hist.accepted == s.hist.accepted && t.mem.adm == s.mem.adm
  {
  }

  lemma {:induction false} LifeAddsNone(s: Sys, a: LifeAct, t: Sys)
    requires LifeStep(s, a, t)
    ensures t.db.queue.Keys <= s.db.queue.Keys && t.hist.accepted == s.hist.accepted
  {
    if !a.SweepExpire? && !a.ResumeDiscard? && !a.Crash? {
      LifeKeepsRows(s, a, t);
    }
    hide Lifts, StaleKeys, ValidConfig;
  }

  lemma {:induction false} NewLedger(s: Sys, a: Step, t: Sys, id: nat)
    requires QueueInv(s) && Next(s, a, t) && id !in s.db.queue
    ensures NewAccount(s, a, t, id)
  {
    hide PollStep, DeliverStep, CloseStep, PreStep, MetaStep, AdmitStep, LifeStep, QueueInv;
    match a
    case Poll(x) => PollKeepsRows(s, x, t);
    case Deliver(x) => DeliverAddsNone(s, x, t);
    case Close(x) => CloseKeepsRows(s, x, t);
    case Preflight(r, x) => PreflightKeepsRows(s, r, x, t);
    case Refresh(r, x) => RefreshKeepsRows(s, r, x, t);
    case Admit(r, x) => AdmitAccount(s, r, x, t, id);
    case Life(x) => LifeAddsNone(s, x, t);
    case Server(x) =>
  }

  // ---- A settled row is settled for good ----

  /** The sender has the row in hand. */
  predicate InHand(pc: SenderPc, id: nat) {
    HeldRow(pc).Some? && HeldRow(pc).value.id == id
  }

  lemma {:induction false} StaysSilent(s: Sys, a: Step, t: Sys, id: nat)
    requires QueueInv(s) && Next(s, a, t) && id in s.hist.removed && !InHand(s.mem.snd, id)
    ensures !InHand(t.mem.snd, id) && Posts(t.world.net, id) == Posts(s.world.net, id)
  {
    OnlyPostSends(s, a, t);
    assert id !in s.db.queue;
    hide QueueInv, PreStep, MetaStep, CloseStep, AdmitStep, PollStep, DeliverStep, Posts;
    match a
    case Poll(x) => PollKeepsRows(s, x, t);
    case Deliver(x) => DeliverStaysSilent(s, x, t, id);
    case Close(x) => CloseKeepsRows(s, x, t);
    case Preflight(r, x) => PreflightKeepsRows(s, r, x, t);
    case Refresh(r, x) => RefreshKeepsRows(s, r, x, t);
    case Admit(r, x) => AdmitChanges(s, r, x, t);
    case Life(x) =>
    case Server(x) =>
  }

  lemma {:induction false} DeliverStaysSilent(s: Sys, a: DeliverAct, t: Sys, id: nat)
    requires DeliverStep(s, a, t) && !InHand(s.mem.snd, id)
    ensures !InHand(t.mem.snd, id) && Posts(t.world.net, id) == Posts(s.world.net, id)
  {
    if a.Post? {
      PostsOfMore(s.world.net, RequestOf(s.mem.snd.row, s.cfg.creds[s.mem.snd.row.reader].token), id);
    }
  }

  /** A row that has left the queue, for whatever reason, and that the sender does not have in hand, is never
      POSTed again, over crashes, restarts and changed configurations. */
  lemma {:induction false} RemovedSilent(ss: seq<Sys>, acts: seq<Step>, i: nat, j: nat, id: nat)
    requires FullRun(ss, acts) && i <= j < |ss| && id in ss[i].hist.removed && !InHand(ss[i].mem.snd, id)
    ensures !InHand(ss[j].mem.snd, id) && Posts(ss[j].world.net, id) == Posts(ss[i].world.net, id)
    ensures id !in ss[j].db.queue && id in ss[j].hist.removed && ss[j].hist.removed[id] == ss[i].hist.removed[id]
    decreases j - i
  {
    hide Next, Init, QueueInv, InHand;
    Conservation(ss, acts, i, j);
    if i < j {
      RemovedSilent(ss, acts, i, j - 1, id);
      QueueAlways(ss, acts, j - 1);
      assert Next(ss[j - 1], acts[j - 1], ss[j]);
      StaysSilent(ss[j - 1], acts[j - 1], ss[j], id);
    }
  }

  /** A reply that confirms, refuses or revokes, taken by the store: the row is gone at once, recorded with that
      reason, and in no later state of the run is it queued or has it been POSTed once more. */
  lemma {:induction false} SettledForGood(ss: seq<Sys>, acts: seq<Step>, n: nat, j: nat)
    requires FullRun(ss, acts) && n < j < |ss| && acts[n] == Deliver(Settle(true)) && ss[n].mem.snd.SReply?
    requires ss[n].mem.snd.row.id in ss[n].db.queue
    requires !Decide(ss[n].mem.snd.reply).Retry? && !Decide(ss[n].mem.snd.reply).HaltGlobal?
    ensures var pc := ss[n].mem.snd;
            && pc.row.id !in ss[n + 1].db.queue && pc.row.id !in ss[j].db.queue
            && Posts(ss[j].world.net, pc.row.id) == Posts(ss[n].world.net, pc.row.id)
            && pc.request < |ss[n].world.net| && pc.row.id in ss[j].hist.removed
            && ss[j].hist.removed[pc.row.id] == match Decide(pc.reply)
                                                case Complete => Confirmed(ss[n].world.net[pc.request].token)
                                                case SuspendReader => TokenLost
                                                case _ => Refused
  {
    var id := ss[n].mem.snd.row.id;
    QueueAlways(ss, acts, n);
    assert Next(ss[n], acts[n], ss[n + 1]);
    RowLedger(ss[n], acts[n], ss[n + 1], id);
    OnlyPostSends(ss[n], acts[n], ss[n + 1]);
    hide Next, QueueInv;
    HandsOff(ss[n], ss[n + 1]);
    RemovedSilent(ss, acts, n + 1, j, id);
  }

  lemma {:induction false} HandsOff(s: Sys, t: Sys)
    requires Next(s, Deliver(Settle(true)), t)
    ensures HeldRow(t.mem.snd).None?
  {
  }
}
