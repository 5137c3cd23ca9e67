// Effectively-once delivery: at most one server record per row and token, and no row is
// removed as delivered without one.
module Delivery {
  import opened Domain
  import opened Classifier
  import opened Tables
  import opened Pipeline
  import opened QueueSafety

  ghost predicate RecordsOk(w: World) {
    && (forall i :: 0 <= i < |w.records| ==> w.records[i] < |w.net|)
    && (forall i, j :: 0 <= i < j < |w.records| ==> !SameKey(w.net[w.records[i]], w.net[w.records[j]]))
  }

  ghost predicate RepliesOk(w: World) {
    forall i, reply :: (i, reply) in w.replies ==> Honest(w, i, reply)
  }

  ghost predicate ReplyOk(w: World, pc: SenderPc) {
    pc.SReply? ==> Honest(w, pc.request, pc.reply)
  }

  /** Some POST of the row carried this token. */
  ghost predicate Posted(w: World, id: nat, token: string) {
    exists k :: 0 <= k < |w.net| && w.net[k].id == id && w.net[k].token == token
  }

  ghost predicate OnServer(w: World, id: nat, token: string, epc: Epc) {
    Recorded(w, token, epc) && Posted(w, id, token)
  }

  /** Rows deleted as delivered are on the server. */
  ghost predicate ConfirmedOk(w: World, h: History) {
    forall id :: id in h.removed && h.removed[id].Confirmed? && id in h.accepted ==>
      OnServer(w, id, h.removed[id].token, h.accepted[id].epc)
  }

  ghost predicate DeliveryInv(s: Sys) {
    && QueueInv(s)
    && RecordsOk(s.world)
    && RepliesOk(s.world)
    && ReplyOk(s.world, s.mem.snd)
    && ConfirmedOk(s.world, s.hist)
  }

  /** The server never forgets. */
  lemma {:induction false} RecordedStays(w: World, v: World, token: string, epc: Epc)
    requires w.net <= v.net && w.records <= v.records && Recorded(w, token, epc)
    ensures Recorded(v, token, epc)
  {
    var i :| 0 <= i < |w.records| && w.records[i] < |w.net| &&
             w.net[w.records[i]].token == token && w.net[w.records[i]].epc == epc;
    assert v.records[i] == w.records[i];
  }

  lemma {:induction false} WorldGrows(w: World, v: World, h: History, pc: SenderPc)
    requires w.net <= v.net && w.records <= v.records && v.replies == w.replies
    requires RepliesOk(w) && ReplyOk(w, pc) && ConfirmedOk(w, h)
    ensures RepliesOk(v) && ReplyOk(v, pc) && ConfirmedOk(v, h)
  {
    forall token, epc | Recorded(w, token, epc) ensures Recorded(v, token, epc) {
      RecordedStays(w, v, token, epc);
    }
    forall id, token | Posted(w, id, token) ensures Posted(v, id, token) {
      var k :| 0 <= k < |w.net| && w.net[k].id == id && w.net[k].token == token;
      assert v.net[k] == w.net[k];
    }
  }

  lemma {:induction false} DeliveryKeptByServer(s: Sys, a: ServerAct, t: Sys)
    requires DeliveryInv(s) && ServerStep(s, a, t)
    ensures DeliveryInv(t)
  {
    match a
    case Record(i) => WorldGrows(s.world, t.world, s.hist, s.mem.snd);
    case Answer(i, reply) =>
  }

  lemma {:induction false} DeleteConfirms(s: Sys, gone: set<nat>, why: Removal)
    requires ConfirmedOk(s.world, s.hist)
    requires forall id :: id in gone && id in s.hist.accepted && why.Confirmed? ==>
                          OnServer(s.world, id, why.token, s.hist.accepted[id].epc)
    ensures ConfirmedOk(s.world, Delete(s, gone, why).hist)
  {
  }

  /** Only a settled success marks a row as delivered. */
  lemma {:induction false} SettledConfirms(s: Sys, now: Millis, row: Row, token: string, d: Decision, ok: bool)
    requires ConfirmedOk(s.world, s.hist)
    requires d.Complete? && row.id in s.hist.accepted ==>
             OnServer(s.world, row.id, token, s.hist.accepted[row.id].epc)
    ensures var t := Settled(s, now, row, token, d, ok);
            t.world == s.world && ConfirmedOk(t.world, t.hist) && !t.mem.snd.SReply?
  {
    match d
    case Complete => DeleteConfirms(s, {row.id}, Confirmed(token));
    case Drop => DeleteConfirms(s, {row.id}, Refused);
    case SuspendReader => DeleteConfirms(s, {row.id}, TokenLost);
    case _ =>
  }

  lemma {:induction false} DeliveryKeptByDeliver(s: Sys, a: DeliverAct, t: Sys)
    requires DeliveryInv(s) && DeliverStep(s, a, t)
    ensures DeliveryInv(t)
  {
    QueueKeptByDeliver(s, a, t);
    var pc := s.mem.snd;
    match a
    case Post => WorldGrows(s.world, t.world, s.hist, STop);
    case Settle(ok) =>
      assert Posted(s.world, pc.row.id, s.world.net[pc.request].token);
      assert s.world.net[pc.request].epc == s.hist.accepted[pc.row.id].epc;
      SettledConfirms(s, pc.now, pc.row, s.world.net[pc.request].token, Decide(pc.reply), ok);
    case DropAged(ok) => DeleteConfirms(s, {pc.row.id}, Aged);
    case _ =>
  }

  lemma {:induction false} DeliveryKeptByLife(s: Sys, a: LifeAct, t: Sys)
    requires DeliveryInv(s) && LifeStep(s, a, t)
    ensures DeliveryInv(t)
  {
    QueueKeptByLife(s, a, t);
    match a
    case SweepExpire(now) => DeleteConfirms(s, ExpiredIds(s.db, now - s.cfg.maxAge), Aged);
    case ResumeDiscard(r) => DeleteConfirms(s, PendingIds(s.db, r), Thrown);
    case _ =>
  }

  lemma {:induction false} QuietDelivery(s: Sys, t: Sys)
    requires DeliveryInv(s) && QueueInv(t) && t.hist == s.hist && t.world == s.world
    requires t.mem.snd == s.mem.snd || !t.mem.snd.SReply?
    ensures DeliveryInv(t)
  {
    hide QueueInv, RecordsOk, RepliesOk, ConfirmedOk;
  }

  /** A new row is not among the removed ones. */
  lemma {:induction false} DeliveryKeptByAdmit(s: Sys, r: ReaderId, a: AdmitAct, t: Sys)
    requires DeliveryInv(s) && AdmitStep(s, r, a, t)
    ensures DeliveryInv(t)
  {
    QueueKeptByAdmit(s, r, a, t);
    AdmitChanges(s, r, a, t);
    hide AdmitStep, Admitted, NetFaithful, HeldOk, FlightOk, RecordsOk, RepliesOk;
    assert s.db.nextId !in s.hist.removed;
  }

  lemma {:induction false} DeliveryKept(s: Sys, a: Step, t: Sys)
    requires DeliveryInv(s) && Next(s, a, t)
    ensures DeliveryInv(t)
  {
    hide PollStep, DeliverStep, CloseStep, PreStep, MetaStep, AdmitStep, LifeStep, ServerStep, QueueInv, RecordsOk, RepliesOk, ReplyOk, ConfirmedOk;
    match a
    case Poll(x) => QueueKept(s, a, t); PollKeepsRows(s, x, t); QuietDelivery(s, t);
    case Deliver(x) => DeliveryKeptByDeliver(s, x, t);
    case Close(x) => QueueKept(s, a, t); CloseKeepsRows(s, x, t); QuietDelivery(s, t);
    case Preflight(r, x) => QueueKept(s, a, t); PreflightKeepsRows(s, r, x, t); QuietDelivery(s, t);
    case Refresh(r, x) => QueueKept(s, a, t); RefreshKeepsRows(s, r, x, t); QuietDelivery(s, t);
    case Admit(r, x) => DeliveryKeptByAdmit(s, r, x, t);
    case Life(x) => DeliveryKeptByLife(s, x, t);
    case Server(x) => DeliveryKeptByServer(s, x, t);
  }

  lemma {:induction false} DeliveryAlways(ss: seq<Sys>, acts: seq<Step>, n: nat)
    requires FullRun(ss, acts) && n < |ss|
    ensures DeliveryInv(ss[n])
  {
    if n > 0 {
      DeliveryAlways(ss, acts, n - 1);
      DeliveryKept(ss[n - 1], acts[n - 1], ss[n]);
    }
  }

  /** Whatever is lost, repeated or restarted, and whatever tokens are configured: two server
      records caused by the same row were made under different tokens. */
  lemma {:induction false} OncePerToken(ss: seq<Sys>, acts: seq<Step>, n: nat, i: nat, j: nat)
    requires FullRun(ss, acts) && n < |ss|
    requires i < j < |ss[n].world.records|
    ensures var w := ss[n].world;
            && w.records[i] < |w.net| && w.records[j] < |w.net|
            && (w.net[w.records[i]].id == w.net[w.records[j]].id ==>
                  w.net[w.records[i]].token != w.net[w.records[j]].token)
  {
    DeliveryAlways(ss, acts, n);
    var w := ss[n].world;
    var p, q := w.net[w.records[i]], w.net[w.records[j]];
    assert Faithful(ss[n].hist.accepted, p) && Faithful(ss[n].hist.accepted, q);
    assert !SameKey(p, q);
  }

  /** Every configuration the reader is started with has this token for it. */
  ghost predicate TokenFixed(acts: seq<Step>, r: ReaderId, token: string) {
    forall k :: 0 <= k < |acts| && acts[k].Life? && acts[k].life.Boot? && r in acts[k].life.cfg.creds ==>
      acts[k].life.cfg.creds[r].token == token
  }

  ghost predicate OneToken(s: Sys, r: ReaderId, token: string) {
    && (r in s.cfg.creds ==> s.cfg.creds[r].token == token)
    && forall k :: 0 <= k < |s.world.net| && s.world.net[k].reader == r ==> s.world.net[k].token == token
  }

  lemma {:induction false} DeliverKeepsNet(s: Sys, a: DeliverAct, t: Sys)
    requires DeliverStep(s, a, t)
    ensures t.cfg == s.cfg && (a == Post || t.world == s.world)
  {
  }

  /** Only Post sends, and only Boot changes the configuration. */
  lemma {:induction false} OnlyPostSends(s: Sys, a: Step, t: Sys)
    requires Next(s, a, t)
    ensures a == Deliver(Post) || t.world.net == s.world.net
    ensures (a.Life? && a.life.Boot?) || t.cfg == s.cfg
  {
    hide PreStep, MetaStep, CloseStep, PollStep, DeliverStep;
    match a
    case Poll(x) => PollKeepsRows(s, x, t);
    case Deliver(x) => DeliverKeepsNet(s, x, t);
    case Close(x) => CloseKeepsRows(s, x, t);
    case Preflight(r, x) => PreflightKeepsRows(s, r, x, t);
    case Refresh(r, x) => RefreshKeepsRows(s, r, x, t);
    case Admit(r, x) => AdmitChanges(s, r, x, t);
    case Life(x) =>
    case Server(x) =>
  }

  lemma {:induction false} OneTokenAlways(ss: seq<Sys>, acts: seq<Step>, n: nat, r: ReaderId, token: string)
    requires FullRun(ss, acts) && n < |ss| && TokenFixed(acts, r, token)
    ensures OneToken(ss[n], r, token)
  {
    if n > 0 {
      OneTokenAlways(ss, acts, n - 1, r, token);
      OnlyPostSends(ss[n - 1], acts[n - 1], ss[n]);
    }
  }

  /** With a token that does not change, each row of the reader causes at most one server record,
      and a row deleted as delivered has one for its token and EPC. */
  lemma {:induction false} EffectivelyOnce(ss: seq<Sys>, acts: seq<Step>, n: nat, r: ReaderId, token: string)
    requires FullRun(ss, acts) && n < |ss| && TokenFixed(acts, r, token)
    ensures var w := ss[n].world;
            && (forall i :: 0 <= i < |w.records| ==> w.records[i] < |w.net|)
            && (forall i, j :: 0 <= i < j < |w.records| && w.net[w.records[i]].reader == r ==>
                  w.net[w.records[i]].id != w.net[w.records[j]].id)
    ensures var s := ss[n];
            forall id :: id in s.hist.removed && id in s.hist.accepted && s.hist.removed[id].Confirmed? &&
                         s.hist.accepted[id].reader == r ==>
              s.hist.removed[id] == Confirmed(token) && Recorded(s.world, token, s.hist.accepted[id].epc)
  {
    DeliveryAlways(ss, acts, n);
    OneTokenAlways(ss, acts, n, r, token);
    var s := ss[n];
    var w := s.world;
    forall i, j | 0 <= i < j < |w.records| && w.net[w.records[i]].reader == r
      ensures w.net[w.records[i]].id != w.net[w.records[j]].id
    {
      OncePerToken(ss, acts, n, i, j);
      assert Faithful(s.hist.accepted, w.net[w.records[i]]) && Faithful(s.hist.accepted, w.net[w.records[j]]);
    }
    forall id | id in s.hist.removed && s.hist.removed[id].Confirmed? && s.hist.accepted[id].reader == r
      ensures s.hist.removed[id] == Confirmed(token) && Recorded(w, token, s.hist.accepted[id].epc)
    {
      assert OnServer(w, id, s.hist.removed[id].token, s.hist.accepted[id].epc);
      var k :| 0 <= k < |w.net| && w.net[k].id == id && w.net[k].token == s.hist.removed[id].token;
      assert Faithful(s.hist.accepted, w.net[k]);
    }
  }
}
