// The bounds are attained: runs from the empty store that use up the whole attempt budget of a row, and that
// leave the sender asleep past a due row by exactly the lag of its timer.
module Tightness {
  import opened Domain
  import opened Classifier
  import opened Tables
  import opened Pipeline
  import opened Runs
  import opened Attempts
  import opened Wakeups
  import opened Witness
  import opened Harms

  /** The row after k lost attempts, each made as soon as it was due. */
  function After(row: Row, k: nat): Row {
    row.(attempts := k, nextMs := TotalBackoff(k))
  }

  /** The sender is at the top of its loop, and the only row has been POSTed k times. */
  ghost predicate Tried(s: Sys, r: ReaderId, cfg: Config, row: Row, k: nat) {
    && ReadyToSend(s, r, cfg, After(row, k), TotalBackoff(k)) && r in cfg.creds && row.checkedMs == 0
    && Posts(s.world.net, row.id) == k && Count(s.hist.cuts, row.id) == 0
  }

  const LOST := Reply(true, false, 0, OtherResult(""), OtherResult(""), OtherMessage(""))

  /** A POST whose reply is lost puts the row off by its next backoff. */
  lemma {:induction false} ReplyLost(s: Sys, row: Row, now: Millis, request: nat) returns (w: Sys)
    requires s.phase.Running? && s.mem.snd == SFlight(now, row, request) && request < |s.world.net|
    ensures Reaches(s, Crashes, w)
    ensures w == Sending(Postponed(s, row.id, now + Backoff(row.attempts + 1)), STop)
  {
    Stay(s, Crashes);
    var t := Sending(s, SReply(now, row, request, LOST));
    assert DeliverStep(s, Receive(LOST), t);
    Works(s, Crashes, s, Deliver(Receive(LOST)), t);
    assert Decide(LOST).Retry?;
    w := Settled(t, now, row, t.world.net[request].token, Decide(LOST), true);
    assert DeliverStep(t, Settle(true), w);
    Works(s, Crashes, t, Deliver(Settle(true)), w);
  }

  /** One more attempt fits as long as the backoff so far is within the age limit. */
  lemma {:induction false} TryOnce(s: Sys, r: ReaderId, cfg: Config, row: Row, k: nat) returns (w: Sys)
    requires Tried(s, r, cfg, row, k) && TotalBackoff(k) <= cfg.maxAge
    ensures Reaches(s, Crashes, w) && Tried(w, r, cfg, row, k + 1) && w.mem == s.mem
  {
    hide Reaches, TotalBackoff, Backoff;
    var now := TotalBackoff(k);
    var t := PostOnly(s, r, cfg, After(row, k), now, Crashes);
    PostsOfMore(s.world.net, RequestOf(After(row, k), cfg.creds[r].token), row.id);
    w := ReplyLost(t, After(row, k), now, |s.world.net|);
    Join(s, Crashes, t, w);
    BackoffSums(k);
    RetryLeaves(t, row, k, now + Backoff(k + 1));
  }

  lemma {:induction false} BackoffSums(k: nat)
    ensures TotalBackoff(k) + Backoff(k + 1) == TotalBackoff(k + 1)
  {
  }

  lemma {:induction false} RetryLeaves(t: Sys, row: Row, k: nat, next: Millis)
    requires t.db.queue == map[row.id := After(row, k)] && next == TotalBackoff(k + 1)
    ensures var w := Sending(Postponed(t, row.id, next), STop);
            && w.db.queue == map[row.id := After(row, k + 1)] && w.db.nextId == t.db.nextId && w.phase == t.phase && w.cfg == t.cfg
            && w.world == t.world && w.hist.cuts == t.hist.cuts && w.mem == t.mem.(snd := STop)
  {
    hide TotalBackoff;
  }

  lemma {:induction false} TryMany(s: Sys, r: ReaderId, cfg: Config, row: Row, k: nat, n: nat) returns (w: Sys)
    requires Tried(s, r, cfg, row, k) && k <= n <= Budget(cfg.maxAge)
    ensures Reaches(s, Crashes, w) && Tried(w, r, cfg, row, n) && w.mem == s.mem
    decreases n - k
  {
    hide Reaches, Tried, TotalBackoff, Budget;
    if k == n {
      Stay(s, Crashes);
      return s;
    }
    BudgetExact(k, cfg.maxAge);
    var t := TryOnce(s, r, cfg, row, k);
    w := TryMany(t, r, cfg, row, k + 1, n);
    Join(s, Crashes, t, w);
  }

  /** A row is queued, its reader verified, and nothing sent yet. */
  lemma {:induction false} FirstTry(r: ReaderId, cfg: Config, epc: Epc, checkedAt: string, ok: PreflightReply) returns (p: Sys, row: Row)
    requires ValidConfig(cfg) && r in cfg.creds && PreflightOk(ok)
    ensures Reachable(p) && Tried(p, r, cfg, row, 0)
    ensures r in p.mem.adm && p.mem.adm[r].ACommitted? && !p.mem.wake && p.mem.changed && Calm(p.mem, r)
  {
    hide Reachable, Reaches;
    var a := Start(cfg);
    var b;
    b, row := Scan(a, r, cfg, epc, checkedAt);
    p := Preflighted(b, r, ok, true, NoBan);
    ReachableOn(b, NoBan, p);
    assert After(row, 0) == row;
  }

  /** The attempt bound is exact: for every configuration and every reader of it there is a run in which one
      row is POSTed Budget(maxAge) times with no attempt cut short, 722 times at the largest age. */
  lemma {:induction false} BudgetAttained(r: ReaderId, cfg: Config, epc: Epc, checkedAt: string, ok: PreflightReply) returns (w: Sys, id: nat)
    requires ValidConfig(cfg) && r in cfg.creds && PreflightOk(ok)
    ensures Reachable(w) && Count(w.hist.cuts, id) == 0
    ensures Posts(w.world.net, id) == Budget(cfg.maxAge)
    ensures cfg.maxAge == 24 * HOUR ==> Posts(w.world.net, id) == 722
  {
    hide Reachable, Reaches;
    var p, row := FirstTry(r, cfg, epc, checkedAt, ok);
    w := TryMany(p, r, cfg, row, 0, Budget(cfg.maxAge));
    ReachableOn(p, Crashes, w);
    id := row.id;
  }

  // ---- Asleep ----

  /** The sender finds nothing at `now` and goes to sleep; its timer is started when the clock shows `at`. */
  lemma {:induction false} IdleRound(s: Sys, r: ReaderId, row: Row, now: Millis, at: Millis) returns (w: Sys)
    requires s.phase.Running? && s.mem.snd.STop? && !s.mem.halted
    requires s.db.queue == map[row.id := row] && row.id < s.db.nextId && row.reader == r && now < row.nextMs <= now + MAX_IDLE
    requires r in s.mem.reg && s.mem.reg[r].state.Sendable()
    ensures Reaches(s, Crashes, w) && w == Sending(s, SBlocked(Timed(at + (row.nextMs - now), at - now)))
  {
    var readers := SendableReaders(s.mem.reg);
    Stay(s, Crashes);
    var t := Sending(s, SPoll);
    assert PollStep(s, CheckHalt, t);
    Works(s, Crashes, s, Poll(CheckHalt), t);
    var u := Sending(t, SGates(now, readers));
    assert PollStep(t, ReadGates(now), u);
    Works(s, Crashes, t, Poll(ReadGates(now)), u);
    hide Reaches;
    w := NothingFound(u, r, row, now, at, readers);
    Join(s, Crashes, u, w);
  }

  lemma {:induction false} NothingFound(u: Sys, r: ReaderId, row: Row, now: Millis, at: Millis, readers: set<ReaderId>) returns (w: Sys)
    requires u.phase.Running? && u.mem.snd == SGates(now, readers) && readers == SendableReaders(u.mem.reg) && r in readers
    requires u.db.queue == map[row.id := row] && row.id < u.db.nextId && row.reader == r && now < row.nextMs <= now + MAX_IDLE
    ensures Reaches(u, Crashes, w) && w == Sending(u, SBlocked(Timed(at + (row.nextMs - now), at - now)))
  {
    Stay(u, Crashes);
    assert DueIds(u.db, now, readers) == {};
    var v := Sending(u, SIdle(now));
    assert PollStep(u, Pick, v);
    Works(u, Crashes, u, Poll(Pick), v);
    var x := Sending(v, SIdleGates(now, readers));
    assert PollStep(v, ReadGatesAgain, x);
    Works(u, Crashes, v, Poll(ReadGatesAgain), x);
    assert row.id in ReaderIds(x.db, readers);
    assert IsEarliestDue(x.db, readers, Some(row.nextMs));
    w := Sending(x, SBlocked(Timed(at + IdleWait(now, Some(row.nextMs)), at - now)));
    assert PollStep(x, Arm(Some(row.nextMs), at), w);
    Works(u, Crashes, x, Poll(Arm(Some(row.nextMs), at)), w);
  }

  /** The two buffered signals of the first scan and the preflight wake the sender, which finds nothing due. */
  lemma {:induction false} Drained(s: Sys, r: ReaderId, row: Row, at: Millis) returns (w: Sys)
    requires s.phase.Running? && s.mem.snd.STop? && !s.mem.halted && r in s.mem.adm && s.mem.adm[r].ACommitted? && s.mem.changed
    requires s.db.queue == map[row.id := row] && row.id < s.db.nextId && row.reader == r && 0 < row.nextMs <= MAX_IDLE
    requires r in s.mem.reg && s.mem.reg[r].state.Sendable()
    ensures Reaches(s, Crashes, w) && w.db == s.db
    ensures w.mem == s.mem.(adm := s.mem.adm[r := AIdle], wake := false, changed := false, snd := SBlocked(Timed(at + row.nextMs, at)))
  {
    Stay(s, Crashes);
    var a := s.(mem := Admitting(s.mem.(wake := true), r, AIdle));
    assert AdmitStep(s, r, SignalWake, a);
    Works(s, Crashes, s, Admit(r, SignalWake), a);
    hide Reaches;
    var b := IdleRound(a, r, row, 0, 0);
    Join(s, Crashes, a, b);
    var c := b.(mem := b.mem.(wake := false, snd := STop));
    assert PollStep(b, TakeWake, c);
    Works(s, Crashes, b, Poll(TakeWake), c);
    var d := IdleRound(c, r, row, 0, 0);
    Join(s, Crashes, c, d);
    var e := d.(mem := d.mem.(changed := false, snd := STop));
    assert PollStep(d, TakeChanged, e);
    Works(s, Crashes, d, Poll(TakeChanged), e);
    w := IdleRound(e, r, row, 0, at);
    Join(s, Crashes, e, w);
  }

  /** The wake-up bound is exact: for every configuration, every reader of it and every lag there is a
      reachable state in which the sender sleeps on its timer, no signal is buffered or pending, and a row of
      the sendable reader is due exactly the lag before the timer expires. */
  lemma {:induction false} LagAttained(r: ReaderId, cfg: Config, epc: Epc, checkedAt: string, ok: PreflightReply, lag: Millis)
    returns (w: Sys, id: nat)
    requires ValidConfig(cfg) && r in cfg.creds && PreflightOk(ok)
    ensures Reachable(w) && w.mem.snd.SBlocked? && w.mem.snd.wait.Timed? && w.mem.snd.wait.lag == lag && !Signal(w.mem)
    ensures id in w.db.queue && w.db.queue[id].reader in SendableReaders(w.mem.reg)
    ensures w.mem.snd.wait.deadline == w.db.queue[id].nextMs + lag
  {
    hide Reachable, Reaches;
    var p, row := FirstTry(r, cfg, epc, checkedAt, ok);
    assert TotalBackoff(1) == 5_000;
    var q := TryOnce(p, r, cfg, row, 0);
    ReachableOn(p, Crashes, q);
    w := Drained(q, r, After(row, 1), lag);
    ReachableOn(q, Crashes, w);
    id := row.id;
  }
}
