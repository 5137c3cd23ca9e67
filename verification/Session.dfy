// One reader connection (internal/reader/session/session.go): Stop, initialise, inventory, reconfigure.
// What the select statements receive is a list of events, in the order of receipt.
module ReaderSession {
  import opened Framing
  import opened Parsing
  import opened Commands

  const LETTER_F: byte := 102
  const DIGIT_3: byte := 51
  const LETTER_V: byte := 118
  const LETTER_B: byte := 98
  const LETTER_P: byte := 112
  const LETTER_I: byte := 105

  /** A chunk, the running timer, a read error, the end of the context, a new power gain. */
  datatype Event = Chunk(bytes: seq<byte>) | Expire | ReadError | Cancel | Power(gain: int)

  datatype Want = WantSetting(kind: byte) | WantAck(command: byte)

  predicate Matches(line: Line, want: Want) {
    match want
    case WantSetting(kind) => MatchSetting(line, kind)
    case WantAck(command) => MatchAck(line, command)
  }

  datatype TagRead = TagRead(epc: seq<byte>, raw: seq<byte>)

  function ReadOf(line: seq<byte>): seq<TagRead> {
    match Parse(line)
    case TagLine(t) => [TagRead(t.epc, line)]
    case _ => []
  }

  /** The tag reads of some lines, in order. */
  function Reads(lines: seq<seq<byte>>): seq<TagRead> {
    if lines == [] then [] else Reads(lines[..|lines| - 1]) + ReadOf(lines[|lines| - 1])
  }

  lemma {:induction false} ReadsMore(lines: seq<seq<byte>>, line: seq<byte>)
    ensures Reads(lines + [line]) == Reads(lines) + ReadOf(line)
  {
    hide ReadOf;
    assert (lines + [line])[..|lines|] == lines;
  }

  lemma {:induction false} LastApart(a: seq<seq<byte>>, b: seq<seq<byte>>)
    requires b != []
    ensures var front, last := b[..|b| - 1], b[|b| - 1]; a + b == (a + front) + [last] && b == front + [last]
  {
  }

  lemma {:induction false} RegroupReads(a: seq<TagRead>, b: seq<TagRead>, c: seq<TagRead>)
    ensures (a + b) + c == a + (b + c)
  {
  }

  lemma {:induction false} ReadsJoined(a: seq<seq<byte>>, b: seq<seq<byte>>)
    ensures Reads(a + b) == Reads(a) + Reads(b)
  {
    hide Reads, ReadOf;
    if b == [] {
      assert a + b == a;
      NoReads(b);
      assert b[..0] == b;
    } else {
      var front, last := b[..|b| - 1], b[|b| - 1];
      LastApart(a, b);
      ReadsJoined(a, front);
      ReadsMore(a + front, last);
      ReadsMore(front, last);
      RegroupReads(Reads(a), Reads(front), ReadOf(last));
    }
  }

  /** A line that spells a tag becomes one read that carries the EPC, that is, the digits after the first four,
      in upper case; every other line becomes none. */
  lemma {:induction false} ReadCarriesEpc(raw: seq<byte>)
    ensures (exists t, body, suffix :: Spells(raw, t, body, suffix)) <==> ReadOf(raw) != []
    ensures forall t, body, suffix :: Spells(raw, t, body, suffix) ==>
              ReadOf(raw) == [TagRead(Upper(Strip(body))[4..], raw)]
  {
    hide Parse, Strip, TrimRight, Hex16;
    if Parse(raw).TagLine? {
      var body, suffix := TagSpelled(raw);
    }
    forall t, body, suffix | Spells(raw, t, body, suffix)
      ensures ReadOf(raw) == [TagRead(Upper(Strip(body))[4..], raw)]
    {
      SpellingParsed(raw, t, body, suffix);
      hide Upper, IsUpperHex;
      assert (t.pc + t.epc)[4..] == t.epc;
    }
  }

  // ---- Answers on the wire ----

  /** A line answers for setting k exactly when it is ">k " and at least one more byte, and k is not the letter of
      a tag (T), an acknowledgement (A) or a code (C). */
  lemma {:induction false} SettingOnWire(raw: seq<byte>, k: byte)
    ensures Matches(Parse(raw), WantSetting(k)) <==>
            |raw| >= 4 && raw[0] == 62 && raw[1] == k && raw[2] == 32 && k != 84 && k != 65 && k != 67
  {
    hide TrimSpace, Strip, TrimRight, IndexRssi, Value, IsHex;
  }

  /** A line acknowledges command c exactly when it is ">A", white space if any, and c. */
  lemma {:induction false} AckOnWire(raw: seq<byte>, c: byte)
    requires c != 32 && !(9 <= c <= 13)
    ensures Matches(Parse(raw), WantAck(c)) <==>
            |raw| > 2 && raw[0] == 62 && raw[1] == 65 &&
            exists j :: 2 <= j < |raw| && raw[j] == c && forall i :: 2 <= i < j ==> raw[i] == 32 || 9 <= raw[i] <= 13
  {
    hide ParseTag, TrimSpace;
    if |raw| > 2 && raw[0] == 62 && raw[1] == 65 {
      var b := raw[2..];
      FirstAfterSpace(b, c);
      assert Matches(Parse(raw), WantAck(c)) <==> TrimSpace(b) != [] && TrimSpace(b)[0] == c;
      hide Parse, Matches;
      if TrimSpace(b) != [] && TrimSpace(b)[0] == c {
        var j: nat :| j < |b| && b[j] == c && forall i :: 0 <= i < j ==> b[i] == 32 || 9 <= b[i] <= 13;
        assert raw[j + 2] == c && forall i :: 2 <= i < j + 2 ==> raw[i] == b[i - 2];
      }
      if j :| 2 <= j < |raw| && raw[j] == c && forall i :: 2 <= i < j ==> raw[i] == 32 || 9 <= raw[i] <= 13 {
        assert b[j - 2] == c && forall i :: 0 <= i < j - 2 ==> b[i] == raw[i + 2];
      }
    } else {
      NotAnAck(raw, c);
    }
  }

  lemma {:induction false} NotAnAck(raw: seq<byte>, c: byte)
    requires !(|raw| > 2 && raw[0] == 62 && raw[1] == 65)
    ensures !Matches(Parse(raw), WantAck(c))
  {
    hide IndexRssi, TrimRight, Value, IsHex, Strip, Upper;
    assert |raw| == 2 ==> raw[2..] == [];
  }

  /** The first byte left by trimming is the first that is not white space. */
  lemma {:induction false} FirstAfterSpace(b: seq<byte>, c: byte)
    requires c != 32 && !(9 <= c <= 13)
    ensures TrimSpace(b) != [] && TrimSpace(b)[0] == c <==>
            exists j: nat :: j < |b| && b[j] == c && forall i :: 0 <= i < j ==> b[i] == 32 || 9 <= b[i] <= 13
  {
    var i, j := TrimSpaceCuts(b);
    hide TrimSpace;
    if i < j {
      assert b[i..j][0] == b[i];
    }
  }

  // ---- What a connection may write ----

  function InitCommands(buzzer: int, power: int): seq<Command> {
    [Stop, Version, SetBuzzer(buzzer), SetPower(power), RssiOff, StartInventory]
  }

  function Block(power: int): seq<Command> {
    [Stop, SetPower(power), StartInventory]
  }

  /** The initialisation, then one block for each new power. */
  function Script(buzzer: int, power: int, powers: seq<int>): seq<Command> {
    if powers == [] then InitCommands(buzzer, power)
    else Script(buzzer, power, powers[..|powers| - 1]) + Block(powers[|powers| - 1])
  }

  lemma {:induction false} ScriptMore(buzzer: int, power: int, powers: seq<int>, v: int)
    ensures Script(buzzer, power, powers + [v]) == Script(buzzer, power, powers) + Block(v)
  {
    assert (powers + [v])[..|powers|] == powers;
  }

  /** No command follows itself: whatever a connection writes, it never sends a command again because the
      answer was late. */
  lemma {:induction false} NeverResent(buzzer: int, power: int, powers: seq<int>, i: nat)
    requires i + 1 < |Script(buzzer, power, powers)|
    ensures Script(buzzer, power, powers)[i] != Script(buzzer, power, powers)[i + 1]
    decreases |powers|
  {
    if powers != [] {
      var before := powers[..|powers| - 1];
      EndsWithStart(buzzer, power, before);
      if i + 1 < |Script(buzzer, power, before)| {
        NeverResent(buzzer, power, before, i);
      }
    }
  }

  lemma {:induction false} EndsWithStart(buzzer: int, power: int, powers: seq<int>)
    ensures var s := Script(buzzer, power, powers); s != [] && s[|s| - 1] == StartInventory
  {
  }

  datatype InitStep = InitStep(command: Command, want: Want)

  function InitSteps(buzzer: int, power: int): seq<InitStep> {
    [InitStep(Version, WantSetting(LETTER_V)),
     InitStep(SetBuzzer(buzzer), WantSetting(LETTER_B)),
     InitStep(SetPower(power), WantSetting(LETTER_P)),
     InitStep(RssiOff, WantSetting(LETTER_I)),
     InitStep(StartInventory, WantAck(LETTER_F))]
  }

  // ---- Lines by chunk ----

  /** The lines completed by the first n chunks. */
  function Lines(fed: seq<seq<byte>>, n: nat): seq<seq<byte>>
    requires n <= |fed|
  {
    Feed(DEFAULT_MAX_LINE, fed, n).out.lines
  }

  /** The lines chunk k completes: what Push returns for it. */
  function NewLines(fed: seq<seq<byte>>, k: nat): seq<seq<byte>>
    requires k < |fed|
  {
    var f := Feed(DEFAULT_MAX_LINE, fed, k);
    Drain(NONE, f.buf + fed[k], f.dropping, DEFAULT_MAX_LINE).out.lines
  }

  predicate SomeMatch(lines: seq<seq<byte>>, n: nat, want: Want)
    requires n <= |lines|
  {
    exists i :: 0 <= i < n && Matches(Parse(lines[i]), want)
  }

  /** Chunk k completes a line that answers `want`. */
  predicate Carries(fed: seq<seq<byte>>, k: nat, want: Want)
    requires k < |fed|
  {
    var lines := NewLines(fed, k);
    SomeMatch(lines, |lines|, want)
  }

  lemma {:induction false} FeedPrefix(fed: seq<seq<byte>>, more: seq<byte>, n: nat)
    requires n <= |fed|
    ensures Feed(DEFAULT_MAX_LINE, fed + [more], n) == Feed(DEFAULT_MAX_LINE, fed, n)
    ensures n < |fed| ==> NewLines(fed + [more], n) == NewLines(fed, n)
  {
    hide Drain;
    if n > 0 {
      FeedPrefix(fed, more, n - 1);
      assert (fed + [more])[n - 1] == fed[n - 1];
    }
  }

  /** One more chunk into a framer that has seen `fed`. */
  lemma {:induction false} FeedMore(fed: seq<seq<byte>>, chunk: seq<byte>)
    ensures var f := Feed(DEFAULT_MAX_LINE, fed, |fed|);
            var e := Drain(NONE, f.buf + chunk, f.dropping, DEFAULT_MAX_LINE);
            var g := Feed(DEFAULT_MAX_LINE, fed + [chunk], |fed| + 1);
            && g.buf == e.buf && g.dropping == e.dropping
            && g.out.lines == f.out.lines + e.out.lines
            && NewLines(fed + [chunk], |fed|) == e.out.lines
  {
    hide Drain;
    FeedPrefix(fed, chunk, |fed|);
    var f := Feed(DEFAULT_MAX_LINE, fed, |fed|);
    DrainAdds(f.out, f.buf + chunk, f.dropping, DEFAULT_MAX_LINE);
  }

  /** From chunk `from` on, the first to answer is the last of the first `to` chunks. */
  ghost predicate Answered(fed: seq<seq<byte>>, from: nat, to: nat, want: Want) {
    from < to <= |fed| && Carries(fed, to - 1, want) && Unanswered(fed, from, to - 1, want)
  }

  ghost predicate Unanswered(fed: seq<seq<byte>>, from: nat, to: nat, want: Want)
    requires to <= |fed|
  {
    forall k :: from <= k < to ==> !Carries(fed, k, want)
  }

  lemma {:induction false} UnansweredStays(fed: seq<seq<byte>>, more: seq<byte>, from: nat, to: nat, want: Want)
    requires to <= |fed| && Unanswered(fed, from, to, want)
    ensures Unanswered(fed + [more], from, to, want)
  {
    hide SomeMatch, NewLines;
    forall k | from <= k < to ensures !Carries(fed + [more], k, want) {
      FeedPrefix(fed, more, k);
      assert !Carries(fed, k, want);
    }
  }

  /** The chunks among the first n events. */
  function Chunks(events: seq<Event>, n: nat): seq<seq<byte>>
    requires n <= |events|
  {
    if n == 0 then []
    else Chunks(events, n - 1) + (match events[n - 1] case Chunk(b) => [b] case _ => [])
  }

  /** The tag lines completed by the chunks after the first `started`. */
  ghost predicate HandledSince(fed: seq<seq<byte>>, started: nat, handled: seq<TagRead>) {
    && started <= |fed|
    && Lines(fed, started) <= Lines(fed, |fed|)
    && handled == Reads(Lines(fed, |fed|)[|Lines(fed, started)|..])
  }

  lemma {:induction false} AnsweredStays(fed: seq<seq<byte>>, chunk: seq<byte>, from: nat, to: nat, want: Want)
    requires Answered(fed, from, to, want)
    ensures Answered(fed + [chunk], from, to, want)
  {
    hide SomeMatch, NewLines, Unanswered;
    FeedPrefix(fed, chunk, to - 1);
    UnansweredStays(fed, chunk, from, to - 1, want);
  }

  lemma {:induction false} AnsweredOn(fed: seq<seq<byte>>, longer: seq<seq<byte>>, from: nat, to: nat, want: Want)
    requires Answered(fed, from, to, want) && fed <= longer
    ensures Answered(longer, from, to, want)
    decreases |longer|
  {
    hide Answered;
    if |fed| < |longer| {
      var before := longer[..|longer| - 1];
      AnsweredOn(fed, before, from, to, want);
      AnsweredStays(before, longer[|longer| - 1], from, to, want);
      assert longer == before + [longer[|longer| - 1]];
    } else {
      assert fed == longer;
    }
  }

  // ---- One command at a time ----

  /** The line a command is answered with: ">A3", ">v ..", ">b ..", ">p ..", ">i ..", ">Af". */
  function AnswerTo(c: Command): Want {
    match c
    case Stop => WantAck(51)
    case Version => WantSetting(118)
    case SetBuzzer(_) => WantSetting(98)
    case SetPower(_) => WantSetting(112)
    case RssiOff => WantSetting(105)
    case StartInventory => WantAck(102)
  }

  /** Some chunk since command i was written, and before the next one was, answers it. */
  ghost predicate AnsweredBefore(fed: seq<seq<byte>>, sentAt: seq<nat>, written: seq<Command>, i: nat, to: nat)
    requires i < |written| == |sentAt|
  {
    exists k: nat :: sentAt[i] <= k < to && k < |fed| && Carries(fed, k, AnswerTo(written[i]))
  }

  /** No command but the first Stop is followed by another before it has been answered; `sentAt` says after how
      many chunks each was written. */
  ghost predicate Paced(fed: seq<seq<byte>>, sentAt: seq<nat>, written: seq<Command>) {
    && |sentAt| == |written|
    && (forall i :: 0 <= i < |sentAt| ==> sentAt[i] <= |fed|)
    && (forall i :: 2 <= i < |written| ==> AnsweredBefore(fed, sentAt, written, i - 1, sentAt[i]))
  }

  /** The last command has been answered, too. */
  ghost predicate Quiet(fed: seq<seq<byte>>, sentAt: seq<nat>, written: seq<Command>) {
    && |sentAt| == |written|
    && (|written| > 1 ==> AnsweredBefore(fed, sentAt, written, |written| - 1, |fed|))
  }

  /** The last command has not been answered. */
  ghost predicate Silent(fed: seq<seq<byte>>, sentAt: seq<nat>, written: seq<Command>) {
    && |sentAt| == |written| > 0
    && Unanswered(fed, sentAt[|written| - 1], |fed|, AnswerTo(written[|written| - 1]))
  }

  lemma {:induction false} AnsweredBeforeStays(fed: seq<seq<byte>>, chunk: seq<byte>, sentAt: seq<nat>, written: seq<Command>, i: nat, to: nat, later: nat)
    requires i < |written| == |sentAt| && AnsweredBefore(fed, sentAt, written, i, to) && to <= later
    ensures AnsweredBefore(fed + [chunk], sentAt, written, i, later)
  {
    hide SomeMatch, NewLines, AnswerTo;
    var k: nat :| sentAt[i] <= k < to && k < |fed| && Carries(fed, k, AnswerTo(written[i]));
    FeedPrefix(fed, chunk, k);
    assert Carries(fed + [chunk], k, AnswerTo(written[i]));
  }

  lemma {:induction false} PacedStays(fed: seq<seq<byte>>, chunk: seq<byte>, sentAt: seq<nat>, written: seq<Command>)
    requires Paced(fed, sentAt, written)
    ensures Paced(fed + [chunk], sentAt, written)
    ensures Quiet(fed, sentAt, written) ==> Quiet(fed + [chunk], sentAt, written)
  {
    hide AnsweredBefore;
    forall i | 2 <= i < |written| ensures AnsweredBefore(fed + [chunk], sentAt, written, i - 1, sentAt[i]) {
      AnsweredBeforeStays(fed, chunk, sentAt, written, i - 1, sentAt[i], sentAt[i]);
    }
    if Quiet(fed, sentAt, written) && |written| > 1 {
      AnsweredBeforeStays(fed, chunk, sentAt, written, |written| - 1, |fed|, |fed| + 1);
    }
  }

  /** The next command is written once the last one has been answered. */
  lemma {:induction false} PacedMore(fed: seq<seq<byte>>, sentAt: seq<nat>, written: seq<Command>, c: Command)
    requires Paced(fed, sentAt, written) && Quiet(fed, sentAt, written)
    ensures Paced(fed, sentAt + [|fed|], written + [c])
  {
    hide Carries;
    forall i | 2 <= i < |written| + 1
      ensures AnsweredBefore(fed, sentAt + [|fed|], written + [c], i - 1, (sentAt + [|fed|])[i])
    {
      SameAnswered(fed, sentAt, written, c, i - 1, if i < |written| then sentAt[i] else |fed|);
    }
  }

  lemma {:induction false} SameAnswered(fed: seq<seq<byte>>, sentAt: seq<nat>, written: seq<Command>, c: Command, i: nat, to: nat)
    requires i < |written| == |sentAt| && AnsweredBefore(fed, sentAt, written, i, to)
    ensures AnsweredBefore(fed, sentAt + [|fed|], written + [c], i, to)
  {
    hide Carries, AnswerTo;
    var k: nat :| sentAt[i] <= k < to && k < |fed| && Carries(fed, k, AnswerTo(written[i]));
    assert (sentAt + [|fed|])[i] == sentAt[i] && (written + [c])[i] == written[i];
  }

  lemma {:induction false} QuietAtFirst(fed: seq<seq<byte>>, sentAt: seq<nat>, written: seq<Command>)
    requires Paced(fed, sentAt, written) && written == []
    ensures sentAt == [] && Quiet(fed, sentAt, written) && Quiet(fed, sentAt + [|fed|], written + [Stop])
  {
  }

  /** The first i of these steps, written right after the Stop, have been answered one after the other. */
  ghost predicate StepsDone(fed: seq<seq<byte>>, sentAt: seq<nat>, steps: seq<InitStep>, i: nat)
    requires |sentAt| == i + 1 && i <= |steps|
  {
    forall k :: 0 <= k < i ==> Answered(fed, sentAt[k + 1], (sentAt + [|fed|])[k + 2], steps[k].want)
  }

  /** The i-th step of the initialisation writes its next command and waits for the answer to that. */
  lemma {:induction false} NextStep(buzzer: int, power: int, i: nat)
    requires i < |InitSteps(buzzer, power)|
    ensures var all, step := InitCommands(buzzer, power), InitSteps(buzzer, power)[i];
            && i + 2 <= |all| && all[..i + 2] == all[..i + 1] + [step.command] && step.want == AnswerTo(step.command)
            && (Allowed(SetBuzzer(buzzer)) && Allowed(SetPower(power)) ==> Allowed(step.command))
  {
    var all, step := InitCommands(buzzer, power), InitSteps(buzzer, power)[i];
    assert all[i + 1] == step.command;
  }

  lemma {:induction false} AllSteps(buzzer: int, power: int)
    ensures |InitSteps(buzzer, power)| == 5 && |InitCommands(buzzer, power)| == 6
    ensures InitCommands(buzzer, power)[..1] == [Stop]
    ensures InitCommands(buzzer, power)[..6] == [Stop, Version, SetBuzzer(buzzer), SetPower(power), RssiOff, StartInventory]
  {
  }

  lemma {:induction false} NoSteps(fed: seq<seq<byte>>, sentAt: seq<nat>, steps: seq<InitStep>)
    requires |sentAt| == 1
    ensures StepsDone(fed, sentAt, steps, 0)
  {
  }

  lemma {:induction false} StepDone(before: seq<seq<byte>>, fed: seq<seq<byte>>, sentAt: seq<nat>, steps: seq<InitStep>, i: nat)
    requires |sentAt| == i + 1 && i < |steps| && before <= fed && StepsDone(before, sentAt, steps, i)
    requires Answered(fed, |before|, |fed|, steps[i].want)
    ensures StepsDone(fed, sentAt + [|before|], steps, i + 1)
  {
    hide Answered;
    var more := sentAt + [|before|];
    forall k | 0 <= k < i + 1 ensures Answered(fed, more[k + 1], (more + [|fed|])[k + 2], steps[k].want) {
      if k < i {
        AnsweredOn(before, fed, sentAt[k + 1], (sentAt + [|before|])[k + 2], steps[k].want);
      }
    }
  }

  lemma {:induction false} InitDone(fed: seq<seq<byte>>, sentAt: seq<nat>, buzzer: int, power: int)
    requires |sentAt| == 6 && StepsDone(fed, sentAt, InitSteps(buzzer, power), 5)
    ensures Answered(fed, sentAt[1], sentAt[2], WantSetting(118))
    ensures Answered(fed, sentAt[2], sentAt[3], WantSetting(98))
    ensures Answered(fed, sentAt[3], sentAt[4], WantSetting(112))
    ensures Answered(fed, sentAt[4], sentAt[5], WantSetting(105))
    ensures Answered(fed, sentAt[5], |fed|, WantAck(102))
  {
    hide Answered;
    var steps, all := InitSteps(buzzer, power), sentAt + [|fed|];
    assert Answered(fed, sentAt[0 + 1], all[0 + 2], steps[0].want);
    assert Answered(fed, sentAt[1 + 1], all[1 + 2], steps[1].want);
    assert Answered(fed, sentAt[2 + 1], all[2 + 2], steps[2].want);
    assert Answered(fed, sentAt[3 + 1], all[3 + 2], steps[3].want);
    assert Answered(fed, sentAt[4 + 1], all[4 + 2], steps[4].want);
  }

  /** An answered command leaves nothing open. */
  lemma {:induction false} QuietNow(fed: seq<seq<byte>>, sentAt: seq<nat>, written: seq<Command>)
    requires |sentAt| == |written| > 0
    requires Answered(fed, sentAt[|written| - 1], |fed|, AnswerTo(written[|written| - 1]))
    ensures Quiet(fed, sentAt, written)
  {
    hide Carries, AnswerTo;
    assert Carries(fed, |fed| - 1, AnswerTo(written[|written| - 1]));
  }

  lemma {:induction false} HandledGrows(fed: seq<seq<byte>>, chunk: seq<byte>, lines: seq<seq<byte>>,
                                        started: nat, handled: seq<TagRead>)
    requires HandledSince(fed, started, handled) && Lines(fed + [chunk], |fed| + 1) == Lines(fed, |fed|) + lines
    ensures HandledSince(fed + [chunk], started, handled + Reads(lines))
  {
    hide Feed, Reads;
    FeedPrefix(fed, chunk, started);
    var all, m := Lines(fed, |fed|), |Lines(fed, started)|;
    ReadsJoined(all[m..], lines);
    assert (all + lines)[m..] == all[m..] + lines;
  }

  lemma {:induction false} NothingHandled(fed: seq<seq<byte>>)
    ensures HandledSince(fed, |fed|, [])
  {
  }

  lemma {:induction false} NoReads(lines: seq<seq<byte>>)
    ensures Reads(lines[..0]) == []
  {
  }

  lemma {:induction false} ReadsUpTo(lines: seq<seq<byte>>, i: nat)
    requires i < |lines|
    ensures Reads(lines[..i + 1]) == Reads(lines[..i]) + Reads([lines[i]])
  {
    hide Reads;
    ReadsJoined(lines[..i], [lines[i]]);
    assert lines[..i + 1] == lines[..i] + [lines[i]];
  }

  lemma {:induction false} NoMatch(lines: seq<seq<byte>>, want: Want)
    ensures !SomeMatch(lines, 0, want)
  {
  }

  lemma {:induction false} MatchOn(lines: seq<seq<byte>>, n: nat, want: Want)
    requires n <= |lines| && SomeMatch(lines, n, want)
    ensures SomeMatch(lines, |lines|, want)
  {
    hide Parse, Matches;
  }

  lemma {:induction false} MatchUpTo(lines: seq<seq<byte>>, i: nat, want: Want)
    requires i < |lines|
    ensures SomeMatch(lines, i + 1, want) <==> SomeMatch(lines, i, want) || Matches(Parse(lines[i]), want)
  {
    hide Parse, Matches;
  }

  lemma {:induction false} AnswerIsNoTag(raw: seq<byte>, want: Want)
    requires Matches(Parse(raw), want)
    ensures Reads([raw]) == []
  {
    hide Parse;
  }

  /** The framer has been fed exactly these chunks. */
  ghost predicate FedWith(framer: Framer, fed: seq<seq<byte>>)
    reads framer
  {
    var f := Feed(DEFAULT_MAX_LINE, fed, |fed|);
    framer.maxLine == DEFAULT_MAX_LINE && framer.buf == f.buf && framer.dropping == f.dropping
  }

  class Connection {
    const buzzer: int
    const powerGain: int
    const events: seq<Event>
    const writeLimit: nat // the first write to fail is number writeLimit + 1
    const framer: Framer
    var at: nat
    var inInit: bool
    var written: seq<Command>
    var handled: seq<TagRead>
    ghost var fed: seq<seq<byte>> // chunks consumed so far
    ghost var asked: nat // chunks consumed when the inventory was first started
    ghost var started: nat // chunks consumed when its acknowledgement had been read
    ghost var powers: seq<int> // accepted power changes
    ghost var sentAt: seq<nat> // chunks consumed when each command was written

    /** The framer has been fed exactly the chunks consumed. */
    ghost predicate Fed()
      reads this`fed, framer
    {
      FedWith(framer, fed)
    }

    /** Nothing is handled before the inventory has started; after that, every tag line completed since. */
    ghost predicate Exact()
      reads this`fed, this`handled, this`inInit, this`asked, this`started, framer
    {
      && Fed()
      && (if inInit then handled == [] else HandledSince(fed, started, handled) && Answered(fed, asked, started, WantAck(LETTER_F)))
    }

    /** Every chunk received so far has been consumed, and no command was written before its turn. */
    ghost predicate InStep()
      reads this
    {
      at <= |events| && fed == Chunks(events, at) && Paced(fed, sentAt, written)
    }

    ghost predicate Valid()
      reads this, framer
    {
      Exact() && InStep()
    }

    /** Why a connection may stop: a failed write, a dead or cancelled connection, a timer, or the end of
        the run under consideration. */
    ghost predicate Over()
      requires at <= |events|
      reads this`at, this`written
    {
      || |written| > writeLimit
      || at == |events|
      || (at > 0 && (events[at - 1] == Cancel || events[at - 1] == ReadError || events[at - 1] == Expire))
    }

    constructor (buzzer: int, powerGain: int, events: seq<Event>, writeLimit: nat)
      ensures Valid() && inInit && written == [] && sentAt == [] && powers == [] && fresh(framer)
      ensures this.buzzer == buzzer && this.powerGain == powerGain && this.events == events && at == 0
    {
      this.buzzer, this.powerGain, this.events, this.writeLimit := buzzer, powerGain, events, writeLimit;
      framer := new Framer(0);
      at, inInit, written, handled, fed, powers, sentAt := 0, true, [], [], [], [], [];
    }

    method Write(c: Command) returns (ok: bool)
      requires Allowed(c)
      modifies this`written, this`sentAt
      ensures written == old(written) + [c] && sentAt == old(sentAt) + [|fed|] && ok == (|written| <= writeLimit)
    {
      written, sentAt := written + [c], sentAt + [|fed|];
      ok := |written| <= writeLimit;
    }

    /** Pushes the chunk just received into the framer. */
    method Receive(chunk: seq<byte>) returns (lines: seq<seq<byte>>)
      requires Fed()
      modifies framer, this`fed
      ensures Fed() && fed == old(fed) + [chunk] && lines == NewLines(fed, |fed| - 1)
      ensures Lines(fed, |fed|) == Lines(old(fed), |old(fed)|) + lines
    {
      hide Drain, Feed;
      FeedMore(fed, chunk);
      var res := framer.Push(chunk);
      fed := fed + [chunk];
      lines := res.lines;
    }

    method Dispatch(line: Line, raw: seq<byte>)
      requires line == Parse(raw)
      modifies this`handled
      ensures handled == if inInit then old(handled) else old(handled) + Reads([raw])
    {
      hide Parse;
      match line
      case TagLine(tag) =>
        if inInit {
          return;
        }
        handled := handled + [TagRead(tag.epc, raw)];
      case _ =>
    }

    /** Dispatches every line but the first that answers `want`. */
    method DispatchLines(lines: seq<seq<byte>>, want: Want) returns (found: bool)
      modifies this`handled
      ensures handled == if inInit then old(handled) else old(handled) + Reads(lines)
      ensures found == SomeMatch(lines, |lines|, want)
    {
      hide Parse, Reads, Matches, SomeMatch;
      NoReads(lines);
      NoMatch(lines, want);
      found := false;
      for i := 0 to |lines|
        invariant handled == if inInit then old(handled) else old(handled) + Reads(lines[..i])
        invariant found == SomeMatch(lines, i, want)
      {
        var line := Parse(lines[i]);
        ReadsUpTo(lines, i);
        MatchUpTo(lines, i, want);
        if !found && Matches(line, want) {
          AnswerIsNoTag(lines[i], want);
          found := true;
        } else {
          Dispatch(line, lines[i]);
        }
      }
      assert lines[..|lines|] == lines;
    }

    /** Handles the lines of a chunk, looking for the answer among them. */
    method ConsumeUntil(chunk: seq<byte>, want: Want) returns (found: bool)
      requires Exact()
      modifies framer, this`fed, this`handled
      ensures Exact() && fed == old(fed) + [chunk]
      ensures found == Carries(fed, |fed| - 1, want)
    {
      hide Feed, NewLines, Reads, HandledSince, Answered, SomeMatch;
      var lines := Receive(chunk);
      found := DispatchLines(lines, want);
      if !inInit {
        AnsweredStays(old(fed), chunk, asked, started, WantAck(LETTER_F));
        HandledGrows(old(fed), chunk, lines, started, old(handled));
      }
    }

    method DispatchAll(lines: seq<seq<byte>>)
      modifies this`handled
      ensures handled == if inInit then old(handled) else old(handled) + Reads(lines)
    {
      hide Parse, Reads;
      NoReads(lines);
      for i := 0 to |lines|
        invariant handled == if inInit then old(handled) else old(handled) + Reads(lines[..i])
      {
        ReadsUpTo(lines, i);
        var line := Parse(lines[i]);
        Dispatch(line, lines[i]);
      }
      assert lines[..|lines|] == lines;
    }

    /** A chunk during the inventory. */
    method HandleChunk(chunk: seq<byte>)
      requires Exact()
      modifies framer, this`fed, this`handled
      ensures Exact() && fed == old(fed) + [chunk]
    {
      hide Feed, NewLines, Reads, HandledSince, Answered;
      var lines := Receive(chunk);
      DispatchAll(lines);
      if !inInit {
        AnsweredStays(old(fed), chunk, asked, started, WantAck(LETTER_F));
        HandledGrows(old(fed), chunk, lines, started, old(handled));
      }
    }

    /** A chunk before the initialisation: its lines are only searched for the answer. */
    method Swallow(chunk: seq<byte>, want: Want) returns (found: bool)
      requires Exact() && inInit
      modifies framer, this`fed
      ensures Exact() && fed == old(fed) + [chunk]
      ensures found == Carries(fed, |fed| - 1, want)
    {
      hide Feed, NewLines, Parse, Matches, SomeMatch;
      var lines := Receive(chunk);
      NoMatch(lines, want);
      for i := 0 to |lines|
        modifies {}
        invariant !SomeMatch(lines, i, want)
      {
        MatchUpTo(lines, i, want);
        if Matches(Parse(lines[i]), want) {
          MatchOn(lines, i + 1, want);
          return true;
        }
      }
      return false;
    }

    /** Stop, then swallow what a running inventory still sends, until the acknowledgement or the timer. */
    method StopAndDrain() returns (ok: bool)
      requires Valid() && inInit && written == []
      modifies framer, this`at, this`written, this`sentAt, this`fed
      ensures Valid() && at >= old(at) && (ok || Over())
      ensures old(fed) <= fed
      ensures written == old(written) + [Stop] && sentAt == old(sentAt) + [|old(fed)|] && Quiet(fed, sentAt, written)
      ensures ok ==> at > old(at)
      ensures if ok && events[at - 1] != Expire then Answered(fed, |old(fed)|, |fed|, WantAck(DIGIT_3))
              else Unanswered(fed, |old(fed)|, |fed|, WantAck(DIGIT_3))
    {
      hide Feed, Exact, Carries, Paced, Quiet;
      QuietAtFirst(fed, sentAt, written);
      PacedMore(fed, sentAt, written, Stop);
      var sent := Write(Stop);
      if !sent {
        return false;
      }
      while at < |events|
        invariant Valid() && at >= old(at) && written == old(written) + [Stop] && sentAt == old(sentAt) + [|old(fed)|]
        invariant Quiet(fed, sentAt, written)
        invariant old(fed) <= fed && Unanswered(fed, |old(fed)|, |fed|, WantAck(DIGIT_3))
      {
        var event := events[at];
        at := at + 1;
        match event
        case Cancel => return false;
        case ReadError => return false;
        case Expire => return true;
        case Power(_) =>
        case Chunk(bytes) =>
          UnansweredStays(fed, bytes, |old(fed)|, |fed|, WantAck(DIGIT_3));
          PacedStays(fed, bytes, sentAt, written);
          var found := Swallow(bytes, WantAck(DIGIT_3));
          if found {
            return true;
          }
      }
      return false;
    }

    /** Writes a command once and waits for its answer. */
    method Command(c: Command, want: Want) returns (ok: bool)
      requires Valid() && Allowed(c) && Quiet(fed, sentAt, written)
      modifies framer, this`at, this`written, this`sentAt, this`fed, this`handled
      ensures Valid() && at >= old(at) && old(fed) <= fed
      ensures written == old(written) + [c] && sentAt == old(sentAt) + [|old(fed)|]
      ensures if ok then Answered(fed, |old(fed)|, |fed|, want) else Over() && Unanswered(fed, |old(fed)|, |fed|, want)
    {
      hide Feed, Exact, Carries, Paced, Quiet;
      PacedMore(fed, sentAt, written, c);
      var sent := Write(c);
      if !sent {
        return false;
      }
      while at < |events|
        invariant Valid() && at >= old(at) && written == old(written) + [c] && sentAt == old(sentAt) + [|old(fed)|]
        invariant old(fed) <= fed && Unanswered(fed, |old(fed)|, |fed|, want)
      {
        var event := events[at];
        at := at + 1;
        match event
        case Cancel => return false;
        case ReadError => return false;
        case Expire => return false;
        case Power(_) =>
        case Chunk(bytes) =>
          UnansweredStays(fed, bytes, |old(fed)|, |fed|, want);
          PacedStays(fed, bytes, sentAt, written);
          var found := ConsumeUntil(bytes, want);
          if found {
            return true;
          }
      }
      return false;
    }

    /** Success means that the version, the buzzer, the power, the packet option and the start were each answered,
        by the first chunk since the command was written to carry ">v", ">b", ">p", ">i" or ">Af", before the
        next command was written. A command that failed got no such line. */
    method Initialize() returns (ok: bool)
      requires Valid() && inInit && written == []
      modifies framer, this`at, this`written, this`sentAt, this`fed, this`handled, this`asked
      ensures Valid() && at >= old(at) && written <= InitCommands(buzzer, powerGain)
      ensures ok ==> written == [Stop, Version, SetBuzzer(buzzer), SetPower(powerGain), RssiOff, StartInventory]
      ensures ok ==>
                && |sentAt| == 6 && sentAt[5] == asked && Quiet(fed, sentAt, written)
                && Answered(fed, sentAt[1], sentAt[2], WantSetting(118))
                && Answered(fed, sentAt[2], sentAt[3], WantSetting(98))
                && Answered(fed, sentAt[3], sentAt[4], WantSetting(112))
                && Answered(fed, sentAt[4], sentAt[5], WantSetting(105))
                && Answered(fed, sentAt[5], |fed|, WantAck(102))
      ensures !ok ==> Over() || !Allowed(SetBuzzer(buzzer)) || !Allowed(SetPower(powerGain))
      ensures !ok && (|written| > 1 || (at > 0 && events[at - 1] == Expire)) ==> Silent(fed, sentAt, written)
    {
      hide HandledSince, Fed, Carries, Chunks, Paced, Answered, StepsDone, Unanswered, InitCommands, InitSteps;
      AllSteps(buzzer, powerGain);
      ok := StopAndDrain();
      if !ok {
        return;
      }
      if !Allowed(SetBuzzer(buzzer)) || !Allowed(SetPower(powerGain)) {
        return false;
      }
      var steps := InitSteps(buzzer, powerGain);
      NoSteps(fed, sentAt, steps);
      for i := 0 to |steps|
        invariant Valid() && at >= old(at) && written == InitCommands(buzzer, powerGain)[..i + 1] && |sentAt| == i + 1
        invariant i > 0 ==> asked == sentAt[i]
        invariant Quiet(fed, sentAt, written) && StepsDone(fed, sentAt, steps, i)
      {
        NextStep(buzzer, powerGain, i);
        ghost var before, sent := fed, sentAt;
        asked := |fed|;
        ok := Command(steps[i].command, steps[i].want);
        if !ok {
          return;
        }
        StepDone(before, fed, sent, steps, i);
        QuietNow(fed, sentAt, written);
      }
      InitDone(fed, sentAt, buzzer, powerGain);
    }

    /** Stop, set the power, start again, each answered by the first chunk since it was written to carry ">A3",
        ">p" or ">Af" before the next one is written. */
    method Reconfigure(power: int) returns (ok: bool)
      requires Valid() && !inInit && Quiet(fed, sentAt, written)
      modifies framer, this`at, this`written, this`sentAt, this`fed, this`handled, this`powers
      ensures Valid() && at >= old(at)
      ensures !Allowed(SetPower(power)) ==> ok && written == old(written) && sentAt == old(sentAt) && fed == old(fed) && powers == old(powers)
      ensures Allowed(SetPower(power)) ==>
                && powers == old(powers) + [power]
                && old(written) <= written <= old(written) + Block(power)
                && (if ok then written == old(written) + Block(power) else Over() && Silent(fed, sentAt, written))
      ensures Allowed(SetPower(power)) && ok ==>
                && written == old(written) + [Stop, SetPower(power), StartInventory]
                && |sentAt| == |written|
                && Answered(fed, sentAt[|written| - 3], sentAt[|written| - 2], WantAck(51))
                && Answered(fed, sentAt[|written| - 2], sentAt[|written| - 1], WantSetting(112))
                && Answered(fed, sentAt[|written| - 1], |fed|, WantAck(102))
      ensures ok ==> Quiet(fed, sentAt, written)
    {
      hide Exact, Carries, Chunks, Unanswered, Paced, Answered;
      if !Allowed(SetPower(power)) {
        return true;
      }
      powers := powers + [power];
      ok := Command(Stop, WantAck(DIGIT_3));
      if !ok {
        return;
      }
      QuietNow(fed, sentAt, written);
      ghost var first, sent := fed, sentAt;
      ok := Command(SetPower(power), WantSetting(LETTER_P));
      if !ok {
        return;
      }
      QuietNow(fed, sentAt, written);
      AnsweredOn(first, fed, sent[|sent| - 1], |first|, WantAck(51));
      ghost var second := fed;
      ok := Command(StartInventory, WantAck(LETTER_F));
      if !ok {
        return;
      }
      QuietNow(fed, sentAt, written);
      AnsweredOn(second, fed, sent[|sent| - 1], |first|, WantAck(51));
      AnsweredOn(second, fed, |first|, |second|, WantSetting(112));
    }

    /** The inventory loop: chunks are handled, accepted powers applied, until the connection is over. */
    method Inventory()
      requires Valid() && !inInit
      requires written == Script(buzzer, powerGain, powers) && Requested() && Quiet(fed, sentAt, written)
      modifies framer, this`at, this`written, this`sentAt, this`fed, this`handled, this`powers
      ensures Valid() && Over() && Requested()
      ensures old(written) <= written <= Script(buzzer, powerGain, powers)
    {
      hide Exact, Script, Block, Paced, Quiet;
      while at < |events|
        invariant Valid() && Requested() && Quiet(fed, sentAt, written)
        invariant old(written) <= written == Script(buzzer, powerGain, powers)
        decreases |events| - at
      {
        var event := events[at];
        at := at + 1;
        match event
        case Cancel => return;
        case ReadError => return;
        case Expire =>
        case Chunk(bytes) =>
          PacedStays(fed, bytes, sentAt, written);
          HandleChunk(bytes);
        case Power(gain) =>
          ScriptMore(buzzer, powerGain, powers, gain);
          var ok := Reconfigure(gain);
          if !ok {
            return;
          }
      }
    }

    /** Every power applied was asked for, and is in range. */
    ghost predicate Requested()
      reads this`powers
    {
      forall v :: v in powers ==> 50 <= v <= 300 && Power(v) in events
    }

    /** One connection from its first write to its end. What it writes is a prefix of the initialisation
        followed by one block for each accepted power; before the inventory it handles nothing, and after
        that exactly the tag lines completed since the chunk with the start acknowledgement. */
    method Serve() returns (entered: bool)
      requires Valid() && inInit && written == [] && powers == []
      modifies framer, this
      ensures Valid() && entered == !inInit && Requested()
      ensures !entered ==> handled == [] && written <= InitCommands(buzzer, powerGain)
      ensures entered ==> HandledSince(fed, started, handled) && Answered(fed, asked, started, WantAck(102))
      ensures Paced(fed, sentAt, written)
      ensures entered ==> InitCommands(buzzer, powerGain) <= written <= Script(buzzer, powerGain, powers)
      ensures Over() || !Allowed(SetBuzzer(buzzer)) || !Allowed(SetPower(powerGain))
    {
      hide HandledSince, Answered, Chunks, Fed, Paced, Quiet;
      entered := Initialize();
      if entered {
        NothingHandled(fed);
        started, inInit := |fed|, false;
        Inventory();
      }
    }
  }
}
