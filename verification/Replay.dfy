// Replaying recorded input (internal/replay/replay.go) against reading it live.
module Replay {
  import opened Framing
  import opened Parsing
  import opened ReaderSession

  const MAX_TOKEN: nat := 65536

  // ---- Raw files: one chunk per text line ----

  function IndexLf(s: seq<byte>, from: nat): (i: int)
    requires from <= |s|
    ensures i == -1 || (from <= i < |s| && s[i] == LF)
    ensures forall k :: from <= k < |s| && (i == -1 || k < i) ==> s[k] != LF
    decreases |s| - from
  {
    if from == |s| then -1 else if s[from] == LF then from else IndexLf(s, from + 1)
  }

  function DropCr(s: seq<byte>): seq<byte> {
    if s != [] && s[|s| - 1] == CR then s[..|s| - 1] else s
  }

  /** A line without the CRs at its end. */
  function TrimCr(s: seq<byte>): (r: seq<byte>)
    ensures r <= s && (r != [] ==> r[|r| - 1] != CR)
    ensures forall i :: |r| <= i < |s| ==> s[i] == CR
  {
    if s != [] && s[|s| - 1] == CR then TrimCr(s[..|s| - 1]) else s
  }

  datatype Scanned = Scanned(lines: seq<seq<byte>>, ok: bool)

  /** The text lines of a file; a line that does not fit the 64 KiB buffer ends the scan with an error. */
  function Scan(s: seq<byte>): Scanned {
    var i := IndexLf(s, 0);
    if 0 <= i < MAX_TOKEN then
      var rest := Scan(s[i + 1..]);
      Scanned([DropCr(s[..i])] + rest.lines, rest.ok)
    else if |s| >= MAX_TOKEN then Scanned([], false)
    else Scanned(if s == [] then [] else [DropCr(s)], true)
  }

  lemma {:induction false} ScanStep(s: seq<byte>)
    ensures var i := IndexLf(s, 0);
            Scan(s) == if 0 <= i < MAX_TOKEN then Scanned([DropCr(s[..i])] + Scan(s[i + 1..]).lines, Scan(s[i + 1..]).ok)
                       else if |s| >= MAX_TOKEN then Scanned([], false)
                       else Scanned(if s == [] then [] else [DropCr(s)], true)
  {
    hide DropCr, IndexLf;
  }

  function RawChunks(lines: seq<seq<byte>>): (chunks: seq<seq<byte>>)
    ensures |chunks| == |lines| && forall i :: 0 <= i < |lines| ==> chunks[i] == TrimCr(lines[i]) + [CR, LF]
  {
    seq(|lines|, i requires 0 <= i < |lines| => TrimCr(lines[i]) + [CR, LF])
  }

  /** Everything a framer fed these chunks hands on. */
  function ReadsOf(chunks: seq<seq<byte>>): seq<TagRead> {
    Reads(Lines(chunks, |chunks|))
  }

  // ---- Recorded chunks ----

  /** A chunk in hexadecimal, decoded. */
  datatype Hex = Bytes(bytes: seq<byte>) | NotHex

  /** One line of a recording; a line over 1 MiB does not fit the scanner's buffer. */
  datatype Record = TooLong | Blank | Malformed | BadTime | Record(chunks: seq<Hex>)

  datatype Played = Played(chunks: seq<seq<byte>>, ok: bool)

  function Decoded(hex: seq<Hex>): Played {
    if hex == [] then Played([], true)
    else
      match hex[0]
      case NotHex => Played([], false)
      case Bytes(b) => var rest := Decoded(hex[1..]); Played([b] + rest.chunks, rest.ok)
  }

  /** The chunks of a recording, up to the first record or chunk that cannot be read. */
  function Play(records: seq<Record>): Played {
    if records == [] then Played([], true)
    else
      match records[0]
      case TooLong => Played([], false)
      case Blank => Play(records[1..])
      case Malformed => Played([], false)
      case BadTime => Played([], false)
      case Record(hex) =>
        var d := Decoded(hex);
        if !d.ok then d
        else var rest := Play(records[1..]); Played(d.chunks + rest.chunks, rest.ok)
  }

  lemma {:induction false} Assoc(a: seq<seq<byte>>, b: seq<seq<byte>>, c: seq<seq<byte>>)
    ensures a + (b + c) == a + b + c
  {
  }

  class Runner {
    var handled: seq<TagRead>

    constructor ()
      ensures handled == []
    {
      handled := [];
    }

    method Consume(lines: seq<seq<byte>>)
      modifies this
      ensures handled == old(handled) + Reads(lines)
    {
      hide Parse;
      NoReads(lines);
      for i := 0 to |lines|
        invariant handled == old(handled) + Reads(lines[..i])
      {
        var raw := lines[i];
        ReadsMore(lines[..i], raw);
        assert lines[..i + 1] == lines[..i] + [raw];
        match Parse(raw)
        case TagLine(tag) => handled := handled + [TagRead(tag.epc, raw)];
        case _ =>
      }
      assert lines[..|lines|] == lines;
    }

    /** One chunk through the framer and on to the handler. */
    method PushAndHandle(framer: Framer, chunk: seq<byte>, ghost fed: seq<seq<byte>>, ghost before: seq<TagRead>)
      requires FedWith(framer, fed) && handled == before + ReadsOf(fed)
      modifies framer, this
      ensures FedWith(framer, fed + [chunk]) && handled == before + ReadsOf(fed + [chunk])
    {
      hide Drain, Feed, Reads;
      FeedMore(fed, chunk);
      var res := framer.Push(chunk);
      ReadsJoined(Lines(fed, |fed|), res.lines);
      Consume(res.lines);
    }

    /** One step of the line scanner: the next line and what follows it, or the end. */
    static method NextLine(rest: seq<byte>) returns (more: bool, ok: bool, line: seq<byte>, after: seq<byte>)
      ensures more ==> |after| < |rest| && Scan(rest) == Scanned([line] + Scan(after).lines, Scan(after).ok)
      ensures !more ==> Scan(rest) == Scanned([], ok)
    {
      ScanStep(rest);
      ScanNothing();
      hide DropCr, Scan, IndexLf;
      var i := IndexLf(rest, 0);
      if 0 <= i < MAX_TOKEN {
        return true, true, DropCr(rest[..i]), rest[i + 1..];
      } else if |rest| >= MAX_TOKEN {
        return false, false, [], [];
      } else if rest == [] {
        return false, true, [], [];
      } else {
        assert [DropCr(rest)] + [] == [DropCr(rest)];
        return true, true, DropCr(rest), [];
      }
    }

    /** Replays a file of text lines. */
    method RunRaw(input: seq<byte>) returns (ok: bool)
      modifies this
      ensures ok == Scan(input).ok
      ensures handled == old(handled) + ReadsOf(RawChunks(Scan(input).lines))
    {
      hide Feed, TrimCr, Reads, Scan, FedWith, Lines;
      var framer := new Framer(0);
      var rest := input;
      ghost var lines: seq<seq<byte>> := [];
      NothingFed(framer);
      assert handled == old(handled) + [] && RawChunks([]) == [];
      while true
        invariant fresh(framer) && FedWith(framer, RawChunks(lines))
        invariant handled == old(handled) + ReadsOf(RawChunks(lines))
        invariant Scan(input) == Scanned(lines + Scan(rest).lines, Scan(rest).ok)
        decreases |rest|
      {
        var more, fine, line, after := NextLine(rest);
        if !more {
          assert lines + [] == lines;
          return fine;
        }
        Assoc(lines, [line], Scan(after).lines);
        assert RawChunks(lines + [line]) == RawChunks(lines) + [TrimCr(line) + [CR, LF]];
        PushAndHandle(framer, TrimCr(line) + [CR, LF], RawChunks(lines), old(handled));
        lines, rest := lines + [line], after;
      }
    }

    /** The chunks of one record, up to the first that is not hexadecimal. */
    method FeedRecord(framer: Framer, hex: seq<Hex>, ghost fed: seq<seq<byte>>, ghost before: seq<TagRead>) returns (ok: bool)
      requires FedWith(framer, fed) && handled == before + ReadsOf(fed)
      modifies framer, this
      ensures ok == Decoded(hex).ok
      ensures FedWith(framer, fed + Decoded(hex).chunks) && handled == before + ReadsOf(fed + Decoded(hex).chunks)
    {
      hide Feed, Reads, FedWith, ReadsOf;
      ghost var done := fed;
      for j := 0 to |hex|
        invariant FedWith(framer, done) && handled == before + ReadsOf(done)
        invariant fed + Decoded(hex).chunks == done + Decoded(hex[j..]).chunks && Decoded(hex).ok == Decoded(hex[j..]).ok
      {
        assert hex[j..][0] == hex[j] && hex[j..][1..] == hex[j + 1..];
        assert done + [] == done;
        match hex[j]
        case NotHex => return false;
        case Bytes(bytes) =>
          Assoc(done, [bytes], Decoded(hex[j + 1..]).chunks);
          PushAndHandle(framer, bytes, done, before);
          done := done + [bytes];
      }
      assert done + [] == done;
      return true;
    }

    /** Replays a recording. */
    method RunNdjson(records: seq<Record>) returns (ok: bool)
      modifies this
      ensures ok == Play(records).ok
      ensures handled == old(handled) + ReadsOf(Play(records).chunks)
    {
      hide Feed, Reads, FedWith, ReadsOf, Decoded;
      var framer := new Framer(0);
      ghost var fed: seq<seq<byte>> := [];
      NothingFed(framer);
      assert handled == old(handled) + [] && fed + Play(records).chunks == Play(records).chunks;
      for i := 0 to |records|
        invariant fresh(framer) && FedWith(framer, fed) && handled == old(handled) + ReadsOf(fed)
        invariant Play(records).chunks == fed + Play(records[i..]).chunks && Play(records).ok == Play(records[i..]).ok
      {
        assert records[i..][0] == records[i] && records[i..][1..] == records[i + 1..];
        assert fed + [] == fed;
        match records[i]
        case TooLong => return false;
        case Blank =>
        case Malformed => return false;
        case BadTime => return false;
        case Record(hex) =>
          Assoc(fed, Decoded(hex).chunks, Play(records[i + 1..]).chunks);
          ok := FeedRecord(framer, hex, fed, old(handled));
          if !ok {
            return;
          }
          fed := fed + Decoded(hex).chunks;
      }
      assert fed + [] == fed;
      ok := true;
    }
  }

  lemma {:induction false} NothingFed(framer: Framer)
    requires framer.maxLine == DEFAULT_MAX_LINE && framer.buf == [] && !framer.dropping
    ensures FedWith(framer, []) && ReadsOf([]) == []
  {
  }

  // ---- Replay equals live ----

  /** A line without CR or LF, short enough to be framed whatever the chunking. */
  predicate Plain(line: seq<byte>) {
    |line| < DEFAULT_MAX_LINE && CR !in line && LF !in line
  }

  predicate AllPlain(lines: seq<seq<byte>>) {
    forall i :: 0 <= i < |lines| ==> Plain(lines[i])
  }

  /** What comes later does not change the frames already complete. */
  lemma {:induction false} SplitPrefix(s: seq<byte>, t: seq<byte>, n: nat)
    requires n <= |s|
    ensures Split(s + t, n) == Split(s, n) && Start(s + t, n) == Start(s, n)
  {
    if n >= 2 {
      SplitPrefix(s, t, n - 1);
      SplitPrefix(s, t, n - 2);
      assert CrlfAt(s + t, n - 2) <==> CrlfAt(s, n - 2);
      assert (s + t)[Start(s, n - 2)..n - 2] == s[Start(s, n - 2)..n - 2];
    }
  }

  /** Bytes that complete no frame. */
  lemma {:induction false} SplitFlat(s: seq<byte>, n: nat, m: nat)
    requires n <= m <= |s| && forall k: nat :: n <= k + 1 && k + 2 <= m ==> !CrlfAt(s, k)
    ensures Split(s, m) == Split(s, n) && Start(s, m) == Start(s, n)
  {
    if n < m {
      SplitFlat(s, n, m - 1);
      if m >= 2 {
        assert !CrlfAt(s, m - 2);
      }
    }
  }

  /** The bytes of a plain line complete no frame. */
  lemma {:induction false} LineIsFlat(s: seq<byte>, line: seq<byte>, u: seq<byte>, k: nat)
    requires Plain(line) && Start(s, |s|) == |s| && u == s + line + [CR, LF]
    requires |s| <= k + 1 && k < |s| + |line|
    ensures !CrlfAt(u, k)
  {
    if |s| <= k {
      assert u[k] == line[k - |s|];
    } else {
      assert u[k] == s[k];
    }
  }

  lemma {:induction false} LastFrame(s: seq<byte>, line: seq<byte>, u: seq<byte>)
    requires u == s + line + [CR, LF]
    ensures CrlfAt(u, |s| + |line|) && u[|s|..|s| + |line|] == line
  {
  }

  lemma {:induction false} SplitAtCrlf(u: seq<byte>, m: nat)
    requires CrlfAt(u, m)
    ensures Split(u, m + 2) == Split(u, m + 1) + [u[Start(u, m)..m]] && Start(u, m + 2) == m + 2
  {
  }

  /** A plain line and its CRLF behind a stream that ends with a frame: one more frame. */
  lemma {:induction false} SplitLine(s: seq<byte>, line: seq<byte>)
    requires Plain(line) && Start(s, |s|) == |s|
    ensures var u := s + line + [CR, LF]; Split(u, |u|) == Split(s, |s|) + [line] && Start(u, |u|) == |u|
  {
    hide Split, Start, CrlfAt, Plain;
    var u := s + line + [CR, LF];
    assert u == s + (line + [CR, LF]);
    SplitPrefix(s, line + [CR, LF], |s|);
    var n, m := |s|, |s| + |line|;
    forall k: nat | n <= k + 1 && k + 2 <= m + 1 ensures !CrlfAt(u, k) {
      LineIsFlat(s, line, u, k);
    }
    SplitFlat(u, n, m + 1);
    SplitFlat(u, n, m);
    LastFrame(s, line, u);
    SplitAtCrlf(u, m);
  }

  /** Splitting undoes joining. */
  lemma {:induction false} SplitOfJoin(lines: seq<seq<byte>>)
    requires AllPlain(lines)
    ensures var s := Join(lines); Split(s, |s|) == lines && Start(s, |s|) == |s|
  {
    if lines != [] {
      var before, last := lines[..|lines| - 1], lines[|lines| - 1];
      SplitOfJoin(before);
      SplitLine(Join(before), last);
      assert lines == before + [last];
    }
  }

  lemma {:induction false} ShortAll(lines: seq<seq<byte>>)
    requires AllPlain(lines)
    ensures Short(lines, DEFAULT_MAX_LINE) == lines && NoBoundaryFrame(lines, DEFAULT_MAX_LINE)
  {
    if lines != [] {
      var before, last := lines[..|lines| - 1], lines[|lines| - 1];
      ShortAll(before);
      assert lines == before + [last];
    }
  }

  /** Whatever the chunking, a framer returns exactly the lines. */
  lemma {:induction false} LinesOfStream(lines: seq<seq<byte>>, chunks: seq<seq<byte>>)
    requires AllPlain(lines) && All(chunks) == Join(lines)
    ensures Lines(chunks, |chunks|) == lines
  {
    SplitOfJoin(lines);
    ShortAll(lines);
    ChunkIndependent(DEFAULT_MAX_LINE, chunks);
  }

  lemma {:induction false} JoinFront(line: seq<byte>, rest: seq<seq<byte>>)
    ensures Join([line] + rest) == line + [CR, LF] + Join(rest)
  {
    var all := [line] + rest;
    if rest == [] {
      assert all[..0] == [] && Join([]) == [];
    } else {
      var front, last := rest[..|rest| - 1], rest[|rest| - 1];
      JoinFront(line, front);
      assert all == ([line] + front) + [last] && rest == front + [last];
      JoinMore([line] + front, last);
      JoinMore(front, last);
      hide Join;
      assert line + [CR, LF] + Join(front) + last + [CR, LF] == line + [CR, LF] + (Join(front) + last + [CR, LF]);
    }
  }

  lemma {:induction false} ScanLine(line: seq<byte>, rest: seq<byte>)
    requires Plain(line)
    ensures Scan(line + [CR, LF] + rest) == Scanned([line] + Scan(rest).lines, Scan(rest).ok)
  {
    var s := line + [CR, LF] + rest;
    var i := |line| + 1;
    assert s[i] == LF && forall k :: 0 <= k < |line| ==> s[k] == line[k];
    assert s[|line|] == CR;
    assert IndexLf(s, 0) == i;
    assert s[..i] == line + [CR] && s[i + 1..] == rest;
    assert (line + [CR])[..|line|] == line;
  }

  /** The text lines of a file of CRLF lines. */
  lemma {:induction false} ScanOfJoin(lines: seq<seq<byte>>)
    requires AllPlain(lines)
    ensures Scan(Join(lines)) == Scanned(lines, true)
  {
    hide Scan, Join, Plain;
    if lines == [] {
      ScanNothing();
    } else {
      var line, rest := lines[0], lines[1..];
      assert [line] + rest == lines;
      ScanOfJoin(rest);
      JoinFront(line, rest);
      ScanLine(line, Join(rest));
    }
  }

  lemma {:induction false} ScanNothing()
    ensures Join([]) == [] && Scan([]) == Scanned([], true)
  {
  }

  lemma {:induction false} RawStream(lines: seq<seq<byte>>, n: nat)
    requires AllPlain(lines) && n <= |lines|
    ensures Stream(RawChunks(lines), n) == Join(lines[..n])
  {
    if n > 0 {
      RawStream(lines, n - 1);
      var line := lines[n - 1];
      assert TrimCr(line) == line;
      assert lines[..n][..n - 1] == lines[..n - 1];
      assert Join(lines[..n]) == Join(lines[..n - 1]) + line + [CR, LF];
      assert Join(lines[..n - 1]) + (line + [CR, LF]) == Join(lines[..n - 1]) + line + [CR, LF];
    }
  }

  /** The chunks so far end with a whole frame: the framer has nothing left over. */
  predicate AtBoundary(fed: seq<seq<byte>>) {
    var f := Feed(DEFAULT_MAX_LINE, fed, |fed|);
    f.buf == [] && !f.dropping
  }

  /** A framer at a frame boundary treats what follows as a new stream. */
  lemma {:induction false} FreshStart(before: seq<seq<byte>>, chunks: seq<seq<byte>>, n: nat)
    requires n <= |chunks| && AtBoundary(before)
    ensures var f, g := Feed(DEFAULT_MAX_LINE, before + chunks, |before| + n), Feed(DEFAULT_MAX_LINE, chunks, n);
            && f.buf == g.buf && f.dropping == g.dropping
            && f.out.lines == Lines(before, |before|) + g.out.lines
  {
    hide Drain;
    if n == 0 {
      FeedStays(before, chunks, |before|);
    } else {
      FreshStart(before, chunks, n - 1);
      var f, g := Feed(DEFAULT_MAX_LINE, before + chunks, |before| + n - 1), Feed(DEFAULT_MAX_LINE, chunks, n - 1);
      assert (before + chunks)[|before| + n - 1] == chunks[n - 1];
      DrainAdds(f.out, f.buf + chunks[n - 1], f.dropping, DEFAULT_MAX_LINE);
      DrainAdds(g.out, g.buf + chunks[n - 1], g.dropping, DEFAULT_MAX_LINE);
      Assoc(Lines(before, |before|), g.out.lines, Drain(NONE, g.buf + chunks[n - 1], g.dropping, DEFAULT_MAX_LINE).out.lines);
    }
  }

  lemma {:induction false} FeedStays(fed: seq<seq<byte>>, more: seq<seq<byte>>, n: nat)
    requires n <= |fed|
    ensures Feed(DEFAULT_MAX_LINE, fed + more, n) == Feed(DEFAULT_MAX_LINE, fed, n)
  {
    hide Drain;
    if n > 0 {
      FeedStays(fed, more, n - 1);
      assert (fed + more)[n - 1] == fed[n - 1];
    }
  }

  /** A file of CRLF lines, replayed raw, replayed from any recording of its bytes, or read live in any
      chunking by a connection that has just consumed a whole number of frames, hands the same tag reads
      to the handler. */
  lemma {:induction false} ReplayEqualsLive(
    lines: seq<seq<byte>>, records: seq<Record>, before: seq<seq<byte>>, chunks: seq<seq<byte>>, handled: seq<TagRead>)
    requires AllPlain(lines)
    requires Play(records).ok && All(Play(records).chunks) == Join(lines)
    requires AtBoundary(before)
    requires All(chunks) == Join(lines) && HandledSince(before + chunks, |before|, handled)
    ensures Scan(Join(lines)).ok && ReadsOf(RawChunks(Scan(Join(lines)).lines)) == Reads(lines)
    ensures ReadsOf(Play(records).chunks) == Reads(lines)
    ensures handled == Reads(lines)
  {
    RawFile(lines);
    LinesOfStream(lines, Play(records).chunks);
    Live(lines, before, chunks, handled);
  }

  lemma {:induction false} RawFile(lines: seq<seq<byte>>)
    requires AllPlain(lines)
    ensures Scan(Join(lines)) == Scanned(lines, true) && Lines(RawChunks(lines), |lines|) == lines
  {
    ScanOfJoin(lines);
    RawStream(lines, |lines|);
    assert lines[..|lines|] == lines;
    LinesOfStream(lines, RawChunks(lines));
  }

  lemma {:induction false} Live(lines: seq<seq<byte>>, before: seq<seq<byte>>, chunks: seq<seq<byte>>, handled: seq<TagRead>)
    requires AllPlain(lines) && All(chunks) == Join(lines) && HandledSince(before + chunks, |before|, handled)
    requires AtBoundary(before)
    ensures handled == Reads(lines)
  {
    hide Feed, Reads;
    LinesOfStream(lines, chunks);
    FreshStart(before, chunks, |chunks|);
    FeedStays(before, chunks, |before|);
    var first := Lines(before, |before|);
    assert (first + lines)[|first|..] == lines;
  }
}
