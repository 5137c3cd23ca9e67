// CRLF framing over arbitrary chunk boundaries (internal/reader/protocol/framer.go), refined against a
// plain split of the whole stream.
module Framing {
  type byte = b: int | 0 <= b < 256

  const CR: byte := 13
  const LF: byte := 10
  const DEFAULT_MAX_LINE: nat := 4096

  predicate CrlfAt(s: seq<byte>, i: nat) {
    i + 1 < |s| && s[i] == CR && s[i + 1] == LF
  }

  /** Index of the first CRLF at or after `from`, or -1. */
  function IndexFrom(s: seq<byte>, from: nat): (i: int)
    ensures i == -1 || (from <= i && CrlfAt(s, i))
    ensures forall k: nat :: from <= k && (i == -1 || k < i) ==> !CrlfAt(s, k)
    decreases |s| - from
  {
    if from >= |s| then -1 else if CrlfAt(s, from) then from else IndexFrom(s, from + 1)
  }

  function IndexCrlf(s: seq<byte>): (i: int)
    ensures i == -1 || (0 <= i && CrlfAt(s, i))
    ensures forall k: nat :: i == -1 || k < i ==> !CrlfAt(s, k)
  {
    IndexFrom(s, 0)
  }

  /** Complete lines, and the number of frames thrown away as too long. */
  datatype Frames = Frames(lines: seq<seq<byte>>, dropped: nat) {
    function Add(line: seq<byte>, kept: bool): Frames {
      if kept then Frames(lines + [line], dropped) else Frames(lines, dropped + 1)
    }
  }

  const NONE := Frames([], 0)

  // ---- The framer ----

  datatype Framed = Framed(out: Frames, buf: seq<byte>, dropping: bool)

  /** What is left when the buffer holds no CRLF: an overlong rest is given up, but for a final CR. */
  function Trimmed(out: Frames, buf: seq<byte>, dropping: bool, maxLine: nat): Framed {
    if |buf| > maxLine then Framed(out, if buf[|buf| - 1] == CR then [CR] else [], true)
    else Framed(out, buf, dropping)
  }

  /** Everything the loop of Push takes out of a buffer, added to `out`. */
  function Drain(out: Frames, buf: seq<byte>, dropping: bool, maxLine: nat): Framed
    decreases |buf|
  {
    var i := IndexCrlf(buf);
    if i < 0 then Trimmed(out, buf, dropping, maxLine)
    else Drain(out.Add(buf[..i], !dropping && i <= maxLine), buf[i + 2..], false, maxLine)
  }

  class Framer {
    var buf: seq<byte>
    var dropping: bool
    const maxLine: nat

    constructor (maxLine: int)
      ensures this.maxLine == (if maxLine <= 0 then 4096 else maxLine)
      ensures buf == [] && !dropping
    {
      this.maxLine := if maxLine <= 0 then DEFAULT_MAX_LINE else maxLine;
      buf, dropping := [], false;
    }

    method Push(chunk: seq<byte>) returns (res: Frames)
      modifies this
      ensures Framed(res, buf, dropping) == Drain(NONE, old(buf) + chunk, old(dropping), maxLine)
    {
      buf := buf + chunk;
      res := NONE;
      while true
        invariant Drain(res, buf, dropping, maxLine) == Drain(NONE, old(buf) + chunk, old(dropping), maxLine)
        decreases |buf|
      {
        var i := IndexCrlf(buf);
        if i < 0 {
          if |buf| > maxLine {
            dropping := true;
            buf := if buf[|buf| - 1] == CR then [CR] else [];
          }
          return;
        }
        var line := buf[..i];
        if dropping {
          dropping := false;
          res := res.(dropped := res.dropped + 1);
        } else if |line| > maxLine {
          res := res.(dropped := res.dropped + 1);
        } else {
          res := res.(lines := res.lines + [line]);
        }
        buf := buf[i + 2..];
      }
    }
  }

  /** A framer fed the first n chunks, with everything it returned so far. */
  function Feed(maxLine: nat, chunks: seq<seq<byte>>, n: nat): Framed
    requires n <= |chunks|
  {
    if n == 0 then Framed(NONE, [], false)
    else
      var f := Feed(maxLine, chunks, n - 1);
      Drain(f.out, f.buf + chunks[n - 1], f.dropping, maxLine)
  }

  lemma {:induction false} Reassociate(a: seq<seq<byte>>, b: seq<seq<byte>>, c: seq<seq<byte>>)
    ensures (a + b) + c == a + (b + c) && a + [] == a && [] + b == b
  {
  }

  /** One Push returns what it adds to the output so far. */
  lemma {:induction false} DrainAdds(out: Frames, buf: seq<byte>, dropping: bool, maxLine: nat)
    ensures var d, e := Drain(out, buf, dropping, maxLine), Drain(NONE, buf, dropping, maxLine);
            d == Framed(Frames(out.lines + e.out.lines, out.dropped + e.out.dropped), e.buf, e.dropping)
    decreases |buf|
  {
    var i := IndexCrlf(buf);
    if i >= 0 {
      var line, kept := buf[..i], !dropping && i <= maxLine;
      DrainAdds(out.Add(line, kept), buf[i + 2..], false, maxLine);
      DrainAdds(NONE.Add(line, kept), buf[i + 2..], false, maxLine);
      Reassociate(out.lines, if kept then [line] else [], Drain(NONE, buf[i + 2..], false, maxLine).out.lines);
    }
  }

  // ---- The reference: split the whole stream at CRLF ----

  /** Where the frame that is open after n bytes starts: after the last CRLF among them. */
  function Start(s: seq<byte>, n: nat): (o: nat)
    requires n <= |s|
    ensures o <= n && (0 < o ==> s[o - 1] == LF)
  {
    if n < 2 then 0 else if CrlfAt(s, n - 2) then n else Start(s, n - 1)
  }

  /** The frames completed by the first n bytes. */
  function Split(s: seq<byte>, n: nat): seq<seq<byte>>
    requires n <= |s|
  {
    if n < 2 then []
    else if CrlfAt(s, n - 2) then Split(s, n - 1) + [s[Start(s, n - 2)..n - 2]]
    else Split(s, n - 1)
  }

  /** Frames put together again, each with its CRLF. */
  function Join(frames: seq<seq<byte>>): seq<byte> {
    if frames == [] then [] else Join(frames[..|frames| - 1]) + frames[|frames| - 1] + [CR, LF]
  }

  /** A frame of `len` bytes survives if it is shorter than the limit, or exactly as long and no chunk
      ends between its CR and its LF. */
  predicate Survives(len: nat, cut: bool, maxLine: nat) {
    len < maxLine || (len == maxLine && !cut)
  }

  /** The frames completed by the first n bytes: those that survive, and how many do not. */
  function Expected(s: seq<byte>, n: nat, cuts: set<nat>, maxLine: nat): Frames
    requires n <= |s|
  {
    if n < 2 then NONE
    else
      var prev := Expected(s, n - 1, cuts, maxLine);
      if CrlfAt(s, n - 2) then
        var o := Start(s, n - 2);
        prev.Add(s[o..n - 2], Survives(n - 2 - o, n - 1 in cuts, maxLine))
      else prev
  }

  // ---- What the reference means ----

  lemma {:induction false} JoinMore(frames: seq<seq<byte>>, f: seq<byte>)
    ensures Join(frames + [f]) == Join(frames) + f + [CR, LF]
  {
    assert (frames + [f])[..|frames|] == frames;
  }

  /** No CRLF inside the open frame. */
  lemma {:induction false} OpenFrame(s: seq<byte>, n: nat, k: nat)
    requires n <= |s| && Start(s, n) <= k && k + 2 <= n
    ensures !CrlfAt(s, k)
  {
    if k + 2 < n {
      OpenFrame(s, n - 1, k);
    }
  }

  lemma {:induction false} JoinFrame(s: seq<byte>, o: nat, n: nat, before: seq<seq<byte>>)
    requires o <= n && CrlfAt(s, n) && Join(before) + s[o..n] == s[..n]
    ensures Join(before + [s[o..n]]) == s[..n + 2]
  {
    JoinMore(before, s[o..n]);
    assert s[..n + 2] == s[..n] + [CR, LF];
  }

  lemma {:induction false} JoinByte(s: seq<byte>, o: nat, n: nat, before: seq<byte>)
    requires o <= n < |s| && before + s[o..n] == s[..n]
    ensures before + s[o..n + 1] == s[..n + 1]
  {
    assert s[o..n + 1] == s[o..n] + [s[n]];
    assert s[..n + 1] == s[..n] + [s[n]];
  }

  /** Split loses and invents nothing: joined again with CRLF, and followed by the unfinished part, its
      frames are the stream. */
  lemma {:induction false} SplitJoins(s: seq<byte>, n: nat)
    requires n <= |s|
    ensures Join(Split(s, n)) + s[Start(s, n)..n] == s[..n]
  {
    if n >= 2 {
      if CrlfAt(s, n - 2) {
        SplitJoins(s, n - 2);
        JoinFrame(s, Start(s, n - 2), n - 2, Split(s, n - 2));
      } else {
        SplitJoins(s, n - 1);
        JoinByte(s, Start(s, n - 1), n - 1, Join(Split(s, n - 1)));
      }
    }
  }

  /** No byte 13 is followed by a byte 10. */
  predicate NoCrlf(b: seq<byte>) {
    forall k: nat :: k + 1 < |b| && b[k] == 13 ==> b[k + 1] != 10
  }

  lemma {:induction false} OpenIsPlain(s: seq<byte>, n: nat)
    requires n <= |s|
    ensures NoCrlf(s[Start(s, n)..n])
  {
    var o := Start(s, n);
    forall k: nat | k + 1 < |s[o..n]| && s[o..n][k] == 13 ensures s[o..n][k + 1] != 10 {
      OpenFrame(s, n, o + k);
      assert s[o..n][k] == s[o + k] && s[o..n][k + 1] == s[o + k + 1];
    }
  }

  /** The frames of the split are the stream cut at every pair of bytes 13 and 10 and nowhere else: none is left
      in a frame or behind the last one. */
  lemma {:induction false} SplitExactly(s: seq<byte>, n: nat)
    requires n <= |s|
    ensures Join(Split(s, n)) + s[Start(s, n)..n] == s[..n]
    ensures forall i :: 0 <= i < |Split(s, n)| ==> NoCrlf(Split(s, n)[i])
    ensures NoCrlf(s[Start(s, n)..n])
  {
    SplitJoins(s, n);
    OpenIsPlain(s, n);
    if n >= 2 {
      SplitExactly(s, n - 1);
      if CrlfAt(s, n - 2) {
        OpenIsPlain(s, n - 2);
      }
    }
  }

  // ---- Refinement ----

  /** Bytes that complete no frame change nothing. */
  lemma {:induction false} Flat(s: seq<byte>, n: nat, m: nat, cuts: set<nat>, maxLine: nat)
    requires n <= m <= |s|
    requires forall k: nat :: n <= k + 1 && k + 2 <= m ==> !CrlfAt(s, k)
    ensures Start(s, m) == Start(s, n) && Expected(s, m, cuts, maxLine) == Expected(s, n, cuts, maxLine)
  {
    if n < m {
      Flat(s, n, m - 1, cuts, maxLine);
      if m >= 2 {
        assert !CrlfAt(s, m - 2);
      }
    }
  }

  /** The framer's state against the stream after n bytes, its buffer being s[q..n]. */
  ghost predicate Tracks(s: seq<byte>, q: nat, n: nat, dropping: bool, maxLine: nat)
    requires n <= |s|
  {
    var o := Start(s, n);
    && o <= q <= n
    && (o < n && s[n - 1] == CR ==> q < n)
    && (dropping <==> n - o > maxLine)
    && (!dropping ==> q == o)
  }

  /** After n bytes the framer looks at s[q..b] and finds the first CRLF at e: the frame it ends is the
      reference's next, and is kept exactly when it survives. */
  lemma {:induction false} NextFrame(s: seq<byte>, q: nat, n: nat, b: nat, e: nat, dropping: bool, cuts: set<nat>, maxLine: nat)
    requires n <= b <= |s| && Tracks(s, q, n, dropping, maxLine)
    requires q <= e && e + 2 <= b && CrlfAt(s, e) && forall k: nat :: q <= k < e ==> !CrlfAt(s, k)
    requires n in cuts || n == Start(s, n)
    requires forall at :: at in cuts ==> at <= n || b <= at
    ensures n < e + 2 && Start(s, e) == Start(s, n)
    ensures Expected(s, e + 1, cuts, maxLine) == Expected(s, n, cuts, maxLine)
    ensures (!dropping && e - q <= maxLine) <==> Survives(e - Start(s, n), e + 1 in cuts, maxLine)
    ensures !dropping ==> q == Start(s, n)
  {
    if e + 2 <= n {
      OpenFrame(s, n, e);
    }
    forall k: nat | n <= k + 1 && k < e ensures !CrlfAt(s, k) {
    }
    Flat(s, n, e + 1, cuts, maxLine);
  }

  /** No CRLF in s[q..b]: nothing comes out, and the framer keeps tracking. */
  lemma {:induction false} NoFrame(s: seq<byte>, q: nat, n: nat, b: nat, dropping: bool, cuts: set<nat>, maxLine: nat)
    requires n <= b <= |s| && Tracks(s, q, n, dropping, maxLine)
    requires forall k: nat :: q <= k && k + 2 <= b ==> !CrlfAt(s, k)
    ensures Expected(s, b, cuts, maxLine) == Expected(s, n, cuts, maxLine) && Start(s, b) == Start(s, n)
  {
    forall k: nat | n <= k + 1 && k + 2 <= b ensures !CrlfAt(s, k) {
    }
    Flat(s, n, b, cuts, maxLine);
  }

  ghost predicate State(f: Framed, s: seq<byte>, n: nat, maxLine: nat)
    requires n <= |s|
  {
    && |f.buf| <= n && |f.buf| <= maxLine
    && f.buf == s[n - |f.buf|..n]
    && Tracks(s, n - |f.buf|, n, f.dropping, maxLine)
  }

  lemma {:induction false} TrimmedTracks(out: Frames, s: seq<byte>, q: nat, n: nat, b: nat,
                                         dropping: bool, cuts: set<nat>, maxLine: nat)
    requires maxLine >= 1 && n <= b <= |s| && Tracks(s, q, n, dropping, maxLine)
    requires forall k: nat :: q <= k && k + 2 <= b ==> !CrlfAt(s, k)
    ensures State(Trimmed(out, s[q..b], dropping, maxLine), s, b, maxLine)
  {
    NoFrame(s, q, n, b, dropping, cuts, maxLine);
  }

  lemma {:induction false} SliceIndex(s: seq<byte>, q: nat, b: nat, buf: seq<byte>)
    requires q <= b <= |s| && buf == s[q..b]
    ensures var i := IndexCrlf(buf);
            if i < 0 then forall k: nat :: q <= k && k + 2 <= b ==> !CrlfAt(s, k)
            else
              && q + i + 2 <= b && CrlfAt(s, q + i) && (forall k: nat :: q <= k < q + i ==> !CrlfAt(s, k))
              && buf[i + 2..] == s[q + i + 2..b]
              && buf[..i] == s[q..q + i]
  {
    forall k: nat | q <= k && k + 2 <= b ensures CrlfAt(s, k) <==> CrlfAt(buf, k - q) {
    }
  }

  /** Taking the frame out that ends at the first CRLF keeps the framer and the reference together. */
  lemma {:induction false} FrameRefines(out: Frames, s: seq<byte>, q: nat, n: nat, b: nat,
                                        buf: seq<byte>, dropping: bool, cuts: set<nat>, maxLine: nat)
    requires n <= b <= |s| && Tracks(s, q, n, dropping, maxLine) && buf == s[q..b] && IndexCrlf(buf) >= 0
    requires n in cuts || n == Start(s, n)
    requires forall at :: at in cuts ==> at <= n || b <= at
    requires out == Expected(s, n, cuts, maxLine)
    ensures var i := IndexCrlf(buf);
            var m := q + i + 2;
            && n < m == Start(s, m) && m <= b && Tracks(s, m, m, false, maxLine) && buf[i + 2..] == s[m..b]
            && out.Add(buf[..i], !dropping && i <= maxLine) == Expected(s, m, cuts, maxLine)
  {
    SliceIndex(s, q, b, buf);
    NextFrame(s, q, n, b, q + IndexCrlf(buf), dropping, cuts, maxLine);
  }

  ghost predicate Refined(d: Framed, s: seq<byte>, n: nat, cuts: set<nat>, maxLine: nat)
    requires n <= |s|
  {
    d.out == Expected(s, n, cuts, maxLine) && State(d, s, n, maxLine)
  }

  lemma {:induction false} RestRefines(out: Frames, s: seq<byte>, q: nat, n: nat, b: nat,
                                       buf: seq<byte>, dropping: bool, cuts: set<nat>, maxLine: nat)
    requires maxLine >= 1 && n <= b <= |s| && Tracks(s, q, n, dropping, maxLine) && buf == s[q..b] && IndexCrlf(buf) < 0
    requires out == Expected(s, n, cuts, maxLine)
    ensures Refined(Trimmed(out, buf, dropping, maxLine), s, b, cuts, maxLine)
  {
    SliceIndex(s, q, b, buf);
    NoFrame(s, q, n, b, dropping, cuts, maxLine);
    TrimmedTracks(out, s, q, n, b, dropping, cuts, maxLine);
  }

  /** Draining s[q..b] brings the framer from the reference's state after n bytes to that after b. */
  lemma {:induction false} DrainRefines(out: Frames, s: seq<byte>, q: nat, n: nat, b: nat,
                                        buf: seq<byte>, dropping: bool, cuts: set<nat>, maxLine: nat)
    requires maxLine >= 1 && n <= b <= |s| && Tracks(s, q, n, dropping, maxLine) && buf == s[q..b]
    requires n in cuts || n == Start(s, n)
    requires forall at :: at in cuts ==> at <= n || b <= at
    requires out == Expected(s, n, cuts, maxLine)
    ensures Refined(Drain(out, buf, dropping, maxLine), s, b, cuts, maxLine)
    decreases b - q
  {
    hide Refined, Expected, Start, IndexCrlf, Trimmed, Tracks;
    var i := IndexCrlf(buf);
    if i < 0 {
      RestRefines(out, s, q, n, b, buf, dropping, cuts, maxLine);
    } else {
      FrameRefines(out, s, q, n, b, buf, dropping, cuts, maxLine);
      DrainRefines(out.Add(buf[..i], !dropping && i <= maxLine), s, q + i + 2, q + i + 2, b, buf[i + 2..], false, cuts, maxLine);
    }
  }

  /** One more chunk. */
  lemma {:induction false} ChunkRefines(f: Framed, s: seq<byte>, a: nat, b: nat, chunk: seq<byte>, cuts: set<nat>, maxLine: nat)
    requires maxLine >= 1 && a <= b <= |s| && chunk == s[a..b] && Refined(f, s, a, cuts, maxLine)
    requires a in cuts && forall at :: at in cuts ==> at <= a || b <= at
    ensures Refined(Drain(f.out, f.buf + chunk, f.dropping, maxLine), s, b, cuts, maxLine)
  {
    var q := a - |f.buf|;
    assert f.buf + chunk == s[q..b];
    DrainRefines(f.out, s, q, a, b, f.buf + chunk, f.dropping, cuts, maxLine);
  }

  // ---- Whole streams ----

  /** The first n chunks, one after the other. */
  function Stream(chunks: seq<seq<byte>>, n: nat): seq<byte>
    requires n <= |chunks|
  {
    if n == 0 then [] else Stream(chunks, n - 1) + chunks[n - 1]
  }

  function All(chunks: seq<seq<byte>>): seq<byte> {
    Stream(chunks, |chunks|)
  }

  /** Stream position at which chunk n ends. */
  function End(chunks: seq<seq<byte>>, n: nat): nat
    requires n <= |chunks|
  {
    |Stream(chunks, n)|
  }

  /** Stream positions at which a chunk ends. */
  function Cuts(chunks: seq<seq<byte>>): set<nat> {
    set k | 0 <= k <= |chunks| :: End(chunks, k)
  }

  lemma {:induction false} EndsOrdered(chunks: seq<seq<byte>>, n: nat, m: nat)
    requires n <= m <= |chunks|
    ensures End(chunks, n) <= End(chunks, m) && Stream(chunks, n) == Stream(chunks, m)[..End(chunks, n)]
  {
    if n < m {
      EndsOrdered(chunks, n, m - 1);
    }
  }

  /** Chunk n is a piece of the stream that no other chunk ends in. */
  lemma {:induction false} ChunkPlace(chunks: seq<seq<byte>>, n: nat)
    requires n < |chunks|
    ensures End(chunks, n) <= End(chunks, n + 1) <= |All(chunks)|
    ensures All(chunks)[End(chunks, n)..End(chunks, n + 1)] == chunks[n]
    ensures End(chunks, n) in Cuts(chunks)
    ensures forall at :: at in Cuts(chunks) ==> at <= End(chunks, n) || End(chunks, n + 1) <= at
  {
    EndsOrdered(chunks, n, n + 1);
    EndsOrdered(chunks, n + 1, |chunks|);
    var t := Stream(chunks, n + 1);
    assert t[End(chunks, n)..] == chunks[n];
    assert All(chunks)[End(chunks, n)..End(chunks, n + 1)] == t[End(chunks, n)..];
    forall k | 0 <= k <= |chunks| ensures End(chunks, k) <= End(chunks, n) || End(chunks, n + 1) <= End(chunks, k) {
      if k <= n {
        EndsOrdered(chunks, k, n);
      } else {
        EndsOrdered(chunks, n + 1, k);
      }
    }
  }

  lemma {:induction false} NothingYet(s: seq<byte>, cuts: set<nat>, maxLine: nat)
    ensures Refined(Framed(NONE, [], false), s, 0, cuts, maxLine)
  {
  }

  /** For every stream and every chunking, after every chunk: the framer has returned, in order and byte
      for byte, the frames of the plain split that survive, and has counted each other one once; its
      buffer is the end of the unfinished frame. */
  lemma {:induction false} FramerRefinesSplit(maxLine: nat, chunks: seq<seq<byte>>, n: nat)
    requires n <= |chunks| && maxLine >= 1
    ensures End(chunks, n) <= |All(chunks)|
    ensures Refined(Feed(maxLine, chunks, n), All(chunks), End(chunks, n), Cuts(chunks), maxLine)
  {
    hide Drain, Refined, Expected, State;
    if n == 0 {
      NothingYet(All(chunks), Cuts(chunks), maxLine);
    } else {
      FramerRefinesSplit(maxLine, chunks, n - 1);
      ChunkPlace(chunks, n - 1);
      ChunkRefines(Feed(maxLine, chunks, n - 1), All(chunks), End(chunks, n - 1), End(chunks, n), chunks[n - 1], Cuts(chunks), maxLine);
    }
  }

  /** CRLF pairs among the first n bytes. */
  function Pairs(s: seq<byte>, n: nat): nat
    requires n <= |s|
  {
    if n < 2 then 0 else Pairs(s, n - 1) + (if CrlfAt(s, n - 2) then 1 else 0)
  }

  lemma {:induction false} ExpectedCounts(s: seq<byte>, n: nat, cuts: set<nat>, maxLine: nat)
    requires n <= |s|
    ensures var e := Expected(s, n, cuts, maxLine); |e.lines| + e.dropped == Pairs(s, n)
  {
    if n >= 2 {
      ExpectedCounts(s, n - 1, cuts, maxLine);
    }
  }

  /** For every chunking: lines returned plus frames dropped are the CRLF pairs received so far, and the
      buffer holds no CRLF and at most maxLine bytes. */
  lemma {:induction false} FramerConserves(maxLine: nat, chunks: seq<seq<byte>>, n: nat)
    requires n <= |chunks| && maxLine >= 1
    ensures End(chunks, n) <= |All(chunks)|
    ensures var f := Feed(maxLine, chunks, n);
            && |f.out.lines| + f.out.dropped == Pairs(All(chunks), End(chunks, n))
            && |f.buf| <= maxLine && forall k: nat :: !CrlfAt(f.buf, k)
  {
    FramerRefinesSplit(maxLine, chunks, n);
    var f, s, b := Feed(maxLine, chunks, n), All(chunks), End(chunks, n);
    ExpectedCounts(s, b, Cuts(chunks), maxLine);
    forall k: nat ensures !CrlfAt(f.buf, k) {
      if CrlfAt(f.buf, k) {
        OpenFrame(s, b, b - |f.buf| + k);
      }
    }
  }

  /** The frames shorter than the limit, in order. */
  function Short(frames: seq<seq<byte>>, maxLine: nat): seq<seq<byte>> {
    if frames == [] then []
    else
      var last := frames[|frames| - 1];
      Short(frames[..|frames| - 1], maxLine) + (if |last| < maxLine then [last] else [])
  }

  /** No frame is exactly as long as the limit. */
  predicate NoBoundaryFrame(frames: seq<seq<byte>>, maxLine: nat) {
    forall k :: 0 <= k < |frames| ==> |frames[k]| != maxLine
  }

  lemma {:induction false} ShortMore(all: seq<seq<byte>>, line: seq<byte>, maxLine: nat)
    ensures Short(all + [line], maxLine) == if |line| < maxLine then Short(all, maxLine) + [line] else Short(all, maxLine)
  {
    assert (all + [line])[..|all|] == all;
  }

  lemma {:induction false} ExpectedShort(s: seq<byte>, n: nat, cuts: set<nat>, maxLine: nat)
    requires n <= |s| && NoBoundaryFrame(Split(s, n), maxLine)
    ensures Expected(s, n, cuts, maxLine).lines == Short(Split(s, n), maxLine)
  {
    if n >= 2 {
      var prev := Split(s, n - 1);
      if CrlfAt(s, n - 2) {
        var line := s[Start(s, n - 2)..n - 2];
        assert (prev + [line])[|prev|] == line;
        assert forall k :: 0 <= k < |prev| ==> (prev + [line])[k] == prev[k];
        ShortMore(prev, line, maxLine);
      }
      ExpectedShort(s, n - 1, cuts, maxLine);
    }
  }

  /** Chunk independence: without a frame of exactly maxLine bytes, the lines depend on the stream alone. */
  lemma {:induction false} ChunkIndependent(maxLine: nat, chunks: seq<seq<byte>>)
    requires maxLine >= 1 && NoBoundaryFrame(Split(All(chunks), |All(chunks)|), maxLine)
    ensures Feed(maxLine, chunks, |chunks|).out.lines == Short(Split(All(chunks), |All(chunks)|), maxLine)
  {
    FramerRefinesSplit(maxLine, chunks, |chunks|);
    ExpectedShort(All(chunks), |All(chunks)|, Cuts(chunks), maxLine);
  }

  // ---- The exact limit of chunk independence ----

  /** One more chunk end, between the CR and the LF of a frame of exactly maxLine bytes, costs that frame. */
  lemma {:induction false} CutCosts(s: seq<byte>, n: nat, e: nat, cuts: set<nat>, maxLine: nat)
    requires n <= |s| && CrlfAt(s, e) && e - Start(s, e) == maxLine && e + 1 !in cuts
    ensures Expected(s, n, cuts + {e + 1}, maxLine).dropped
         == Expected(s, n, cuts, maxLine).dropped + (if n >= e + 2 then 1 else 0)
  {
    if n >= 2 {
      CutCosts(s, n - 1, e, cuts, maxLine);
    }
  }

  lemma {:induction false} OneOrTwoChunks(s: seq<byte>, c: nat)
    requires c <= |s|
    ensures All([s]) == s && End([s], 1) == |s| && Cuts([s]) == {0, |s|}
    ensures var two := [s[..c], s[c..]]; All(two) == s && End(two, 2) == |s| && Cuts(two) == {0, |s|} + {c}
  {
    var two := [s[..c], s[c..]];
    assert Stream([s], 0) == [] && Stream([s], 1) == s;
    assert Stream(two, 0) == [] && Stream(two, 1) == s[..c] && Stream(two, 2) == s[..c] + s[c..] == s;
    assert End([s], 0) in Cuts([s]) && End([s], 1) in Cuts([s]);
    assert End(two, 0) in Cuts(two) && End(two, 1) in Cuts(two) && End(two, 2) in Cuts(two);
  }

  /** Any stream with a frame of exactly maxLine bytes has two chunkings the framer answers differently:
      in one piece, and cut inside that frame's CRLF. */
  lemma {:induction false} ChunkingMatters(maxLine: nat, s: seq<byte>, e: nat)
    requires maxLine >= 1 && CrlfAt(s, e) && e - Start(s, e) == maxLine
    ensures Feed(maxLine, [s], 1).out.dropped + 1 == Feed(maxLine, [s[..e + 1], s[e + 1..]], 2).out.dropped
  {
    hide Feed, Expected, State, All, End, Cuts, Start;
    OneOrTwoChunks(s, e + 1);
    FramerRefinesSplit(maxLine, [s], 1);
    FramerRefinesSplit(maxLine, [s[..e + 1], s[e + 1..]], 2);
    CutCosts(s, |s|, e, {0, |s|}, maxLine);
  }
}
