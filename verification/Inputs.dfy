// What the two replay formats mean, said of the input as a whole: line endings and line lengths of text files,
// and which records of a recording count (internal/replay/replay.go).
module ReplayInputs {
  import opened Framing
  import opened Parsing
  import opened ReaderSession
  import opened Replay

  // ---- Text files ----

  function Ending(crlf: bool): seq<byte> {
    if crlf then [CR, LF] else [LF]
  }

  /** Lines ended by CRLF or by LF alone, and after them a last one without an end. */
  function Text(lines: seq<seq<byte>>, crlf: seq<bool>, last: seq<byte>): seq<byte>
    requires |crlf| == |lines|
  {
    if lines == [] then last else lines[0] + Ending(crlf[0]) + Text(lines[1..], crlf[1..], last)
  }

  lemma {:induction false} ScanEnded(line: seq<byte>, crlf: bool, rest: seq<byte>)
    requires Plain(line)
    ensures Scan(line + Ending(crlf) + rest) == Scanned([line] + Scan(rest).lines, Scan(rest).ok)
  {
    if crlf {
      ScanLine(line, rest);
    } else {
      var s, i := line + [LF] + rest, |line|;
      assert s[i] == LF && forall k :: 0 <= k < i ==> s[k] == line[k];
      assert IndexLf(s, 0) == i;
      assert s[..i] == line && s[i + 1..] == rest;
      ScanStep(s);
    }
  }

  lemma {:induction false} ScanLast(last: seq<byte>)
    requires Plain(last)
    ensures Scan(last) == Scanned(if last == [] then [] else [last], true)
  {
    ScanStep(last);
    assert IndexLf(last, 0) == -1;
  }

  /** The lines of a text are read whatever ends them, the last one also without an end. */
  lemma {:induction false} ScanOfText(lines: seq<seq<byte>>, crlf: seq<bool>, last: seq<byte>)
    requires |crlf| == |lines| && AllPlain(lines) && Plain(last)
    ensures Scan(Text(lines, crlf, last)) == Scanned(lines + (if last == [] then [] else [last]), true)
  {
    hide Scan, Plain;
    ScanLast(last);
    if lines != [] {
      ScanOfText(lines[1..], crlf[1..], last);
      ScanEnded(lines[0], crlf[0], Text(lines[1..], crlf[1..], last));
      var end := if last == [] then [] else [last];
      assert [lines[0]] + (lines[1..] + end) == lines + end;
    } else {
      assert lines + (if last == [] then [] else [last]) == if last == [] then [] else [last];
    }
  }

  /** Raw replay of a text hands on the reads of its lines, whatever ends them. */
  lemma {:induction false} EndingsDoNotMatter(lines: seq<seq<byte>>, crlf: seq<bool>, last: seq<byte>)
    requires |crlf| == |lines| && AllPlain(lines) && Plain(last)
    ensures var text, all := Text(lines, crlf, last), lines + (if last == [] then [] else [last]);
            Scan(text).ok && ReadsOf(RawChunks(Scan(text).lines)) == Reads(all)
  {
    hide Scan, Text, RawChunks, Reads;
    ScanOfText(lines, crlf, last);
    RawFile(lines + (if last == [] then [] else [last]));
  }

  /** There is a line end in the 64 KiB from i on. */
  ghost predicate EndsWithin(s: seq<byte>, i: nat) {
    exists k: nat :: i <= k < i + 65536 && k < |s| && s[k] == LF
  }

  ghost predicate EveryStretchEnds(s: seq<byte>) {
    forall i: nat :: i + 65536 <= |s| ==> EndsWithin(s, i)
  }

  lemma {:induction false} StretchShifts(s: seq<byte>, rest: seq<byte>, n: nat)
    requires n < |s| && n < 65536 && s[n] == LF && rest == s[n + 1..]
    ensures EveryStretchEnds(s) <==> EveryStretchEnds(rest)
  {
    if EveryStretchEnds(s) {
      forall i: nat | i + 65536 <= |rest| ensures EndsWithin(rest, i) {
        assert EndsWithin(s, i + n + 1);
        var k: nat :| i + n + 1 <= k < i + n + 1 + 65536 && k < |s| && s[k] == LF;
        assert rest[k - n - 1] == LF;
      }
    }
    if EveryStretchEnds(rest) {
      forall i: nat | i + 65536 <= |s| ensures EndsWithin(s, i) {
        if i > n {
          assert EndsWithin(rest, i - n - 1);
          var k: nat :| i - n - 1 <= k < i - n - 1 + 65536 && k < |rest| && rest[k] == LF;
          assert s[k + n + 1] == LF;
        }
      }
    }
  }

  lemma {:induction false} FirstStretch(s: seq<byte>)
    requires |s| >= 65536 && forall k :: 0 <= k < 65536 ==> s[k] != LF
    ensures !EveryStretchEnds(s)
  {
    assert !EndsWithin(s, 0);
  }

  lemma {:induction false} LineEndIsFirst(s: seq<byte>)
    ensures var i := IndexLf(s, 0);
            && (0 <= i < MAX_TOKEN ==> i < |s| && s[i] == LF)
            && (!(0 <= i < MAX_TOKEN) && |s| >= MAX_TOKEN ==> forall k :: 0 <= k < 65536 ==> s[k] != LF)
  {
  }

  /** The scan of a file succeeds exactly when no 64 KiB of it are without a line end. */
  lemma {:induction false} ScanOkIff(s: seq<byte>)
    ensures Scan(s).ok <==> EveryStretchEnds(s)
    decreases |s|
  {
    ScanStep(s);
    LineEndIsFirst(s);
    var i := IndexLf(s, 0);
    hide Scan, IndexLf, EndsWithin;
    if 0 <= i < MAX_TOKEN {
      var rest := s[i + 1..];
      ScanOkIff(rest);
      hide EveryStretchEnds;
      StretchShifts(s, rest, i);
    } else if |s| >= MAX_TOKEN {
      FirstStretch(s);
    }
  }

  // ---- Recordings ----

  /** The chunks of one record up to the first that is not hexadecimal. */
  lemma {:induction false} DecodedExactly(hex: seq<Hex>)
    ensures var d := Decoded(hex);
            && |d.chunks| <= |hex| && (d.ok <==> |d.chunks| == |hex|)
            && (forall i :: 0 <= i < |d.chunks| ==> hex[i] == Bytes(d.chunks[i]))
            && (!d.ok ==> hex[|d.chunks|].NotHex?)
  {
    if hex != [] && hex[0].Bytes? {
      DecodedExactly(hex[1..]);
      var d, rest := Decoded(hex), Decoded(hex[1..]);
      forall i | 0 <= i < |d.chunks| ensures hex[i] == Bytes(d.chunks[i]) {
        if i > 0 {
          assert hex[1..][i - 1] == Bytes(rest.chunks[i - 1]);
        }
      }
    }
  }

  /** A recording is played record by record, and what comes after an unreadable one is not played. */
  lemma {:induction false} PlayJoined(a: seq<Record>, b: seq<Record>)
    ensures Play(a + b) == if Play(a).ok then Played(Play(a).chunks + Play(b).chunks, Play(b).ok) else Play(a)
  {
    hide Decoded;
    if a == [] {
      assert a + b == b && [] + Play(b).chunks == Play(b).chunks;
    } else {
      assert (a + b)[0] == a[0] && (a + b)[1..] == a[1..] + b;
      PlayJoined(a[1..], b);
      if a[0].Record? {
        Assoc(Decoded(a[0].chunks).chunks, Play(a[1..]).chunks, Play(b).chunks);
      }
    }
  }

  /** One record: a blank line is nothing, a record is its chunks, anything else fails. */
  lemma {:induction false} PlayOne(record: Record)
    ensures Play([record]) == match record
                              case Blank => Played([], true)
                              case Record(hex) => Decoded(hex)
                              case _ => Played([], false)
  {
    hide Decoded;
    assert [record][1..] == [];
    if record.Record? {
      assert Decoded(record.chunks).chunks + [] == Decoded(record.chunks).chunks;
    }
  }

  predicate Readable(record: Record) {
    record.Blank? || (record.Record? && forall i :: 0 <= i < |record.chunks| ==> record.chunks[i].Bytes?)
  }

  lemma {:induction false} ReadableOne(record: Record)
    ensures Play([record]).ok <==> Readable(record)
  {
    PlayOne(record);
    if record.Record? {
      DecodedExactly(record.chunks);
    }
  }

  /** A recording is played to its end exactly when every record is blank or has only readable chunks. */
  lemma {:induction false} PlayOkIff(records: seq<Record>)
    ensures Play(records).ok <==> forall i :: 0 <= i < |records| ==> Readable(records[i])
  {
    hide Play, Readable;
    if records == [] {
      PlayNothing();
    } else {
      var first, rest := records[0], records[1..];
      assert records == [first] + rest;
      ReadableOne(first);
      PlayJoined([first], rest);
      PlayOkIff(rest);
      assert forall i :: 1 <= i < |records| ==> records[i] == rest[i - 1];
      assert forall i :: 0 <= i < |rest| ==> rest[i] == records[i + 1];
    }
  }

  lemma {:induction false} PlayNothing()
    ensures Play([]) == Played([], true)
  {
  }

  /** A blank line anywhere changes nothing. */
  lemma {:induction false} BlankSkipped(a: seq<Record>, b: seq<Record>)
    ensures Play(a + [Blank] + b) == Play(a + b)
  {
    PlayOne(Blank);
    hide Play;
    PlayJoined(a + [Blank], b);
    PlayJoined(a, [Blank]);
    PlayJoined(a, b);
    assert Play(a).chunks + [] == Play(a).chunks;
  }
}
