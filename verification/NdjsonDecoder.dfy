/** Newline-delimited JSON framing: an incremental decoder and what it must agree with on the whole input. */
module NdjsonDecoder {
  import opened Common

  type Parser<V> = Bytes -> Option<V>

  // ---------------------------------------------------------------- the whole-input reading

  /** Finished lines and the unfinished rest. */
  datatype Split = Split(lines: seq<Bytes>, rest: Bytes)

  function Cut(s: Bytes): Split {
    if s == [] then Split([], [])
    else
      var p := Cut(s[..|s| - 1]);
      if s[|s| - 1] == LF then Split(p.lines + [p.rest], []) else Split(p.lines, p.rest + [s[|s| - 1]])
  }

  /** The newline-separated segments, an unterminated last one included. */
  function Segments(s: Bytes): seq<Bytes> {
    Cut(s).lines + [Cut(s).rest]
  }

  function Join(segments: seq<Bytes>): Bytes
    requires segments != []
  {
    if |segments| == 1 then segments[0] else Join(segments[..|segments| - 1]) + [LF] + segments[|segments| - 1]
  }

  ghost predicate Unbroken(segments: seq<Bytes>) {
    forall k :: 0 <= k < |segments| ==> LF !in segments[k]
  }

  lemma {:induction false} CutSnoc(s: Bytes, b: Byte)
    ensures Cut([]) == Split([], [])
    ensures Cut(s + [b]) == if b == LF then Split(Cut(s).lines + [Cut(s).rest], [])
            else Split(Cut(s).lines, Cut(s).rest + [b])
  {
    assert (s + [b])[..|s|] == s;
  }

  /** Segments hold no newline, and joined by newlines they give the input back. */
  lemma {:induction false} SegmentsJoin(s: Bytes)
    ensures Unbroken(Segments(s)) && Join(Segments(s)) == s
  {
    if s != [] {
      hide Cut;
      var init, last := s[..|s| - 1], s[|s| - 1];
      SegmentsJoin(init);
      assert s == init + [last];
      CutSnoc(init, last);
      var a, b := Segments(init), Segments(s);
      if last == LF {
        assert b[..|b| - 1] == a;
      } else {
        assert b == a[..|a| - 1] + [a[|a| - 1] + [last]];
        assert |a| > 1 ==> b[..|b| - 1] == a[..|a| - 1];
      }
    }
  }

  /** Nothing else does: the segments are the only newline-free pieces that join to the input. */
  lemma {:induction false} SegmentsUnique(segments: seq<Bytes>)
    requires segments != [] && Unbroken(segments)
    ensures Segments(Join(segments)) == segments
  {
    hide Cut;
    var n := |segments| - 1;
    if n == 0 {
      CutSnoc([], LF);
      CutUnbroken([], segments[0]);
      assert [] + segments[0] == segments[0] && segments == [segments[0]];
    } else {
      SegmentsUnique(segments[..n]);
      SegmentMore(segments[..n], segments[n]);
      assert segments == segments[..n] + [segments[n]];
    }
  }

  lemma {:induction false} SegmentMore(init: seq<Bytes>, last: Bytes)
    requires init != [] && Segments(Join(init)) == init && LF !in last
    ensures Segments(Join(init) + [LF] + last) == init + [last]
  {
    hide Cut, Join;
    var s := Join(init);
    CutSnoc(s, LF);
    CutUnbroken(s + [LF], last);
    assert [] + last == last;
  }

  /** Bytes without a newline only lengthen the rest. */
  lemma {:induction false} CutUnbroken(s: Bytes, more: Bytes)
    requires LF !in more
    ensures Cut(s + more) == Split(Cut(s).lines, Cut(s).rest + more)
  {
    hide Cut;
    if more == [] {
      assert s + more == s;
    } else {
      var init, last := more[..|more| - 1], more[|more| - 1];
      CutUnbroken(s, init);
      assert more == init + [last] && s + more == s + init + [last];
      CutSnoc(s + init, last);
    }
  }

  // ---------------------------------------------------------------- what the stream yields

  datatype End = Complete | Malformed | Disconnected
  datatype Reading<V> = Reading(values: seq<V>, end: End)

  /** Parse each non-empty segment in order and stop at the first that does not parse. */
  function ParseAll<V>(parse: Parser<V>, segments: seq<Bytes>): Reading<V> {
    if segments == [] then Reading([], Complete)
    else
      var before := ParseAll(parse, segments[..|segments| - 1]);
      var last := segments[|segments| - 1];
      if before.end != Complete || last == [] then before
      else match parse(last)
        case Some(v) => Reading(before.values + [v], Complete)
        case None => before.(end := Malformed)
  }

  datatype Chunk = Data(bytes: Bytes) | Lost

  function Received(chunks: seq<Chunk>): Bytes {
    if chunks == [] || chunks[0].Lost? then [] else chunks[0].bytes + Received(chunks[1..])
  }

  /**
   The whole-input meaning of a stream: segments of everything received, the last only if the stream ended by itself.
   */
  function Meaning<V>(parse: Parser<V>, input: Bytes, lost: bool): Reading<V> {
    if !lost then ParseAll(parse, Segments(input))
    else
      var r := ParseAll(parse, Cut(input).lines);
      if r.end == Complete then r.(end := Disconnected) else r
  }

  function NonBlank(lines: seq<Bytes>): seq<Bytes> {
    if lines == [] then []
    else
      var last := lines[|lines| - 1];
      if last == [] then NonBlank(lines[..|lines| - 1]) else NonBlank(lines[..|lines| - 1]) + [last]
  }

  /** The values are the parses of the lines that are not blank, in order, up to the first that does not parse. */
  lemma {:induction false} ParsesInOrder<V>(parse: Parser<V>, lines: seq<Bytes>)
    ensures var r, full := ParseAll(parse, lines), NonBlank(lines);
            && |r.values| <= |full| && (forall i :: 0 <= i < |r.values| ==> parse(full[i]) == Some(r.values[i]))
            && (r.end == Complete <==> |r.values| == |full|)
            && (|r.values| < |full| ==> r.end == Malformed && parse(full[|r.values|]) == None)
  {
    if lines != [] {
      ParsesInOrder(parse, lines[..|lines| - 1]);
    }
  }

  lemma {:induction false} BlankAdds<V>(parse: Parser<V>, lines: seq<Bytes>)
    ensures ParseAll(parse, lines + [[]]) == ParseAll(parse, lines)
  {
    assert (lines + [[]])[..|lines|] == lines;
  }

  lemma {:induction false} LineAdds<V>(parse: Parser<V>, lines: seq<Bytes>, line: Bytes)
    requires line != [] && ParseAll(parse, lines).end == Complete
    ensures ParseAll(parse, lines + [line]) ==
            match parse(line)
              case Some(v) => Reading(ParseAll(parse, lines).values + [v], Complete)
              case None => Reading(ParseAll(parse, lines).values, Malformed)
  {
    assert (lines + [line])[..|lines|] == lines;
  }

  /** After a malformed line nothing more is yielded, whatever follows. */
  lemma {:induction false} NothingAfterMalformed<V>(parse: Parser<V>, lines: seq<Bytes>, more: seq<Bytes>)
    requires ParseAll(parse, lines).end == Malformed
    ensures ParseAll(parse, lines + more) == ParseAll(parse, lines)
  {
    if more == [] {
      assert lines + more == lines;
    } else {
      var init := more[..|more| - 1];
      NothingAfterMalformed(parse, lines, init);
      assert (lines + more)[..|lines + more| - 1] == lines + init;
    }
  }

  /** Finished lines stay finished when more arrives. */
  lemma {:induction false} LinesStay(s: Bytes, more: Bytes)
    ensures |Cut(s).lines| <= |Cut(s + more).lines| && Cut(s + more).lines[..|Cut(s).lines|] == Cut(s).lines
  {
    if more == [] {
      assert s + more == s;
    } else {
      hide Cut;
      var init, last := more[..|more| - 1], more[|more| - 1];
      LinesStay(s, init);
      assert s + more == s + init + [last];
      CutSnoc(s + init, last);
    }
  }

  // ---------------------------------------------------------------- the incremental decoder

  function Count(n: nat): (positions: seq<nat>)
    ensures |positions| == n && forall i :: 0 <= i < n ==> positions[i] == i
  {
    seq(n, i => i)
  }

  class Decoder {
    var buffer: Bytes
    var consumed: nat
    var scanned: nat

    /**
     Everything pushed, how much of it was dropped from the front, the positions examined for a newline, the lines
     finished.
     */
    ghost var seen: Bytes
    ghost var dropped: nat
    ghost var examined: seq<nat>
    ghost var lines: seq<Bytes>

    ghost predicate Valid()
      reads this
    {
      && consumed <= scanned <= |buffer|
      && dropped + |buffer| == |seen| && buffer == seen[dropped..]
      && Cut(seen[..dropped + scanned]) == Split(lines, buffer[consumed..scanned])
      && examined == Count(dropped + scanned)
    }

    constructor ()
      ensures Valid() && seen == [] && lines == [] && scanned == |buffer|
    {
      buffer, consumed, scanned := [], 0, 0;
      seen, dropped, examined, lines := [], 0, [], [];
    }

    method Push(bytes: Bytes)
      requires Valid()
      modifies this
      ensures Valid() && seen == old(seen) + bytes && lines == old(lines)
    {
      hide Cut;
      if consumed > 0 {
        Compacted(seen, dropped, buffer, consumed, scanned);
        dropped := dropped + consumed;
        buffer := buffer[consumed..];
        scanned := scanned - consumed;
        consumed := 0;
      }
      Extended(seen, dropped, buffer, bytes, consumed, scanned);
      buffer := buffer + bytes;
      seen := seen + bytes;
    }

    /** Scan on from where the last scan stopped, one byte after another, until a line ends or the bytes run out. */
    method FinishLine() returns (found: bool, start: nat, end: nat)
      requires Valid()
      modifies this`consumed, this`scanned, this`examined, this`lines
      ensures Valid()
      ensures !found ==> scanned == |buffer| && consumed == old(consumed) && lines == old(lines)
      ensures found ==> start <= end < |buffer| && lines == old(lines) + [buffer[start..end]] && old(scanned) < scanned
    {
      hide Cut;
      ghost var looked := examined;
      start, end := consumed, scanned;
      while end < |buffer| && buffer[end] != LF
        invariant scanned <= end <= |buffer| && looked == Count(dropped + end)
        invariant forall k :: scanned <= k < end ==> buffer[k] != LF
      {
        looked := looked + [dropped + end];
        end := end + 1;
      }
      NoneBetween(buffer, scanned, end);
      ScannedTo(seen, dropped, buffer, consumed, scanned, end, lines);
      found := end < |buffer|;
      if found {
        looked := looked + [dropped + end];
        LineEnds(seen, dropped + end, lines, buffer[start..end]);
        lines := lines + [buffer[start..end]];
        consumed := end + 1;
        scanned := consumed;
      } else {
        scanned := end;
      }
      examined := looked;
    }

    /** The next record: the first non-empty finished line not yet handed out. */
    method Next<V>(parse: Parser<V>) returns (record: Option<Option<V>>)
      requires Valid()
      modifies this`consumed, this`scanned, this`examined, this`lines
      ensures Valid()
      ensures record.None? ==> scanned == |buffer| && ParseAll(parse, lines) == old(ParseAll(parse, lines))
      ensures record.Some? ==> old(scanned) < scanned
      ensures record.Some? && old(ParseAll(parse, lines)).end == Complete ==>
                ParseAll(parse, lines) == Taken(old(ParseAll(parse, lines)), record.value)
    {
      hide Cut, ParseAll;
      while true
        invariant Valid() && old(scanned) <= scanned && ParseAll(parse, lines) == old(ParseAll(parse, lines))
        decreases |buffer| - scanned
      {
        ghost var before := lines;
        var found, start, end := FinishLine();
        if !found {
          return None;
        }
        if start == end {
          BlankAdds(parse, before);
        } else {
          if ParseAll(parse, before).end == Complete {
            LineAdds(parse, before, buffer[start..end]);
          }
          return Some(parse(buffer[start..end]));
        }
      }
    }

    /** The unfinished last line, if any, once nothing more will come. */
    method Finish<V>(parse: Parser<V>) returns (record: Option<Option<V>>)
      requires Valid()
      ensures record == if buffer[consumed..] == [] then None else Some(parse(buffer[consumed..]))
      ensures scanned == |buffer| ==> Cut(seen) == Split(lines, buffer[consumed..])
    {
      if scanned == |buffer| {
        assert seen[..dropped + scanned] == seen;
        assert buffer[consumed..scanned] == buffer[consumed..];
      }
      record := if buffer[consumed..] == [] then None else Some(parse(buffer[consumed..]));
    }
  }

  function Taken<V>(r: Reading<V>, record: Option<V>): Reading<V> {
    match record
    case Some(v) => Reading(r.values + [v], Complete)
    case None => Reading(r.values, Malformed)
  }

  lemma {:induction false} Compacted(seen: Bytes, dropped: nat, buffer: Bytes, consumed: nat, scanned: nat)
    requires consumed <= scanned <= |buffer| && dropped + |buffer| == |seen| && buffer == seen[dropped..]
    ensures buffer[consumed..] == seen[dropped + consumed..]
    ensures buffer[consumed..][0..scanned - consumed] == buffer[consumed..scanned]
  {
  }

  lemma {:induction false} Extended(seen: Bytes, dropped: nat, buffer: Bytes, bytes: Bytes, consumed: nat, scanned: nat)
    requires consumed <= scanned <= |buffer| && dropped + |buffer| == |seen| && buffer == seen[dropped..]
    ensures buffer + bytes == (seen + bytes)[dropped..]
            && (seen + bytes)[..dropped + scanned] == seen[..dropped + scanned]
    ensures (buffer + bytes)[consumed..scanned] == buffer[consumed..scanned]
  {
  }

  lemma {:induction false} NoneBetween(bytes: Bytes, i: nat, j: nat)
    requires i <= j <= |bytes| && forall k :: i <= k < j ==> bytes[k] != LF
    ensures LF !in bytes[i..j]
  {
    forall b | b in bytes[i..j]
      ensures b != LF
    {
      var k :| 0 <= k < j - i && bytes[i..j][k] == b;
      assert bytes[i + k] == b;
    }
  }

  lemma {:induction false} ScannedTo(seen: Bytes, dropped: nat, buffer: Bytes, consumed: nat, scanned: nat, end: nat,
                                     lines: seq<Bytes>)
    requires consumed <= scanned <= end <= |buffer| && dropped + |buffer| == |seen| && buffer == seen[dropped..]
    requires Cut(seen[..dropped + scanned]) == Split(lines, buffer[consumed..scanned]) && LF !in buffer[scanned..end]
    ensures Cut(seen[..dropped + end]) == Split(lines, buffer[consumed..end])
  {
    CutUnbroken(seen[..dropped + scanned], buffer[scanned..end]);
    assert seen[..dropped + scanned] + buffer[scanned..end] == seen[..dropped + end];
    assert buffer[consumed..scanned] + buffer[scanned..end] == buffer[consumed..end];
  }

  lemma {:induction false} LineEnds(seen: Bytes, at: nat, lines: seq<Bytes>, line: Bytes)
    requires at < |seen| && seen[at] == LF && Cut(seen[..at]) == Split(lines, line)
    ensures Cut(seen[..at + 1]) == Split(lines + [line], [])
  {
    hide Cut;
    CutSnoc(seen[..at], LF);
    assert seen[..at + 1] == seen[..at] + [LF];
  }

  // ---------------------------------------------------------------- the driver

  predicate AnyLost(chunks: seq<Chunk>) {
    exists k :: 0 <= k < |chunks| && chunks[k].Lost?
  }

  /** Take every record that is ready, stopping at the first that does not parse. */
  method TakeReady<V>(decoder: Decoder, parse: Parser<V>, r: Reading<V>) returns (r': Reading<V>)
    requires decoder.Valid() && r.end == Complete && ParseAll(parse, decoder.lines) == r
    modifies decoder
    ensures decoder.Valid() && decoder.seen == old(decoder.seen) && ParseAll(parse, decoder.lines) == r'
    ensures r'.end == Malformed || (r'.end == Complete && decoder.scanned == |decoder.buffer|)
  {
    hide Cut, ParseAll;
    r' := r;
    while true
      invariant decoder.Valid() && decoder.seen == old(decoder.seen) && decoder.buffer == old(decoder.buffer)
      invariant r'.end == Complete && ParseAll(parse, decoder.lines) == r'
      decreases |decoder.buffer| - decoder.scanned
    {
      var record := decoder.Next(parse);
      if record.None? {
        return;
      }
      r' := Taken(r', record.value);
      if record.value.None? {
        return;
      }
    }
  }

  /** A malformed line settles the outcome, whatever else the stream holds. */
  lemma {:induction false} MalformedIsFinal<V>(parse: Parser<V>, prefix: Bytes, input: Bytes, lost: bool)
    requires prefix <= input && ParseAll(parse, Cut(prefix).lines).end == Malformed
    ensures Meaning(parse, input, lost) == ParseAll(parse, Cut(prefix).lines)
  {
    hide ParseAll, Cut;
    assert input == prefix + input[|prefix|..];
    LinesStay(prefix, input[|prefix|..]);
    var before, all := Cut(prefix).lines, Cut(input).lines;
    assert all == before + all[|before|..];
    NothingAfterMalformed(parse, before, all[|before|..]);
    NothingAfterMalformed(parse, all, [Cut(input).rest]);
  }

  lemma {:induction false} ReceivedStep(chunks: seq<Chunk>, k: nat)
    requires k < |chunks|
    ensures Received(chunks[k..]) == if chunks[k].Lost? then [] else chunks[k].bytes + Received(chunks[k + 1..])
  {
    assert chunks[k..][1..] == chunks[k + 1..];
  }

  /** The rest parsed as a last line gives the meaning of a stream that ended by itself. */
  lemma {:induction false} RestIsLast<V>(parse: Parser<V>, input: Bytes)
    requires ParseAll(parse, Cut(input).lines).end == Complete
    ensures Meaning(parse, input, false) ==
            if Cut(input).rest == [] then ParseAll(parse, Cut(input).lines)
            else Taken(ParseAll(parse, Cut(input).lines), parse(Cut(input).rest))
  {
    hide ParseAll, Cut;
    if Cut(input).rest == [] {
      BlankAdds(parse, Cut(input).lines);
    } else {
      LineAdds(parse, Cut(input).lines, Cut(input).rest);
    }
  }

  /** Drive the decoder over the chunks of a response body, yielding records until the end or the first fault. */
  method ReadStream<V>(parse: Parser<V>, chunks: seq<Chunk>) returns (r: Reading<V>)
    ensures r == Meaning(parse, Received(chunks), AnyLost(chunks))
  {
    hide Cut, ParseAll, Received, Meaning, AnyLost;
    var decoder := new Decoder();
    r := Reading([], Complete);
    FromNothing(parse, chunks);
    for k := 0 to |chunks|
      invariant fresh(decoder) && decoder.Valid() && decoder.scanned == |decoder.buffer|
      invariant r.end == Complete && ParseAll(parse, decoder.lines) == r
      invariant !AnyLost(chunks[..k]) && Received(chunks) == decoder.seen + Received(chunks[k..])
    {
      ReceivedStep(chunks, k);
      LostStep(chunks, k);
      if chunks[k].Lost? {
        AllScanned(decoder);
        LostEnds(parse, decoder.seen);
        assert decoder.seen + [] == decoder.seen;
        return r.(end := Disconnected);
      }
      ThenMore(decoder.seen, chunks[k].bytes, Received(chunks[k + 1..]));
      decoder.Push(chunks[k].bytes);
      r := TakeReady(decoder, parse, r);
      if r.end == Malformed {
        PrefixOf(decoder.seen, decoder.dropped + decoder.scanned, Received(chunks[k + 1..]));
        MalformedIsFinal(parse, decoder.seen[..decoder.dropped + decoder.scanned], Received(chunks), AnyLost(chunks));
        return;
      }
    }
    assert chunks[..|chunks|] == chunks && chunks[|chunks|..] == [];
    FromNothing(parse, chunks);
    assert decoder.seen + [] == decoder.seen;
    AllScanned(decoder);
    var record := decoder.Finish(parse);
    RestIsLast(parse, decoder.seen);
    if record.Some? {
      r := Taken(r, record.value);
    }
  }

  lemma {:induction false} LostStep(chunks: seq<Chunk>, k: nat)
    requires k < |chunks|
    ensures AnyLost(chunks[..k + 1]) <==> AnyLost(chunks[..k]) || chunks[k].Lost?
    ensures chunks[k].Lost? ==> AnyLost(chunks)
  {
    if AnyLost(chunks[..k]) {
      var j :| 0 <= j < k && chunks[..k][j].Lost?;
      assert chunks[..k + 1][j].Lost?;
    }
    if chunks[k].Lost? {
      assert chunks[..k + 1][k].Lost?;
    }
  }

  lemma {:induction false} ThenMore(a: Bytes, b: Bytes, c: Bytes)
    ensures a + (b + c) == (a + b) + c
  {
  }

  lemma {:induction false} PrefixOf(seen: Bytes, n: nat, more: Bytes)
    requires n <= |seen|
    ensures seen[..n] <= seen + more
  {
  }

  /** With everything scanned, the lines finished are those of all bytes seen. */
  lemma {:induction false} AllScanned(decoder: Decoder)
    requires decoder.Valid() && decoder.scanned == |decoder.buffer|
    ensures Cut(decoder.seen).lines == decoder.lines
  {
    hide Cut;
    assert decoder.seen[..decoder.dropped + decoder.scanned] == decoder.seen;
  }

  lemma {:induction false} LostEnds<V>(parse: Parser<V>, input: Bytes)
    requires ParseAll(parse, Cut(input).lines).end == Complete
    ensures Meaning(parse, input, true) == ParseAll(parse, Cut(input).lines).(end := Disconnected)
  {
    hide Cut, ParseAll;
  }

  lemma {:induction false} FromNothing<V>(parse: Parser<V>, chunks: seq<Chunk>)
    ensures ParseAll(parse, []) == Reading([], Complete) && Received([]) == [] && chunks[0..] == chunks
            && !AnyLost(chunks[..0])
  {
  }
}
