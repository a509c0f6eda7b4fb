/** Server-sent events: the byte-at-a-time decoder, the lines it stands for, and a printer it inverts. */
module SseDecoder {
  import opened Common
  import N = NdjsonDecoder
  import Utf8

  type Parser<V> = Bytes -> Option<V>

  datatype Fault = NotUtf8 | NotAnEvent
  datatype State = State(line: Bytes, data: seq<Bytes>, afterCr: bool)

  /** A state reached, the messages found on the way, and the fault that stopped the decoder, if any. */
  datatype Outcome<V> = Outcome(state: State, messages: seq<V>, fault: Option<Fault>)

  const START := State([], [], false)
  /** The bytes of `data:`, and of `data: ` as the printer writes it. */
  const DATA: Bytes := [100, 97, 116, 97, 58]
  const SPACE: Byte := 32

  predicate Ends(b: Byte) { b == CR || b == LF }

  // ---------------------------------------------------------------- lines

  function Stripped(text: Bytes): Bytes {
    if text != [] && text[0] == SPACE then text[1..] else text
  }

  /** What one finished line does to the data lines collected so far. */
  function Line<V>(parse: Parser<V>, s: State): Outcome<V> {
    if !Utf8.Valid(s.line) then Outcome(s, [], Some(NotUtf8))
    else if s.line == [] && s.data != [] then
      var text := N.Join(s.data);
      if text == [] then Outcome(s.(data := []), [], None)
      else match parse(text)
        case Some(v) => Outcome(s.(data := []), [v], None)
        case None => Outcome(s.(data := []), [], Some(NotAnEvent))
    else if DATA <= s.line then Outcome(s.(line := [], data := s.data + [Stripped(s.line[|DATA|..])]), [], None)
    else if s.line == DATA[..4] then Outcome(s.(line := [], data := s.data + [[]]), [], None)
    else Outcome(s.(line := []), [], None)
  }

  /** One byte: the LF of a CRLF is skipped, a line end finishes the line, anything else joins it. */
  function Step<V>(parse: Parser<V>, s: State, b: Byte): Outcome<V> {
    if s.afterCr && b == LF then Outcome(s.(afterCr := false), [], None)
    else
      var t := s.(afterCr := b == CR);
      if Ends(b) then Line(parse, t) else Outcome(t.(line := t.line + [b]), [], None)
  }

  function Then<V>(a: Outcome<V>, b: Outcome<V>): Outcome<V> {
    if a.fault.Some? then a else Outcome(b.state, a.messages + b.messages, b.fault)
  }

  function Push<V>(parse: Parser<V>, s: State, bytes: Bytes): Outcome<V> {
    if bytes == [] then Outcome(s, [], None)
    else
      var a := Push(parse, s, bytes[..|bytes| - 1]);
      Then(a, Step(parse, a.state, bytes[|bytes| - 1]))
  }

  lemma {:induction false} PushSnoc<V>(parse: Parser<V>, s: State, bytes: Bytes, b: Byte)
    ensures Push(parse, s, []) == Outcome(s, [], None)
    ensures Push(parse, s, bytes + [b]) == Then(Push(parse, s, bytes), Step(parse, Push(parse, s, bytes).state, b))
  {
    assert (bytes + [b])[..|bytes|] == bytes;
  }

  /** Decoding depends only on the bytes, not on where they are cut. */
  lemma {:induction false} PushInTwo<V>(parse: Parser<V>, s: State, a: Bytes, b: Bytes)
    ensures Push(parse, s, a + b) == Then(Push(parse, s, a), Push(parse, Push(parse, s, a).state, b))
  {
    hide Push, Step;
    var p := Push(parse, s, a);
    if b == [] {
      assert a + b == a;
      PushSnoc(parse, p.state, [], LF);
    } else {
      var init, last := b[..|b| - 1], b[|b| - 1];
      PushInTwo(parse, s, a, init);
      assert b == init + [last] && a + b == a + init + [last];
      PushSnoc(parse, s, a + init, last);
      PushSnoc(parse, p.state, init, last);
    }
  }

  /** A fault settles the outcome, whatever bytes follow. */
  lemma {:induction false} FaultIsFinal<V>(parse: Parser<V>, s: State, bytes: Bytes, k: nat)
    requires k <= |bytes| && Push(parse, s, bytes[..k]).fault.Some?
    ensures Push(parse, s, bytes) == Push(parse, s, bytes[..k])
  {
    hide Push;
    PushInTwo(parse, s, bytes[..k], bytes[k..]);
    assert bytes[..k] + bytes[k..] == bytes;
  }

  class Decoder {
    var line: Bytes
    var data: seq<Bytes>
    var afterCr: bool

    ghost function View(): State
      reads this
    {
      State(line, data, afterCr)
    }

    constructor ()
      ensures View() == START
    {
      line, data, afterCr := [], [], false;
    }

    /** Decode a chunk byte by byte; a fault leaves off where it was found. */
    method PushBytes<V>(parse: Parser<V>, bytes: Bytes) returns (messages: seq<V>, fault: Option<Fault>)
      modifies this
      ensures Outcome(View(), messages, fault) == Push(parse, old(View()), bytes)
    {
      hide Push, Step;
      ghost var start := View();
      messages, fault := [], None;
      PushSnoc(parse, start, [], LF);
      for k := 0 to |bytes|
        invariant fault.None? && Outcome(View(), messages, fault) == Push(parse, start, bytes[..k])
      {
        PushSnoc(parse, start, bytes[..k], bytes[k]);
        assert bytes[..k + 1] == bytes[..k] + [bytes[k]];
        var more;
        more, fault := PushByte(parse, bytes[k]);
        messages := messages + more;
        if fault.Some? {
          FaultIsFinal(parse, start, bytes, k + 1);
          return;
        }
      }
      assert bytes[..|bytes|] == bytes;
    }

    method PushByte<V>(parse: Parser<V>, byte: Byte) returns (messages: seq<V>, fault: Option<Fault>)
      modifies this
      ensures Outcome(View(), messages, fault) == Step(parse, old(View()), byte)
    {
      hide Utf8.Valid, N.Join;
      messages, fault := [], None;
      if afterCr && byte == LF {
        afterCr := false;
        return;
      }
      afterCr := byte == CR;
      if byte != CR && byte != LF {
        line := line + [byte];
        return;
      }
      if !Utf8.Valid(line) {
        fault := Some(NotUtf8);
        return;
      }
      if line == [] && data != [] {
        var text := N.Join(data);
        data := [];
        if text != [] {
          var message := parse(text);
          if message.None? {
            fault := Some(NotAnEvent);
            return;
          }
          messages := [message.value];
        }
      } else if DATA <= line {
        data := data + [Stripped(line[|DATA|..])];
      } else if line == DATA[..4] {
        data := data + [[]];
      }
      line := [];
    }
  }

  // ---------------------------------------------------------------- line endings do not matter

  datatype Ending = Lf | Cr | CrLf

  function EndBytes(e: Ending): Bytes {
    match e
    case Lf => [LF]
    case Cr => [CR]
    case CrLf => [CR, LF]
  }

  function Encode(lines: seq<Bytes>, ends: seq<Ending>): Bytes
    requires |lines| == |ends|
  {
    if lines == [] then []
    else
      var n := |lines| - 1;
      Encode(lines[..n], ends[..n]) + lines[n] + EndBytes(ends[n])
  }

  ghost predicate Plain(line: Bytes) {
    forall k :: 0 <= k < |line| ==> !Ends(line[k])
  }

  ghost predicate AllPlain(lines: seq<Bytes>) {
    forall k :: 0 <= k < |lines| ==> Plain(lines[k])
  }

  /** No CR is taken for the first half of a CRLF that was never written. */
  ghost predicate Unambiguous(lines: seq<Bytes>, ends: seq<Ending>)
    requires |lines| == |ends|
  {
    forall k :: 1 <= k < |lines| ==> NoMerge(lines, ends, k)
  }

  ghost predicate NoMerge(lines: seq<Bytes>, ends: seq<Ending>, k: nat)
    requires 1 <= k < |lines| == |ends|
  {
    !(ends[k - 1] == Cr && lines[k] == [] && ends[k] == Lf)
  }

  /** Read whole lines, however they ended. */
  function ReadLines<V>(parse: Parser<V>, data: seq<Bytes>, lines: seq<Bytes>): Outcome<V> {
    if lines == [] then Outcome(State([], data, false), [], None)
    else
      var a := ReadLines(parse, data, lines[..|lines| - 1]);
      Then(a, Line(parse, a.state.(line := lines[|lines| - 1])))
  }

  /** The same outcome up to whether the last byte was a CR. */
  ghost predicate Alike<V>(a: Outcome<V>, b: Outcome<V>) {
    a.messages == b.messages && a.fault == b.fault && a.state.line == b.state.line && a.state.data == b.state.data
  }

  lemma {:induction false} LineClears<V>(parse: Parser<V>, s: State)
    ensures Line(parse, s).fault.None? ==> Line(parse, s).state.line == [] && Line(parse, s).state.afterCr == s.afterCr
  {
  }

  lemma {:induction false} PlainPush<V>(parse: Parser<V>, s: State, line: Bytes)
    requires Plain(line)
    ensures Push(parse, s, line)
            == Outcome(State(s.line + line, s.data, if line == [] then s.afterCr else false), [], None)
  {
    hide Push;
    PushSnoc(parse, s, [], LF);
    if line == [] {
      assert s.line + line == s.line;
    } else {
      var init, last := line[..|line| - 1], line[|line| - 1];
      PlainPush(parse, s, init);
      PushSnoc(parse, s, init, last);
      assert line == init + [last];
      assert s.line + line == s.line + init + [last];
      assert !Ends(line[|line| - 1]);
    }
  }

  /** A line end finishes the line; the LF of a CRLF adds nothing. */
  lemma {:induction false} EndPush<V>(parse: Parser<V>, s: State, e: Ending)
    requires e == Lf ==> !s.afterCr
    ensures Alike(Push(parse, s, EndBytes(e)), Line(parse, s))
    ensures Line(parse, s).fault.None? ==> Push(parse, s, EndBytes(e)).state.afterCr == (e == Cr)
  {
    hide Push;
    var first := if e == Lf then LF else CR;
    PushSnoc(parse, s, [], first);
    assert [] + [first] == [first];
    LineIgnoresCr(parse, s, first == CR);
    LineClears(parse, s.(afterCr := first == CR));
    hide Line;
    if e == CrLf {
      PushSnoc(parse, s, [CR], LF);
      assert [CR] + [LF] == [CR, LF];
    }
  }

  lemma {:induction false} LineIgnoresCr<V>(parse: Parser<V>, s: State, cr: bool)
    ensures Alike(Line(parse, s.(afterCr := cr)), Line(parse, s))
  {
    hide Utf8.Valid, N.Join;
  }

  lemma {:induction false} OneLine<V>(parse: Parser<V>, s: State, line: Bytes, e: Ending)
    requires s.line == [] && Plain(line) && !(s.afterCr && line == [] && e == Lf)
    ensures Alike(Push(parse, s, line + EndBytes(e)), Line(parse, s.(line := line)))
    ensures Line(parse, s.(line := line)).fault.None? ==> Push(parse, s, line + EndBytes(e)).state.afterCr == (e == Cr)
  {
    hide Push, Line;
    PlainPush(parse, s, line);
    PushInTwo(parse, s, line, EndBytes(e));
    var t := Push(parse, s, line).state;
    assert [] + line == line;
    EndPush(parse, t, e);
    LineIgnoresCr(parse, s.(line := line), t.afterCr);
  }

  /** However its lines end, a stream means its lines. */
  lemma {:induction false} StreamMeansLines<V>(parse: Parser<V>, lines: seq<Bytes>, ends: seq<Ending>)
    requires |lines| == |ends| && AllPlain(lines) && Unambiguous(lines, ends)
    ensures Alike(Push(parse, START, Encode(lines, ends)), ReadLines(parse, [], lines))
    ensures var o := Push(parse, START, Encode(lines, ends));
            o.fault.None? ==> o.state.line == [] && o.state.afterCr == (ends != [] && ends[|ends| - 1] == Cr)
  {
    hide Push, Line;
    if lines == [] {
      PushSnoc(parse, START, [], LF);
    } else {
      var n := |lines| - 1;
      var init := Encode(lines[..n], ends[..n]);
      assert Unambiguous(lines[..n], ends[..n]) by { InitUnambiguous(lines, ends); }
      StreamMeansLines(parse, lines[..n], ends[..n]);
      PushInTwo(parse, START, init, lines[n] + EndBytes(ends[n]));
      assert init + (lines[n] + EndBytes(ends[n])) == Encode(lines, ends);
      var before := Push(parse, START, init);
      if before.fault.None? {
        assert n > 0 ==> NoMerge(lines, ends, n);
        OneLine(parse, before.state, lines[n], ends[n]);
        LineIgnoresCr(parse, ReadLines(parse, [], lines[..n]).state.(line := lines[n]), before.state.afterCr);
        LineClears(parse, before.state.(line := lines[n]));
      }
    }
  }

  /** LF, CR and CRLF streams of the same lines decode alike, mixed or uniform. */
  lemma {:induction false} EndingsDecodeAlike<V>(parse: Parser<V>, lines: seq<Bytes>, a: seq<Ending>, b: seq<Ending>)
    requires |lines| == |a| == |b| && AllPlain(lines) && Unambiguous(lines, a) && Unambiguous(lines, b)
    ensures Alike(Push(parse, START, Encode(lines, a)), Push(parse, START, Encode(lines, b)))
  {
    hide Push, Encode, ReadLines;
    StreamMeansLines(parse, lines, a);
    StreamMeansLines(parse, lines, b);
  }

  lemma {:induction false} InitUnambiguous(lines: seq<Bytes>, ends: seq<Ending>)
    requires |lines| == |ends| && lines != [] && Unambiguous(lines, ends)
    ensures Unambiguous(lines[..|lines| - 1], ends[..|ends| - 1])
  {
    var a, e := lines[..|lines| - 1], ends[..|ends| - 1];
    forall k | 1 <= k < |a|
      ensures NoMerge(a, e, k)
    {
      assert NoMerge(lines, ends, k);
    }
  }

  /** Every stream is some lines, unambiguously ended, and an unfinished rest. */
  lemma {:induction false} EveryStreamIsLines(s: Bytes) returns (lines: seq<Bytes>, ends: seq<Ending>, rest: Bytes)
    ensures |lines| == |ends| && AllPlain(lines) && Unambiguous(lines, ends) && Plain(rest)
    ensures s == Encode(lines, ends) + rest
  {
    if s == [] {
      lines, ends, rest := [], [], [];
    } else {
      var init, b := s[..|s| - 1], s[|s| - 1];
      assert s == init + [b];
      lines, ends, rest := EveryStreamIsLines(init);
      var n := |lines|;
      if !Ends(b) {
        rest := rest + [b];
        assert Encode(lines, ends) + rest == s;
      } else if b == LF && rest == [] && n > 0 && ends[n - 1] == Cr {
        JoinsCrLf(lines, ends);
        ends := ends[..n - 1] + [CrLf];
        assert Encode(lines, ends) == s;
      } else {
        var e := if b == LF then Lf else Cr;
        EncodeMore(lines, ends, rest, e);
        assert Encode(lines + [rest], ends + [e]) + [] == s;
        lines, ends, rest := lines + [rest], ends + [e], [];
      }
    }
  }

  lemma {:induction false} EncodeMore(lines: seq<Bytes>, ends: seq<Ending>, line: Bytes, e: Ending)
    requires |lines| == |ends| && AllPlain(lines) && Plain(line) && Unambiguous(lines, ends)
    requires !(lines != [] && ends[|ends| - 1] == Cr && line == [] && e == Lf)
    ensures AllPlain(lines + [line]) && Unambiguous(lines + [line], ends + [e])
    ensures Encode(lines + [line], ends + [e]) == Encode(lines, ends) + line + EndBytes(e)
  {
    var n := |lines|;
    assert (lines + [line])[..n] == lines && (ends + [e])[..n] == ends;
    forall k | 1 <= k < n + 1
      ensures NoMerge(lines + [line], ends + [e], k)
    {
      if k < n {
        assert NoMerge(lines, ends, k);
      }
    }
  }

  /** An LF right after a line ended by CR belongs to that line's end. */
  lemma {:induction false} JoinsCrLf(lines: seq<Bytes>, ends: seq<Ending>)
    requires |lines| == |ends| > 0 && ends[|ends| - 1] == Cr && Unambiguous(lines, ends)
    ensures var joined := ends[..|ends| - 1] + [CrLf];
            Unambiguous(lines, joined) && Encode(lines, joined) == Encode(lines, ends) + [LF]
  {
    var n := |lines| - 1;
    var joined := ends[..n] + [CrLf];
    assert joined[..n] == ends[..n];
    forall k | 1 <= k < |lines|
      ensures NoMerge(lines, joined, k)
    {
      assert NoMerge(lines, ends, k);
    }
  }

  // ---------------------------------------------------------------- what a line may say

  /** Everything a line can be: data with a space or without, the bare word, a blank line, or something to pass over. */
  datatype Field = Spaced(text: Bytes) | Tight(text: Bytes) | Bare | Blank | Other(text: Bytes)

  predicate IsOther(line: Bytes) { line != [] && line != [100, 97, 116, 97] && !([100, 97, 116, 97, 58] <= line) }

  /** A space right after the colon is not part of the data; a comment or another field is no data. */
  ghost predicate Proper(f: Field) {
    match f
    case Spaced(text) => Utf8.Valid(text) && Plain(text)
    case Tight(text) => Utf8.Valid(text) && Plain(text) && (text == [] || text[0] != 32)
    case Other(line) => Utf8.Valid(line) && Plain(line) && IsOther(line)
    case _ => true
  }

  /** The line as written: `data: text`, `data:text`, `data`, nothing, or the other text. */
  function Written(f: Field): Bytes {
    match f
    case Spaced(text) => [100, 97, 116, 97, 58, 32] + text
    case Tight(text) => [100, 97, 116, 97, 58] + text
    case Bare => [100, 97, 116, 97]
    case Blank => []
    case Other(text) => text
  }

  function WrittenAll(fields: seq<Field>): (lines: seq<Bytes>)
    ensures |lines| == |fields| && forall k :: 0 <= k < |fields| ==> lines[k] == Written(fields[k])
  {
    seq(|fields|, k requires 0 <= k < |fields| => Written(fields[k]))
  }

  ghost predicate AllProper(fields: seq<Field>) {
    forall k :: 0 <= k < |fields| ==> Proper(fields[k])
  }

  /** The data lines of the event that is not finished yet. */
  function OpenEvent(fields: seq<Field>): seq<Bytes> {
    if fields == [] then []
    else
      var before := OpenEvent(fields[..|fields| - 1]);
      match fields[|fields| - 1]
      case Spaced(text) => before + [text]
      case Tight(text) => before + [text]
      case Bare => before + [[]]
      case Blank => []
      case Other(_) => before
  }

  /** The events finished: the data lines before each blank line joined, those without any text left out. */
  function Events(fields: seq<Field>): seq<Bytes> {
    if fields == [] then []
    else
      var n := |fields| - 1;
      var texts := OpenEvent(fields[..n]);
      if fields[n].Blank? && texts != [] && N.Join(texts) != [] then Events(fields[..n]) + [N.Join(texts)]
      else Events(fields[..n])
  }

  /** What one field does to the data lines collected so far. */
  lemma {:induction false} FieldRead<V>(parse: Parser<V>, data: seq<Bytes>, f: Field)
    requires Proper(f)
    ensures var o := Line(parse, State(Written(f), data, false));
            match f
            case Spaced(text) => o == Outcome(State([], data + [text], false), [], None)
            case Tight(text) => o == Outcome(State([], data + [text], false), [], None)
            case Bare => o == Outcome(State([], data + [[]], false), [], None)
            case Other(_) => o == Outcome(State([], data, false), [], None)
            case Blank =>
              if data == [] || N.Join(data) == [] then o == Outcome(State([], [], false), [], None)
              else match parse(N.Join(data))
                case Some(v) => o == Outcome(State([], [], false), [v], None)
                case None => o == Outcome(State([], [], false), [], Some(NotAnEvent))
  {
    assert DATA == [100, 97, 116, 97, 58] && DATA[..4] == [100, 97, 116, 97];
    match f
    case Spaced(text) =>
      assert Written(f) == DataLine(text);
      DataLineRead(parse, data, text);
    case Tight(text) =>
      Utf8.AsciiValid(DATA);
      Utf8.ValidConcat(DATA, text);
      hide Utf8.Valid, N.Join;
      assert Written(f) == DATA + text && (DATA + text)[|DATA|..] == text && DATA <= DATA + text;
    case Bare =>
      Utf8.AsciiValid(DATA[..4]);
      hide Utf8.Valid, N.Join;
    case Other(text) =>
      hide Utf8.Valid, N.Join;
    case Blank =>
      Utf8.AsciiValid([]);
      hide Utf8.Valid, N.Join;
  }

  lemma {:induction false} EventsFilled(fields: seq<Field>)
    ensures forall k :: 0 <= k < |Events(fields)| ==> Events(fields)[k] != []
  {
    if fields != [] {
      EventsFilled(fields[..|fields| - 1]);
    }
  }

  lemma {:induction false} FieldsRead<V>(parse: Parser<V>, fields: seq<Field>)
    requires AllProper(fields)
    ensures var o, r := ReadLines(parse, [], WrittenAll(fields)), N.ParseAll(parse, Events(fields));
            && o.messages == r.values && o.fault == (if r.end == N.Malformed then Some(NotAnEvent) else None)
            && (o.fault.None? ==> o.state == State([], OpenEvent(fields), false))
  {
    hide ReadLines, N.ParseAll, N.Join, Line, Proper, Written;
    if fields == [] {
      ReadLinesSnoc(parse, [], [], []);
      N.FromNothing(parse, []);
    } else {
      var init, last := fields[..|fields| - 1], fields[|fields| - 1];
      FieldsRead(parse, init);
      assert WrittenAll(fields) == WrittenAll(init) + [Written(last)];
      ReadLinesSnoc(parse, [], WrittenAll(init), Written(last));
      assert Proper(last);
      FieldRead(parse, OpenEvent(init), last);
      ParseEnds(parse, Events(init));
      if last.Blank? && OpenEvent(init) != [] && N.Join(OpenEvent(init)) != [] {
        var text := N.Join(OpenEvent(init));
        if N.ParseAll(parse, Events(init)).end == N.Complete {
          N.LineAdds(parse, Events(init), text);
        } else {
          N.NothingAfterMalformed(parse, Events(init), [text]);
        }
      } else {
        assert Events(fields) == Events(init);
      }
    }
  }

  /**
   What a stream means, told from its lines: the messages are the parses of its events, up to the first that does not
   parse, and the data lines of an unfinished event are kept. Comments, other fields and blank lines between add
   nothing.
   */
  lemma {:induction false} StreamMeansEvents<V>(parse: Parser<V>, fields: seq<Field>, ends: seq<Ending>)
    requires AllProper(fields) && |ends| == |fields| && Unambiguous(WrittenAll(fields), ends)
    ensures var o, r := Push(parse, START, Encode(WrittenAll(fields), ends)), N.ParseAll(parse, Events(fields));
            && o.messages == r.values && o.fault == (if r.end == N.Malformed then Some(NotAnEvent) else None)
            && (o.fault.None? ==> o.state.line == [] && o.state.data == OpenEvent(fields))
  {
    hide Push, Encode, ReadLines, N.ParseAll, Events, OpenEvent;
    forall k | 0 <= k < |fields|
      ensures Plain(WrittenAll(fields)[k])
    {
      WrittenPlain(fields[k]);
    }
    StreamMeansLines(parse, WrittenAll(fields), ends);
    FieldsRead(parse, fields);
  }

  lemma {:induction false} WrittenPlain(f: Field)
    requires Proper(f)
    ensures Plain(Written(f))
  {
    hide Utf8.Valid;
  }

  /** Every line that is text says one of these things. */
  lemma {:induction false} EveryLineIsField(line: Bytes) returns (f: Field)
    requires Utf8.Valid(line) && Plain(line)
    ensures Proper(f) && Written(f) == line
  {
    if line == [] {
      f := Blank;
    } else if line == [100, 97, 116, 97] {
      f := Bare;
    } else if [100, 97, 116, 97, 58] <= line {
      var text := line[5..];
      assert line == [100, 97, 116, 97, 58] + text;
      assert [100, 97, 116, 97] + [58] + text == line;
      Utf8.ValidParts([100, 97, 116, 97], 58, text);
      if text != [] && text[0] == 32 {
        assert [] + [32] + text[1..] == text;
        Utf8.ValidParts([], 32, text[1..]);
        f := Spaced(text[1..]);
        assert Written(f) == line;
      } else {
        f := Tight(text);
      }
    } else {
      f := Other(line);
    }
  }

  /** A line that is not text stops the decoder with what was found before it. */
  lemma {:induction false} BadLineStops<V>(parse: Parser<V>, fields: seq<Field>, bad: Bytes)
    requires AllProper(fields) && !Utf8.Valid(bad)
    ensures var o := ReadLines(parse, [], WrittenAll(fields) + [bad]);
            var r := N.ParseAll(parse, Events(fields));
            o.messages == r.values && o.fault == Some(if r.end == N.Malformed then NotAnEvent else NotUtf8)
  {
    hide ReadLines, N.ParseAll, Events, OpenEvent, Utf8.Valid, N.Join;
    FieldsRead(parse, fields);
    ReadLinesSnoc(parse, [], WrittenAll(fields), bad);
  }

  // ---------------------------------------------------------------- printing and reading back

  function DataLine(text: Bytes): Bytes { DATA + [SPACE] + text }

  function DataLines(texts: seq<Bytes>): seq<Bytes> {
    if texts == [] then [] else DataLines(texts[..|texts| - 1]) + [DataLine(texts[|texts| - 1])]
  }

  /** An event per payload: a data line for each of its lines, then a blank line. */
  function PrintedLines(payloads: seq<Bytes>): seq<Bytes> {
    if payloads == [] then []
    else PrintedLines(payloads[..|payloads| - 1]) + DataLines(N.Segments(payloads[|payloads| - 1])) + [[]]
  }

  function Uniform(n: nat, e: Ending): (ends: seq<Ending>)
    ensures |ends| == n && forall k :: 0 <= k < n ==> ends[k] == e
  {
    seq(n, _ => e)
  }

  function Print(payloads: seq<Bytes>, e: Ending): Bytes {
    var lines := PrintedLines(payloads);
    Encode(lines, Uniform(|lines|, e))
  }

  /** What a payload must be to survive printing: UTF-8 text, not empty, without CR. */
  ghost predicate Printable(payload: Bytes) {
    payload != [] && Utf8.Valid(payload) && CR !in payload
  }

  lemma {:induction false} ReadLinesSnoc<V>(parse: Parser<V>, data: seq<Bytes>, lines: seq<Bytes>, line: Bytes)
    ensures ReadLines(parse, data, []) == Outcome(State([], data, false), [], None)
    ensures ReadLines(parse, data, lines + [line]) ==
            Then(ReadLines(parse, data, lines), Line(parse, ReadLines(parse, data, lines).state.(line := line)))
  {
    assert (lines + [line])[..|lines|] == lines;
  }

  lemma {:induction false} DataLineRead<V>(parse: Parser<V>, data: seq<Bytes>, text: Bytes)
    requires Utf8.Valid(text)
    ensures Line(parse, State(DataLine(text), data, false)) == Outcome(State([], data + [text], false), [], None)
  {
    var line := DataLine(text);
    assert Utf8.Valid(line) by {
      Utf8.AsciiValid(DATA + [SPACE]);
      Utf8.ValidConcat(DATA + [SPACE], text);
    }
    hide Utf8.Valid;
    assert line[..|DATA|] == DATA && line[|DATA|..] == [SPACE] + text;
    assert Stripped([SPACE] + text) == text;
  }

  ghost predicate AllUtf8(texts: seq<Bytes>) {
    forall k :: 0 <= k < |texts| ==> Utf8.Valid(texts[k])
  }

  lemma {:induction false} DataLinesRead<V>(parse: Parser<V>, data: seq<Bytes>, lines: seq<Bytes>, texts: seq<Bytes>)
    requires AllUtf8(texts) && ReadLines(parse, data, lines).state == State([], [], false)
             && ReadLines(parse, data, lines).fault.None?
    ensures ReadLines(parse, data, lines + DataLines(texts))
            == ReadLines(parse, data, lines).(state := State([], texts, false))
  {
    hide ReadLines, Line;
    if texts == [] {
      assert lines + DataLines(texts) == lines;
    } else {
      var init, last := texts[..|texts| - 1], texts[|texts| - 1];
      DataLinesRead(parse, data, lines, init);
      ReadLinesSnoc(parse, data, lines + DataLines(init), DataLine(last));
      DataLineRead(parse, init, last);
      assert lines + DataLines(texts) == lines + DataLines(init) + [DataLine(last)];
      assert texts == init + [last];
    }
  }

  lemma {:induction false} SegmentsUtf8(segments: seq<Bytes>)
    requires segments != [] && Utf8.Valid(N.Join(segments))
    ensures AllUtf8(segments)
  {
    hide Utf8.Valid;
    if |segments| > 1 {
      var init, last := segments[..|segments| - 1], segments[|segments| - 1];
      Utf8.ValidParts(N.Join(init), LF, last);
      SegmentsUtf8(init);
      assert segments == init + [last];
    }
  }

  /** The blank line after a payload's data lines delivers the payload. */
  lemma {:induction false} PayloadRead<V>(parse: Parser<V>, lines: seq<Bytes>, payload: Bytes)
    requires Printable(payload)
    requires ReadLines(parse, [], lines).state == State([], [], false) && ReadLines(parse, [], lines).fault.None?
    ensures ReadLines(parse, [], lines + DataLines(N.Segments(payload)) + [[]]) ==
            Then(ReadLines(parse, [], lines), match parse(payload)
              case Some(v) => Outcome(State([], [], false), [v], None)
              case None => Outcome(State([], [], false), [], Some(NotAnEvent)))
  {
    var texts := N.Segments(payload);
    N.SegmentsJoin(payload);
    assert texts != [];
    hide N.Segments, N.Join, ReadLines, Utf8.Valid;
    SegmentsUtf8(texts);
    DataLinesRead(parse, [], lines, texts);
    ReadLinesSnoc(parse, [], lines + DataLines(texts), []);
    Utf8.AsciiValid([]);
  }

  lemma {:induction false} ReadFaultIsFinal<V>(parse: Parser<V>, data: seq<Bytes>, lines: seq<Bytes>, more: seq<Bytes>)
    requires ReadLines(parse, data, lines).fault.Some?
    ensures ReadLines(parse, data, lines + more) == ReadLines(parse, data, lines)
  {
    hide ReadLines, Line;
    if more == [] {
      assert lines + more == lines;
    } else {
      var init, last := more[..|more| - 1], more[|more| - 1];
      ReadFaultIsFinal(parse, data, lines, init);
      ReadLinesSnoc(parse, data, lines + init, last);
      assert lines + more == lines + init + [last];
    }
  }

  ghost predicate AllPrintable(payloads: seq<Bytes>) {
    forall k :: 0 <= k < |payloads| ==> Printable(payloads[k])
  }

  /** The outcome of a stream whose events parse as `r` says. */
  ghost predicate Delivers<V>(o: Outcome<V>, r: N.Reading<V>) {
    && o.messages == r.values && o.fault == (if r.end == N.Malformed then Some(NotAnEvent) else None)
    && o.state.line == [] && o.state.data == []
  }

  lemma {:induction false} PrintedRead<V>(parse: Parser<V>, payloads: seq<Bytes>)
    requires AllPrintable(payloads)
    ensures Delivers(ReadLines(parse, [], PrintedLines(payloads)), N.ParseAll(parse, payloads))
    ensures !ReadLines(parse, [], PrintedLines(payloads)).state.afterCr
  {
    hide ReadLines, N.ParseAll, N.Segments, Utf8.Valid;
    if payloads == [] {
      ReadLinesSnoc(parse, [], [], []);
      N.FromNothing(parse, []);
    } else {
      var init, last := payloads[..|payloads| - 1], payloads[|payloads| - 1];
      PrintedRead(parse, init);
      assert payloads == init + [last] && Printable(last);
      var lines, event := PrintedLines(init), DataLines(N.Segments(last)) + [[]];
      assert PrintedLines(payloads) == lines + event == lines + DataLines(N.Segments(last)) + [[]];
      if ReadLines(parse, [], lines).fault.Some? {
        ReadFaultIsFinal(parse, [], lines, event);
        N.NothingAfterMalformed(parse, init, [last]);
      } else {
        PayloadRead(parse, lines, last);
        ParseEnds(parse, init);
        N.LineAdds(parse, init, last);
      }
    }
  }

  lemma {:induction false} ParseEnds<V>(parse: Parser<V>, payloads: seq<Bytes>)
    ensures N.ParseAll(parse, payloads).end != N.Disconnected
  {
    if payloads != [] {
      ParseEnds(parse, payloads[..|payloads| - 1]);
    }
  }

  lemma {:induction false} DataLinesPlain(texts: seq<Bytes>)
    requires forall k :: 0 <= k < |texts| ==> Plain(texts[k])
    ensures AllPlain(DataLines(texts))
  {
    if texts != [] {
      DataLinesPlain(texts[..|texts| - 1]);
      assert Plain(DataLine(texts[|texts| - 1]));
    }
  }

  lemma {:induction false} SegmentsWithoutCr(segments: seq<Bytes>)
    requires segments != [] && N.Unbroken(segments) && CR !in N.Join(segments)
    ensures AllPlain(segments)
  {
    if |segments| == 1 {
      PlainWithout(segments[0]);
    } else {
      var init, last := segments[..|segments| - 1], segments[|segments| - 1];
      assert N.Join(segments) == N.Join(init) + [LF] + last;
      SegmentsWithoutCr(init);
      PlainWithout(last);
      assert segments == init + [last];
    }
  }

  lemma {:induction false} PlainWithout(text: Bytes)
    requires CR !in text && LF !in text
    ensures Plain(text)
  {
  }

  lemma {:induction false} PrintedPlain(payloads: seq<Bytes>)
    requires AllPrintable(payloads)
    ensures AllPlain(PrintedLines(payloads))
  {
    hide N.Segments, Utf8.Valid, Plain;
    if payloads != [] {
      var init, last := payloads[..|payloads| - 1], payloads[|payloads| - 1];
      PrintedPlain(init);
      assert Printable(last);
      SegmentsPlain(last);
      DataLinesPlain(N.Segments(last));
      PlainWithout([]);
    }
  }

  lemma {:induction false} SegmentsPlain(payload: Bytes)
    requires CR !in payload
    ensures AllPlain(N.Segments(payload))
  {
    N.SegmentsJoin(payload);
    SegmentsWithoutCr(N.Segments(payload));
  }

  /**
   Printing payloads with any one line ending and decoding delivers them in order, up to the first that does not parse.
   */
  lemma {:induction false} PrintedIsReadBack<V>(parse: Parser<V>, payloads: seq<Bytes>, e: Ending)
    requires AllPrintable(payloads)
    ensures Delivers(Push(parse, START, Print(payloads, e)), N.ParseAll(parse, payloads))
  {
    hide ReadLines, N.ParseAll, PrintedLines, Encode, Push, AllPrintable;
    var lines := PrintedLines(payloads);
    PrintedPlain(payloads);
    StreamMeansLines(parse, lines, Uniform(|lines|, e));
    PrintedRead(parse, payloads);
  }
}
