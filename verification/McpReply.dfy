/** Picking the reply to an MCP request out of an event stream, however the network cuts it. */
module McpReply {
  import opened Common
  import S = SseDecoder
  import Utf8

  datatype Json = Text(text: string) | Object(fields: map<string, Json>) | Plain(text: string)

  const LIMIT := 131072

  function Get(m: Json, key: string): Option<Json> {
    if m.Object? && key in m.fields then Some(m.fields[key]) else None
  }

  predicate IsVersion2(m: Json) { Get(m, "jsonrpc") == Some(Text("2.0")) }

  /** Server notifications name a method and answer nothing. */
  predicate IsNotification(m: Json) {
    && IsVersion2(m) && Get(m, "method").Some? && Get(m, "method").value.Text?
    && Get(m, "id").None? && Get(m, "result").None? && Get(m, "error").None?
  }

  datatype Reply = Answer(message: Json) | Mismatch | Faulty(fault: S.Fault) | TooLong | Disconnected | NoReply

  function Checked(m: Json, request: Json): Reply {
    if !IsVersion2(m) || Get(m, "id") != Get(request, "id") || Get(m, "method").Some?
       || Get(m, "result").Some? == Get(m, "error").Some? then Mismatch
    else Answer(m)
  }

  /** An answer is of version 2.0, has the request's id, names no method and has one of a result and an error. */
  predicate Fits(m: Json, request: Json) {
    && m.Object? && "jsonrpc" in m.fields && m.fields["jsonrpc"] == Text("2.0") && "method" !in m.fields
    && Get(m, "id") == Get(request, "id") && ("result" in m.fields <==> "error" !in m.fields)
  }

  /** The first message that is not a notification is this one. */
  predicate IsFirst(messages: seq<Json>, k: nat) {
    && k < |messages| && !IsNotification(messages[k])
    && forall j :: 0 <= j < k ==> IsNotification(messages[j])
  }

  /** What the stream brings first decides: an answer if it fits the request, a mismatch if it does not. */
  ghost predicate Decides(messages: seq<Json>, request: Json, r: Reply) {
    forall k: nat :: IsFirst(messages, k) ==> r == if Fits(messages[k], request) then Answer(messages[k]) else Mismatch
  }

  lemma {:induction false} FirstDecides(messages: seq<Json>, request: Json)
    ensures FirstReply(messages).Some? ==> Decides(messages, request, Checked(FirstReply(messages).value, request))
  {
    hide IsNotification;
    forall k: nat | IsFirst(messages, k)
      ensures FirstReply(messages) == Some(messages[k])
    {
      FirstIs(messages, k);
    }
  }

  lemma {:induction false} FirstIs(messages: seq<Json>, k: nat)
    requires IsFirst(messages, k)
    ensures FirstReply(messages) == Some(messages[k])
    decreases k
  {
    hide IsNotification;
    if k > 0 {
      assert IsFirst(messages[1..], k - 1);
      FirstIs(messages[1..], k - 1);
    }
  }

  /** The first message that is not a notification. */
  function FirstReply(messages: seq<Json>): Option<Json> {
    if messages == [] then None
    else if !IsNotification(messages[0]) then Some(messages[0])
    else FirstReply(messages[1..])
  }

  function Body(chunks: seq<Bytes>): Bytes {
    if chunks == [] then [] else Body(chunks[..|chunks| - 1]) + chunks[|chunks| - 1]
  }

  type Parser = Bytes -> Option<Json>

  function Decoded(parse: Parser, chunks: seq<Bytes>): S.Outcome<Json> {
    S.Push(parse, S.START, Body(chunks))
  }

  /** Up to here the stream is within bounds, decodes without fault and holds a reply. */
  predicate Replied(parse: Parser, chunks: seq<Bytes>) {
    |Body(chunks)| <= LIMIT && Decoded(parse, chunks).fault.None? && FirstReply(Decoded(parse, chunks).messages).Some?
  }

  // ---------------------------------------------------------------- order of messages

  lemma {:induction false} FirstReplyConcat(a: seq<Json>, b: seq<Json>)
    ensures FirstReply(a + b) == if FirstReply(a).Some? then FirstReply(a) else FirstReply(b)
  {
    hide IsNotification;
    if a == [] {
      assert a + b == b;
    } else {
      assert (a + b)[1..] == a[1..] + b && (a + b)[0] == a[0];
      FirstReplyConcat(a[1..], b);
    }
  }

  lemma {:induction false} OneMoreChunk(parse: Parser, chunks: seq<Bytes>, chunk: Bytes)
    ensures Body(chunks + [chunk]) == Body(chunks) + chunk
    ensures Decoded(parse, chunks + [chunk])
            == S.Then(Decoded(parse, chunks), S.Push(parse, Decoded(parse, chunks).state, chunk))
  {
    hide S.Push;
    assert (chunks + [chunk])[..|chunks|] == chunks;
    S.PushInTwo(parse, S.START, Body(chunks), chunk);
  }

  /** A reply found stays the reply, whatever arrives later, faults included. */
  lemma {:induction false} ReplyStays(parse: Parser, chunks: seq<Bytes>, k: nat)
    requires k <= |chunks| && FirstReply(Decoded(parse, chunks[..k]).messages).Some?
    ensures FirstReply(Decoded(parse, chunks).messages) == FirstReply(Decoded(parse, chunks[..k]).messages)
  {
    hide Decoded, FirstReply;
    if k < |chunks| {
      var n := |chunks| - 1;
      var init := chunks[..n];
      assert chunks[..k] == init[..k];
      ReplyStays(parse, init, k);
      OneMoreChunk(parse, init, chunks[n]);
      assert chunks == init + [chunks[n]];
      FirstReplyConcat(Decoded(parse, init).messages, S.Push(parse, Decoded(parse, init).state, chunks[n]).messages);
    } else {
      assert chunks[..k] == chunks;
    }
  }

  /** Faults and overlength cannot be undone by further chunks. */
  lemma {:induction false} CleanBefore(parse: Parser, chunks: seq<Bytes>, k: nat)
    requires k <= |chunks|
    ensures Decoded(parse, chunks).fault.None? ==> Decoded(parse, chunks[..k]).fault.None?
    ensures |Body(chunks[..k])| <= |Body(chunks)|
  {
    hide Decoded;
    if k < |chunks| {
      var n := |chunks| - 1;
      assert chunks[..k] == chunks[..n][..k];
      CleanBefore(parse, chunks[..n], k);
      OneMoreChunk(parse, chunks[..n], chunks[n]);
      assert chunks == chunks[..n] + [chunks[n]];
    } else {
      assert chunks[..k] == chunks;
    }
  }

  /** Some chunk boundary is reached with a reply in hand and no fault. */
  ghost predicate RepliedInTime(parse: Parser, chunks: seq<Bytes>) {
    exists k :: 0 <= k <= |chunks| && Replied(parse, chunks[..k])
  }

  predicate Clean(parse: Parser, chunks: seq<Bytes>) {
    |Body(chunks)| <= LIMIT && Decoded(parse, chunks).fault.None?
  }

  /** Nothing is accepted once a chunk brought a fault or went over the limit. */
  lemma {:induction false} NoReplyAfter(parse: Parser, chunks: seq<Bytes>, k: nat)
    requires k < |chunks| && !Clean(parse, chunks[..k + 1])
    requires forall j :: 0 <= j <= k ==> !Replied(parse, chunks[..j])
    ensures !RepliedInTime(parse, chunks) && !Clean(parse, chunks)
  {
    hide Decoded, Body;
    CleanBefore(parse, chunks, k + 1);
    forall j | k < j <= |chunks|
      ensures !Replied(parse, chunks[..j])
    {
      CleanBefore(parse, chunks[..j], k + 1);
      assert chunks[..j][..k + 1] == chunks[..k + 1];
    }
  }

  // ---------------------------------------------------------------- the reply loop

  /** Skip notifications up to the first other message. */
  method PickReply(messages: seq<Json>, request: Json) returns (r: Option<Reply>)
    ensures r == if FirstReply(messages).Some? then Some(Checked(FirstReply(messages).value, request)) else None
    ensures r.Some? ==> Decides(messages, request, r.value)
    ensures r.Some? && r.value.Answer? ==> Fits(r.value.message, request)
  {
    FirstDecides(messages, request);
    hide IsNotification, Decides;
    for k := 0 to |messages|
      invariant FirstReply(messages) == FirstReply(messages[k..])
    {
      assert messages[k..][1..] == messages[k + 1..];
      if !IsNotification(messages[k]) {
        return Some(Checked(messages[k], request));
      }
    }
    assert messages[|messages|..] == [];
    return None;
  }

  /** Read chunks until one completes a reply; a lost connection shows after the chunks that came before it. */
  method AwaitReply(parse: Parser, request: Json, chunks: seq<Bytes>, lost: bool) returns (r: Reply)
    ensures r.Answer? ==> Fits(r.message, request)
    ensures RepliedInTime(parse, chunks) ==>
              FirstReply(Decoded(parse, chunks).messages).Some?
              && r == Checked(FirstReply(Decoded(parse, chunks).messages).value, request)
    ensures RepliedInTime(parse, chunks) ==> Decides(Decoded(parse, chunks).messages, request, r)
    ensures !RepliedInTime(parse, chunks) ==> !r.Answer? && !r.Mismatch?
    ensures Clean(parse, chunks) && !RepliedInTime(parse, chunks) ==> r == if lost then Disconnected else NoReply
  {
    FirstDecides(Decoded(parse, chunks).messages, request);
    hide Decoded, Body, S.Push, FirstReply, Checked, Fits, Decides;
    var decoder := new S.Decoder();
    var received := 0;
    AtStart(parse);
    assert chunks[..0] == [];
    for k := 0 to |chunks|
      invariant fresh(decoder) && received == |Body(chunks[..k])| <= LIMIT
      invariant Decoded(parse, chunks[..k]).fault.None? && decoder.View() == Decoded(parse, chunks[..k]).state
      invariant FirstReply(Decoded(parse, chunks[..k]).messages).None?
      invariant forall j :: 0 <= j <= k ==> !Replied(parse, chunks[..j])
    {
      OneMoreChunk(parse, chunks[..k], chunks[k]);
      assert chunks[..k + 1] == chunks[..k] + [chunks[k]];
      received := received + |chunks[k]|;
      if received > LIMIT {
        NoReplyAfter(parse, chunks, k);
        return TooLong;
      }
      ghost var before := Decoded(parse, chunks[..k]).messages;
      var messages, fault := decoder.PushBytes(parse, chunks[k]);
      if fault.Some? {
        NoReplyAfter(parse, chunks, k);
        return Faulty(fault.value);
      }
      FirstReplyConcat(before, messages);
      var reply := PickReply(messages, request);
      if reply.Some? {
        assert Replied(parse, chunks[..k + 1]);
        ReplyStays(parse, chunks, k + 1);
        return reply.value;
      }
    }
    assert chunks[..|chunks|] == chunks;
    r := if lost then Disconnected else NoReply;
  }

  lemma {:induction false} AtStart(parse: Parser)
    ensures Body([]) == [] && Decoded(parse, []) == S.Outcome(S.START, [], None) && FirstReply([]).None?
  {
  }

  /** On a clean stream every way of cutting it gives the same reply: the first message that is not a notification. */
  lemma {:induction false} CuttingDoesNotMatter(parse: Parser, a: seq<Bytes>, b: seq<Bytes>)
    requires Body(a) == Body(b) && Clean(parse, a)
    ensures RepliedInTime(parse, a) == RepliedInTime(parse, b) == FirstReply(Decoded(parse, a).messages).Some?
    ensures Decoded(parse, a) == Decoded(parse, b)
  {
    CleanReplies(parse, a);
    CleanReplies(parse, b);
  }

  lemma {:induction false} CleanReplies(parse: Parser, chunks: seq<Bytes>)
    requires Clean(parse, chunks)
    ensures RepliedInTime(parse, chunks) <==> FirstReply(Decoded(parse, chunks).messages).Some?
  {
    hide Decoded, Body, FirstReply;
    assert chunks[..|chunks|] == chunks;
    if RepliedInTime(parse, chunks) {
      var k :| 0 <= k <= |chunks| && Replied(parse, chunks[..k]);
      ReplyStays(parse, chunks, k);
    }
  }

  /** Two bytes that no decoder state accepts: a byte UTF-8 never uses, and a line end. */
  const BAD: Bytes := [0xFF, LF]

  lemma {:induction false} BadFaults(parse: Parser, s: S.State)
    ensures S.Push(parse, s, BAD).fault.Some?
  {
    hide S.Push;
    var t := s.(line := s.line + [0xFF], afterCr := false);
    S.PushSnoc(parse, s, [], 0xFF);
    S.PushSnoc(parse, s, [0xFF], LF);
    assert [] + [0xFF] == [0xFF] && [0xFF] + [LF] == BAD;
    assert !Utf8.Valid(t.line) by {
      assert t.line[|s.line|] == 0xFF;
      if Utf8.Valid(t.line) {
        Utf8.NeverFF(t.line);
      }
    }
  }

  lemma {:induction false} OneChunk(parse: Parser, s: Bytes)
    ensures Body([s]) == s && Decoded(parse, [s]) == S.Push(parse, S.START, s)
  {
    assert [s][..0] == [] && [] + s == s;
  }

  /** The chunks up to any boundary are a prefix of the body. */
  lemma {:induction false} BodyPrefix(chunks: seq<Bytes>, k: nat)
    requires k <= |chunks|
    ensures Body(chunks[..k]) <= Body(chunks)
  {
    if k < |chunks| {
      var n := |chunks| - 1;
      assert chunks[..k] == chunks[..n][..k];
      BodyPrefix(chunks[..n], k);
    } else {
      assert chunks[..k] == chunks;
    }
  }

  /** Only the body decides whether a reply is in hand. */
  lemma {:induction false} SameBody(parse: Parser, a: seq<Bytes>, b: seq<Bytes>)
    requires Body(a) == Body(b)
    ensures Replied(parse, a) == Replied(parse, b) && Clean(parse, a) == Clean(parse, b)
  {
  }

  /** However this body is cut, a reply is given in all cases or in none. */
  ghost predicate CutsAlike(parse: Parser, s: Bytes) {
    forall a: seq<Bytes>, b: seq<Bytes> :: Body(a) == s && Body(b) == s ==>
      RepliedInTime(parse, a) == RepliedInTime(parse, b)
  }

  /** No beginning of this body brings a reply. */
  ghost predicate NeverReplied(parse: Parser, s: Bytes) {
    forall k :: 0 <= k <= |s| ==> !Replied(parse, [s[..k]])
  }

  /**
   The cutting does not matter exactly for the bodies that decode without fault within the limit and those that never
   bring a reply.
   */
  lemma {:induction false} CuttingMatters(parse: Parser, s: Bytes)
    ensures CutsAlike(parse, s) <==> Clean(parse, [s]) || NeverReplied(parse, s)
  {
    hide Decoded, Body, Replied, Clean, RepliedInTime;
    OneChunk(parse, s);
    if Clean(parse, [s]) {
      forall a: seq<Bytes>, b: seq<Bytes> | Body(a) == s && Body(b) == s
        ensures RepliedInTime(parse, a) == RepliedInTime(parse, b)
      {
        SameBody(parse, a, [s]);
        CuttingDoesNotMatter(parse, a, b);
      }
    } else if NeverReplied(parse, s) {
      forall a: seq<Bytes> | Body(a) == s
        ensures !RepliedInTime(parse, a)
      {
        UnrepliedStays(parse, a, s);
      }
    } else {
      var k :| 0 <= k <= |s| && Replied(parse, [s[..k]]);
      FaultHides(parse, s, k);
    }
  }

  lemma {:induction false} UnrepliedStays(parse: Parser, a: seq<Bytes>, s: Bytes)
    requires NeverReplied(parse, s) && Body(a) == s
    ensures !RepliedInTime(parse, a)
  {
    hide Replied, Body;
    forall k | 0 <= k <= |a|
      ensures !Replied(parse, a[..k])
    {
      BodyPrefix(a, k);
      var m := |Body(a[..k])|;
      OneChunk(parse, s[..m]);
      SameBody(parse, a[..k], [s[..m]]);
    }
  }

  /** A body that goes wrong after bringing a reply: cut behind the reply it is given, in one piece it is not. */
  lemma {:induction false} FaultHides(parse: Parser, s: Bytes, k: nat)
    requires k <= |s| && Replied(parse, [s[..k]]) && !Clean(parse, [s])
    ensures Body([s[..k], s[k..]]) == s && Body([s]) == s
    ensures RepliedInTime(parse, [s[..k], s[k..]]) && !RepliedInTime(parse, [s])
  {
    var two := [s[..k], s[k..]];
    OneChunk(parse, s[..k]);
    OneChunk(parse, s);
    assert two[..1] == [s[..k]] && Body(two) == Body(two[..1]) + s[k..] && s[..k] + s[k..] == s;
    hide Decoded, Body, Replied, Clean;
    assert Replied(parse, two[..1]);
    UncleanWhole(parse, s);
  }

  lemma {:induction false} UncleanWhole(parse: Parser, s: Bytes)
    requires !Clean(parse, [s])
    ensures !RepliedInTime(parse, [s])
  {
    AtStart(parse);
    assert !Replied(parse, []) && !Replied(parse, [s]);
    hide Decoded, Body, Replied, Clean;
    forall j | 0 <= j <= |[s]|
      ensures !Replied(parse, [s][..j])
    {
      assert [s][..j] == if j == 0 then [] else [s];
    }
  }

  /**
   Off the clean streams cutting does matter: a fault in the reply's own chunk hides it, in a later one it does not.
   */
  lemma {:induction false} FaultsShowCutting(parse: Parser, event: Bytes)
    requires Replied(parse, [event])
    ensures Body([event, BAD]) == Body([event + BAD])
    ensures RepliedInTime(parse, [event, BAD]) && !RepliedInTime(parse, [event + BAD])
  {
    hide FirstReply, S.Push;
    BadFaults(parse, Decoded(parse, [event]).state);
    assert [event, BAD][..1] == [event];
    AtStart(parse);
    OneMoreChunk(parse, [], event);
    OneMoreChunk(parse, [event], BAD);
    OneMoreChunk(parse, [], event + BAD);
    assert [] + [event] == [event] && [event] + [BAD] == [event, BAD] && [] + [event + BAD] == [event + BAD];
    assert Body([event + BAD]) == Body([event, BAD]);
    var joined := [event + BAD];
    assert joined[..0] == [] && joined[..1] == joined;
    assert !Replied(parse, []) && !Replied(parse, joined);
  }
}
