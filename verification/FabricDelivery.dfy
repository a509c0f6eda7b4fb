/** Delivering a remote chat: lines are collected, the signed result is accepted, only then is text emitted. */
module FabricDelivery {
  import opened Common
  import opened FabricAccept

  type Raw = string

  datatype JobResult = JobResult(jobId: Id, attemptId: Option<Id>, status: Status, message: Message, usage: nat,
                                 error: Option<string>, envelope: Option<Raw>)
  datatype ChatBody = ChatBody(ok: bool, result: Option<JobResult>, signingKey: Option<string>)

  datatype DoneResult = Absent | Unreadable | Given(result: JobResult)
  datatype Event =
    | Plain(body: Option<ChatBody>)
    | Token(delta: Option<string>)
    | Done(ok: bool, signingKey: Option<string>, result: DoneResult)
    | Other
  datatype Line = Garbled | Line(jobId: Option<Id>, attemptId: Option<Id>, event: Event)

  /** The job and attempt this request is for. */
  datatype Ticket = Ticket(jobId: Id, attemptId: Id)

  // ---------------------------------------------------------------- collecting the response lines

  predicate Identifies(t: Ticket, r: JobResult) {
    r.jobId == t.jobId && r.attemptId == Some(t.attemptId)
  }

  /** Lines that stop the request: unreadable ones and those about another job or attempt. */
  predicate IsBad(t: Ticket, line: Line) {
    line.Garbled?
    || (line.jobId.Some? && line.jobId.value != t.jobId)
    || (line.attemptId.Some? && line.attemptId.value != t.attemptId)
    || match line.event
       case Plain(body) => body.None? || (body.value.result.Some? && !Identifies(t, body.value.result.value))
       case Done(_, _, result) => result.Unreadable? || (result.Given? && !Identifies(t, result.result))
       case _ => false
  }

  /** What the lines leave behind: a legacy body, the last `done` flags, the last result, the deltas. */
  datatype Collected = Collected(legacy: Option<ChatBody>, ok: bool, signingKey: Option<string>,
                                 result: Option<JobResult>, tokens: seq<string>)

  function Deltas(lines: seq<Line>): seq<string> {
    if lines == [] then []
    else
      var last := lines[|lines| - 1];
      Deltas(lines[..|lines| - 1]) +
      if last.Line? && last.event.Token? && last.event.delta.Some? then [last.event.delta.value] else []
  }

  /** The last legacy body; the flags of the last `done`; the last result a `done` gave. */
  function LastLegacy(lines: seq<Line>): Option<ChatBody> {
    if lines == [] then None
    else
      var last := lines[|lines| - 1];
      if last.Line? && last.event.Plain? && last.event.body.Some? then last.event.body
      else LastLegacy(lines[..|lines| - 1])
  }

  function LastDone(lines: seq<Line>): (bool, Option<string>) {
    if lines == [] then (false, None)
    else
      var last := lines[|lines| - 1];
      if last.Line? && last.event.Done? then (last.event.ok, last.event.signingKey) else LastDone(lines[..|lines| - 1])
  }

  function LastResult(lines: seq<Line>): Option<JobResult> {
    if lines == [] then None
    else
      var last := lines[|lines| - 1];
      if last.Line? && last.event.Done? && last.event.result.Given? then Some(last.event.result.result)
      else LastResult(lines[..|lines| - 1])
  }

  function Gathered(lines: seq<Line>): Collected {
    Collected(LastLegacy(lines), LastDone(lines).0, LastDone(lines).1, LastResult(lines), Deltas(lines))
  }

  ghost predicate OwnResults(t: Ticket, c: Collected) {
    && (c.legacy.Some? && c.legacy.value.result.Some? ==> Identifies(t, c.legacy.value.result.value))
    && (c.result.Some? ==> Identifies(t, c.result.value))
  }

  ghost predicate AnyBad(t: Ticket, lines: seq<Line>) {
    exists k :: 0 <= k < |lines| && IsBad(t, lines[k])
  }

  /** Handle one response line, or refuse it. */
  method OneLine(t: Ticket, line: Line, c: Collected) returns (c': Option<Collected>)
    requires OwnResults(t, c)
    ensures c'.None? <==> IsBad(t, line)
    ensures c'.Some? ==> OwnResults(t, c'.value)
    ensures c'.Some? ==> forall before :: c == Gathered(before) ==> c'.value == Gathered(before + [line])
  {
    if line.Garbled? || (line.jobId.Some? && line.jobId.value != t.jobId)
        || (line.attemptId.Some? && line.attemptId.value != t.attemptId) {
      return None;
    }
    match line.event {
      case Plain(body) =>
        if body.None? || (body.value.result.Some? && !Identifies(t, body.value.result.value)) {
          return None;
        }
        c' := Some(c.(legacy := body));
      case Token(delta) =>
        c' := Some(if delta.Some? then c.(tokens := c.tokens + [delta.value]) else c);
      case Done(ok, signingKey, result) =>
        var flagged := c.(ok := ok, signingKey := signingKey);
        match result {
          case Absent => c' := Some(flagged);
          case Unreadable => return None;
          case Given(r) =>
            if !Identifies(t, r) {
              return None;
            }
            c' := Some(flagged.(result := Some(r)));
        }
      case Other =>
        c' := Some(c);
    }
    forall before | c == Gathered(before)
      ensures c'.value == Gathered(before + [line])
    {
      GatheredMore(before, line);
    }
  }

  lemma {:induction false} GatheredMore(before: seq<Line>, line: Line)
    requires line.Line?
    ensures var c := Gathered(before);
            Gathered(before + [line]) == match line.event
              case Plain(body) => if body.Some? then c.(legacy := body) else c
              case Token(delta) => if delta.Some? then c.(tokens := c.tokens + [delta.value]) else c
              case Done(ok, signingKey, result) =>
                var flagged := c.(ok := ok, signingKey := signingKey);
                if result.Given? then flagged.(result := Some(result.result)) else flagged
              case Other => c
  {
    assert (before + [line])[..|before|] == before;
  }

  method CollectLines(t: Ticket, lines: seq<Line>) returns (c: Option<Collected>)
    ensures c.None? <==> AnyBad(t, lines)
    ensures c.Some? ==> c.value == Gathered(lines) && Tells(lines, c.value) && OwnResults(t, c.value)
  {
    GatheredTells(lines);
    hide IsBad, Gathered, Tells;
    var sofar := Collected(None, false, None, None, []);
    assert sofar == Gathered([]) by { NothingGathered(); }
    for k := 0 to |lines|
      invariant sofar == Gathered(lines[..k]) && OwnResults(t, sofar) && !AnyBad(t, lines[..k])
    {
      var next := OneLine(t, lines[k], sofar);
      if next.None? {
        return None;
      }
      assert lines[..k + 1] == lines[..k] + [lines[k]];
      sofar := next.value;
    }
    assert lines[..|lines|] == lines;
    return Some(sofar);
  }

  predicate GivesBody(line: Line) { line.Line? && line.event.Plain? && line.event.body.Some? }
  predicate GivesFlags(line: Line) { line.Line? && line.event.Done? }
  predicate GivesResult(line: Line) { line.Line? && line.event.Done? && line.event.result.Given? }
  predicate GivesDelta(line: Line) { line.Line? && line.event.Token? && line.event.delta.Some? }

  /** The last line of this sort. */
  ghost predicate IsLast(lines: seq<Line>, gives: Line -> bool, k: int) {
    0 <= k < |lines| && gives(lines[k]) && forall j :: k < j < |lines| ==> !gives(lines[j])
  }

  ghost predicate NoneGives(lines: seq<Line>, gives: Line -> bool) {
    forall k :: 0 <= k < |lines| ==> !gives(lines[k])
  }

  /** Where the texts stand among the lines: rising, and exactly at those that give one. */
  ghost predicate DeltasAt(lines: seq<Line>, texts: seq<string>, at: seq<nat>) {
    && |at| == |texts| && (forall i, j :: 0 <= i < j < |at| ==> at[i] < at[j])
    && (forall i :: 0 <= i < |at| ==>
          at[i] < |lines| && GivesDelta(lines[at[i]]) && lines[at[i]].event.delta == Some(texts[i]))
    && (forall k :: 0 <= k < |lines| && GivesDelta(lines[k]) ==> k in at)
  }

  ghost predicate TellsBody(lines: seq<Line>, body: Option<ChatBody>) {
    if body.None? then NoneGives(lines, GivesBody)
    else exists k :: IsLast(lines, GivesBody, k) && lines[k].event.body == body
  }

  ghost predicate TellsFlags(lines: seq<Line>, ok: bool, signingKey: Option<string>) {
    || (NoneGives(lines, GivesFlags) && !ok && signingKey.None?)
    || exists k :: IsLast(lines, GivesFlags, k) && lines[k].event.ok == ok && lines[k].event.signingKey == signingKey
  }

  ghost predicate TellsResult(lines: seq<Line>, result: Option<JobResult>) {
    if result.None? then NoneGives(lines, GivesResult)
    else exists k :: IsLast(lines, GivesResult, k) && lines[k].event.result.result == result.value
  }

  /** What was collected is what the last line of each sort gave, and every delta in order. */
  ghost predicate Tells(lines: seq<Line>, c: Collected) {
    && TellsBody(lines, c.legacy) && TellsFlags(lines, c.ok, c.signingKey) && TellsResult(lines, c.result)
    && exists at :: DeltasAt(lines, c.tokens, at)
  }

  lemma {:induction false} LastStays(lines: seq<Line>, line: Line, gives: Line -> bool)
    ensures gives(line) ==> IsLast(lines + [line], gives, |lines|)
    ensures !gives(line) ==> forall k :: IsLast(lines, gives, k) ==> IsLast(lines + [line], gives, k)
    ensures !gives(line) && NoneGives(lines, gives) ==> NoneGives(lines + [line], gives)
  {
  }

  lemma {:induction false} DeltasStay(lines: seq<Line>, line: Line, texts: seq<string>, at: seq<nat>)
    requires DeltasAt(lines, texts, at)
    ensures if GivesDelta(line) then DeltasAt(lines + [line], texts + [line.event.delta.value], at + [|lines|])
            else DeltasAt(lines + [line], texts, at)
  {
  }

  /** For every sequence of lines: the last of each sort, and all deltas. */
  lemma {:induction false} GatheredTells(lines: seq<Line>)
    ensures Tells(lines, Gathered(lines))
  {
    hide TellsBody, TellsFlags, TellsResult, DeltasAt;
    LegacyTells(lines);
    DoneTells(lines);
    ResultTells(lines);
    var at := DeltasTell(lines);
  }

  lemma {:induction false} LegacyTells(lines: seq<Line>)
    ensures TellsBody(lines, LastLegacy(lines))
  {
    if lines != [] {
      var rest, last := lines[..|lines| - 1], lines[|lines| - 1];
      assert lines == rest + [last];
      LegacyTells(rest);
      LastStays(rest, last, GivesBody);
    }
  }

  lemma {:induction false} DoneTells(lines: seq<Line>)
    ensures TellsFlags(lines, LastDone(lines).0, LastDone(lines).1)
  {
    if lines != [] {
      var rest, last := lines[..|lines| - 1], lines[|lines| - 1];
      assert lines == rest + [last];
      DoneTells(rest);
      LastStays(rest, last, GivesFlags);
    }
  }

  lemma {:induction false} ResultTells(lines: seq<Line>)
    ensures TellsResult(lines, LastResult(lines))
  {
    if lines != [] {
      var rest, last := lines[..|lines| - 1], lines[|lines| - 1];
      assert lines == rest + [last];
      ResultTells(rest);
      LastStays(rest, last, GivesResult);
    }
  }

  lemma {:induction false} DeltasTell(lines: seq<Line>) returns (at: seq<nat>)
    ensures DeltasAt(lines, Deltas(lines), at)
  {
    if lines == [] {
      at := [];
    } else {
      var rest, last := lines[..|lines| - 1], lines[|lines| - 1];
      assert lines == rest + [last];
      at := DeltasTell(rest);
      DeltasStay(rest, last, Deltas(rest), at);
      hide DeltasAt;
      at := if GivesDelta(last) then at + [|rest|] else at;
    }
  }

  lemma {:induction false} NothingGathered()
    ensures Gathered([]) == Collected(None, false, None, None, [])
  {
  }

  // ---------------------------------------------------------------- accepting

  datatype Bridge = NoBridge | Leased | Unleased

  /** One request's surroundings: what is expected, and what the parts not modelled here would answer. */
  datatype Call = Call(ticket: Ticket, decode: Raw -> Option<Envelope>, keyRegisters: string -> bool, bridge: Bridge,
                       locksHeld: bool, checks: Checks, settles: Option<bool>, revoked: bool)

  /** The wire fields as the JSON object they must equal. */
  function WireFields(r: JobResult): map<string, Value> {
    map["message" := MessageValue(r.message), "usage" := UsageValue(r.usage), "status" := StatusValue(r.status),
        "error" := ErrorValue(r.error)]
  }

  /** The chat fields are exactly the signed payload. */
  predicate Bound(call: Call, r: JobResult) {
    r.envelope.Some? && call.decode(r.envelope.value).Some?
    && WireFields(r) == call.decode(r.envelope.value).value.payload
  }

  /** A signed result is acceptable when every check and the registry's settlement succeed. */
  ghost predicate Acceptable(call: Call, raw: Raw, signingKey: Option<string>) {
    && (signingKey.Some? ==> call.keyRegisters(signingKey.value))
    && call.decode(raw).Some? && call.bridge != Unleased && call.locksHeld
    && Passes(call.checks, call.decode(raw).value, []) && call.settles != Some(false)
  }

  /** A payload that equals the chat fields has no room for an order to act. */
  lemma {:induction false} BoundOrdersNothing(call: Call, r: JobResult)
    requires Bound(call, r)
    ensures !Orders(call.decode(r.envelope.value).value.payload)
  {
    assert forall k :: 0 <= k < |SIDE_EFFECTS| ==> SIDE_EFFECTS[k] !in WireFields(r);
  }

  // ---------------------------------------------------------------- emitting

  function Concat(texts: seq<string>): string {
    if texts == [] then "" else Concat(texts[..|texts| - 1]) + texts[|texts| - 1]
  }

  /** Emit the buffered deltas if they add up to the accepted content, and the content itself otherwise. */
  method EmitStream(tokens: seq<string>, content: string) returns (emitted: seq<string>)
    ensures Concat(emitted) == content
    ensures Concat(tokens) == content && tokens != [] ==> emitted == tokens
  {
    emitted := [];
    if tokens == [] || Concat(tokens) != content {
      if content != "" {
        emitted := [content];
        assert Concat([content][..0]) == "";
      }
    } else {
      for k := 0 to |tokens|
        invariant emitted == tokens[..k]
      {
        emitted := emitted + [tokens[k]];
      }
      assert tokens[..|tokens|] == tokens;
    }
  }

  // ---------------------------------------------------------------- what gets through

  ghost predicate DeliverableLegacy(call: Call, body: ChatBody) {
    && body.ok && body.result.Some? && Bound(call, body.result.value)
    && Acceptable(call, body.result.value.envelope.value, body.signingKey)
    && Identifies(call.ticket, body.result.value) && body.result.value.status == Ok
  }

  /** A reply is delivered exactly for a complete, successful, own, bound and acceptable result. */
  ghost predicate Deliverable(call: Call, status: nat, c: Collected) {
    if c.legacy.Some? then DeliverableLegacy(call, c.legacy.value)
    else
      && status == 200 && c.ok && c.result.Some? && Identifies(call.ticket, c.result.value) && !call.revoked
      && c.result.value.status == Ok && Bound(call, c.result.value)
      && Acceptable(call, c.result.value.envelope.value, c.signingKey)
  }

  ghost predicate HasChosen(c: Collected) {
    if c.legacy.Some? then c.legacy.value.result.Some? else c.result.Some?
  }

  ghost function Chosen(c: Collected): JobResult
    requires HasChosen(c)
  {
    if c.legacy.Some? then c.legacy.value.result.value else c.result.value
  }

  /** The text a reply carries is the content of the message in the signed and accepted payload. */
  ghost predicate SignedText(call: Call, raw: Raw, signingKey: Option<string>, text: string) {
    && Acceptable(call, raw, signingKey) && call.decode(raw).value.payload.Keys >= {"message"}
    && call.decode(raw).value.payload["message"].MessageValue?
    && call.decode(raw).value.payload["message"].message.content == text
  }

  /** The signing key that came with the chosen result. */
  ghost function ChosenKey(c: Collected): Option<string> {
    if c.legacy.Some? then c.legacy.value.signingKey else c.signingKey
  }

  /** The result's own envelope is the one accepted, and its payload carries the content delivered. */
  lemma {:induction false} DeliverableIsSigned(call: Call, status: nat, c: Collected)
    requires Deliverable(call, status, c)
    ensures Chosen(c).envelope.Some?
            && SignedText(call, Chosen(c).envelope.value, ChosenKey(c), Chosen(c).message.content)
  {
    hide Passes;
    assert WireFields(Chosen(c))["message"] == MessageValue(Chosen(c).message);
  }

  // ---------------------------------------------------------------- the two records of a decision

  /** A decision is reached once the key registers, the envelope decodes, a lease is held and the locks are. */
  predicate Decides(call: Call, raw: Raw, signingKey: Option<string>) {
    && (signingKey.Some? ==> call.keyRegisters(signingKey.value))
    && call.decode(raw).Some? && call.bridge != Unleased && call.locksHeld
  }

  /** What the decision writes to memory. */
  function InMemory(call: Call, e: Envelope): Record {
    Record(e.resultId, e.key, Outcome(call.checks, e, []), Audited(call.checks, e))
  }

  /** What the decision sends to durable storage, after the registry had its say. */
  function Durable(call: Call, e: Envelope): Record {
    var d := Outcome(call.checks, e, []);
    if d == Accepted && call.settles == Some(false) then Record(e.resultId, e.key, RejectedStaleAttempt, true)
    else Record(e.resultId, e.key, d, AuditOnly(d))
  }

  predicate Known(s: Store, r: Record) { r.resultId in s.byResult || r.key in s.byKey }

  /**
   After a decision the receipt in memory has the durable disposition: for a result known by its id or key, exactly
   if the receipt from before had it; for a new one, exactly if the registry did not refuse a result that passed.
   */
  lemma {:induction false} RecordsAgree(s: Store, call: Call, e: Envelope)
    ensures var r := InMemory(call, e);
            Receipt(Recorded(s, r), r).disposition == Durable(call, e).disposition <==>
            if Known(s, r) then Receipt(s, r).disposition == Durable(call, e).disposition
            else !(Passes(call.checks, e, []) && call.settles == Some(false))
  {
    hide Passes, Outcome;
    AcceptedIffPasses(call.checks, e, []);
  }

  /** A rejection remembered under the result's id stays in memory while a later acceptance is durable. */
  lemma {:induction false} RememberedRejectionStays(s: Store, call: Call, raw: Raw, signingKey: Option<string>)
    requires Acceptable(call, raw, signingKey)
    requires call.decode(raw).value.resultId in s.byResult
             && s.byResult[call.decode(raw).value.resultId].disposition == RejectedPolicy
    ensures var e := call.decode(raw).value; var r := InMemory(call, e);
            Durable(call, e).disposition == Accepted && Receipt(Recorded(s, r), r).disposition == RejectedPolicy
  {
    hide Passes, Outcome;
    AcceptedIffPasses(call.checks, call.decode(raw).value, []);
  }

  class Provider {
    const memory: Dispositions
    const persists: bool
    /** What was sent to durable storage, in order. */
    var durable: seq<Record>

    constructor (persists: bool)
      ensures durable == [] && fresh(memory)
    {
      memory := new Dispositions();
      this.persists := persists;
      durable := [];
    }

    /** Accept a signed result: settle with the registry first, then send the disposition to durable storage. */
    method AcceptSigned(call: Call, raw: Raw, signingKey: Option<string>) returns (ok: bool, decided: Option<Record>)
      modifies this, memory
      ensures ok <==> Acceptable(call, raw, signingKey)
      ensures ok <==> decided.Some? && decided.value.disposition == Accepted
      ensures durable == old(durable) + if persists && decided.Some? then [decided.value] else []
      ensures decided == if Decides(call, raw, signingKey) then Some(Durable(call, call.decode(raw).value)) else None
      ensures memory.store ==
              if Decides(call, raw, signingKey) then Recorded(old(memory.store), InMemory(call, call.decode(raw).value))
              else old(memory.store)
    {
      hide Passes, Recorded, Outcome, Audited;
      ok, decided := false, None;
      if signingKey.Some? && !call.keyRegisters(signingKey.value) {
        return;
      }
      var envelope := call.decode(raw);
      if envelope.None? || call.bridge == Unleased || !call.locksHeld {
        return;
      }
      var e := envelope.value;
      var disposition := memory.Accept(call.checks, e, []);
      var record := Record(e.resultId, e.key, disposition, AuditOnly(disposition));
      if disposition == Accepted && call.settles == Some(false) {
        record := record.(disposition := RejectedStaleAttempt, auditOnly := true);
      }
      if persists {
        durable := durable + [record];
      }
      ok, decided := record.disposition == Accepted, Some(record);
    }

    /** Finish a request: accept what was collected and only then emit its text. */
    method FinishChat(call: Call, status: nat, c: Collected)
      returns (reply: Option<Message>, emitted: seq<string>, ghost decided: Option<Record>)
      modifies this, memory
      ensures reply.Some? <==> Deliverable(call, status, c)
      ensures reply.Some? ==> HasChosen(c) && reply.value == Chosen(c).message && Concat(emitted) == reply.value.content
      ensures reply.None? ==> emitted == []
      ensures reply.Some? ==> decided.Some? && decided.value.disposition == Accepted
      ensures durable == old(durable) + if persists && decided.Some? then [decided.value] else []
    {
      hide Acceptable, Bound;
      reply, emitted, decided := None, [], None;
      if c.legacy.Some? {
        reply, emitted, decided := FinishLegacy(call, c.legacy.value);
        return;
      }
      if status != 200 || !c.ok || c.result.None? {
        return;
      }
      var r := c.result.value;
      if !Identifies(call.ticket, r) || call.revoked || r.status != Ok || !Bound(call, r) {
        return;
      }
      var ok;
      assert r.envelope.Some? by { BoundHasEnvelope(call, r); }
      ok, decided := AcceptSigned(call, r.envelope.value, c.signingKey);
      if ok {
        emitted := EmitStream(c.tokens, r.message.content);
        reply := Some(r.message);
      }
    }

    method FinishLegacy(call: Call, body: ChatBody)
      returns (reply: Option<Message>, emitted: seq<string>, ghost decided: Option<Record>)
      modifies this, memory
      ensures reply.Some? <==> DeliverableLegacy(call, body)
      ensures reply.Some? ==> reply.value == body.result.value.message && Concat(emitted) == reply.value.content
      ensures reply.None? ==> emitted == []
      ensures reply.Some? ==> decided.Some? && decided.value.disposition == Accepted
      ensures durable == old(durable) + if persists && decided.Some? then [decided.value] else []
    {
      hide Acceptable, Bound;
      reply, emitted, decided := None, [], None;
      if !body.ok || body.result.None? || !Bound(call, body.result.value) {
        return;
      }
      var r := body.result.value;
      assert r.envelope.Some? by { BoundHasEnvelope(call, r); }
      var ok;
      ok, decided := AcceptSigned(call, r.envelope.value, body.signingKey);
      if !ok || !Identifies(call.ticket, r) || r.status != Ok {
        return;
      }
      if r.message.content != "" {
        emitted := [r.message.content];
      }
      reply := Some(r.message);
    }
  }

  /** The whole request: collect the lines, refuse early where the worker or the lease failed, then finish. */
  method Chat(p: Provider, call: Call, typed: bool, leaseLost: bool, status: nat, lines: seq<Line>)
    returns (reply: Option<Message>, emitted: seq<string>, ghost decided: Option<Record>)
    modifies p, p.memory
    ensures reply.None? ==> emitted == []
    ensures reply.Some? <==>
            !AnyBad(call.ticket, lines) && !(typed && (status in {404, 405, 501} || leaseLost))
            && Deliverable(call, status, Gathered(lines))
    ensures reply.Some? ==> HasChosen(Gathered(lines)) && reply.value == Chosen(Gathered(lines)).message
    ensures reply.Some? ==> Concat(emitted) == reply.value.content
    ensures reply.Some? ==> var c := Gathered(lines);
                            Chosen(c).envelope.Some?
                            && SignedText(call, Chosen(c).envelope.value, ChosenKey(c), Concat(emitted))
    ensures reply.Some? ==> decided.Some? && decided.value.disposition == Accepted
    ensures p.durable == old(p.durable) + if p.persists && decided.Some? then [decided.value] else []
  {
    hide Deliverable, Gathered, AnyBad, SignedText;
    reply, emitted, decided := None, [], None;
    var c := CollectLines(call.ticket, lines);
    if c.None? || (typed && (status == 404 || status == 501 || status == 405)) || (typed && leaseLost) {
      return;
    }
    reply, emitted, decided := p.FinishChat(call, status, c.value);
    if reply.Some? {
      DeliverableIsSigned(call, status, c.value);
    }
  }

  lemma {:induction false} BoundHasEnvelope(call: Call, r: JobResult)
    requires Bound(call, r)
    ensures r.envelope.Some?
  {
  }
}
