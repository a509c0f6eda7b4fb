/** Accepting signed remote results: quarantine, verification, and the disposition that is kept. */
module FabricAccept {
  import opened Common

  datatype Disposition =
    | Accepted | Quarantined | RejectedInvalidSignature | RejectedIdentityMismatch | RejectedRevokedWorker
    | RejectedStaleAttempt | RejectedCanceled | RejectedDigestMismatch | RejectedSchema | RejectedPolicy
    | RejectedVerification | RejectedOversized | RejectedPathUnsafe | RejectedExecutablePayload | Superseded

  type Rejection = d: Disposition | d != Accepted witness RejectedSchema

  datatype Status = Ok | Preempted | Failed | Canceled
  datatype Message = Message(content: string, toolCalls: nat)
  datatype Value =
    | MessageValue(message: Message) | UsageValue(usage: nat) | StatusValue(status: Status)
    | ErrorValue(error: Option<string>) | OtherValue(text: string)

  datatype Artifact = Artifact(id: Id, size: nat, digest: string)
  datatype Envelope = Envelope(resultId: Id, key: Id, payload: map<string, Value>, artifacts: seq<Artifact>)

  /** What the protocol crate decides, as any functions of their inputs. */
  datatype Checks = Checks(
    validate: Envelope -> Option<Disposition>,
    verify: Envelope -> Disposition,
    sha: Bytes -> string,
    inspect: (Artifact, Bytes) -> Option<Rejection>,
    maxSize: nat)

  // ---------------------------------------------------------------- dispositions are recorded once

  datatype Record = Record(resultId: Id, key: Id, disposition: Disposition, auditOnly: bool)
  datatype Store = Store(byResult: map<Id, Record>, byKey: map<Id, Record>)

  function Receipt(s: Store, r: Record): Record {
    if r.resultId in s.byResult then s.byResult[r.resultId] else if r.key in s.byKey then s.byKey[r.key] else r
  }

  function Recorded(s: Store, r: Record): Store {
    if r.resultId in s.byResult || r.key in s.byKey then s
    else Store(s.byResult[r.resultId := r], s.byKey[r.key := r])
  }

  ghost predicate Extends(a: Store, b: Store) {
    && (forall k :: k in a.byResult ==> k in b.byResult && b.byResult[k] == a.byResult[k])
    && (forall k :: k in a.byKey ==> k in b.byKey && b.byKey[k] == a.byKey[k])
  }

  /** Whatever else is recorded meanwhile, delivering the result again returns the first receipt. */
  ghost predicate ReceiptStays(s: Store, first: Record) {
    forall more: seq<Record> :: Receipt(RecordedAll(Recorded(s, first), more), first) == Receipt(s, first)
  }

  /**
   That holds exactly when the result is known by its own id or its key is new; a reused key under a new id may get
   another receipt later.
   */
  lemma {:induction false} DuplicatesGetFirstReceipt(s: Store, first: Record)
    ensures ReceiptStays(s, first) <==> first.resultId in s.byResult || first.key !in s.byKey
  {
    if first.resultId in s.byResult || first.key !in s.byKey {
      forall more: seq<Record>
        ensures Receipt(RecordedAll(Recorded(s, first), more), first) == Receipt(s, first)
      {
        RecordedAllExtends(Recorded(s, first), more);
      }
    } else {
      var key := FreshId(s.byKey.Keys);
      var other := Record(first.resultId, key,
                          if s.byKey[first.key].disposition == Accepted then Superseded else Accepted, false);
      assert RecordedAll(s, [other]) == Recorded(s, other) by { assert [other][..0] == []; }
      assert Receipt(RecordedAll(Recorded(s, first), [other]), first) == other;
    }
  }

  lemma {:induction false} FreshId(ids: set<Id>) returns (unused: Id)
    ensures unused !in ids
  {
    var n := LongerThan(ids);
    unused := seq(n, _ => 'x');
  }

  lemma {:induction false} LongerThan(ids: set<Id>) returns (n: nat)
    ensures forall id :: id in ids ==> |id| < n
    decreases ids
  {
    if ids == {} {
      n := 0;
    } else {
      var one :| one in ids;
      var m := LongerThan(ids - {one});
      n := if m <= |one| then |one| + 1 else m;
    }
  }

  /** Kept records are never changed by later ones. */
  function RecordedAll(s: Store, records: seq<Record>): Store {
    if records == [] then s else Recorded(RecordedAll(s, records[..|records| - 1]), records[|records| - 1])
  }

  lemma {:induction false} RecordedAllExtends(s: Store, records: seq<Record>)
    ensures Extends(s, RecordedAll(s, records))
  {
    if records != [] {
      RecordedAllExtends(s, records[..|records| - 1]);
    }
  }

  /** Under a key once recorded, results not known by their id get that record, whatever else is recorded meanwhile. */
  lemma {:induction false} KeyGetsOneReceipt(s: Store, first: Record, more: seq<Record>, again: Record)
    requires first.resultId !in s.byResult && first.key !in s.byKey && again.key == first.key
    requires again.resultId !in RecordedAll(Recorded(s, first), more).byResult
    ensures Receipt(RecordedAll(Recorded(s, first), more), again) == first
  {
    RecordedAllExtends(Recorded(s, first), more);
  }

  // ---------------------------------------------------------------- the acceptance pipeline

  /** `ResultDisposition::is_terminal_reject`, engine/core/tetonic-domain/src/result_integrity.rs:42-45. */
  predicate IsTerminalReject(d: Disposition) { d != Accepted && d != Quarantined }

  predicate AuditOnly(d: Disposition) { d == RejectedStaleAttempt || d == Superseded || d == RejectedCanceled }

  const SIDE_EFFECTS := ["issue_capability", "invoke_tool", "run_process", "approve_action"]

  predicate Orders(payload: map<string, Value>) {
    exists k :: 0 <= k < |SIDE_EFFECTS| && SIDE_EFFECTS[k] in payload
  }

  function MatchesFor(id: Id, received: seq<(Id, Bytes)>): seq<Bytes> {
    if received == [] then []
    else
      var last := received[|received| - 1];
      MatchesFor(id, received[..|received| - 1]) + if last.0 == id then [last.1] else []
  }

  /**
   What is wrong with an artifact, if anything: one payload, the signed size within the limit, the signed digest, a
   clean inspection.
   */
  function Fault(c: Checks, a: Artifact, received: seq<(Id, Bytes)>): Option<Rejection> {
    var found := MatchesFor(a.id, received);
    if |found| != 1 then Some(RejectedDigestMismatch)
    else if |found[0]| != a.size || |found[0]| > (if c.maxSize < 1 then 1 else c.maxSize) then Some(RejectedOversized)
    else if c.sha(found[0]) != a.digest then Some(RejectedDigestMismatch)
    else c.inspect(a, found[0])
  }

  /** The one payload received under this id. */
  ghost predicate IsOnly(id: Id, received: seq<(Id, Bytes)>, k: int) {
    0 <= k < |received| && received[k].0 == id && forall j :: 0 <= j < |received| && received[j].0 == id ==> j == k
  }

  /** An artifact with exactly one payload, of the signed size within the limit, the signed digest and a clean look. */
  ghost predicate IsSound(c: Checks, a: Artifact, received: seq<(Id, Bytes)>) {
    exists k :: IsOnly(a.id, received, k) && |received[k].1| == a.size && (a.size <= 1 || a.size <= c.maxSize)
      && c.sha(received[k].1) == a.digest && c.inspect(a, received[k].1).None?
  }

  ghost predicate Sound(c: Checks, e: Envelope, received: seq<(Id, Bytes)>) {
    forall k :: 0 <= k < |e.artifacts| ==> IsSound(c, e.artifacts[k], received)
  }

  lemma {:induction false} NoMatch(id: Id, received: seq<(Id, Bytes)>)
    ensures MatchesFor(id, received) == [] <==> forall j :: 0 <= j < |received| ==> received[j].0 != id
  {
    if received != [] {
      var n := |received| - 1;
      NoMatch(id, received[..n]);
      assert forall j :: 0 <= j < n ==> received[..n][j] == received[j];
    }
  }

  lemma {:induction false} OnlyMatch(id: Id, received: seq<(Id, Bytes)>, k: nat)
    requires IsOnly(id, received, k)
    ensures MatchesFor(id, received) == [received[k].1]
  {
    var n := |received| - 1;
    assert forall j :: 0 <= j < n ==> received[..n][j] == received[j];
    if k == n {
      NoMatch(id, received[..n]);
    } else {
      assert IsOnly(id, received[..n], k);
      OnlyMatch(id, received[..n], k);
    }
  }

  lemma {:induction false} MatchIsOnly(id: Id, received: seq<(Id, Bytes)>) returns (k: nat)
    requires |MatchesFor(id, received)| == 1
    ensures IsOnly(id, received, k)
  {
    var n := |received| - 1;
    assert forall j :: 0 <= j < n ==> received[..n][j] == received[j];
    if received[n].0 == id {
      NoMatch(id, received[..n]);
      k := n;
    } else {
      k := MatchIsOnly(id, received[..n]);
    }
  }

  /** What is found wrong with an artifact, case by case. */
  lemma {:induction false} FaultIs(c: Checks, a: Artifact, received: seq<(Id, Bytes)>)
    ensures (forall k :: !IsOnly(a.id, received, k)) ==> Fault(c, a, received) == Some(RejectedDigestMismatch)
    ensures forall k :: IsOnly(a.id, received, k) ==>
              var p := received[k].1;
              Fault(c, a, received) ==
                  if |p| != a.size || (a.size > 1 && a.size > c.maxSize) then Some(RejectedOversized)
                  else if c.sha(p) != a.digest then Some(RejectedDigestMismatch)
                  else c.inspect(a, p)
  {
    if |MatchesFor(a.id, received)| == 1 {
      var k := MatchIsOnly(a.id, received);
      OnlyMatch(a.id, received, k);
    } else {
      forall k | IsOnly(a.id, received, k)
        ensures false
      {
        OnlyMatch(a.id, received, k);
      }
    }
  }

  /** Exactly the sound artifacts have no fault. */
  lemma {:induction false} SoundIffNoFault(c: Checks, a: Artifact, received: seq<(Id, Bytes)>)
    ensures Fault(c, a, received).None? <==> IsSound(c, a, received)
  {
    FaultIs(c, a, received);
    hide Fault, IsOnly;
    if Fault(c, a, received).None? {
      var k :| IsOnly(a.id, received, k);
      assert IsSound(c, a, received) by { OnlyInRange(a.id, received, k); }
    }
  }

  lemma {:induction false} OnlyInRange(id: Id, received: seq<(Id, Bytes)>, k: int)
    requires IsOnly(id, received, k)
    ensures 0 <= k < |received|
  {
  }

  /** The first artifact that is not sound. */
  ghost predicate IsFirstUnsound(c: Checks, e: Envelope, received: seq<(Id, Bytes)>, k: int) {
    && 0 <= k < |e.artifacts| && !IsSound(c, e.artifacts[k], received)
    && forall j :: 0 <= j < k ==> IsSound(c, e.artifacts[j], received)
  }

  /**
   A result passes when it is validly bound, every artifact is sound, policy verifies it and it orders nothing done.
   */
  ghost predicate Passes(c: Checks, e: Envelope, received: seq<(Id, Bytes)>) {
    && c.validate(e).Some? && !IsTerminalReject(c.validate(e).value)
    && Sound(c, e, received) && c.verify(e) == Accepted && !Orders(e.payload)
  }

  /** The fault of the first unsound artifact. */
  function FirstFault(c: Checks, artifacts: seq<Artifact>, received: seq<(Id, Bytes)>): (fault: Option<Rejection>)
    ensures fault.None? <==> forall k :: 0 <= k < |artifacts| ==> Fault(c, artifacts[k], received).None?
  {
    if artifacts == [] then None
    else
      var earlier := FirstFault(c, artifacts[..|artifacts| - 1], received);
      if earlier.Some? then earlier else Fault(c, artifacts[|artifacts| - 1], received)
  }

  /** What becomes of a result: the first check that stands in its way decides. */
  function Outcome(c: Checks, e: Envelope, received: seq<(Id, Bytes)>): Disposition {
    if c.validate(e).None? then RejectedSchema
    else if IsTerminalReject(c.validate(e).value) then c.validate(e).value
    else if FirstFault(c, e.artifacts, received).Some? then FirstFault(c, e.artifacts, received).value
    else if c.verify(e) != Accepted then c.verify(e)
    else if Orders(e.payload) then RejectedPolicy
    else Accepted
  }

  /** Results that never validated, and stale ones, are kept for audit only. */
  predicate Audited(c: Checks, e: Envelope) {
    c.validate(e).None? || (IsTerminalReject(c.validate(e).value) && AuditOnly(c.validate(e).value))
  }

  /** The outcome is acceptance exactly for the results that pass. */
  lemma {:induction false} AcceptedIffPasses(c: Checks, e: Envelope, received: seq<(Id, Bytes)>)
    ensures Outcome(c, e, received) == Accepted <==> Passes(c, e, received)
  {
    hide Fault, IsSound;
    forall k | 0 <= k < |e.artifacts|
      ensures Fault(c, e.artifacts[k], received).None? <==> IsSound(c, e.artifacts[k], received)
    {
      SoundIffNoFault(c, e.artifacts[k], received);
    }
  }

  /** Check every artifact before any use; the first unsound one decides. */
  method Quarantine(c: Checks, e: Envelope, received: seq<(Id, Bytes)>) returns (fault: Option<Rejection>)
    ensures fault.None? <==> Sound(c, e, received)
    ensures fault == FirstFault(c, e.artifacts, received)
    ensures fault.Some? ==>
              exists k :: IsFirstUnsound(c, e, received, k) && fault == Fault(c, e.artifacts[k], received)
  {
    hide Fault, IsSound;
    fault := None;
    for k := 0 to |e.artifacts|
      invariant fault.None? && fault == FirstFault(c, e.artifacts[..k], received)
      invariant forall j :: 0 <= j < k ==> IsSound(c, e.artifacts[j], received)
    {
      assert e.artifacts[..k + 1][..k] == e.artifacts[..k];
      SoundIffNoFault(c, e.artifacts[k], received);
      fault := Fault(c, e.artifacts[k], received);
      if fault.Some? {
        FaultStays(c, e.artifacts, received, k + 1);
        assert IsFirstUnsound(c, e, received, k);
        return;
      }
    }
    assert e.artifacts[..|e.artifacts|] == e.artifacts;
  }

  lemma {:induction false} FaultStays(c: Checks, artifacts: seq<Artifact>, received: seq<(Id, Bytes)>, k: nat)
    requires k <= |artifacts| && FirstFault(c, artifacts[..k], received).Some?
    ensures FirstFault(c, artifacts, received) == FirstFault(c, artifacts[..k], received)
  {
    hide Fault;
    if k < |artifacts| {
      assert artifacts[..|artifacts| - 1][..k] == artifacts[..k];
      FaultStays(c, artifacts[..|artifacts| - 1], received, k);
    } else {
      assert artifacts[..k] == artifacts;
    }
  }

  /** The coordinator's memory of results from one worker. */
  class Dispositions {
    var store: Store
    var signals: seq<Disposition>

    constructor ()
      ensures store == Store(map[], map[]) && signals == []
    {
      store, signals := Store(map[], map[]), [];
    }

    method Keep(e: Envelope, d: Disposition, auditOnly: bool) returns (receipt: Record)
      modifies this`store
      ensures store == Recorded(old(store), Record(e.resultId, e.key, d, auditOnly))
      ensures receipt == Receipt(old(store), Record(e.resultId, e.key, d, auditOnly))
    {
      var r := Record(e.resultId, e.key, d, auditOnly);
      if e.resultId in store.byResult {
        return store.byResult[e.resultId];
      }
      if e.key in store.byKey {
        return store.byKey[e.key];
      }
      store := Store(store.byResult[e.resultId := r], store.byKey[e.key := r]);
      return r;
    }

    method Reject(e: Envelope, d: Rejection, auditOnly: bool) returns (outcome: Disposition)
      modifies this
      ensures outcome == d && signals == old(signals) + [d]
      ensures store == Recorded(old(store), Record(e.resultId, e.key, d, auditOnly))
    {
      signals := signals + [d];
      var _ := Keep(e, d, auditOnly);
      return d;
    }

    /** Decide on a signed result. */
    method Accept(c: Checks, e: Envelope, received: seq<(Id, Bytes)>) returns (outcome: Disposition)
      modifies this
      ensures outcome == Outcome(c, e, received) && (outcome == Accepted <==> Passes(c, e, received))
      ensures signals == if outcome == Accepted then old(signals) else old(signals) + [outcome]
      ensures store == Recorded(old(store), Record(e.resultId, e.key, outcome, Audited(c, e)))
    {
      hide Fault, MatchesFor, Recorded, FirstFault, Passes;
      AcceptedIffPasses(c, e, received);
      var validated := c.validate(e);
      if validated.None? {
        outcome := Reject(e, RejectedSchema, true);
        return;
      }
      if IsTerminalReject(validated.value) {
        outcome := Reject(e, validated.value, AuditOnly(validated.value));
        return;
      }
      var fault := Quarantine(c, e, received);
      if fault.Some? {
        outcome := Reject(e, fault.value, false);
        return;
      }
      var verified := c.verify(e);
      if verified != Accepted {
        outcome := Reject(e, verified, false);
        return;
      }
      if Orders(e.payload) {
        outcome := Reject(e, RejectedPolicy, false);
        return;
      }
      var _ := Keep(e, Accepted, false);
      outcome := Accepted;
    }
  }
}
