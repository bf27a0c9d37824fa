/**
 * From the audit events back to an intent's life: every status change is audited with its `from` and
 * `to` states, and the stored events of one intent, read back, are its history.
 */
module AuditReplay {
  import opened Prelude
  import opened IntentStates
  import opened Lifecycle
  import opened LifecycleGuarantees
  import Json = CanonicalJson
  import Audit = AuditTrail

  // ----- A status change as an audit event -----

  function StatusName(s: Status): string {
    match s
    case Draft => "draft"
    case Proposed => "proposed"
    case Simulated => "simulated"
    case PendingApproval => "pending_approval"
    case Approved => "approved"
    case Rejected => "rejected"
    case Queued => "queued"
    case Executing => "executing"
    case Succeeded => "succeeded"
    case Failed => "failed"
    case RollbackPending => "rollback_pending"
    case RolledBack => "rolled_back"
    case RollbackFailed => "rollback_failed"
  }

  /** The state with this name, if there is one. */
  ghost function StatusNamed(name: string): Option<Status> {
    if exists s :: StatusName(s) == name then
      var s :| StatusName(s) == name;
      Some(s)
    else None
  }

  lemma {:induction false} NamesDiffer(s: Status, t: Status)
    requires StatusName(s) == StatusName(t)
    ensures s == t
  {
    var a, b := StatusName(s), StatusName(t);
    assert |a| == |b| && a[0] == b[0] && a[1] == b[1];
  }

  lemma {:induction false} NamesAreRead(s: Status)
    ensures StatusNamed(StatusName(s)) == Some(s)
  {
    NamesDiffer(StatusNamed(StatusName(s)).value, s);
  }

  datatype Actor = Actor(kind: string, id: string, workspaceId: string)

  /** What the guarded status write audits. */
  function ChangeInput(intentId: string, actor: Actor, c: Change): Audit.Input {
    Audit.Input("intent." + StatusName(c.to), "intent", intentId, actor.kind, actor.id, actor.workspaceId,
                Some(Json.Obj([Json.Entry("from", Json.Str(StatusName(c.from))), Json.Entry("to", Json.Str(StatusName(c.to)))])))
  }

  function Field(entries: seq<Json.Entry>, key: string): Option<Json.Json> {
    if entries == [] then None
    else if entries[0].key == key then Some(entries[0].value)
    else Field(entries[1..], key)
  }

  ghost function StatusIn(value: Option<Json.Json>): Option<Status> {
    if value.Some? && value.value.Str? then StatusNamed(value.value.s) else None
  }

  /** The status change of this intent that an event tells of, if it tells of one. */
  ghost function ChangeIn(input: Audit.Input, intentId: string): Option<Change> {
    if input.entityType != "intent" || input.entityId != intentId then None
    else if input.metadata.None? || !input.metadata.value.Obj? then None
    else
      var from := StatusIn(Field(input.metadata.value.entries, "from"));
      var to := StatusIn(Field(input.metadata.value.entries, "to"));
      if from.Some? && to.Some? then Some(Change(from.value, to.value)) else None
  }

  /** An audited change is read back by its own intent and by no other. */
  lemma {:induction false} ChangeIsRead(intentId: string, actor: Actor, c: Change, other: string)
    ensures ChangeIn(ChangeInput(intentId, actor, c), other) == if other == intentId then Some(c) else None
    ensures ChangeInput(intentId, actor, c).action == "intent." + StatusName(c.to)
  {
    NamesAreRead(c.from);
    NamesAreRead(c.to);
    assert "from" != "to" by {
      assert |"from"| == 4 && |"to"| == 2;
    }
    var es := ChangeInput(intentId, actor, c).metadata.value.entries;
    assert Field(es, "from") == Some(es[0].value);
    assert Field(es[1..], "to") == Some(es[1].value);
  }

  /** Which change, if any, the input of an event tells of. */
  type Reader = Audit.Input -> Option<Change>

  ghost function ReaderOf(intentId: string): Reader {
    input => ChangeIn(input, intentId)
  }

  // ----- The events of one intent -----

  ghost function ChangesIn(read: Reader, events: seq<Audit.Event>): seq<Change> {
    if events == [] then []
    else
      var c := read(events[|events| - 1].input);
      ChangesIn(read, events[..|events| - 1]) + (if c.Some? then [c.value] else [])
  }

  /** The changes among the emissions, stored or not. */
  ghost function ChangesSent(read: Reader, ms: seq<Audit.Emission>): seq<Change> {
    if ms == [] then []
    else
      var c := read(ms[|ms| - 1].input);
      ChangesSent(read, ms[..|ms| - 1]) + (if c.Some? then [c.value] else [])
  }

  /** None of the changes was lost; other emissions may have been. */
  ghost predicate ChangesStored(read: Reader, ms: seq<Audit.Emission>) {
    forall i :: 0 <= i < |ms| && read(ms[i].input).Some? ==> ms[i].stored
  }

  lemma {:induction false} StoredChangesAreRead(seal: Audit.Seal, read: Reader, ms: seq<Audit.Emission>)
    ensures |ChangesIn(read, Audit.EmitAll(seal, ms))| <= |ChangesSent(read, ms)|
    ensures ChangesIn(read, Audit.EmitAll(seal, ms)) == ChangesSent(read, ms) <==> ChangesStored(read, ms)
    ensures |ChangesIn(read, Audit.EmitAll(seal, ms))| == |ChangesSent(read, ms)| ==> ChangesStored(read, ms)
  {
    if ms != [] {
      var before, m := ms[..|ms| - 1], ms[|ms| - 1];
      StoredChangesAreRead(seal, read, before);
      var events := Audit.EmitAll(seal, before);
      var e := Audit.NewEvent(seal, events, m);
      assert (events + [e])[..|events|] == events;
      assert ChangesStored(read, ms) <==> ChangesStored(read, before) && (read(m.input).Some? ==> m.stored) by {
        assert forall i :: 0 <= i < |before| ==> before[i] == ms[i];
      }
    }
  }

  // ----- Everything else that is emitted -----

  /** The metadata keys of the services' other events about an intent. */
  const OTHER_KEYS := [
    "title", "action",
    "riskLevel", "reversibility", "estimatedImpact",
    "approvalRequestId", "requiredCount", "approvalMode", "stages", "policyResult",
    "decision", "rationale", "stageIndex", "stageLabel",
    "fromStageIndex", "toStageIndex",
    "executionJobId", "duration", "error", "attempts",
    "rollbackAttemptId", "reason"]

  /** Another entity's event, or one without a `from` in its metadata. */
  predicate TellsNoChange(input: Audit.Input, intentId: string) {
    || input.entityType != "intent"
    || input.entityId != intentId
    || input.metadata.None?
    || !input.metadata.value.Obj?
    || forall i :: 0 <= i < |input.metadata.value.entries| ==> input.metadata.value.entries[i].key != "from"
  }

  lemma {:induction false} MissingField(entries: seq<Json.Entry>, key: string)
    requires forall i :: 0 <= i < |entries| ==> entries[i].key != key
    ensures Field(entries, key) == None
  {
    if entries != [] {
      MissingField(entries[1..], key);
    }
  }

  lemma {:induction false} WithoutFromNoChange(input: Audit.Input, intentId: string)
    requires TellsNoChange(input, intentId)
    ensures ReaderOf(intentId)(input) == None
  {
    if input.metadata.Some? && input.metadata.value.Obj?
       && forall i :: 0 <= i < |input.metadata.value.entries| ==> input.metadata.value.entries[i].key != "from" {
      MissingField(input.metadata.value.entries, "from");
    }
  }

  /** None of the other events about an intent is taken for a status change. */
  lemma {:induction false} ServiceEventsTellNoChange(input: Audit.Input, intentId: string)
    requires input.metadata.Some? && input.metadata.value.Obj?
    requires forall i :: 0 <= i < |input.metadata.value.entries| ==> input.metadata.value.entries[i].key in OTHER_KEYS
    ensures TellsNoChange(input, intentId)
  {
    assert |"from"| == 4;
    assert forall k :: 0 <= k < |OTHER_KEYS| ==> |OTHER_KEYS[k]| > 4;
  }

  /**
   * The emissions hold the intent's changes, each once and in order, by whatever actors, among any
   * number of emissions that tell of no change of it.
   */
  predicate Narrates(ms: seq<Audit.Emission>, intentId: string, trail: seq<Change>)
    decreases |ms|
  {
    if ms == [] then trail == []
    else
      var input := ms[|ms| - 1].input;
      || (TellsNoChange(input, intentId) && Narrates(ms[..|ms| - 1], intentId, trail))
      || (&& trail != []
          && input == ChangeInput(intentId, ActorOf(input), trail[|trail| - 1])
          && Narrates(ms[..|ms| - 1], intentId, trail[..|trail| - 1]))
  }

  function ActorOf(input: Audit.Input): Actor {
    Actor(input.actorType, input.actorId, input.workspaceId)
  }

  /** The same as the reader sees it. */
  ghost predicate Reads(read: Reader, ms: seq<Audit.Emission>, trail: seq<Change>)
    decreases |ms|
  {
    if ms == [] then trail == []
    else
      var c := read(ms[|ms| - 1].input);
      || (c.None? && Reads(read, ms[..|ms| - 1], trail))
      || (trail != [] && c == Some(trail[|trail| - 1]) && Reads(read, ms[..|ms| - 1], trail[..|trail| - 1]))
  }

  lemma {:induction false} ReadsAreSent(read: Reader, ms: seq<Audit.Emission>, trail: seq<Change>)
    requires Reads(read, ms, trail)
    ensures ChangesSent(read, ms) == trail
    decreases |ms|
  {
    if ms != [] {
      if read(ms[|ms| - 1].input).None? {
        ReadsAreSent(read, ms[..|ms| - 1], trail);
      } else {
        ReadsAreSent(read, ms[..|ms| - 1], trail[..|trail| - 1]);
        assert trail == trail[..|trail| - 1] + [trail[|trail| - 1]];
      }
    }
  }

  /** The last emission is read as what it is. */
  lemma {:induction false} LastIsRead(input: Audit.Input, intentId: string, c: Change)
    ensures TellsNoChange(input, intentId) ==> ReaderOf(intentId)(input) == None
    ensures input == ChangeInput(intentId, ActorOf(input), c) ==> ReaderOf(intentId)(input) == Some(c)
  {
    if TellsNoChange(input, intentId) {
      WithoutFromNoChange(input, intentId);
    }
    ChangeIsRead(intentId, ActorOf(input), c, intentId);
  }

  lemma {:induction false} NarratedIsRead(ms: seq<Audit.Emission>, intentId: string, trail: seq<Change>)
    requires Narrates(ms, intentId, trail)
    ensures Reads(ReaderOf(intentId), ms, trail)
    decreases |ms|
  {
    if ms != [] {
      var input, before := ms[|ms| - 1].input, ms[..|ms| - 1];
      LastIsRead(input, intentId, if trail == [] then Change(Draft, Draft) else trail[|trail| - 1]);
      if TellsNoChange(input, intentId) && Narrates(before, intentId, trail) {
        NarratedIsRead(before, intentId, trail);
      } else {
        NarratedIsRead(before, intentId, trail[..|trail| - 1]);
      }
    }
  }

  /**
   * An intent's audit events tell its life: whatever else is emitted in between, the changes read
   * from the stored events are the intent's own if and only if none of those emissions failed; and
   * then replaying them is a legal path from `Draft` to its present status.
   */
  lemma {:induction false} EventsReplayTheLife(seal: Audit.Seal, ms: seq<Audit.Emission>, intentId: string, actions: seq<Action>)
    requires Narrates(ms, intentId, Run(FRESH, actions).trail)
    ensures var read := ReaderOf(intentId);
            var changes := ChangesIn(read, Audit.EmitAll(seal, ms));
            && (changes == Run(FRESH, actions).trail <==> ChangesStored(read, ms))
            && (ChangesStored(read, ms) ==> LegalPath(PathOf(changes)) && PathOf(changes)[|changes|] == Run(FRESH, actions).status)
  {
    NarratedIsRead(ms, intentId, Run(FRESH, actions).trail);
    ReadsAreSent(ReaderOf(intentId), ms, Run(FRESH, actions).trail);
    StoredChangesAreRead(seal, ReaderOf(intentId), ms);
    AuditReplaysTheLife(actions);
  }
}
