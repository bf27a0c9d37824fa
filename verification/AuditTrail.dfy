/**
 * The audit trail: each event carries a keyed hash of its canonical payload and the hash of the
 * event before it in its workspace. The keyed hash of a serialized value is the parameter `mac`.
 */
module AuditTrail {
  import opened Prelude
  import opened CanonicalJson

  type Mac = Json -> string

  /** How an event's hash comes from its input, its time and the previous hash. */
  type Seal = (Input, int, Option<string>) -> string

  datatype Input = Input(
    action: string,
    entityType: string,
    entityId: string,
    actorType: string,
    actorId: string,
    workspaceId: string,
    metadata: Option<Json>)

  datatype Event = Event(id: int, input: Input, createdAt: int, previousHash: Option<string>, hash: string)

  /**
   * What is hashed. Metadata that was not supplied has no key at all in the serialized object. The
   * order of the keys here is immaterial: the canonical form sorts them.
   */
  function Payload(input: Input, createdAt: int, previousHash: Option<string>): Json {
    Obj([ Entry("action", Str(input.action)),
          Entry("entityType", Str(input.entityType)),
          Entry("entityId", Str(input.entityId)),
          Entry("actorType", Str(input.actorType)),
          Entry("actorId", Str(input.actorId)),
          Entry("workspaceId", Str(input.workspaceId)),
          Entry("createdAt", Num(createdAt)),
          Entry("previousHash", match previousHash case Some(h) => Str(h) case None => Null) ]
        + (match input.metadata case Some(m) => [Entry("metadata", m)] case None => []))
  }

  const FIELD_NAMES := ["action", "entityType", "entityId", "actorType", "actorId", "workspaceId",
                        "createdAt", "previousHash", "metadata"]

  /** The order tells the field names of an event apart. */
  predicate TellsFieldsApart(leq: Order) {
    forall i, j :: 0 <= i < |FIELD_NAMES| && 0 <= j < |FIELD_NAMES| ==> !Tied(leq, FIELD_NAMES[i], FIELD_NAMES[j])
  }

  function IntegrityHash(leq: Order, mac: Mac, input: Input, createdAt: int, previousHash: Option<string>): string {
    mac(SortValue(leq, Payload(input, createdAt, previousHash)))
  }

  function SealOf(leq: Order, mac: Mac): Seal {
    (input, createdAt, previousHash) => IntegrityHash(leq, mac, input, createdAt, previousHash)
  }

  // ----- Emission -----

  predicate Later(a: Event, b: Event) {
    a.createdAt > b.createdAt || (a.createdAt == b.createdAt && a.id > b.id)
  }

  /** The first event of a workspace in descending `(createdAt, id)` order. */
  function Latest(events: seq<Event>, workspaceId: string): Option<Event> {
    if events == [] then None
    else
      var e := events[|events| - 1];
      var best := Latest(events[..|events| - 1], workspaceId);
      if e.input.workspaceId != workspaceId then best
      else if best.None? || Later(e, best.value) then Some(e)
      else best
  }

  /** `stored`: the transaction commits; otherwise the failure is logged and nothing is written. */
  datatype Emission = Emission(input: Input, now: int, id: int, stored: bool)

  function NewEvent(seal: Seal, events: seq<Event>, m: Emission): Event {
    var previousHash := match Latest(events, m.input.workspaceId) case Some(e) => Some(e.hash) case None => None;
    Event(m.id, m.input, m.now, previousHash, seal(m.input, m.now, previousHash))
  }

  function Emitted(seal: Seal, events: seq<Event>, m: Emission): seq<Event> {
    if m.stored then events + [NewEvent(seal, events, m)] else events
  }

  class AuditLog {
    const seal: Seal
    var events: seq<Event>

    constructor (leq: Order, mac: Mac)
      ensures seal == SealOf(leq, mac) && events == []
    {
      seal, events := SealOf(leq, mac), [];
    }

    /** The caller never learns whether the event was stored. */
    method EmitAuditEvent(m: Emission)
      modifies this`events
      ensures events == Emitted(seal, old(events), m)
    {
      var latest := Latest(events, m.input.workspaceId);
      var previousHash: Option<string> := None;
      if latest.Some? {
        previousHash := Some(latest.value.hash);
      }
      var hash := seal(m.input, m.now, previousHash);
      if !m.stored {
        return;
      }
      events := events + [Event(m.id, m.input, m.now, previousHash, hash)];
    }
  }

  function EmitAll(seal: Seal, ms: seq<Emission>): seq<Event> {
    if ms == [] then [] else Emitted(seal, EmitAll(seal, ms[..|ms| - 1]), ms[|ms| - 1])
  }

  // ----- The chain of one workspace -----

  /** The events of one workspace, in the order they were written. */
  function Project(events: seq<Event>, workspaceId: string): (r: seq<Event>)
    ensures forall e :: e in r ==> e in events && e.input.workspaceId == workspaceId
  {
    if events == [] then []
    else
      var e := events[|events| - 1];
      Project(events[..|events| - 1], workspaceId) + (if e.input.workspaceId == workspaceId then [e] else [])
  }

  function PreviousOf(chain: seq<Event>, k: nat): Option<string>
    requires k < |chain|
  {
    if k == 0 then None else Some(chain[k - 1].hash)
  }

  /** The `k`-th event names its predecessor's hash, the first one none, and carries its own payload's hash. */
  predicate LinkedAt(seal: Seal, chain: seq<Event>, k: nat)
    requires k < |chain|
  {
    && chain[k].previousHash == PreviousOf(chain, k)
    && chain[k].hash == seal(chain[k].input, chain[k].createdAt, chain[k].previousHash)
  }

  predicate Linked(seal: Seal, chain: seq<Event>) {
    forall k {:trigger LinkedAt(seal, chain, k)} :: 0 <= k < |chain| ==> LinkedAt(seal, chain, k)
  }

  predicate Before(a: Emission, b: Emission) {
    a.now < b.now || (a.now == b.now && a.id < b.id)
  }

  /** Emissions one after another, each with a later `(createdAt, id)`. */
  predicate Serial(ms: seq<Emission>) {
    forall i, j :: 0 <= i < j < |ms| ==> Before(ms[i], ms[j])
  }

  /** Every event is an emission of the run. */
  predicate CameFrom(events: seq<Event>, ms: seq<Emission>) {
    forall e :: e in events ==> exists i :: 0 <= i < |ms| && e.id == ms[i].id && e.createdAt == ms[i].now && e.input == ms[i].input
  }

  lemma {:induction false} EventsComeFromEmissions(seal: Seal, ms: seq<Emission>)
    ensures CameFrom(EmitAll(seal, ms), ms)
  {
    if ms != [] {
      var before, m := ms[..|ms| - 1], ms[|ms| - 1];
      EventsComeFromEmissions(seal, before);
      var events := EmitAll(seal, before);
      forall e | e in Emitted(seal, events, m)
        ensures exists i :: 0 <= i < |ms| && e.id == ms[i].id && e.createdAt == ms[i].now && e.input == ms[i].input
      {
        if e in events {
          var i :| 0 <= i < |before| && e.id == before[i].id && e.createdAt == before[i].now && e.input == before[i].input;
          assert ms[i] == before[i];
        } else {
          assert e == NewEvent(seal, events, m) && ms[|ms| - 1] == m;
        }
      }
    }
  }

  /** Every event is earlier than the emission. */
  predicate AllBefore(events: seq<Event>, m: Emission) {
    forall e :: e in events ==> e.createdAt < m.now || (e.createdAt == m.now && e.id < m.id)
  }

  lemma {:induction false} SerialRunsGoForward(seal: Seal, ms: seq<Emission>)
    requires Serial(ms) && ms != []
    ensures AllBefore(EmitAll(seal, ms[..|ms| - 1]), ms[|ms| - 1])
  {
    var before := ms[..|ms| - 1];
    EventsComeFromEmissions(seal, before);
    forall e | e in EmitAll(seal, before)
      ensures e.createdAt < ms[|ms| - 1].now || (e.createdAt == ms[|ms| - 1].now && e.id < ms[|ms| - 1].id)
    {
      var i :| 0 <= i < |before| && e.id == before[i].id && e.createdAt == before[i].now && e.input == before[i].input;
      assert Before(ms[i], ms[|ms| - 1]);
    }
  }

  lemma {:induction false} AppendProjects(events: seq<Event>, e: Event, ws: string)
    ensures Project(events + [e], ws) == Project(events, ws) + (if e.input.workspaceId == ws then [e] else [])
    ensures Latest(events + [e], ws) ==
            if e.input.workspaceId != ws then Latest(events, ws)
            else if Latest(events, ws).None? || Later(e, Latest(events, ws).value) then Some(e)
            else Latest(events, ws)
  {
    assert (events + [e])[..|events|] == events;
  }

  lemma {:induction false} LatestIsMember(events: seq<Event>, ws: string)
    ensures Latest(events, ws).Some? ==> Latest(events, ws).value in events
  {
    if events != [] {
      LatestIsMember(events[..|events| - 1], ws);
    }
  }

  /**
   * The event that the next one is chained to is the workspace's first in descending order of time
   * and, at equal times, of id; there is one as soon as the workspace has any.
   */
  lemma {:induction false} LatestIsFirstInOrder(events: seq<Event>, ws: string)
    ensures Latest(events, ws).None? <==> forall e :: e in events ==> e.input.workspaceId != ws
    ensures Latest(events, ws).Some? ==>
              var latest := Latest(events, ws).value;
              && latest in events && latest.input.workspaceId == ws
              && forall e :: e in events && e.input.workspaceId == ws ==>
                   e.createdAt < latest.createdAt || (e.createdAt == latest.createdAt && e.id <= latest.id)
  {
    if events != [] {
      var before, last := events[..|events| - 1], events[|events| - 1];
      LatestIsFirstInOrder(before, ws);
      assert forall e :: e in events <==> e in before || e == last;
    }
  }

  function LastOf(chain: seq<Event>): Option<Event> {
    if chain == [] then None else Some(chain[|chain| - 1])
  }

  /** The latest event by time is the last one written, in every workspace. */
  ghost predicate InOrder(events: seq<Event>) {
    forall ws {:trigger Latest(events, ws)} {:trigger Project(events, ws)} :: Latest(events, ws) == LastOf(Project(events, ws))
  }

  lemma {:induction false} EmissionKeepsOrder(seal: Seal, events: seq<Event>, m: Emission)
    requires InOrder(events) && AllBefore(events, m)
    ensures InOrder(Emitted(seal, events, m))
  {
    if m.stored {
      var e := NewEvent(seal, events, m);
      forall ws ensures Latest(events + [e], ws) == LastOf(Project(events + [e], ws)) {
        AppendProjects(events, e, ws);
        LatestIsMember(events, ws);
      }
    }
  }

  lemma {:induction false} EmissionKeepsLinks(seal: Seal, events: seq<Event>, m: Emission, ws: string)
    requires InOrder(events) && Linked(seal, Project(events, ws))
    ensures Linked(seal, Project(Emitted(seal, events, m), ws))
  {
    if m.stored {
      var e := NewEvent(seal, events, m);
      AppendProjects(events, e, ws);
      assert Latest(events, m.input.workspaceId) == LastOf(Project(events, m.input.workspaceId));
      if m.input.workspaceId == ws {
        LinkOneMore(seal, Project(events, ws), e);
      } else {
        assert Project(events, ws) + [] == Project(events, ws);
      }
    }
  }

  lemma {:induction false} SerialRunsStayInOrder(seal: Seal, ms: seq<Emission>)
    requires Serial(ms)
    ensures InOrder(EmitAll(seal, ms))
  {
    if ms != [] {
      SerialRunsStayInOrder(seal, ms[..|ms| - 1]);
      SerialRunsGoForward(seal, ms);
      EmissionKeepsOrder(seal, EmitAll(seal, ms[..|ms| - 1]), ms[|ms| - 1]);
    }
  }

  /**
   * However workspaces interleave and whichever emissions fail, the events of each workspace form
   * an unbroken chain of hashes.
   */
  lemma {:induction false} EveryWorkspaceIsLinked(seal: Seal, ms: seq<Emission>, ws: string)
    requires Serial(ms)
    ensures Linked(seal, Project(EmitAll(seal, ms), ws))
  {
    if ms != [] {
      EveryWorkspaceIsLinked(seal, ms[..|ms| - 1], ws);
      SerialRunsStayInOrder(seal, ms[..|ms| - 1]);
      EmissionKeepsLinks(seal, EmitAll(seal, ms[..|ms| - 1]), ms[|ms| - 1], ws);
    }
  }

  lemma {:induction false} LinkOneMore(seal: Seal, chain: seq<Event>, e: Event)
    requires Linked(seal, chain)
    requires e.previousHash == if chain == [] then None else Some(chain[|chain| - 1].hash)
    requires e.hash == seal(e.input, e.createdAt, e.previousHash)
    ensures Linked(seal, chain + [e])
  {
    forall k | 0 <= k < |chain| + 1 ensures LinkedAt(seal, chain + [e], k) {
      assert k < |chain| ==> LinkedAt(seal, chain, k);
    }
  }

  // ----- Verifying a stored event -----

  ghost predicate Injective(mac: Mac) {
    forall a, b :: mac(a) == mac(b) ==> a == b
  }

  /** What verification recomputes: the column is read back, and an absent one reads as null. */
  function Recomputed(leq: Order, mac: Mac, e: Event, column: Json): string {
    IntegrityHash(leq, mac, e.input.(metadata := Some(column)), e.createdAt, e.previousHash)
  }

  /** A metadata column that the database may have rewritten with its keys in another order. */
  ghost predicate ReadBack(stored: Option<Json>, column: Json) {
    match stored
    case Some(m) => WellFormed(column) && Same(m, column)
    case None => column == Null
  }

  predicate MetadataOk(leq: Order, metadata: Option<Json>) {
    metadata.Some? ==> WellFormed(metadata.value) && Separated(leq, metadata.value)
  }

  lemma {:induction false} FieldValuesAreFine(leq: Order, input: Input, createdAt: int, previousHash: Option<string>, i: nat)
    requires i < |Payload(input, createdAt, previousHash).entries|
    requires input.metadata.Some? ==> WellFormed(input.metadata.value)
    ensures WellFormed(Payload(input, createdAt, previousHash).entries[i].value)
    ensures MetadataOk(leq, input.metadata) ==> Separated(leq, Payload(input, createdAt, previousHash).entries[i].value)
  {
    FieldsInOrder(input, createdAt, previousHash);
  }

  lemma {:induction false} PayloadIsWellFormed(leq: Order, input: Input, createdAt: int, previousHash: Option<string>)
    requires TellsFieldsApart(leq)
    requires input.metadata.Some? ==> WellFormed(input.metadata.value)
    ensures WellFormed(Payload(input, createdAt, previousHash))
    ensures MetadataOk(leq, input.metadata) ==> Separated(leq, Payload(input, createdAt, previousHash))
  {
    var es := Payload(input, createdAt, previousHash).entries;
    forall i | 0 <= i < |es|
      ensures WellFormed(es[i].value)
      ensures MetadataOk(leq, input.metadata) ==> Separated(leq, es[i].value)
    {
      FieldValuesAreFine(leq, input, createdAt, previousHash, i);
    }
    FieldKeysAreApart(leq, input, createdAt, previousHash);
  }

  lemma {:induction false} FieldKeysAreApart(leq: Order, input: Input, createdAt: int, previousHash: Option<string>)
    requires TellsFieldsApart(leq)
    ensures var es := Payload(input, createdAt, previousHash).entries;
            && KeysOnce(es)
            && forall i, j :: 0 <= i < |es| && 0 <= j < |es| ==> !Tied(leq, es[i].key, es[j].key)
  {
    FieldsInOrder(input, createdAt, previousHash);
    forall i, j | 0 <= i < j < |FIELD_NAMES| ensures FIELD_NAMES[i] != FIELD_NAMES[j] {
      FieldNamesDiffer(i, j);
    }
    KeysLikeNames(leq, Payload(input, createdAt, previousHash).entries, FIELD_NAMES);
  }

  lemma {:induction false} KeysLikeNames(leq: Order, es: seq<Entry>, names: seq<string>)
    requires |es| <= |names| && forall i :: 0 <= i < |es| ==> es[i].key == names[i]
    requires forall i, j :: 0 <= i < j < |names| ==> names[i] != names[j]
    requires forall i, j :: 0 <= i < |names| && 0 <= j < |names| ==> !Tied(leq, names[i], names[j])
    ensures KeysOnce(es)
    ensures forall i, j :: 0 <= i < |es| && 0 <= j < |es| ==> !Tied(leq, es[i].key, es[j].key)
  {
    forall i, j | 0 <= i < |es| && 0 <= j < |es| ensures !Tied(leq, es[i].key, es[j].key) {
      assert !Tied(leq, names[i], names[j]);
    }
  }

  lemma {:induction false} FieldsInOrder(input: Input, createdAt: int, previousHash: Option<string>)
    ensures var es := Payload(input, createdAt, previousHash).entries;
            && |es| == (if input.metadata.Some? then 9 else 8)
            && (forall i :: 0 <= i < |es| ==> es[i].key == FIELD_NAMES[i])
            && es[0].value == Str(input.action) && es[1].value == Str(input.entityType) && es[2].value == Str(input.entityId)
            && es[3].value == Str(input.actorType) && es[4].value == Str(input.actorId) && es[5].value == Str(input.workspaceId)
            && es[6].value == Num(createdAt)
            && es[7].value == (match previousHash case Some(h) => Str(h) case None => Null)
            && (input.metadata.Some? ==> es[8].value == input.metadata.value)
  {
  }

  lemma {:induction false} FieldNamesDiffer(i: nat, j: nat)
    requires i < j < 9
    ensures FIELD_NAMES[i] != FIELD_NAMES[j]
  {
    assert "entityType"[0] != "action"[0];
    assert FIELD_NAMES[0][1] == 'c' && FIELD_NAMES[0][2] == 't' && FIELD_NAMES[0][3] == 'i' && |FIELD_NAMES[0]| == 6;
    assert |FIELD_NAMES[1]| == 10 && FIELD_NAMES[1][0] == 'e';
    assert |FIELD_NAMES[2]| == 8 && FIELD_NAMES[2][0] == 'e';
    assert |FIELD_NAMES[3]| == 9 && FIELD_NAMES[3][0] == 'a';
    assert |FIELD_NAMES[4]| == 7;
    assert |FIELD_NAMES[5]| == 11;
    assert |FIELD_NAMES[6]| == 9 && FIELD_NAMES[6][0] == 'c';
    assert |FIELD_NAMES[7]| == 12;
    assert |FIELD_NAMES[8]| == 8 && FIELD_NAMES[8][0] == 'm';
  }

  /** Two payloads that are the same up to key order agree in every field. */
  lemma {:induction false} SamePayloadSameFields(a: Input, at: int, ah: Option<string>, b: Input, bt: int, bh: Option<string>)
    requires Same(Payload(a, at, ah), Payload(b, bt, bh))
    ensures a.(metadata := None) == b.(metadata := None) && at == bt && ah == bh
    ensures a.metadata.Some? <==> b.metadata.Some?
    ensures a.metadata.Some? ==> Same(a.metadata.value, b.metadata.value)
  {
    FieldsInOrder(a, at, ah);
    FieldsInOrder(b, bt, bh);
    var es, fs := Payload(a, at, ah).entries, Payload(b, bt, bh).entries;
    forall i | 0 <= i < |es| ensures Same(es[i].value, fs[i].value) {
      assert es[i].key == fs[i].key;
    }
  }

  lemma {:induction false} SameKeys(es: seq<Entry>, fs: seq<Entry>)
    requires |es| == |fs| && forall i :: 0 <= i < |es| ==> es[i].key == fs[i].key
    ensures Keys(es) == Keys(fs)
  {
    forall k ensures k in Keys(es) <==> k in Keys(fs) {
      if k in Keys(es) {
        var i := HasKey(es, k);
        assert fs[i] in fs;
      }
      if k in Keys(fs) {
        var i := HasKey(fs, k);
        assert es[i] in es;
      }
    }
  }

  lemma {:induction false} SameFieldsSamePayload(leq: Order, a: Input, t: int, h: Option<string>, m: Json, n: Json)
    requires WellFormed(m) && Same(m, n)
    ensures Same(Payload(a.(metadata := Some(m)), t, h), Payload(a.(metadata := Some(n)), t, h))
  {
    var x, y := a.(metadata := Some(m)), a.(metadata := Some(n));
    FieldsInOrder(x, t, h);
    FieldsInOrder(y, t, h);
    var es, fs := Payload(x, t, h).entries, Payload(y, t, h).entries;
    SameKeys(es, fs);
    forall i, j | 0 <= i < |es| && 0 <= j < |fs| && es[i].key == fs[j].key ensures Same(es[i].value, fs[j].value) {
      if i < j {
        FieldNamesDiffer(i, j);
      } else if j < i {
        FieldNamesDiffer(j, i);
      }
    }
  }

  /**
   * An event still verifies after storage exactly when its metadata was supplied: a reordering of
   * the metadata's keys is forgiven, while absent metadata is hashed as missing but read as null.
   */
  lemma {:induction false} VerifiesExactlyWhenSupplied(leq: Order, mac: Mac, e: Event, column: Json)
    requires IsPreorder(leq) && TellsFieldsApart(leq) && Injective(mac)
    requires MetadataOk(leq, e.input.metadata) && ReadBack(e.input.metadata, column)
    requires e.hash == IntegrityHash(leq, mac, e.input, e.createdAt, e.previousHash)
    ensures Recomputed(leq, mac, e, column) == e.hash <==> e.input.metadata.Some?
  {
    var given := Payload(e.input, e.createdAt, e.previousHash);
    var again := Payload(e.input.(metadata := Some(column)), e.createdAt, e.previousHash);
    PayloadIsWellFormed(leq, e.input, e.createdAt, e.previousHash);
    PayloadIsWellFormed(leq, e.input.(metadata := Some(column)), e.createdAt, e.previousHash);
    if e.input.metadata.Some? {
      assert e.input == e.input.(metadata := Some(e.input.metadata.value));
      SameFieldsSamePayload(leq, e.input, e.createdAt, e.previousHash, e.input.metadata.value, column);
      KeyOrderIsForgotten(leq, given, again);
    } else if Recomputed(leq, mac, e, column) == e.hash {
      CanonicalFormDecidesSameness(leq, given, again);
      SamePayloadSameFields(e.input, e.createdAt, e.previousHash,
                            e.input.(metadata := Some(column)), e.createdAt, e.previousHash);
      assert false;
    }
  }

  // ----- What the last hash commits to -----

  /** The same event as far as the hash can tell. */
  predicate Agree(a: Event, b: Event) {
    && a.input.(metadata := None) == b.input.(metadata := None)
    && a.createdAt == b.createdAt && a.previousHash == b.previousHash
    && (a.input.metadata.Some? <==> b.input.metadata.Some?)
    && (a.input.metadata.Some? ==> Same(a.input.metadata.value, b.input.metadata.value))
  }

  lemma {:induction false} EqualHashesAgree(leq: Order, mac: Mac, a: Event, b: Event)
    requires IsPreorder(leq) && TellsFieldsApart(leq) && Injective(mac)
    requires a.input.metadata.Some? ==> WellFormed(a.input.metadata.value)
    requires b.input.metadata.Some? ==> WellFormed(b.input.metadata.value)
    requires a.hash == IntegrityHash(leq, mac, a.input, a.createdAt, a.previousHash)
    requires b.hash == IntegrityHash(leq, mac, b.input, b.createdAt, b.previousHash)
    requires a.hash == b.hash
    ensures Agree(a, b)
  {
    PayloadIsWellFormed(leq, a.input, a.createdAt, a.previousHash);
    PayloadIsWellFormed(leq, b.input, b.createdAt, b.previousHash);
    CanonicalFormDecidesSameness(leq, Payload(a.input, a.createdAt, a.previousHash), Payload(b.input, b.createdAt, b.previousHash));
    SamePayloadSameFields(a.input, a.createdAt, a.previousHash, b.input, b.createdAt, b.previousHash);
  }

  predicate MetadataWellFormed(e: Event) {
    e.input.metadata.Some? ==> WellFormed(e.input.metadata.value)
  }

  predicate Sealed(seal: Seal, e: Event) {
    e.hash == seal(e.input, e.createdAt, e.previousHash)
  }

  /** Equal hashes only for events that agree. */
  ghost predicate Binding(seal: Seal) {
    forall a, b {:trigger Sealed(seal, a), Sealed(seal, b)} ::
      Sealed(seal, a) && Sealed(seal, b) && a.hash == b.hash && MetadataWellFormed(a) && MetadataWellFormed(b) ==> Agree(a, b)
  }

  lemma {:induction false} SealIsBinding(leq: Order, mac: Mac)
    requires IsPreorder(leq) && TellsFieldsApart(leq) && Injective(mac)
    ensures Binding(SealOf(leq, mac))
  {
    var seal := SealOf(leq, mac);
    forall a, b | Sealed(seal, a) && Sealed(seal, b) && a.hash == b.hash && MetadataWellFormed(a) && MetadataWellFormed(b)
      ensures Agree(a, b)
    {
      EqualHashesAgree(leq, mac, a, b);
    }
  }

  lemma {:induction false} PrefixIsLinked(seal: Seal, chain: seq<Event>, n: nat)
    requires Linked(seal, chain) && n <= |chain|
    ensures Linked(seal, chain[..n])
  {
    forall k | 0 <= k < n ensures LinkedAt(seal, chain[..n], k) {
      assert LinkedAt(seal, chain, k);
    }
  }

  /**
   * The last hash of a workspace commits to its whole history: two linked chains that end in the
   * same hash have the same length and agree, event by event, in everything that is hashed.
   */
  lemma {:induction false} LastHashCommitsHistory(seal: Seal, a: seq<Event>, b: seq<Event>)
    requires Binding(seal) && Linked(seal, a) && Linked(seal, b)
    requires forall e :: e in a || e in b ==> MetadataWellFormed(e)
    requires |a| > 0 && |b| > 0 && a[|a| - 1].hash == b[|b| - 1].hash
    ensures |a| == |b| && forall k :: 0 <= k < |a| ==> Agree(a[k], b[k])
  {
    var x, y := |a| - 1, |b| - 1;
    assert LinkedAt(seal, a, x) && LinkedAt(seal, b, y);
    assert Sealed(seal, a[x]) && Sealed(seal, b[y]);
    assert a[x] in a && b[y] in b;
    assert Agree(a[x], b[y]);
    assert PreviousOf(a, x) == PreviousOf(b, y);
    if x > 0 {
      PrefixIsLinked(seal, a, x);
      PrefixIsLinked(seal, b, y);
      LastHashCommitsHistory(seal, a[..x], b[..y]);
      forall k | 0 <= k < |a| ensures Agree(a[k], b[k]) {
        assert k < x ==> a[k] == a[..x][k] && b[k] == b[..y][k];
      }
    }
  }

  predicate WellFormedInputs(ms: seq<Emission>) {
    forall i :: 0 <= i < |ms| ==> ms[i].input.metadata.Some? ==> WellFormed(ms[i].input.metadata.value)
  }

  lemma {:induction false} WellFormedMetadataIsEmitted(seal: Seal, ms: seq<Emission>, ws: string)
    requires WellFormedInputs(ms)
    ensures forall e :: e in Project(EmitAll(seal, ms), ws) ==> MetadataWellFormed(e)
  {
    EventsComeFromEmissions(seal, ms);
    forall e | e in Project(EmitAll(seal, ms), ws) ensures MetadataWellFormed(e) {
      assert e in EmitAll(seal, ms);
      var i :| 0 <= i < |ms| && e.id == ms[i].id && e.createdAt == ms[i].now && e.input == ms[i].input;
    }
  }

  /** The same for the chains that the service itself writes. */
  lemma {:induction false} EmittedHistoriesAreCommitted(leq: Order, mac: Mac, ms: seq<Emission>, ns: seq<Emission>, ws: string)
    requires IsPreorder(leq) && TellsFieldsApart(leq) && Injective(mac)
    requires Serial(ms) && Serial(ns)
    requires WellFormedInputs(ms) && WellFormedInputs(ns)
    ensures var a := Project(EmitAll(SealOf(leq, mac), ms), ws);
            var b := Project(EmitAll(SealOf(leq, mac), ns), ws);
            |a| > 0 && |b| > 0 && a[|a| - 1].hash == b[|b| - 1].hash ==>
              |a| == |b| && forall k :: 0 <= k < |a| ==> Agree(a[k], b[k])
  {
    var seal := SealOf(leq, mac);
    var a, b := Project(EmitAll(seal, ms), ws), Project(EmitAll(seal, ns), ws);
    SealIsBinding(leq, mac);
    EveryWorkspaceIsLinked(seal, ms, ws);
    EveryWorkspaceIsLinked(seal, ns, ws);
    WellFormedMetadataIsEmitted(seal, ms, ws);
    WellFormedMetadataIsEmitted(seal, ns, ws);
    if |a| > 0 && |b| > 0 && a[|a| - 1].hash == b[|b| - 1].hash {
      LastHashCommitsHistory(seal, a, b);
    }
  }
}
