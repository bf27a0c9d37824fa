/**
 * Approval stages: the submission schema, the normalized form that is stored, and the reading
 * back of a stored form that may be malformed.
 */
module ApprovalStages {
  import opened Prelude

  /** `Unrecognised` is any role string outside the four the product knows. */
  datatype Role = Viewer | Member | Admin | Owner | Unrecognised

  datatype Stage = Stage(name: string, requiredCount: int, reviewerRoles: seq<Role>)

  /** An entry of a stored or submitted list; `Malformed` lacks a field or has one of the wrong type. */
  datatype RawEntry = Malformed | Entry(stage: Stage)

  /** A JSON value where a list of stages is expected. */
  datatype RawStages = NotAList | Listed(entries: seq<RawEntry>)

  datatype Submission = Submission(requiredCount: Option<int>, stages: Option<seq<RawEntry>>)

  /** A submission the schema has let through, with its transformations applied. */
  datatype Accepted = Accepted(requiredCount: Option<int>, stages: Option<seq<Stage>>)

  // ----- Trimming -----

  predicate IsSpace(c: char) {
    || c == ' ' || '\U{0009}' <= c <= '\U{000D}' || c == '\U{00A0}' || c == '\U{1680}'
    || '\U{2000}' <= c <= '\U{200A}' || c == '\U{2028}' || c == '\U{2029}' || c == '\U{202F}'
    || c == '\U{205F}' || c == '\U{3000}' || c == '\U{FEFF}'
  }

  function TrimStart(s: string): (r: string)
    ensures r != "" ==> !IsSpace(r[0])
    ensures s != "" && !IsSpace(s[0]) ==> r == s
  {
    if s != "" && IsSpace(s[0]) then TrimStart(s[1..]) else s
  }

  function TrimEnd(s: string): (r: string)
    ensures r <= s
    ensures r != "" ==> !IsSpace(r[|r| - 1])
    ensures s != "" && !IsSpace(s[|s| - 1]) ==> r == s
  {
    if s != "" && IsSpace(s[|s| - 1]) then TrimEnd(s[..|s| - 1]) else s
  }

  function Trim(s: string): (r: string)
    ensures r != "" ==> !IsSpace(r[0]) && !IsSpace(r[|r| - 1])
  {
    TrimEnd(TrimStart(s))
  }

  lemma {:induction false} TrimIsIdempotent(s: string)
    ensures Trim(Trim(s)) == Trim(s)
  {
  }

  predicate AllSpaces(s: string) {
    forall i :: 0 <= i < |s| ==> IsSpace(s[i])
  }

  lemma {:induction false} StartIsSpaces(s: string) returns (before: string)
    ensures s == before + TrimStart(s) && AllSpaces(before)
  {
    before := "";
    if s != "" && IsSpace(s[0]) {
      var rest := StartIsSpaces(s[1..]);
      before := [s[0]] + rest;
    }
  }

  lemma {:induction false} EndIsSpaces(s: string) returns (after: string)
    ensures s == TrimEnd(s) + after && AllSpaces(after)
  {
    after := "";
    if s != "" && IsSpace(s[|s| - 1]) {
      var rest := EndIsSpaces(s[..|s| - 1]);
      after := rest + [s[|s| - 1]];
    }
  }

  /** Trimming takes off the spaces around a string and nothing else. */
  lemma {:induction false} TrimTakesOffSpaces(s: string) returns (before: string, after: string)
    ensures s == before + Trim(s) + after && AllSpaces(before) && AllSpaces(after)
    ensures Trim(s) != "" ==> !IsSpace(Trim(s)[0]) && !IsSpace(Trim(s)[|Trim(s)| - 1])
  {
    before := StartIsSpaces(s);
    after := EndIsSpaces(TrimStart(s));
  }

  // ----- The schemas -----

  function ParseStage(entry: RawEntry): Option<Stage> {
    if entry.Malformed? then None
    else
      var s := entry.stage;
      if && 1 <= |Trim(s.name)| <= 80
         && 1 <= s.requiredCount <= 5
         && 1 <= |s.reviewerRoles| <= 4
         && Unrecognised !in s.reviewerRoles
      then Some(s.(name := Trim(s.name)))
      else None
  }

  /** The entries that parse, in order; the others are dropped. */
  function ParseEntries(entries: seq<RawEntry>): (r: seq<Stage>)
    ensures |r| <= |entries|
    ensures forall s :: s in r ==> 1 <= s.requiredCount <= 5 && s.reviewerRoles != []
  {
    if entries == [] then []
    else (match ParseStage(entries[0]) case Some(s) => [s] case None => []) + ParseEntries(entries[1..])
  }

  function Total(stages: seq<Stage>): int {
    if stages == [] then 0 else stages[0].requiredCount + Total(stages[1..])
  }

  /** The submission schema: every stage must parse, and the counts must agree. */
  function ParseSubmission(sub: Submission): Option<Accepted> {
    if sub.requiredCount.Some? && !(1 <= sub.requiredCount.value <= 10) then None
    else if sub.stages.None? then Some(Accepted(sub.requiredCount, None))
    else
      var parsed := ParseEntries(sub.stages.value);
      if || !(2 <= |sub.stages.value| <= 5)
         || |parsed| != |sub.stages.value|
         || Total(parsed) > 10
         || (sub.requiredCount.Some? && sub.requiredCount.value != Total(parsed))
      then None
      else Some(Accepted(sub.requiredCount, Some(parsed)))
  }

  // ----- Normalizing and reading back -----

  const ALL_ROLES := [Owner, Admin, Member, Viewer]

  function FallbackStage(requiredCount: int): Stage {
    Stage("Final approval", requiredCount, ALL_ROLES)
  }

  function TrimLabels(stages: seq<Stage>): (r: seq<Stage>)
    ensures |r| == |stages|
    ensures forall i :: 0 <= i < |r| ==> r[i] == stages[i].(name := Trim(stages[i].name))
  {
    seq(|stages|, i requires 0 <= i < |stages| => stages[i].(name := Trim(stages[i].name)))
  }

  function NormalizeStages(input: Accepted): seq<Stage> {
    if input.stages.Some? && |input.stages.value| > 0 then TrimLabels(input.stages.value)
    else [FallbackStage(input.requiredCount.GetOr(1))]
  }

  /** What is written to the request row for a list of stages. */
  function Store(stages: seq<Stage>): RawStages {
    Listed(seq(|stages|, i requires 0 <= i < |stages| => Entry(stages[i])))
  }

  function ParseStages(raw: RawStages, fallbackRequiredCount: int): (r: seq<Stage>)
    ensures |r| >= 1
    ensures forall s :: s in r ==> s.reviewerRoles != [] && (s.requiredCount >= 1 || s == FallbackStage(fallbackRequiredCount))
  {
    if raw.NotAList? || ParseEntries(raw.entries) == [] then [FallbackStage(fallbackRequiredCount)]
    else TrimLabels(ParseEntries(raw.entries))
  }

  /** A chain the protocol can run: at least one stage, each asking for at least one approval. */
  predicate ValidChain(stages: seq<Stage>) {
    |stages| >= 1 && forall s :: s in stages ==> s.requiredCount >= 1
  }

  /** A stage that the schema accepts unchanged. */
  predicate Canonical(s: Stage) {
    ParseStage(Entry(s)) == Some(s)
  }

  lemma {:induction false} ParseEntriesYieldsCanonical(entries: seq<RawEntry>)
    ensures forall s :: s in ParseEntries(entries) ==> Canonical(s)
  {
    if entries != [] {
      ParseEntriesYieldsCanonical(entries[1..]);
      if entries[0].Entry? {
        TrimIsIdempotent(entries[0].stage.name);
      }
    }
  }

  lemma {:induction false} CanonicalEntriesSurvive(stages: seq<Stage>)
    requires forall s :: s in stages ==> Canonical(s)
    ensures ParseEntries(Store(stages).entries) == stages
  {
    if stages != [] {
      CanonicalEntriesSurvive(stages[1..]);
      assert Store(stages).entries[1..] == Store(stages[1..]).entries;
      assert Canonical(stages[0]);
    }
  }

  lemma {:induction false} CanonicalLabelsStay(stages: seq<Stage>)
    requires forall s :: s in stages ==> Canonical(s)
    ensures TrimLabels(stages) == stages
  {
    forall i | 0 <= i < |stages| ensures TrimLabels(stages)[i] == stages[i] {
      assert Canonical(stages[i]);
    }
  }

  /**
   * Stage round trip: whatever the schema accepts, reading the stored stages back with the
   * stored total gives exactly the normalized stages. A single step that asks for six to ten
   * approvals is stored in a form the stage schema rejects; only the fallback restores it.
   */
  lemma {:induction false} StageRoundTrip(sub: Submission)
    requires ParseSubmission(sub).Some?
    ensures var stages := NormalizeStages(ParseSubmission(sub).value);
            && ParseStages(Store(stages), Total(stages)) == stages
            && ValidChain(stages)
            && 1 <= Total(stages) <= 10
            && (sub.requiredCount.Some? ==> Total(stages) == sub.requiredCount.value)
    ensures var stages := NormalizeStages(ParseSubmission(sub).value);
            ParseEntries(Store(stages).entries) != stages <==> sub.stages.None? && sub.requiredCount.GetOr(1) > 5
  {
    var stages := NormalizeStages(ParseSubmission(sub).value);
    if sub.stages.Some? {
      var parsed := ParseEntries(sub.stages.value);
      ParseEntriesYieldsCanonical(sub.stages.value);
      CanonicalLabelsStay(parsed);
      CanonicalEntriesSurvive(parsed);
      TotalIsPositive(parsed);
    } else {
      var n := sub.requiredCount.GetOr(1);
      assert stages == [FallbackStage(n)];
      assert stages[1..] == [];
      var raw := Store(stages).entries;
      assert raw == [Entry(FallbackStage(n))] && raw[1..] == [];
      assert !IsSpace("Final approval"[0]) && !IsSpace("Final approval"[13]);
      assert Trim("Final approval") == "Final approval";
    }
  }

  // ----- What a submission must be, and what becomes of it -----

  /** The stage schema, on an entry as it is sent or stored. */
  predicate Listable(e: RawEntry) {
    && e.Entry?
    && 1 <= |Trim(e.stage.name)| <= 80
    && 1 <= e.stage.requiredCount <= 5
    && 1 <= |e.stage.reviewerRoles| <= 4
    && forall r :: r in e.stage.reviewerRoles ==> r == Viewer || r == Member || r == Admin || r == Owner
  }

  /** The stage that such an entry stands for: its name trimmed, its count and roles as they are. */
  function AsStage(e: RawEntry): Stage
    requires e.Entry?
  {
    Stage(Trim(e.stage.name), e.stage.requiredCount, e.stage.reviewerRoles)
  }

  /** The approvals asked for by a list of entries. */
  function Asked(entries: seq<RawEntry>): int {
    if entries == [] then 0
    else (if entries[0].Entry? then entries[0].stage.requiredCount else 0) + Asked(entries[1..])
  }

  lemma {:induction false} EntryIsRead(e: RawEntry)
    ensures ParseStage(e) == if Listable(e) then Some(AsStage(e)) else None
  {
    if e.Entry? {
      forall r | r in e.stage.reviewerRoles
        ensures r != Unrecognised <==> (r == Viewer || r == Member || r == Admin || r == Owner)
      {
      }
    }
  }

  /** A list is read entry by entry: those within the schema stay, trimmed and in order, the others go. */
  lemma {:induction false} EntriesAreReadOneByOne(e: RawEntry, rest: seq<RawEntry>)
    ensures ParseEntries([]) == []
    ensures ParseEntries([e] + rest) == (if Listable(e) then [AsStage(e)] else []) + ParseEntries(rest)
  {
    EntryIsRead(e);
    assert ([e] + rest)[1..] == rest;
  }

  predicate AllListable(entries: seq<RawEntry>) {
    forall i :: 0 <= i < |entries| ==> Listable(entries[i])
  }

  lemma {:induction false} SomeDropped(entries: seq<RawEntry>)
    ensures |ParseEntries(entries)| == |entries| <==> AllListable(entries)
  {
    if entries != [] {
      assert entries == [entries[0]] + entries[1..];
      EntriesAreReadOneByOne(entries[0], entries[1..]);
      SomeDropped(entries[1..]);
      assert AllListable(entries) <==> Listable(entries[0]) && AllListable(entries[1..]);
    }
  }

  /** When every entry is within the schema nothing is lost. */
  lemma {:induction false} NothingDropped(entries: seq<RawEntry>)
    requires AllListable(entries)
    ensures |ParseEntries(entries)| == |entries| && Total(ParseEntries(entries)) == Asked(entries)
    ensures forall i :: 0 <= i < |entries| ==> ParseEntries(entries)[i] == AsStage(entries[i])
  {
    if entries != [] {
      assert entries == [entries[0]] + entries[1..];
      EntriesAreReadOneByOne(entries[0], entries[1..]);
      NothingDropped(entries[1..]);
      assert ParseEntries(entries)[1..] == ParseEntries(entries[1..]);
    }
  }

  /** Exactly which submissions the schema accepts. */
  lemma {:induction false} AcceptedExactlyWhen(sub: Submission)
    ensures ParseSubmission(sub).Some? <==>
              && (sub.requiredCount.Some? ==> 1 <= sub.requiredCount.value <= 10)
              && (sub.stages.Some? ==>
                    && 2 <= |sub.stages.value| <= 5
                    && AllListable(sub.stages.value)
                    && Asked(sub.stages.value) <= 10
                    && (sub.requiredCount.Some? ==> sub.requiredCount.value == Asked(sub.stages.value)))
  {
    if sub.stages.Some? {
      SomeDropped(sub.stages.value);
      if AllListable(sub.stages.value) {
        NothingDropped(sub.stages.value);
      }
    }
  }

  lemma {:induction false} TrimmingOnceIsEnough(entries: seq<RawEntry>)
    requires AllListable(entries)
    ensures TrimLabels(ParseEntries(entries)) == ParseEntries(entries)
  {
    ParseEntriesYieldsCanonical(entries);
    CanonicalLabelsStay(ParseEntries(entries));
  }

  /**
   * What the protocol runs on is what was asked for: the submitted stages in order, each with its
   * count and roles and its name trimmed, or one final stage, open to every role, with the
   * submitted number of approvals or one.
   */
  lemma {:induction false} StagesAreAsSubmitted(sub: Submission)
    requires ParseSubmission(sub).Some?
    ensures var stages := NormalizeStages(ParseSubmission(sub).value);
            match sub.stages
            case Some(entries) =>
              AllListable(entries) && |stages| == |entries| && (forall i :: 0 <= i < |stages| ==> stages[i] == AsStage(entries[i]))
            case None =>
              stages == [Stage("Final approval", if sub.requiredCount.Some? then sub.requiredCount.value else 1, [Owner, Admin, Member, Viewer])]
  {
    if sub.stages.Some? {
      SomeDropped(sub.stages.value);
      NothingDropped(sub.stages.value);
      TrimmingOnceIsEnough(sub.stages.value);
    }
  }

  /** A stored form reads back as its entries within the schema, or, when there are none, as one final stage. */
  lemma {:induction false} StoredStagesReadBack(raw: RawStages, fallback: int)
    ensures ParseStages(raw, fallback)
         == if raw.Listed? && (exists e :: e in raw.entries && Listable(e)) then ParseEntries(raw.entries)
            else [Stage("Final approval", fallback, [Owner, Admin, Member, Viewer])]
  {
    if raw.Listed? {
      ParseEntriesYieldsCanonical(raw.entries);
      CanonicalLabelsStay(ParseEntries(raw.entries));
      NoneListable(raw.entries);
    }
  }

  lemma {:induction false} NoneListable(entries: seq<RawEntry>)
    ensures ParseEntries(entries) != [] <==> exists e :: e in entries && Listable(e)
  {
    if entries != [] {
      assert entries == [entries[0]] + entries[1..];
      EntriesAreReadOneByOne(entries[0], entries[1..]);
      NoneListable(entries[1..]);
      assert forall e :: e in entries <==> e == entries[0] || e in entries[1..];
    }
  }

  lemma {:induction false} TotalIsPositive(stages: seq<Stage>)
    requires forall s :: s in stages ==> s.requiredCount >= 1
    ensures Total(stages) >= |stages|
  {
    if stages != [] {
      TotalIsPositive(stages[1..]);
    }
  }

  // ----- Who may review a stage -----

  function Rank(r: Role): int {
    match r
    case Viewer => 0
    case Member => 1
    case Admin => 2
    case Owner => 3
    case Unrecognised => -1
  }

  const MAX_SAFE_INTEGER := 0x1F_FFFF_FFFF_FFFF

  /** The rank a reviewer role demands; an unknown one demands more than anybody has. */
  function Demanded(r: Role): int {
    if r == Unrecognised then MAX_SAFE_INTEGER else Rank(r)
  }

  predicate MayReview(role: Option<Role>, reviewerRoles: seq<Role>) {
    role.Some? && (role.value == Owner || exists r :: r in reviewerRoles && Rank(role.value) >= Demanded(r))
  }

  /** The least rank among the listed roles. */
  function LeastRank(reviewerRoles: seq<Role>): int
    requires reviewerRoles != []
  {
    if |reviewerRoles| == 1 then Rank(reviewerRoles[0])
    else
      var rest := LeastRank(reviewerRoles[1..]);
      if Rank(reviewerRoles[0]) < rest then Rank(reviewerRoles[0]) else rest
  }

  /**
   * Listing roles amounts to setting a threshold: exactly the members whose rank reaches that
   * of the least listed role may review, and an owner always may.
   */
  lemma {:induction false} PermissionIsAThreshold(role: Option<Role>, reviewerRoles: seq<Role>)
    requires reviewerRoles != [] && Unrecognised !in reviewerRoles
    ensures MayReview(role, reviewerRoles) <==> role.Some? && Rank(role.value) >= LeastRank(reviewerRoles)
    ensures 0 <= LeastRank(reviewerRoles) <= 3
  {
    assert reviewerRoles[0] in reviewerRoles;
    if |reviewerRoles| > 1 {
      PermissionIsAThreshold(role, reviewerRoles[1..]);
      assert forall r :: r in reviewerRoles <==> r == reviewerRoles[0] || r in reviewerRoles[1..];
    }
  }

  /** The roles the product knows, from the least to the most senior. */
  const BY_SENIORITY := [Viewer, Member, Admin, Owner]

  /** An owner, or a role at least as senior as some listed one. */
  predicate Admits(reviewerRoles: seq<Role>, role: Option<Role>) {
    || role == Some(Owner)
    || exists j, k :: 0 <= j <= k < 4 && BY_SENIORITY[j] in reviewerRoles && role == Some(BY_SENIORITY[k])
  }

  /** A role outside the product never reviews, and listing one admits nobody. */
  lemma {:induction false} MayReviewExactlyWhen(role: Option<Role>, reviewerRoles: seq<Role>)
    ensures MayReview(role, reviewerRoles) <==> Admits(reviewerRoles, role)
  {
    if MayReview(role, reviewerRoles) && role != Some(Owner) {
      var r :| r in reviewerRoles && Rank(role.value) >= Demanded(r);
      assert 0 <= Rank(r) <= Rank(role.value) < 4;
      assert BY_SENIORITY[Rank(r)] == r && BY_SENIORITY[Rank(role.value)] == role.value;
    }
    if Admits(reviewerRoles, role) && role != Some(Owner) {
      var j, k :| 0 <= j <= k < 4 && BY_SENIORITY[j] in reviewerRoles && role == Some(BY_SENIORITY[k]);
      assert Rank(role.value) == k && Demanded(BY_SENIORITY[j]) == j;
    }
  }
}
