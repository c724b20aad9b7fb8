/** What an authority lets a dispatch do (authority.py): construction with normalisation, the three document versions,
    and the permission check. */
module AuthorityScopes {
  import opened Text

  datatype Scope = Scope(
    providers: seq<string>, planes: seq<string>, taskTypes: seq<string>, batchIds: seq<string>,
    memberDigests: seq<string>, tierDigests: seq<string>, projectDigests: seq<string>, lanes: seq<string>,
    policyDigests: seq<string>, targetDigests: seq<string>, circuitDigests: seq<string>, version: int)

  predicate Distinct(values: seq<string>) {
    forall i, j :: 0 <= i < j < |values| ==> values[i] != values[j]
  }

  function StripAll(values: seq<string>): seq<string> {
    seq(|values|, i requires 0 <= i < |values| => Strip(values[i]))
  }

  function LowerAll(values: seq<string>): seq<string> {
    seq(|values|, i requires 0 <= i < |values| => Lower(values[i]))
  }

  /** `_string_tuple`: strip every item, refuse empty items and duplicates. */
  function StringTuple(values: seq<string>, required: bool): Option<seq<string>> {
    var normalized := StripAll(values);
    if "" in normalized || (required && normalized == []) || !Distinct(normalized) then None else Some(normalized)
  }

  /** A digest field: the duplicate check runs on the stripped items, the lower-casing only after it. */
  function DigestTuple(values: seq<string>): Option<seq<string>> {
    var tuple := StringTuple(values, false);
    if tuple.None? || exists d :: d in tuple.value && !IsSha256(Lower(d)) then None else Some(LowerAll(tuple.value))
  }

  function LaneTuple(values: seq<string>): Option<seq<string>> {
    var tuple := StringTuple(values, false);
    if tuple.None? || exists l :: l in tuple.value && l !in {"interactive", "routine", "bulk"} then None else tuple
  }

  /** The dataclass constructor; `None` is its ValueError. */
  function Construct(raw: Scope): Option<Scope> {
    var providers, planes := StringTuple(raw.providers, true), StringTuple(raw.planes, true);
    var tasks, batches := StringTuple(raw.taskTypes, false), StringTuple(raw.batchIds, false);
    var members, tiers, projects := DigestTuple(raw.memberDigests), DigestTuple(raw.tierDigests), DigestTuple(raw.projectDigests);
    var lanes := LaneTuple(raw.lanes);
    var policies, targets, circuits :=
      DigestTuple(raw.policyDigests), DigestTuple(raw.targetDigests), DigestTuple(raw.circuitDigests);
    if || providers.None? || planes.None? || tasks.None? || batches.None? || members.None? || tiers.None?
       || projects.None? || lanes.None? || policies.None? || targets.None? || circuits.None? then None
    else if raw.version !in {1, 2, 3} then None
    else if raw.version == 1 && tiers.value != [] then None
    else if raw.version < 3 && (projects.value != [] || lanes.value != [] || policies.value != []
                                || targets.value != [] || circuits.value != []) then None
    else Some(Scope(providers.value, planes.value, tasks.value, batches.value, members.value, tiers.value, projects.value,
                    lanes.value, policies.value, targets.value, circuits.value, raw.version))
  }

  // ----- documents

  datatype Field = Arr(items: seq<string>) | Int(n: int)

  /** Field names; `Other` is any name the contract does not know. */
  datatype Key =
    | ContractVersion | Providers | Planes | TaskTypes | BatchIds | MemberDigests | TierDigests | ProjectDigests
    | Lanes | PolicyDigests | TargetDigests | CircuitDigests | Other(name: string)

  type Document = map<Key, Field>

  const V1_KEYS := {Providers, Planes, TaskTypes, BatchIds, MemberDigests}
  const V2_KEYS := V1_KEYS + {ContractVersion, TierDigests}
  const V3_KEYS := V2_KEYS + {ProjectDigests, Lanes, PolicyDigests, TargetDigests, CircuitDigests}

  // The fields each version of the document adds.
  function FirstFields(s: Scope): Document {
    map[Providers := Arr(s.providers), Planes := Arr(s.planes), TaskTypes := Arr(s.taskTypes), BatchIds := Arr(s.batchIds),
        MemberDigests := Arr(s.memberDigests)]
  }

  function SecondFields(s: Scope): Document { map[ContractVersion := Int(s.version), TierDigests := Arr(s.tierDigests)] }

  function ThirdFields(s: Scope): Document {
    map[ProjectDigests := Arr(s.projectDigests), Lanes := Arr(s.lanes), PolicyDigests := Arr(s.policyDigests),
        TargetDigests := Arr(s.targetDigests), CircuitDigests := Arr(s.circuitDigests)]
  }

  function ToDict(s: Scope): Document {
    var v2 := if s.version in {2, 3} then FirstFields(s) + SecondFields(s) else FirstFields(s);
    if s.version == 3 then v2 + ThirdFields(s) else v2
  }

  function ExpectedKeys(version: int): Option<set<Key>> {
    if version == 1 then Some(V1_KEYS) else if version == 2 then Some(V2_KEYS)
    else if version == 3 then Some(V3_KEYS) else None
  }

  /** `data.get(key, ())` for a field that must be an array. */
  function Items(doc: Document, key: Key): seq<string> {
    if key in doc && doc[key].Arr? then doc[key].items else []
  }

  function Fields(doc: Document, version: int): Scope {
    Scope(Items(doc, Providers), Items(doc, Planes), Items(doc, TaskTypes), Items(doc, BatchIds), Items(doc, MemberDigests),
          Items(doc, TierDigests), Items(doc, ProjectDigests), Items(doc, Lanes), Items(doc, PolicyDigests),
          Items(doc, TargetDigests), Items(doc, CircuitDigests), version)
  }

  function FromDict(doc: Document): Option<Scope> {
    var version := if ContractVersion in doc then doc[ContractVersion] else Int(1);
    if version.Arr? || ExpectedKeys(version.n) != Some(doc.Keys) then None
    else if exists k :: k in doc && k != ContractVersion && doc[k].Int? then None
    else Construct(Fields(doc, version.n))
  }

  /** No two digests of one list became equal by lower-casing. */
  predicate CaseDistinct(s: Scope) {
    && Distinct(s.memberDigests) && Distinct(s.tierDigests) && Distinct(s.projectDigests)
    && Distinct(s.policyDigests) && Distinct(s.targetDigests) && Distinct(s.circuitDigests)
  }

  lemma StringTupleAgain(values: seq<string>, required: bool)
    requires StringTuple(values, required).Some?
    ensures StringTuple(StringTuple(values, required).value, required) == StringTuple(values, required)
  {
    var normalized := StripAll(values);
    forall i | 0 <= i < |normalized| ensures Strip(normalized[i]) == normalized[i] {
      StripTwice(values[i]);
    }
    assert StripAll(normalized) == normalized;
  }

  lemma LaneTupleAgain(values: seq<string>)
    requires LaneTuple(values).Some?
    ensures LaneTuple(LaneTuple(values).value) == LaneTuple(values)
  {
    StringTupleAgain(values, false);
  }

  lemma Sha256IsStripped(d: string)
    requires IsSha256(d)
    ensures Strip(d) == d && Lower(d) == d
  {
    hide Strip, Lower;
    StripFixed(d);
    forall i | 0 <= i < |d| ensures Lower(d)[i] == d[i] { assert IsHex(d[i]); }
  }

  lemma DigestTupleFixed(digests: seq<string>)
    requires forall i :: 0 <= i < |digests| ==> IsSha256(digests[i])
    ensures DigestTuple(digests) == if Distinct(digests) then Some(digests) else None
  {
    forall i | 0 <= i < |digests| ensures Strip(digests[i]) == digests[i] == Lower(digests[i]) {
      Sha256IsStripped(digests[i]);
    }
    assert StripAll(digests) == digests && LowerAll(digests) == digests;
  }

  lemma DigestTupleYields(values: seq<string>)
    requires DigestTuple(values).Some?
    ensures forall i :: 0 <= i < |DigestTuple(values).value| ==> IsSha256(DigestTuple(values).value[i])
  {
    var tuple := StringTuple(values, false).value;
    forall i | 0 <= i < |tuple| ensures IsSha256(Lower(tuple[i])) {
      assert tuple[i] in tuple;
    }
  }

  /** Normalised digests survive a second normalisation exactly when they stayed distinct. */
  lemma DigestTupleAgain(values: seq<string>)
    requires DigestTuple(values).Some?
    ensures var digests := DigestTuple(values).value;
            DigestTuple(digests) == if Distinct(digests) then Some(digests) else None
  {
    DigestTupleYields(values);
    DigestTupleFixed(DigestTuple(values).value);
  }

  lemma ConstructAgain(raw: Scope)
    requires Construct(raw).Some?
    ensures var s := Construct(raw).value;
            Construct(s) == if CaseDistinct(s) then Some(s) else None
  {
    StringTupleAgain(raw.providers, true);
    StringTupleAgain(raw.planes, true);
    StringTupleAgain(raw.taskTypes, false);
    StringTupleAgain(raw.batchIds, false);
    LaneTupleAgain(raw.lanes);
    DigestTupleAgain(raw.memberDigests);
    DigestTupleAgain(raw.tierDigests);
    DigestTupleAgain(raw.projectDigests);
    DigestTupleAgain(raw.policyDigests);
    DigestTupleAgain(raw.targetDigests);
    DigestTupleAgain(raw.circuitDigests);
  }

  lemma DocumentKeys(s: Scope)
    requires s.version in {1, 2, 3}
    ensures ExpectedKeys(s.version) == Some(ToDict(s).Keys)
  {
    assert ToDict(s).Keys == ExpectedKeys(s.version).value;
  }

  /** What the version checks of the constructor leave. */
  predicate Versioned(s: Scope) {
    && s.version in {1, 2, 3}
    && (s.version == 1 ==> s.tierDigests == [])
    && (s.version < 3 ==> s.projectDigests == [] && s.lanes == [] && s.policyDigests == [] && s.targetDigests == []
                          && s.circuitDigests == [])
  }

  lemma ConstructVersioned(raw: Scope)
    requires Construct(raw).Some?
    ensures Versioned(Construct(raw).value)
  {
  }

  lemma DocumentItems(s: Scope)
    requires s.version in {1, 2, 3}
    ensures var doc := ToDict(s);
            && Items(doc, Providers) == s.providers && Items(doc, Planes) == s.planes
            && Items(doc, TaskTypes) == s.taskTypes && Items(doc, BatchIds) == s.batchIds
            && Items(doc, MemberDigests) == s.memberDigests
  {
    hide ToDict;
    DocumentKeepsFirst(s);
  }

  /** Later versions add fields and change none. */
  lemma DocumentKeepsFirst(s: Scope)
    ensures forall k :: k in FirstFields(s) ==> k in ToDict(s) && ToDict(s)[k] == FirstFields(s)[k]
  {
    assert FirstFields(s).Keys !! SecondFields(s).Keys && FirstFields(s).Keys !! ThirdFields(s).Keys;
    hide FirstFields, SecondFields, ThirdFields;
  }

  lemma DocumentTierItems(s: Scope)
    requires Versioned(s)
    ensures Items(ToDict(s), TierDigests) == s.tierDigests
    ensures if s.version == 1 then ContractVersion !in ToDict(s)
            else ContractVersion in ToDict(s) && ToDict(s)[ContractVersion] == Int(s.version)
  {
  }

  lemma DocumentAdmissionItems(s: Scope)
    requires Versioned(s)
    ensures var doc := ToDict(s);
            && Items(doc, ProjectDigests) == s.projectDigests && Items(doc, Lanes) == s.lanes
            && Items(doc, PolicyDigests) == s.policyDigests && Items(doc, TargetDigests) == s.targetDigests
            && Items(doc, CircuitDigests) == s.circuitDigests
  {
    hide ToDict;
    DocumentKeepsThird(s);
  }

  lemma DocumentKeepsThird(s: Scope)
    ensures s.version == 3 ==> forall k :: k in ThirdFields(s) ==> k in ToDict(s) && ToDict(s)[k] == ThirdFields(s)[k]
    ensures s.version != 3 ==> forall k :: k in ThirdFields(s) ==> k !in ToDict(s)
  {
    assert FirstFields(s).Keys !! ThirdFields(s).Keys && SecondFields(s).Keys !! ThirdFields(s).Keys;
    hide FirstFields, SecondFields, ThirdFields;
  }

  predicate Arrays(doc: Document) { forall k :: k in doc && k != ContractVersion ==> doc[k].Arr? }

  lemma MergedArrays(a: Document, b: Document)
    requires Arrays(a) && Arrays(b)
    ensures Arrays(a + b)
  {
  }

  lemma DocumentIsArrays(s: Scope, k: Key)
    requires k in ToDict(s) && k != ContractVersion
    ensures ToDict(s)[k].Arr?
  {
    var first, second, third := FirstFields(s), SecondFields(s), ThirdFields(s);
    assert Arrays(first) && Arrays(second) && Arrays(third);
    hide FirstFields, SecondFields, ThirdFields;
    MergedArrays(first, second);
    MergedArrays(first, third);
    MergedArrays(first + second, third);
  }

  lemma DocumentFields(s: Scope)
    requires Versioned(s)
    ensures Fields(ToDict(s), s.version) == s
    ensures forall k :: k in ToDict(s) && k != ContractVersion ==> ToDict(s)[k].Arr?
    ensures if s.version == 1 then ContractVersion !in ToDict(s)
            else ContractVersion in ToDict(s) && ToDict(s)[ContractVersion] == Int(s.version)
  {
    DocumentItems(s);
    DocumentTierItems(s);
    DocumentAdmissionItems(s);
    forall k | k in ToDict(s) && k != ContractVersion { DocumentIsArrays(s, k); }
  }

  /** A constructed scope reads back from its document, in every version, exactly when its digests stayed distinct
      after lower-casing; otherwise reading it back is refused. */
  lemma DocumentRoundTrip(raw: Scope)
    requires Construct(raw).Some?
    ensures var s := Construct(raw).value;
            FromDict(ToDict(s)) == if CaseDistinct(s) then Some(s) else None
  {
    var s := Construct(raw).value;
    ConstructVersioned(raw);
    DocumentKeys(s);
    DocumentFields(s);
    ConstructAgain(raw);
  }

  lemma HexIsNotSpace(c: char)
    requires IsDigit(LowerChar(c)) || 'a' <= LowerChar(c) <= 'f'
    ensures !IsSpace(c)
  {
  }

  lemma LoweredDigestEnds(d: string)
    requires IsSha256(Lower(d))
    ensures |d| == 64 && !IsSpace(d[0]) && !IsSpace(d[63])
  {
    var l := Lower(d);
    assert l[0] == LowerChar(d[0]) && l[63] == LowerChar(d[63]);
    HexIsNotSpace(d[0]);
    HexIsNotSpace(d[63]);
  }

  lemma DigestIsStripped(d: string)
    requires IsSha256(Lower(d))
    ensures Strip(d) == d
  {
    LoweredDigestEnds(d);
    StripFixed(d);
  }

  lemma DistinctDigestsAreAccepted(digests: seq<string>)
    requires Distinct(digests) && forall k :: 0 <= k < |digests| ==> IsSha256(Lower(digests[k]))
    ensures DigestTuple(digests) == Some(LowerAll(digests))
  {
    forall k | 0 <= k < |digests| ensures Strip(digests[k]) == digests[k] != "" {
      DigestIsStripped(digests[k]);
    }
    assert StripAll(digests) == digests;
  }

  /** The failing scopes are reachable: any list that holds two spellings of one digest is accepted
      and can never be read back. */
  lemma CaseCollisionIsAccepted(raw: Scope, digests: seq<string>, i: nat, j: nat)
    requires Distinct(digests) && forall k :: 0 <= k < |digests| ==> IsSha256(Lower(digests[k]))
    requires i < j < |digests| && Lower(digests[i]) == Lower(digests[j])
    requires Construct(raw).Some?
    ensures var colliding := raw.(memberDigests := digests);
            Construct(colliding).Some? && FromDict(ToDict(Construct(colliding).value)).None?
  {
    var colliding := raw.(memberDigests := digests);
    DistinctDigestsAreAccepted(digests);
    var s := Construct(colliding).value;
    assert s.memberDigests == LowerAll(digests);
    assert s.memberDigests[i] == s.memberDigests[j];
    DocumentRoundTrip(colliding);
  }

  // ----- permission

  datatype Request = Request(
    provider: string, plane: string, taskType: string, batchId: Option<string>, memberDigest: Option<string>,
    tier: Option<string>, project: Option<string>, lane: Option<string>, policy: Option<string>,
    target: Option<string>, circuit: Option<string>)

  predicate LowerIn(digest: Option<string>, digests: seq<string>) {
    digest.Some? && Lower(digest.value) in digests
  }

  predicate Permits(s: Scope, q: Request) {
    var tierPermitted := (q.tier.None? && s.tierDigests == []) || (s.version in {2, 3} && LowerIn(q.tier, s.tierDigests));
    var admissionRequested := || q.project.Some? || q.lane.Some? || q.policy.Some?
                              || s.projectDigests != [] || s.lanes != [] || s.policyDigests != [];
    var admissionPermitted := !admissionRequested ||
      (s.version == 3 && LowerIn(q.project, s.projectDigests) && q.lane.Some? && q.lane.value in s.lanes
       && LowerIn(q.policy, s.policyDigests));
    var targetPermitted := !(q.target.Some? || s.targetDigests != []) || (s.version == 3 && LowerIn(q.target, s.targetDigests));
    var circuitPermitted := !(q.circuit.Some? || s.circuitDigests != []) || (s.version == 3 && LowerIn(q.circuit, s.circuitDigests));
    && q.provider in s.providers
    && q.plane in s.planes
    && (s.taskTypes == [] || q.taskType in s.taskTypes)
    && (s.batchIds == [] || (q.batchId.Some? && q.batchId.value in s.batchIds))
    && (s.memberDigests == [] || LowerIn(q.memberDigest, s.memberDigests))
    && tierPermitted && admissionPermitted && targetPermitted && circuitPermitted
  }

  /** A binding dimension: absent on both sides, or named by the request and listed by the scope. */
  predicate Bound(digest: Option<string>, digests: seq<string>) {
    (digest.None? && digests == []) || LowerIn(digest, digests)
  }

  /** For every scope that can be built the version tests are redundant: each dimension is either open or listed,
      a binding must match on both sides, and project, lane and policy are bound together or not at all. */
  lemma PermitsMeans(raw: Scope, q: Request)
    requires Construct(raw).Some?
    ensures var s := Construct(raw).value;
            Permits(s, q) <==>
              && q.provider in s.providers && q.plane in s.planes
              && (s.taskTypes == [] || q.taskType in s.taskTypes)
              && (s.batchIds == [] || (q.batchId.Some? && q.batchId.value in s.batchIds))
              && (s.memberDigests == [] || LowerIn(q.memberDigest, s.memberDigests))
              && Bound(q.tier, s.tierDigests) && Bound(q.target, s.targetDigests) && Bound(q.circuit, s.circuitDigests)
              && (|| (q.project.None? && q.lane.None? && q.policy.None?
                      && s.projectDigests == [] && s.lanes == [] && s.policyDigests == [])
                  || (LowerIn(q.project, s.projectDigests) && q.lane.Some? && q.lane.value in s.lanes
                      && LowerIn(q.policy, s.policyDigests)))
  {
    ConstructVersioned(raw);
  }
}
