/** The document form of a differential manifest (differential.py): what `to_dict` prints and `from_dict` reads. */
module DifferentialDocuments {
  import opened Text
  import opened Sorting
  import opened DifferentialManifest
  import K = PayloadKeys

  type Json = K.Json

  /** How digests are written; text that spells no digest parses as None. */
  datatype Spelling = Spelling(spell: Digest -> string, parse: string -> Option<Digest>)

  /** Every digest has exactly one spelling. */
  ghost predicate OneToOne(s: Spelling) { forall d: Digest, t: string :: s.parse(t) == Some(d) <==> s.spell(d) == t }

  // There are such spellings: strokes, as many as the number.
  const STROKES := Spelling((d: Digest) => seq(d, _ => '1'),
                            (t: string) => if forall i :: 0 <= i < |t| ==> t[i] == '1' then Some(|t|) else None)

  lemma StrokesAreOneToOne()
    ensures OneToOne(STROKES)
  {
    forall d: Digest, t: string ensures STROKES.parse(t) == Some(d) <==> STROKES.spell(d) == t {
      if STROKES.parse(t) == Some(d) { assert STROKES.spell(d) == t; }
    }
  }

  // ----- field checks

  function Identifier(v: Json): Option<string> { if v.Text? && SafeId(v.text, 128) then Some(v.text) else None }

  function DigestIn(s: Spelling, v: Json): Option<Digest> { if v.Text? then s.parse(v.text) else None }

  /** A cost: an integer is taken as a float, a bool is not a number here. */
  function Cost(v: Json): Option<real> {
    match v
    case Number(x) => if x >= 0.0 then Some(x) else None
    case Whole(n) => if n >= 0 then Some(n as real) else None
    case _ => None
  }

  // ----- members

  const MEMBER_KEYS := {"case_id", "candidate_id", "member_digest", "task_digest", "context_class", "qualification_key",
                        "route_proposal_digest", "route_id", "verifier_graph_digest", "cost_ceiling_usd"}

  function MemberToDict(s: Spelling, m: Member): Json {
    K.Object(map["case_id" := K.Text(m.caseId), "candidate_id" := K.Text(s.spell(m.candidate)),
                 "member_digest" := K.Text(s.spell(m.digest)), "task_digest" := K.Text(s.spell(m.task)),
                 "context_class" := K.Text(m.context), "qualification_key" := K.Text(s.spell(m.qualification)),
                 "route_proposal_digest" := K.Text(s.spell(m.proposal)), "route_id" := K.Text(s.spell(m.route)),
                 "verifier_graph_digest" := K.Text(s.spell(m.graph)), "cost_ceiling_usd" := K.Number(m.ceiling)])
  }

  function MemberFromDict(s: Spelling, v: Json): Option<Member> {
    if !v.Object? || v.fields.Keys != MEMBER_KEYS then None
    else
      var f := v.fields;
      var id, context, ceiling := Identifier(f["case_id"]), Identifier(f["context_class"]), Cost(f["cost_ceiling_usd"]);
      var candidate, digest, task := DigestIn(s, f["candidate_id"]), DigestIn(s, f["member_digest"]), DigestIn(s, f["task_digest"]);
      var qualification, proposal := DigestIn(s, f["qualification_key"]), DigestIn(s, f["route_proposal_digest"]);
      var route, graph := DigestIn(s, f["route_id"]), DigestIn(s, f["verifier_graph_digest"]);
      if id.None? || context.None? || ceiling.None? || candidate.None? || digest.None? || task.None? then None
      else if qualification.None? || proposal.None? || route.None? || graph.None? then None
      else Some(Member(id.value, candidate.value, digest.value, task.value, context.value, qualification.value, proposal.value,
                       route.value, graph.value, ceiling.value))
  }

  /** What a member's own constructor checks. */
  predicate MemberValid(m: Member) { SafeId(m.caseId, 128) && SafeId(m.context, 128) && m.ceiling >= 0.0 }

  lemma MemberFields(s: Spelling, m: Member)
    ensures MemberToDict(s, m).Object? && MemberToDict(s, m).fields.Keys == MEMBER_KEYS
    ensures var f := MemberToDict(s, m).fields;
            && f["case_id"] == K.Text(m.caseId) && f["context_class"] == K.Text(m.context) && f["cost_ceiling_usd"] == K.Number(m.ceiling)
            && f["candidate_id"] == K.Text(s.spell(m.candidate)) && f["member_digest"] == K.Text(s.spell(m.digest))
            && f["task_digest"] == K.Text(s.spell(m.task)) && f["qualification_key"] == K.Text(s.spell(m.qualification))
            && f["route_proposal_digest"] == K.Text(s.spell(m.proposal)) && f["route_id"] == K.Text(s.spell(m.route))
            && f["verifier_graph_digest"] == K.Text(s.spell(m.graph))
  {
  }

  lemma MemberRoundTrip(s: Spelling, m: Member)
    requires OneToOne(s) && MemberValid(m)
    ensures MemberFromDict(s, MemberToDict(s, m)) == Some(m)
  {
    hide SafeId, MemberToDict;
    MemberFields(s, m);
  }

  /** A member document whose cost is written as a float is the print of the member read from it. */
  lemma MemberReprint(s: Spelling, v: Json)
    requires OneToOne(s) && MemberFromDict(s, v).Some?
    ensures MemberValid(MemberFromDict(s, v).value)
    ensures v.fields["cost_ceiling_usd"].Number? <==> MemberToDict(s, MemberFromDict(s, v).value) == v
  {
    hide SafeId;
  }

  /** The documents of a list of members, and reading them back one by one. */
  function MembersToDict(s: Spelling, members: seq<Member>): seq<Json> {
    seq(|members|, i requires 0 <= i < |members| => MemberToDict(s, members[i]))
  }

  function MembersFromDict(s: Spelling, items: seq<Json>): Option<seq<Member>> {
    if items == [] then Some([])
    else
      var before, last := MembersFromDict(s, items[..|items| - 1]), MemberFromDict(s, items[|items| - 1]);
      if before.None? || last.None? then None else Some(before.value + [last.value])
  }

  predicate AllValid(members: seq<Member>) { forall i :: 0 <= i < |members| ==> MemberValid(members[i]) }

  predicate FloatCosts(items: seq<Json>) {
    forall i :: 0 <= i < |items| ==> items[i].Object? && "cost_ceiling_usd" in items[i].fields && items[i].fields["cost_ceiling_usd"].Number?
  }

  lemma {:induction false} MembersRoundTrip(s: Spelling, members: seq<Member>)
    requires OneToOne(s) && AllValid(members)
    ensures MembersFromDict(s, MembersToDict(s, members)) == Some(members)
  {
    hide OneToOne, MemberValid, MemberToDict, MemberFromDict;
    if members != [] {
      var before, last := members[..|members| - 1], members[|members| - 1];
      MembersRoundTrip(s, before);
      MemberRoundTrip(s, last);
      assert MembersToDict(s, members)[..|members| - 1] == MembersToDict(s, before);
      assert members == before + [last];
    }
  }

  lemma {:induction false} MembersReprint(s: Spelling, items: seq<Json>)
    requires OneToOne(s) && MembersFromDict(s, items).Some?
    ensures AllValid(MembersFromDict(s, items).value) && |MembersFromDict(s, items).value| == |items|
    ensures FloatCosts(items) <==> MembersToDict(s, MembersFromDict(s, items).value) == items
  {
    hide OneToOne, MemberValid, MemberToDict, MemberFromDict;
    if items != [] {
      var before, last := items[..|items| - 1], items[|items| - 1];
      var read, m := MembersFromDict(s, before).value, MemberFromDict(s, last).value;
      MembersReprint(s, before);
      MemberReprint(s, last);
      CostIsThere(s, last);
      assert items == before + [last];
      assert FloatCosts(items) <==> FloatCosts(before) && last.fields["cost_ceiling_usd"].Number?;
      assert MembersToDict(s, read + [m]) == MembersToDict(s, read) + [MemberToDict(s, m)];
      LastApart(MembersToDict(s, read), MemberToDict(s, m), before, last);
    }
  }

  lemma LastApart(a: seq<Json>, x: Json, b: seq<Json>, y: Json)
    requires |a| == |b|
    ensures a + [x] == b + [y] <==> a == b && x == y
  {
    if a + [x] == b + [y] {
      assert a == (a + [x])[..|a|] && b == (b + [y])[..|b|];
      assert x == (a + [x])[|a|] && y == (b + [y])[|b|];
    }
  }

  lemma CostIsThere(s: Spelling, v: Json)
    requires MemberFromDict(s, v).Some?
    ensures v.Object? && "cost_ceiling_usd" in v.fields
  {
    hide SafeId;
  }

  // ----- manifests

  const MANIFEST_KEYS := {"manifest_digest", "probe_pack_digest", "verifier_graph_digest", "cost_policy_digest",
                          "per_candidate_cost_ceiling_usd", "aggregate_cost_ceiling_usd", "minimum_candidate_routes", "members",
                          "authority_issued", "network_activity", "execution_performed"}

  function ToDict(s: Spelling, h: Hash, m: Manifest): Json {
    K.Object(map["manifest_digest" := K.Text(s.spell(h(ManifestDoc(m)))), "probe_pack_digest" := K.Text(s.spell(m.pack)),
                 "verifier_graph_digest" := K.Text(s.spell(m.graph)), "cost_policy_digest" := K.Text(s.spell(m.policy)),
                 "per_candidate_cost_ceiling_usd" := K.Number(m.perCandidate),
                 "aggregate_cost_ceiling_usd" := K.Number(m.aggregate), "minimum_candidate_routes" := K.Whole(m.minimum),
                 "members" := K.List(MembersToDict(s, m.members)), "authority_issued" := m.authorityIssued,
                 "network_activity" := m.network, "execution_performed" := m.executed])
  }

  /** The fields a document gives the constructor. */
  function FieldsFromDict(s: Spelling, v: Json): Option<Manifest> {
    if !v.Object? || v.fields.Keys != MANIFEST_KEYS || !v.fields["members"].List? then None
    else
      var f := v.fields;
      var pack, graph := DigestIn(s, f["probe_pack_digest"]), DigestIn(s, f["verifier_graph_digest"]);
      var policy, minimum := DigestIn(s, f["cost_policy_digest"]), f["minimum_candidate_routes"];
      var perCandidate, aggregate := Cost(f["per_candidate_cost_ceiling_usd"]), Cost(f["aggregate_cost_ceiling_usd"]);
      var members := MembersFromDict(s, f["members"].items);
      if pack.None? || graph.None? || policy.None? || !minimum.Whole? then None
      else if perCandidate.None? || aggregate.None? || members.None? then None
      else Some(Manifest(pack.value, graph.value, policy.value, perCandidate.value, aggregate.value, minimum.whole, members.value,
                         f["authority_issued"], f["network_activity"], f["execution_performed"]))
  }

  function FromDict(s: Spelling, h: Hash, v: Json): Option<Manifest> {
    match FieldsFromDict(s, v)
    case None => None
    case Some(fields) =>
      match Construct(h, fields)
      case None => None
      case Some(m) => if v.fields["manifest_digest"] == K.Text(s.spell(h(ManifestDoc(m)))) then Some(m) else None
  }

  lemma ManifestFields(s: Spelling, h: Hash, m: Manifest)
    ensures ToDict(s, h, m).Object? && ToDict(s, h, m).fields.Keys == MANIFEST_KEYS
    ensures var f := ToDict(s, h, m).fields;
            && f["manifest_digest"] == K.Text(s.spell(h(ManifestDoc(m)))) && f["probe_pack_digest"] == K.Text(s.spell(m.pack))
            && f["verifier_graph_digest"] == K.Text(s.spell(m.graph)) && f["cost_policy_digest"] == K.Text(s.spell(m.policy))
            && f["per_candidate_cost_ceiling_usd"] == K.Number(m.perCandidate)
            && f["aggregate_cost_ceiling_usd"] == K.Number(m.aggregate) && f["minimum_candidate_routes"] == K.Whole(m.minimum)
            && f["members"] == K.List(MembersToDict(s, m.members)) && f["authority_issued"] == m.authorityIssued
            && f["network_activity"] == m.network && f["execution_performed"] == m.executed
  {
    hide MembersToDict;
  }

  lemma FieldsRoundTrip(s: Spelling, h: Hash, m: Manifest)
    requires OneToOne(s) && AllValid(m.members) && m.perCandidate >= 0.0 && m.aggregate >= 0.0
    ensures FieldsFromDict(s, ToDict(s, h, m)) == Some(m)
  {
    hide MembersToDict, MembersFromDict, AllValid, ToDict;
    ManifestFields(s, h, m);
    MembersRoundTrip(s, m.members);
  }

  /** What a document says of the costs and of the members' order when it is a print. */
  ghost predicate Printed(s: Spelling, v: Json, members: seq<Member>)
    requires FieldsFromDict(s, v).Some?
  {
    && v.fields["per_candidate_cost_ceiling_usd"].Number? && v.fields["aggregate_cost_ceiling_usd"].Number?
    && FloatCosts(v.fields["members"].items) && FieldsFromDict(s, v).value.members == members
  }

  lemma FieldsReprint(s: Spelling, h: Hash, v: Json, m: Manifest)
    requires OneToOne(s) && FieldsFromDict(s, v).Some? && m.(members := FieldsFromDict(s, v).value.members) == FieldsFromDict(s, v).value
    requires v.fields["manifest_digest"] == K.Text(s.spell(h(ManifestDoc(m)))) && AllValid(m.members)
    ensures Printed(s, v, m.members) <==> ToDict(s, h, m) == v
  {
    hide MembersToDict, MembersFromDict, AllValid, ToDict, FloatCosts;
    ManifestFields(s, h, m);
    MembersReprint(s, v.fields["members"].items);
    MembersRoundTrip(s, m.members);
    if Printed(s, v, m.members) {
      forall k | k in MANIFEST_KEYS ensures ToDict(s, h, m).fields[k] == v.fields[k] { }
      assert ToDict(s, h, m).fields == v.fields;
    }
  }

  lemma SortValid(members: seq<Member>)
    requires AllValid(members)
    ensures AllValid(Sort(members, MemberLess))
  {
    hide Sort, MemberLess, MemberValid;
    SortMembers(members, MemberLess);
    forall i | 0 <= i < |Sort(members, MemberLess)| ensures MemberValid(Sort(members, MemberLess)[i]) {
      assert Sort(members, MemberLess)[i] in members;
    }
  }

  /** What the constructor returns it accepts again unchanged. */
  lemma ConstructAgain(h: Hash, fields: Manifest)
    requires Construct(h, fields).Some?
    ensures Construct(h, Construct(h, fields).value) == Construct(h, fields)
  {
    hide Sort, MemberLess, DistinctKeys, ExactMatrix, Candidates, ContractMet, DigestsMet, TotalCeiling, Truthy;
    var m := Construct(h, fields).value;
    SortAgain(fields.members);
    assert Sorted(m) == m;
  }

  /** Reading the print of a constructed manifest gives it back, and with any other text as its digest it is refused. */
  lemma DocumentRoundTrip(s: Spelling, h: Hash, fields: Manifest, digest: string)
    requires OneToOne(s) && AllValid(fields.members) && Construct(h, fields).Some?
    ensures var m, printed := Construct(h, fields).value, ToDict(s, h, Construct(h, fields).value);
            && FromDict(s, h, printed) == Some(m)
            && FromDict(s, h, K.Object(printed.fields["manifest_digest" := K.Text(digest)]))
               == if digest == s.spell(h(ManifestDoc(m))) then Some(m) else None
  {
    hide Sort, AllValid, ToDict, FieldsFromDict, Construct;
    var m := Construct(h, fields).value;
    ConstructAgain(h, fields);
    CostsOf(h, fields);
    SortValid(fields.members);
    FieldsRoundTrip(s, h, m);
    ManifestFields(s, h, m);
    OtherDigest(s, ToDict(s, h, m), K.Text(digest));
  }

  lemma CostsOf(h: Hash, fields: Manifest)
    requires Construct(h, fields).Some?
    ensures var m := Construct(h, fields).value; m == Sorted(fields) && m.perCandidate >= 0.0 && m.aggregate >= 0.0
  {
    hide Sort, MemberLess, DistinctKeys, ExactMatrix, Candidates, ContractMet, DigestsMet, TotalCeiling, Truthy;
  }

  /** The fields read do not depend on the digest. */
  lemma OtherDigest(s: Spelling, v: Json, digest: Json)
    requires v.Object? && v.fields.Keys == MANIFEST_KEYS
    ensures FieldsFromDict(s, K.Object(v.fields["manifest_digest" := digest])) == FieldsFromDict(s, v)
  {
    hide MembersFromDict, DigestIn, Cost;
    assert v.fields["manifest_digest" := digest].Keys == v.fields.Keys;
  }

  /** Of every document that is read, the manifest prints and reads back as itself; and the print is the very document exactly
      when its costs were floats and its members in order. */
  lemma ReadThenPrint(s: Spelling, h: Hash, v: Json)
    requires OneToOne(s) && FromDict(s, h, v).Some?
    ensures var m := FromDict(s, h, v).value;
            && FromDict(s, h, ToDict(s, h, m)) == Some(m)
            && (ToDict(s, h, m) == v <==> Printed(s, v, m.members))
  {
    hide Sort, AllValid, ToDict, FieldsFromDict, Construct, Printed;
    var fields := FieldsFromDict(s, v).value;
    MembersRead(s, v);
    DocumentRoundTrip(s, h, fields, "");
    CostsOf(h, fields);
    SortValid(fields.members);
    FieldsReprint(s, h, v, FromDict(s, h, v).value);
  }

  lemma MembersRead(s: Spelling, v: Json)
    requires OneToOne(s) && FieldsFromDict(s, v).Some?
    ensures AllValid(FieldsFromDict(s, v).value.members)
  {
    hide MembersFromDict, AllValid, FloatCosts, DigestIn, Cost, OneToOne;
    MembersReprint(s, v.fields["members"].items);
  }

  // ----- what a document may be written like

  /** A member document with its cost written as a float. */
  function FloatCost(v: Json): Json {
    if v.Object? && "cost_ceiling_usd" in v.fields && Cost(v.fields["cost_ceiling_usd"]).Some?
    then K.Object(v.fields["cost_ceiling_usd" := K.Number(Cost(v.fields["cost_ceiling_usd"]).value)]) else v
  }

  function FloatCostsOf(items: seq<Json>): seq<Json> { seq(|items|, i requires 0 <= i < |items| => FloatCost(items[i])) }

  lemma FloatCostReads(s: Spelling, v: Json)
    ensures MemberFromDict(s, FloatCost(v)) == MemberFromDict(s, v)
  {
    hide SafeId;
    if v.Object? && "cost_ceiling_usd" in v.fields && Cost(v.fields["cost_ceiling_usd"]).Some? {
      assert FloatCost(v).fields.Keys == v.fields.Keys;
    }
  }

  lemma {:induction false} FloatCostsRead(s: Spelling, items: seq<Json>)
    ensures MembersFromDict(s, FloatCostsOf(items)) == MembersFromDict(s, items)
  {
    hide MemberFromDict, FloatCost;
    if items != [] {
      FloatCostsRead(s, items[..|items| - 1]);
      FloatCostReads(s, items[|items| - 1]);
      assert FloatCostsOf(items)[..|items| - 1] == FloatCostsOf(items[..|items| - 1]);
    }
  }

  /** What two lists of member documents that are read have in common. */
  predicate SameMembers(a: Option<seq<Member>>, b: Option<seq<Member>>) {
    a.Some? == b.Some? && (a.Some? ==> multiset(a.value) == multiset(b.value))
  }

  lemma {:induction false} MembersConcat(s: Spelling, a: seq<Json>, b: seq<Json>)
    ensures MembersFromDict(s, a + b)
         == if MembersFromDict(s, a).Some? && MembersFromDict(s, b).Some?
            then Some(MembersFromDict(s, a).value + MembersFromDict(s, b).value) else None
    decreases |b|
  {
    hide MemberFromDict;
    if b == [] {
      assert a + b == a;
      assert MembersFromDict(s, a).Some? ==> MembersFromDict(s, a).value + [] == MembersFromDict(s, a).value;
    } else {
      assert (a + b)[..|a + b| - 1] == a + b[..|b| - 1] && (a + b)[|a + b| - 1] == b[|b| - 1];
      MembersConcat(s, a, b[..|b| - 1]);
      if MembersFromDict(s, a).Some? && MembersFromDict(s, b).Some? {
        var last := MemberFromDict(s, b[|b| - 1]).value;
        assert MembersFromDict(s, a).value + (MembersFromDict(s, b[..|b| - 1]).value + [last])
            == (MembersFromDict(s, a).value + MembersFromDict(s, b[..|b| - 1]).value) + [last];
      }
    }
  }

  /** Reading does not look at the order. */
  lemma {:induction false} OrderDoesNotMatter(s: Spelling, a: seq<Json>, b: seq<Json>)
    requires multiset(a) == multiset(b)
    ensures SameMembers(MembersFromDict(s, a), MembersFromDict(s, b))
    decreases |a|
  {
    hide MembersFromDict, SameMembers;
    if a == [] {
      assert |b| == |multiset(b)| == 0;
      SameAsItself(MembersFromDict(s, a));
    } else {
      var before := a[..|a| - 1];
      var k := LastElsewhere(a, b);
      assert a == before + [a[|a| - 1]];
      OrderDoesNotMatter(s, before, b[..k] + b[k + 1..]);
      SameWithOneMore(s, before, b[..k], b[k + 1..], b[k]);
    }
  }

  lemma SameAsItself(a: Option<seq<Member>>)
    ensures SameMembers(a, a)
  {
  }

  lemma SameWithOneMore(s: Spelling, before: seq<Json>, left: seq<Json>, right: seq<Json>, x: Json)
    requires SameMembers(MembersFromDict(s, before), MembersFromDict(s, left + right))
    ensures SameMembers(MembersFromDict(s, before + [x]), MembersFromDict(s, left + [x] + right))
  {
    hide MembersFromDict;
    MembersConcat(s, before, [x]);
    MembersConcat(s, left, right);
    MembersConcat(s, left, [x]);
    MembersConcat(s, left + [x], right);
  }

  /** Members that a constructor would take in one order it takes in every order, to the same manifest. */
  lemma ConstructForgetsOrder(h: Hash, a: Manifest, b: Manifest)
    requires b == a.(members := b.members) && multiset(a.members) == multiset(b.members)
    ensures Construct(h, a) == Construct(h, b)
  {
    hide Sort, MemberLess, DistinctKeys, ExactMatrix, Candidates, ContractMet, DigestsMet, TotalCeiling, Truthy;
    SortPermutes(a.members, MemberLess);
    SortPermutes(b.members, MemberLess);
    if DistinctKeys(Sort(a.members, MemberLess)) { SameSort(a.members, b.members); }
    if DistinctKeys(Sort(b.members, MemberLess)) { SameSort(b.members, a.members); }
  }

  lemma SameSort(a: seq<Member>, b: seq<Member>)
    requires multiset(a) == multiset(b) && DistinctKeys(Sort(a, MemberLess))
    ensures Sort(a, MemberLess) == Sort(b, MemberLess)
  {
    hide Sort, StrictOrder, MemberLess, DistinctKeys, Ordered, Increasing;
    MemberOrder();
    SortPermutes(a, MemberLess);
    SortPermutes(b, MemberLess);
    DistinctPermuted(Sort(a, MemberLess), Sort(b, MemberLess));
    SortOrdered(a, MemberLess);
    SortOrdered(b, MemberLess);
    OrderedDistinct(Sort(a, MemberLess));
    OrderedDistinct(Sort(b, MemberLess));
    IncreasingUnique(Sort(a, MemberLess), Sort(b, MemberLess), MemberLess);
  }

  lemma DistinctPermuted(a: seq<Member>, b: seq<Member>)
    requires multiset(a) == multiset(b) && DistinctKeys(a)
    ensures DistinctKeys(b)
  {
    forall i, j | 0 <= i < j < |b| ensures !SameKey(b[i], b[j]) {
      if SameKey(b[i], b[j]) {
        assert b[i] in multiset(a) && b[j] in multiset(a);
        var k :| 0 <= k < |a| && a[k] == b[i];
        var l :| 0 <= l < |a| && a[l] == b[j];
        assert k == l && b[i] == b[j];
        CountTwo(b, i, j);
        var m := AnotherPlace(a, k);
      }
    }
  }

  lemma CountTwo(s: seq<Member>, i: nat, j: nat)
    requires i < j < |s| && s[i] == s[j]
    ensures multiset(s)[s[i]] >= 2
  {
    assert s == s[..j] + [s[j]] + s[j + 1..];
    assert s[..j][i] == s[i] && s[i] in multiset(s[..j]);
  }

  lemma AnotherPlace(s: seq<Member>, k: nat) returns (m: nat)
    requires k < |s| && multiset(s)[s[k]] >= 2
    ensures m < |s| && m != k && s[m] == s[k]
  {
    var x, rest := s[k], s[..k] + s[k + 1..];
    assert s == s[..k] + [x] + s[k + 1..];
    assert x in multiset(rest);
    var i :| 0 <= i < |rest| && rest[i] == x;
    m := if i < k then i else i + 1;
  }

  /** Two documents with the same fields, but for costs that are the same numbers written as integers or as floats, and for the
      order of the members. */
  predicate Alike(v: Json, v': Json) {
    && v.Object? && v'.Object? && v.fields.Keys == v'.fields.Keys == MANIFEST_KEYS
    && v.fields["members"].List? && v'.fields["members"].List?
    && (forall k :: k in MANIFEST_KEYS - {"members", "per_candidate_cost_ceiling_usd", "aggregate_cost_ceiling_usd"} ==>
          v'.fields[k] == v.fields[k])
    && Cost(v'.fields["per_candidate_cost_ceiling_usd"]) == Cost(v.fields["per_candidate_cost_ceiling_usd"])
    && Cost(v'.fields["aggregate_cost_ceiling_usd"]) == Cost(v.fields["aggregate_cost_ceiling_usd"])
    && multiset(FloatCostsOf(v'.fields["members"].items)) == multiset(FloatCostsOf(v.fields["members"].items))
  }

  lemma AlikeFields(s: Spelling, v: Json, v': Json)
    requires Alike(v, v')
    ensures FieldsFromDict(s, v).Some? <==> FieldsFromDict(s, v').Some?
    ensures FieldsFromDict(s, v).Some? ==>
              var a, b := FieldsFromDict(s, v).value, FieldsFromDict(s, v').value;
              b == a.(members := b.members) && multiset(a.members) == multiset(b.members)
  {
    hide MembersFromDict, FloatCostsOf, Cost, DigestIn;
    var a, b := v.fields["members"].items, v'.fields["members"].items;
    FloatCostsRead(s, a);
    FloatCostsRead(s, b);
    OrderDoesNotMatter(s, FloatCostsOf(a), FloatCostsOf(b));
  }

  /** Documents that are alike are read alike: to the same manifest, or not at all. */
  lemma SpellingDoesNotMatter(s: Spelling, h: Hash, v: Json, v': Json)
    requires Alike(v, v')
    ensures FromDict(s, h, v') == FromDict(s, h, v)
  {
    hide FieldsFromDict, Construct;
    AlikeFields(s, v, v');
    SameDigestField(v, v');
    if FieldsFromDict(s, v).Some? { ConstructForgetsOrder(h, FieldsFromDict(s, v).value, FieldsFromDict(s, v').value); }
  }

  lemma SameDigestField(v: Json, v': Json)
    requires Alike(v, v')
    ensures v'.fields["manifest_digest"] == v.fields["manifest_digest"]
  {
    hide FloatCostsOf, Cost;
  }

  // ----- built manifests

  /** What the constructors of cases and routes check. */
  ghost predicate PartsValid(pack: Pack, routes: seq<Route>) {
    && (forall i :: 0 <= i < |pack.cases| ==> SafeId(pack.cases[i].id, 128) && SafeId(pack.cases[i].context, 128))
    && (forall i :: 0 <= i < |routes| ==> routes[i].ceiling >= 0.0)
  }

  /** Whatever the builder returns survives its document. */
  lemma BuiltRoundTrip(s: Spelling, h: Hash, pack: Pack, routes: seq<Route>, graph: Digest, policy: Policy)
    requires OneToOne(s) && PartsValid(pack, routes) && Construct(h, Fields(h, pack, routes, graph, policy)).Some?
    ensures var m := Construct(h, Fields(h, pack, routes, graph, policy)).value; FromDict(s, h, ToDict(s, h, m)) == Some(m)
  {
    hide Sort, ToDict, FromDict, Construct, SafeId, Product;
    var fields, digest := Fields(h, pack, routes, graph, policy), h(PackDoc(pack));
    ProductAt(h, digest, graph, pack.cases, Sort(routes, RouteLess));
    SortMembers(routes, RouteLess);
    forall i | 0 <= i < |fields.members| ensures MemberValid(fields.members[i]) {
      assert FromPair(h, digest, graph, pack.cases, Sort(routes, RouteLess), fields.members[i]);
    }
    DocumentRoundTrip(s, h, fields, "");
  }
}
