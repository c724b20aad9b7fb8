/** The differential run manifest (differential.py): the constructor's checks, the builder of an exact candidate and case
    matrix. A digest is the value of a function on the document it is taken of; of SHA-256 the proofs need only that it tells
    the descriptions of candidates apart. */
module DifferentialManifest {
  import opened Text
  import opened Sorting
  import K = PayloadKeys

  /** Digests; the order of equally long hexadecimal strings is the order of numbers. */
  type Digest = nat

  datatype Case = Case(id: string, task: Digest, graph: Digest, context: string, ceiling: real)

  datatype Pack = Pack(id: string, version: string, cases: seq<Case>)

  datatype Route = Route(qualification: Digest, proposal: Digest, route: Digest, ceiling: real)

  datatype Policy = Policy(perCandidate: real, aggregate: real, minimum: int)

  datatype Member = Member(caseId: string, candidate: Digest, digest: Digest, task: Digest, context: string, qualification: Digest,
                           proposal: Digest, route: Digest, graph: Digest, ceiling: real)

  datatype Manifest = Manifest(pack: Digest, graph: Digest, policy: Digest, perCandidate: real, aggregate: real, minimum: int,
                               members: seq<Member>, authorityIssued: K.Json, network: K.Json, executed: K.Json)

  /** What a digest is taken of; the constructors are the kinds that are mixed into it. */
  datatype Document =
    | PackDoc(pack: Pack)
    | PolicyDoc(policy: Policy)
    | CandidateDoc(packDigest: Digest, qualification: Digest, proposal: Digest, route: Digest)
    | MemberDoc(member: Member)
    | ManifestDoc(manifest: Manifest)

  type Hash = Document -> Digest

  /** No two descriptions of candidates have one digest. */
  ghost predicate Injective(h: Hash) { forall a: Document, b: Document :: a.CandidateDoc? && b.CandidateDoc? && h(a) == h(b) ==> a == b }

  // Such functions exist: the four digests of a description are paired into one number.
  function Triangle(n: nat): (t: nat)
    ensures t >= n
  {
    if n == 0 then 0 else Triangle(n - 1) + n
  }

  function Pair(a: nat, b: nat): nat { Triangle(a + b) + b }

  function Pairing(d: Document): Digest {
    if d.CandidateDoc? then Pair(d.packDigest, Pair(d.qualification, Pair(d.proposal, d.route))) else 0
  }

  lemma {:induction false} TriangleGrows(m: nat, n: nat)
    requires m < n
    ensures Triangle(m) + m < Triangle(n)
  {
    if m < n - 1 { TriangleGrows(m, n - 1); }
  }

  lemma PairDetermines(a: nat, b: nat, c: nat, d: nat)
    requires Pair(a, b) == Pair(c, d)
    ensures a == c && b == d
  {
    if a + b < c + d { TriangleGrows(a + b, c + d); }
    if c + d < a + b { TriangleGrows(c + d, a + b); }
  }

  lemma PairingIsInjective()
    ensures Injective(Pairing)
  {
    hide Pair;
    forall a: Document, b: Document | a.CandidateDoc? && b.CandidateDoc? && Pairing(a) == Pairing(b) ensures a == b {
      PairDetermines(a.packDigest, Pair(a.qualification, Pair(a.proposal, a.route)),
                     b.packDigest, Pair(b.qualification, Pair(b.proposal, b.route)));
      PairDetermines(a.qualification, Pair(a.proposal, a.route), b.qualification, Pair(b.proposal, b.route));
      PairDetermines(a.proposal, a.route, b.proposal, b.route);
    }
  }

  const NO := K.Flag(false)

  const TOLERANCE := 0.000000000001

  function CandidateOf(h: Hash, pack: Digest, qualification: Digest, proposal: Digest, route: Digest): Digest {
    h(CandidateDoc(pack, qualification, proposal, route))
  }

  /** The member's digest covers its other fields. */
  function MemberDigest(h: Hash, m: Member): Digest { h(MemberDoc(m.(digest := 0))) }

  predicate MemberLess(a: Member, b: Member) {
    LexLess(a.caseId, b.caseId) || (a.caseId == b.caseId && a.candidate < b.candidate)
  }

  predicate SameKey(a: Member, b: Member) { a.caseId == b.caseId && a.candidate == b.candidate }

  // ----- the constructor

  function Candidates(members: seq<Member>): set<Digest> { set i | 0 <= i < |members| :: members[i].candidate }

  function CasesOf(members: seq<Member>, candidate: Digest): set<string> {
    set i | 0 <= i < |members| && members[i].candidate == candidate :: members[i].caseId
  }

  predicate DistinctKeys(members: seq<Member>) { forall i, j :: 0 <= i < j < |members| ==> !SameKey(members[i], members[j]) }

  predicate ContractMet(m: Manifest) {
    forall i :: 0 <= i < |m.members| ==> m.members[i].graph == m.graph && m.members[i].ceiling <= m.perCandidate + TOLERANCE
  }

  predicate DigestsMet(h: Hash, m: Manifest) {
    forall i :: 0 <= i < |m.members| ==>
      var x := m.members[i];
      x.candidate == CandidateOf(h, m.pack, x.qualification, x.proposal, x.route) && x.digest == MemberDigest(h, x)
  }

  predicate ExactMatrix(members: seq<Member>) {
    forall i, j :: 0 <= i < |members| && 0 <= j < |members| ==> CasesOf(members, members[i].candidate) == CasesOf(members, members[j].candidate)
  }

  function TotalCeiling(members: seq<Member>): real {
    if members == [] then 0.0 else TotalCeiling(members[..|members| - 1]) + members[|members| - 1].ceiling
  }

  /** Whether Python counts a value as true: the constructor tests the three flags so, whatever their type. */
  predicate Truthy(v: K.Json) {
    match v
    case Null => false
    case Flag(flag) => flag
    case Number(number) => number != 0.0
    case Whole(whole) => whole != 0
    case Text(text) => text != ""
    case Blob(bytes) => bytes != []
    case List(items) => items != []
    case Object(fields) => fields != map[]
  }

  /** Every check of the constructor but the aggregate ceiling, on the sorted members. */
  predicate ChecksBeforeAggregate(h: Hash, m: Manifest) {
    && m.perCandidate >= 0.0 && m.aggregate >= 0.0 && 3 <= m.minimum <= 32
    && m.policy == h(PolicyDoc(Policy(m.perCandidate, m.aggregate, m.minimum)))
    && m.members != [] && DistinctKeys(m.members) && |Candidates(m.members)| >= m.minimum
    && ContractMet(m) && DigestsMet(h, m) && ExactMatrix(m.members)
    && !Truthy(m.authorityIssued) && !Truthy(m.network) && !Truthy(m.executed)
  }

  predicate WithinAggregate(m: Manifest) { TotalCeiling(m.members) <= m.aggregate + TOLERANCE }

  function Sorted(m: Manifest): Manifest { m.(members := Sort(m.members, MemberLess)) }

  /** The constructor; None stands for its ValueError. */
  function Construct(h: Hash, fields: Manifest): Option<Manifest> {
    var m := Sorted(fields);
    if ChecksBeforeAggregate(h, m) && WithinAggregate(m) then Some(m) else None
  }

  /** What every constructed manifest promises its readers. */
  lemma ConstructedMeans(h: Hash, fields: Manifest)
    requires Construct(h, fields).Some?
    ensures var m := Construct(h, fields).value;
            && m == fields.(members := m.members) && m.policy == h(PolicyDoc(Policy(m.perCandidate, m.aggregate, m.minimum)))
            && 3 <= m.minimum <= 32 && |set i | 0 <= i < |m.members| :: m.members[i].candidate| >= m.minimum
            && (forall i, j :: 0 <= i < j < |m.members| ==> (m.members[i].caseId, m.members[i].candidate) != (m.members[j].caseId, m.members[j].candidate))
            && (forall x :: x in m.members ==>
                  && x.graph == m.graph && x.ceiling <= m.perCandidate + 0.000000000001
                  && x.candidate == h(CandidateDoc(m.pack, x.qualification, x.proposal, x.route)) && x.digest == h(MemberDoc(x.(digest := 0))))
            && TotalCeiling(m.members) <= m.aggregate + 0.000000000001
            && !Truthy(m.authorityIssued) && !Truthy(m.network) && !Truthy(m.executed)
  {
    hide Sort, MemberLess, ExactMatrix, TotalCeiling, Truthy;
  }

  // ----- the builder

  /** What the probe pack's own constructor leaves: cases in strict order of their ids. */
  ghost predicate PackValid(p: Pack) {
    p.cases != [] && forall i, j :: 0 <= i < j < |p.cases| ==> LexLess(p.cases[i].id, p.cases[j].id)
  }

  predicate PolicyValid(p: Policy) { p.perCandidate >= 0.0 && p.aggregate >= 0.0 && 3 <= p.minimum <= 32 }

  predicate RouteLess(a: Route, b: Route) { a.route < b.route }

  predicate DistinctRoutes(routes: seq<Route>) {
    forall i, j :: 0 <= i < j < |routes| ==>
      routes[i].route != routes[j].route && routes[i].qualification != routes[j].qualification && routes[i].proposal != routes[j].proposal
  }

  predicate CostAllowed(c: Case, r: Route, p: Policy) {
    r.ceiling <= c.ceiling + TOLERANCE && r.ceiling <= p.perCandidate + TOLERANCE
  }

  function MemberOf(h: Hash, pack: Digest, graph: Digest, c: Case, r: Route): Member {
    var bare := Member(c.id, CandidateOf(h, pack, r.qualification, r.proposal, r.route), 0, c.task, c.context, r.qualification,
                       r.proposal, r.route, graph, r.ceiling);
    bare.(digest := MemberDigest(h, bare))
  }

  /** The members of one case, and of the first `n` cases. */
  function MembersOfCase(h: Hash, pack: Digest, graph: Digest, c: Case, routes: seq<Route>): seq<Member> {
    seq(|routes|, i requires 0 <= i < |routes| => MemberOf(h, pack, graph, c, routes[i]))
  }

  function Product(h: Hash, pack: Digest, graph: Digest, cases: seq<Case>, routes: seq<Route>): seq<Member> {
    if cases == [] then []
    else Product(h, pack, graph, cases[..|cases| - 1], routes) + MembersOfCase(h, pack, graph, cases[|cases| - 1], routes)
  }

  /** The builder's own checks. */
  predicate BuildChecks(pack: Pack, routes: seq<Route>, graph: Digest, policy: Policy) {
    && |routes| >= policy.minimum && DistinctRoutes(routes)
    && (forall i :: 0 <= i < |pack.cases| ==> pack.cases[i].graph == graph)
    && (forall i, j :: 0 <= i < |pack.cases| && 0 <= j < |routes| ==> CostAllowed(pack.cases[i], routes[j], policy))
  }

  /** The fields the builder passes to the constructor. */
  function Fields(h: Hash, pack: Pack, routes: seq<Route>, graph: Digest, policy: Policy): Manifest {
    Manifest(h(PackDoc(pack)), graph, h(PolicyDoc(policy)), policy.perCandidate, policy.aggregate, policy.minimum,
             Product(h, h(PackDoc(pack)), graph, pack.cases, Sort(routes, RouteLess)), NO, NO, NO)
  }

  /** The builder's loops, against its specification. */
  method Build(h: Hash, pack: Pack, routeCandidates: seq<Route>, graph: Digest, policy: Policy) returns (manifest: Option<Manifest>)
    ensures manifest == if BuildChecks(pack, Sort(routeCandidates, RouteLess), graph, policy)
                        then Construct(h, Fields(h, pack, routeCandidates, graph, policy)) else None
  {
    hide Construct, Sort;
    var routes := Sort(routeCandidates, RouteLess);
    if |routes| < policy.minimum || !DistinctRoutes(routes) { return None; }
    if exists i :: 0 <= i < |pack.cases| && pack.cases[i].graph != graph { return None; }
    var digest := h(PackDoc(pack));
    var members: seq<Member> := [];
    for i := 0 to |pack.cases|
      invariant members == Product(h, digest, graph, pack.cases[..i], routes)
      invariant forall k, j :: 0 <= k < i && 0 <= j < |routes| ==> CostAllowed(pack.cases[k], routes[j], policy)
    {
      var c := pack.cases[i];
      var row: seq<Member> := [];
      for j := 0 to |routes|
        invariant row == MembersOfCase(h, digest, graph, c, routes)[..j]
        invariant forall k :: 0 <= k < j ==> CostAllowed(c, routes[k], policy)
      {
        if !CostAllowed(c, routes[j], policy) { return None; }
        row := row + [MemberOf(h, digest, graph, c, routes[j])];
      }
      assert pack.cases[..i + 1][..i] == pack.cases[..i];
      members := members + row;
    }
    assert pack.cases[..|pack.cases|] == pack.cases;
    return Construct(h, Manifest(digest, graph, h(PolicyDoc(policy)), policy.perCandidate, policy.aggregate, policy.minimum, members,
                                 NO, NO, NO));
  }

  // ----- the product meets every check but the aggregate

  /** Where the member of a case and a route stands in the product. */
  lemma {:induction false} ProductAt(h: Hash, pack: Digest, graph: Digest, cases: seq<Case>, routes: seq<Route>)
    ensures |Product(h, pack, graph, cases, routes)| == |cases| * |routes|
    ensures forall m :: m in Product(h, pack, graph, cases, routes) <==> FromPair(h, pack, graph, cases, routes, m)
  {
    hide MemberOf;
    var all := Product(h, pack, graph, cases, routes);
    if cases == [] {
      assert all == [];
    } else {
      var before, c := cases[..|cases| - 1], cases[|cases| - 1];
      ProductAt(h, pack, graph, before, routes);
      assert |cases| * |routes| == |before| * |routes| + |routes|;
      forall m ensures m in all <==> FromPair(h, pack, graph, cases, routes, m) {
        FromPairSnoc(h, pack, graph, before, c, routes, m);
        assert cases == before + [c];
      }
    }
  }

  /** Some case and some route make this member. */
  ghost predicate FromPair(h: Hash, pack: Digest, graph: Digest, cases: seq<Case>, routes: seq<Route>, m: Member) {
    exists c, r :: c in cases && r in routes && m == MemberOf(h, pack, graph, c, r)
  }

  lemma FromPairSnoc(h: Hash, pack: Digest, graph: Digest, cases: seq<Case>, c: Case, routes: seq<Route>, m: Member)
    ensures FromPair(h, pack, graph, cases + [c], routes, m)
       <==> FromPair(h, pack, graph, cases, routes, m) || m in MembersOfCase(h, pack, graph, c, routes)
  {
    hide MemberOf;
    assert forall d :: d in cases + [c] <==> d in cases || d == c;
    if m in MembersOfCase(h, pack, graph, c, routes) {
      var i :| 0 <= i < |routes| && m == MembersOfCase(h, pack, graph, c, routes)[i];
      assert routes[i] in routes && m == MemberOf(h, pack, graph, c, routes[i]);
    }
    if r :| r in routes && m == MemberOf(h, pack, graph, c, r) {
      var i :| 0 <= i < |routes| && routes[i] == r;
      assert MembersOfCase(h, pack, graph, c, routes)[i] == m;
    }
  }

  ghost predicate DistinctCases(cases: seq<Case>) { forall i, j :: 0 <= i < j < |cases| ==> cases[i].id != cases[j].id }

  lemma PackCasesDistinct(pack: Pack)
    requires PackValid(pack)
    ensures DistinctCases(pack.cases)
  {
    forall i, j | 0 <= i < j < |pack.cases| ensures pack.cases[i].id != pack.cases[j].id {
      LexAsymmetric(pack.cases[i].id, pack.cases[j].id);
    }
  }

  lemma {:induction false} ProductDistinct(h: Hash, pack: Digest, graph: Digest, cases: seq<Case>, routes: seq<Route>)
    requires Injective(h) && DistinctCases(cases) && DistinctRoutes(routes)
    ensures DistinctKeys(Product(h, pack, graph, cases, routes))
  {
    hide MemberOf, Injective, DistinctRoutes;
    if cases != [] {
      var before, c := cases[..|cases| - 1], cases[|cases| - 1];
      var left, row := Product(h, pack, graph, before, routes), MembersOfCase(h, pack, graph, c, routes);
      ProductDistinct(h, pack, graph, before, routes);
      RowDistinct(h, pack, graph, c, routes);
      ProductAt(h, pack, graph, before, routes);
      forall i, j | 0 <= i < |left| && 0 <= j < |row| ensures !SameKey(left[i], row[j]) {
        assert FromPair(h, pack, graph, before, routes, left[i]);
        EarlierCase(h, pack, graph, before, c, routes, left[i], routes[j]);
      }
      DistinctConcat(left, row);
    }
  }

  lemma EarlierCase(h: Hash, pack: Digest, graph: Digest, before: seq<Case>, c: Case, routes: seq<Route>, m: Member, r: Route)
    requires FromPair(h, pack, graph, before, routes, m) && DistinctCases(before + [c])
    ensures !SameKey(m, MemberOf(h, pack, graph, c, r))
  {
    var d, r0 :| d in before && r0 in routes && m == MemberOf(h, pack, graph, d, r0);
    var i :| 0 <= i < |before| && before[i] == d;
    assert (before + [c])[i] == d && (before + [c])[|before|] == c;
  }

  lemma DistinctConcat(a: seq<Member>, b: seq<Member>)
    requires DistinctKeys(a) && DistinctKeys(b)
    requires forall i, j :: 0 <= i < |a| && 0 <= j < |b| ==> !SameKey(a[i], b[j])
    ensures DistinctKeys(a + b)
  {
    hide SameKey;
  }

  lemma RowDistinct(h: Hash, pack: Digest, graph: Digest, c: Case, routes: seq<Route>)
    requires Injective(h) && DistinctRoutes(routes)
    ensures DistinctKeys(MembersOfCase(h, pack, graph, c, routes))
  {
    forall i, j | 0 <= i < j < |routes|
      ensures CandidateOf(h, pack, routes[i].qualification, routes[i].proposal, routes[i].route)
           != CandidateOf(h, pack, routes[j].qualification, routes[j].proposal, routes[j].route)
    {
      CandidatesDiffer(h, pack, routes[i], routes[j]);
    }
  }

  lemma CandidatesDiffer(h: Hash, pack: Digest, a: Route, b: Route)
    requires Injective(h) && a.route != b.route
    ensures CandidateOf(h, pack, a.qualification, a.proposal, a.route) != CandidateOf(h, pack, b.qualification, b.proposal, b.route)
  {
    var x, y := CandidateDoc(pack, a.qualification, a.proposal, a.route), CandidateDoc(pack, b.qualification, b.proposal, b.route);
    assert x != y;
    assert h(x) == h(y) ==> x == y;
  }

  // ----- order

  lemma MemberOrder()
    ensures StrictOrder(MemberLess)
  {
    forall x: Member, y: Member, z: Member | MemberLess(x, y) && MemberLess(y, z) ensures MemberLess(x, z) {
      if LexLess(x.caseId, y.caseId) && LexLess(y.caseId, z.caseId) { LexTransitive(x.caseId, y.caseId, z.caseId); }
    }
    forall x: Member, y: Member | MemberLess(x, y) ensures !MemberLess(y, x) {
      if LexLess(x.caseId, y.caseId) { LexAsymmetric(x.caseId, y.caseId); }
      if LexLess(y.caseId, x.caseId) { LexAsymmetric(y.caseId, x.caseId); }
    }
  }

  lemma DistinctIsApart(members: seq<Member>)
    requires DistinctKeys(members)
    ensures Apart(members, MemberLess)
  {
    forall i, j | 0 <= i < j < |members| ensures MemberLess(members[i], members[j]) || MemberLess(members[j], members[i]) {
      LexTotal(members[i].caseId, members[j].caseId);
    }
  }

  lemma IncreasingIsDistinct(members: seq<Member>)
    requires Increasing(members, MemberLess)
    ensures DistinctKeys(members)
  {
    forall i, j | 0 <= i < j < |members| ensures !SameKey(members[i], members[j]) {
      if LexLess(members[i].caseId, members[j].caseId) { LexAsymmetric(members[i].caseId, members[j].caseId); }
    }
  }

  lemma SortedDistinct(members: seq<Member>)
    requires DistinctKeys(members)
    ensures Increasing(Sort(members, MemberLess), MemberLess) && DistinctKeys(Sort(members, MemberLess))
  {
    hide Sort, StrictOrder, MemberLess, DistinctKeys, Apart;
    MemberOrder();
    DistinctIsApart(members);
    SortIncreasing(members, MemberLess);
    IncreasingIsDistinct(Sort(members, MemberLess));
  }

  // ----- matrix

  function CaseIds(cases: seq<Case>): set<string> { set i | 0 <= i < |cases| :: cases[i].id }

  lemma MatrixOfProduct(h: Hash, pack: Digest, graph: Digest, cases: seq<Case>, routes: seq<Route>, members: seq<Member>, at: nat)
    requires Injective(h) && at < |members|
    requires forall m :: m in members <==> FromPair(h, pack, graph, cases, routes, m)
    ensures CasesOf(members, members[at].candidate) == CaseIds(cases)
  {
    hide Injective;
    assert FromPair(h, pack, graph, cases, routes, members[at]);
    var c0, r0 :| c0 in cases && r0 in routes && members[at] == MemberOf(h, pack, graph, c0, r0);
    var mine := CasesOf(members, members[at].candidate);
    forall id | id in mine ensures id in CaseIds(cases) {
      var i :| 0 <= i < |members| && members[i].candidate == members[at].candidate && members[i].caseId == id;
      assert FromPair(h, pack, graph, cases, routes, members[i]);
      CaseIdKnown(h, pack, graph, cases, routes, members[i]);
    }
    forall id | id in CaseIds(cases) ensures id in mine {
      var i :| 0 <= i < |cases| && cases[i].id == id;
      var m := MemberOf(h, pack, graph, cases[i], r0);
      assert cases[i] in cases && FromPair(h, pack, graph, cases, routes, m);
      var k :| 0 <= k < |members| && members[k] == m;
      assert members[k].candidate == members[at].candidate && members[k].caseId == id;
    }
  }

  lemma CaseIdKnown(h: Hash, pack: Digest, graph: Digest, cases: seq<Case>, routes: seq<Route>, m: Member)
    requires FromPair(h, pack, graph, cases, routes, m)
    ensures m.caseId in CaseIds(cases)
  {
    var c, r :| c in cases && r in routes && m == MemberOf(h, pack, graph, c, r);
    var i :| 0 <= i < |cases| && cases[i] == c;
  }

  /** As many candidates as routes. */
  lemma CandidateCount(h: Hash, pack: Digest, graph: Digest, cases: seq<Case>, routes: seq<Route>, members: seq<Member>)
    requires Injective(h) && cases != [] && DistinctRoutes(routes)
    requires forall m :: m in members <==> FromPair(h, pack, graph, cases, routes, m)
    ensures |Candidates(members)| >= |routes|
  {
    hide Injective, DistinctRoutes;
    RouteCandidates(h, pack, routes);
    var mine := set i | 0 <= i < |routes| :: CandidateOf(h, pack, routes[i].qualification, routes[i].proposal, routes[i].route);
    forall id | id in mine ensures id in Candidates(members) {
      var i :| 0 <= i < |routes| && id == CandidateOf(h, pack, routes[i].qualification, routes[i].proposal, routes[i].route);
      var m := MemberOf(h, pack, graph, cases[0], routes[i]);
      assert cases[0] in cases && routes[i] in routes && FromPair(h, pack, graph, cases, routes, m);
      var k :| 0 <= k < |members| && members[k] == m;
      assert members[k].candidate == id;
    }
    SubsetSize(mine, Candidates(members));
  }

  lemma {:induction false} SubsetSize(a: set<Digest>, b: set<Digest>)
    requires a <= b
    ensures |a| <= |b|
  {
    assert b == a + (b - a);
  }

  lemma {:induction false} RouteCandidates(h: Hash, pack: Digest, routes: seq<Route>)
    requires Injective(h) && DistinctRoutes(routes)
    ensures |set i | 0 <= i < |routes| :: CandidateOf(h, pack, routes[i].qualification, routes[i].proposal, routes[i].route)| == |routes|
  {
    hide Injective, CandidateOf;
    var all := set i | 0 <= i < |routes| :: CandidateOf(h, pack, routes[i].qualification, routes[i].proposal, routes[i].route);
    if routes == [] {
      assert all == {};
    } else {
      var before, r := routes[..|routes| - 1], routes[|routes| - 1];
      RouteCandidates(h, pack, before);
      var some := set i | 0 <= i < |before| :: CandidateOf(h, pack, before[i].qualification, before[i].proposal, before[i].route);
      var last := CandidateOf(h, pack, r.qualification, r.proposal, r.route);
      forall i | 0 <= i < |before| ensures CandidateOf(h, pack, before[i].qualification, before[i].proposal, before[i].route) != last {
        CandidatesDiffer(h, pack, before[i], r);
      }
      assert forall i :: 0 <= i < |before| ==> before[i] == routes[i];
      assert all == some + {last};
    }
  }

  // ----- the two directions of the builder

  /** Once the builder's own checks pass, the members are exactly the product of cases and routes, and every check of the
      constructor holds but for the aggregate ceiling. */
  lemma ProductMeetsChecks(h: Hash, pack: Pack, routeCandidates: seq<Route>, graph: Digest, policy: Policy)
    requires Injective(h) && PackValid(pack) && PolicyValid(policy)
    requires BuildChecks(pack, Sort(routeCandidates, RouteLess), graph, policy)
    ensures ChecksBeforeAggregate(h, Sorted(Fields(h, pack, routeCandidates, graph, policy)))
    ensures var m := Sorted(Fields(h, pack, routeCandidates, graph, policy));
            && |m.members| == |pack.cases| * |routeCandidates|
            && forall x :: x in m.members <==> FromPair(h, h(PackDoc(pack)), graph, pack.cases, routeCandidates, x)
  {
    hide Sort, Injective, MemberOf, DistinctRoutes, DistinctKeys, ExactMatrix, Candidates, ContractMet;
    hide DigestsMet, Product;
    var routes, digest := Sort(routeCandidates, RouteLess), h(PackDoc(pack));
    var fields := Fields(h, pack, routeCandidates, graph, policy);
    var m := Sorted(fields);
    PackCasesDistinct(pack);
    ProductDistinct(h, digest, graph, pack.cases, routes);
    SortedDistinct(fields.members);
    ProductAt(h, digest, graph, pack.cases, routes);
    SortMembers(fields.members, MemberLess);
    SortPermutes(fields.members, MemberLess);
    SortMembers(routeCandidates, RouteLess);
    SortPermutes(routeCandidates, RouteLess);
    assert forall x :: x in m.members <==> FromPair(h, digest, graph, pack.cases, routes, x);
    SamePairs(h, digest, graph, pack.cases, routes, routeCandidates);
    CandidateCount(h, digest, graph, pack.cases, routes, m.members);
    ProductContract(h, m, pack, routes, graph, policy);
    ProductMatrix(h, digest, graph, pack.cases, routes, m.members);
    NotEmpty(|pack.cases|, |routes|);
  }

  lemma NotEmpty(a: nat, b: nat)
    requires a > 0 && b > 0
    ensures a * b > 0
  {
  }

  lemma SamePairs(h: Hash, pack: Digest, graph: Digest, cases: seq<Case>, a: seq<Route>, b: seq<Route>)
    requires forall r :: r in a <==> r in b
    ensures forall m :: FromPair(h, pack, graph, cases, a, m) <==> FromPair(h, pack, graph, cases, b, m)
  {
    hide MemberOf;
  }

  lemma ProductContract(h: Hash, m: Manifest, pack: Pack, routes: seq<Route>, graph: Digest, policy: Policy)
    requires BuildChecks(pack, routes, graph, policy) && m.graph == graph && m.perCandidate == policy.perCandidate
    requires m.pack == h(PackDoc(pack)) && forall x :: x in m.members <==> FromPair(h, m.pack, graph, pack.cases, routes, x)
    ensures ContractMet(m) && DigestsMet(h, m)
  {
    hide DistinctRoutes;
    forall i | 0 <= i < |m.members|
      ensures var x := m.members[i];
              && x.graph == m.graph && x.ceiling <= m.perCandidate + TOLERANCE && x.digest == MemberDigest(h, x)
              && x.candidate == CandidateOf(h, m.pack, x.qualification, x.proposal, x.route)
    {
      assert FromPair(h, m.pack, graph, pack.cases, routes, m.members[i]);
      var c, r :| c in pack.cases && r in routes && m.members[i] == MemberOf(h, m.pack, graph, c, r);
      var a :| 0 <= a < |pack.cases| && pack.cases[a] == c;
      var b :| 0 <= b < |routes| && routes[b] == r;
      assert CostAllowed(pack.cases[a], routes[b], policy);
      MemberOfRight(h, m.pack, graph, c, r);
    }
  }

  lemma MemberOfRight(h: Hash, pack: Digest, graph: Digest, c: Case, r: Route)
    ensures var x := MemberOf(h, pack, graph, c, r); x.digest == MemberDigest(h, x)
  {
    var x := MemberOf(h, pack, graph, c, r);
    assert x.(digest := 0) == x.(digest := 0).(digest := 0);
  }

  lemma ProductMatrix(h: Hash, pack: Digest, graph: Digest, cases: seq<Case>, routes: seq<Route>, members: seq<Member>)
    requires Injective(h) && forall m :: m in members <==> FromPair(h, pack, graph, cases, routes, m)
    ensures ExactMatrix(members)
  {
    hide Injective, CasesOf, MemberOf;
    forall i | 0 <= i < |members| ensures CasesOf(members, members[i].candidate) == CaseIds(cases) {
      MatrixOfProduct(h, pack, graph, cases, routes, members, i);
    }
  }

  /** Each member of the product says of its case and its route what they say of themselves. */
  lemma MembersSay(h: Hash, pack: Digest, graph: Digest, cases: seq<Case>, routes: seq<Route>, m: Member)
    requires FromPair(h, pack, graph, cases, routes, m)
    ensures exists c, r :: c in cases && r in routes && m.caseId == c.id && m.task == c.task && m.context == c.context
                           && m.qualification == r.qualification && m.proposal == r.proposal && m.route == r.route
                           && m.ceiling == r.ceiling && m.graph == graph && m.candidate == h(CandidateDoc(pack, r.qualification, r.proposal, r.route))
  {
  }

  /** The builder succeeds exactly when its own checks pass and the product of the number of cases and the sum of the route
      ceilings is within the aggregate. */
  lemma BuildSucceedsIff(h: Hash, pack: Pack, routeCandidates: seq<Route>, graph: Digest, policy: Policy)
    requires Injective(h) && PackValid(pack) && PolicyValid(policy)
    requires BuildChecks(pack, Sort(routeCandidates, RouteLess), graph, policy)
    ensures Construct(h, Fields(h, pack, routeCandidates, graph, policy)).Some?
       <==> |pack.cases| as real * RouteCeilings(Sort(routeCandidates, RouteLess)) <= policy.aggregate + TOLERANCE
  {
    hide Sort, Injective, BuildChecks, ChecksBeforeAggregate, Product, TotalCeiling, RouteCeilings;
    ProductMeetsChecks(h, pack, routeCandidates, graph, policy);
    var fields := Fields(h, pack, routeCandidates, graph, policy);
    SortTotal(fields.members);
    ProductTotal(h, h(PackDoc(pack)), graph, pack.cases, Sort(routeCandidates, RouteLess));
  }

  function RouteCeilings(routes: seq<Route>): real {
    if routes == [] then 0.0 else RouteCeilings(routes[..|routes| - 1]) + routes[|routes| - 1].ceiling
  }

  lemma {:induction false} TotalConcat(a: seq<Member>, b: seq<Member>)
    ensures TotalCeiling(a + b) == TotalCeiling(a) + TotalCeiling(b)
    decreases |b|
  {
    if b == [] {
      assert a + b == a;
    } else {
      assert (a + b)[..|a + b| - 1] == a + b[..|b| - 1];
      TotalConcat(a, b[..|b| - 1]);
    }
  }

  lemma {:induction false} InsertTotal(x: Member, s: seq<Member>)
    ensures TotalCeiling(Insert(x, s, MemberLess)) == TotalCeiling(s) + x.ceiling
  {
    hide MemberLess, TotalCeiling;
    OneTotal(x);
    if s == [] || MemberLess(x, s[0]) {
      TotalConcat([x], s);
    } else {
      InsertTotal(x, s[1..]);
      TotalConcat([s[0]], Insert(x, s[1..], MemberLess));
      TotalConcat([s[0]], s[1..]);
      assert s == [s[0]] + s[1..];
    }
  }

  lemma OneTotal(x: Member)
    ensures TotalCeiling([x]) == x.ceiling
  {
    assert [x][..0] == [];
  }

  /** Sorting does not change the sum. */
  lemma {:induction false} SortTotal(s: seq<Member>)
    ensures TotalCeiling(Sort(s, MemberLess)) == TotalCeiling(s)
  {
    hide MemberLess;
    if s != [] {
      SortTotal(s[..|s| - 1]);
      InsertTotal(s[|s| - 1], Sort(s[..|s| - 1], MemberLess));
    }
  }

  lemma {:induction false} RowTotal(h: Hash, pack: Digest, graph: Digest, c: Case, routes: seq<Route>)
    ensures TotalCeiling(MembersOfCase(h, pack, graph, c, routes)) == RouteCeilings(routes)
  {
    if routes != [] {
      var before := routes[..|routes| - 1];
      RowTotal(h, pack, graph, c, before);
      assert MembersOfCase(h, pack, graph, c, routes)[..|before|] == MembersOfCase(h, pack, graph, c, before);
    }
  }

  lemma {:induction false} ProductTotal(h: Hash, pack: Digest, graph: Digest, cases: seq<Case>, routes: seq<Route>)
    ensures TotalCeiling(Product(h, pack, graph, cases, routes)) == |cases| as real * RouteCeilings(routes)
  {
    hide MembersOfCase, TotalCeiling, RouteCeilings;
    if cases == [] {
      NoTotal();
    } else {
      var before := cases[..|cases| - 1];
      ProductTotal(h, pack, graph, before, routes);
      RowTotal(h, pack, graph, cases[|cases| - 1], routes);
      TotalConcat(Product(h, pack, graph, before, routes), MembersOfCase(h, pack, graph, cases[|cases| - 1], routes));
      assert |cases| as real * RouteCeilings(routes) == |before| as real * RouteCeilings(routes) + RouteCeilings(routes);
    }
  }

  lemma NoTotal()
    ensures TotalCeiling([]) == 0.0
  {
  }

  // ----- sorting again

  lemma SortAgain(members: seq<Member>)
    requires DistinctKeys(Sort(members, MemberLess))
    ensures Sort(Sort(members, MemberLess), MemberLess) == Sort(members, MemberLess)
  {
    hide Sort, StrictOrder, MemberLess, DistinctKeys, Ordered;
    MemberOrder();
    SortOrdered(members, MemberLess);
    OrderedDistinct(Sort(members, MemberLess));
    SortOfIncreasing(Sort(members, MemberLess), MemberLess);
  }

  lemma OrderedDistinct(members: seq<Member>)
    requires Ordered(members, MemberLess) && DistinctKeys(members)
    ensures Increasing(members, MemberLess)
  {
    forall i, j | 0 <= i < j < |members| ensures MemberLess(members[i], members[j]) {
      LexTotal(members[i].caseId, members[j].caseId);
    }
  }
}
