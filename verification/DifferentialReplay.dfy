/** Comparing differential results (differential.py): exact matching against the manifest and the probe pack, grouping by blind
    candidate, ranking. */
module DifferentialReplay {
  import opened Text
  import opened Sorting
  import opened DifferentialManifest

  datatype Verdict = Passed | Failed

  datatype Result = Result(manifest: Digest, caseId: string, candidate: Digest, sha: Digest, verdict: Verdict, evidence: Digest, cost: real)

  datatype Evidence = Evidence(caseId: string, sha: Digest, verdict: Verdict, evidence: Digest)

  datatype Row = Row(candidate: Digest, passed: nat, failed: nat, cost: real, evidenceSet: Digest)

  datatype Comparison = Comparison(manifest: Digest, replay: Digest, rows: seq<Row>, aggregate: real)

  /** The other documents that digests are taken of. */
  datatype ReplayDocument = EvidenceSet(items: seq<Evidence>) | ReplayDoc(manifest: Digest, results: seq<Result>)

  datatype Key = Key(caseId: string, candidate: Digest)

  function KeyOf(r: Result): Key { Key(r.caseId, r.candidate) }

  function MemberKey(m: Member): Key { Key(m.caseId, m.candidate) }

  function Keys(results: seq<Result>): set<Key> { set i | 0 <= i < |results| :: KeyOf(results[i]) }

  function MemberKeys(members: seq<Member>): set<Key> { set i | 0 <= i < |members| :: MemberKey(members[i]) }

  function MemberCases(members: seq<Member>): set<string> { set i | 0 <= i < |members| :: members[i].caseId }

  predicate ResultLess(a: Result, b: Result) { LexLess(a.caseId, b.caseId) || (a.caseId == b.caseId && a.candidate < b.candidate) }

  /** Most passed first, then fewest failed, then cheapest, then by candidate. */
  predicate RowLess(a: Row, b: Row) {
    || a.passed > b.passed
    || (a.passed == b.passed
        && (a.failed < b.failed || (a.failed == b.failed && (a.cost < b.cost || (a.cost == b.cost && a.candidate < b.candidate)))))
  }

  // ----- the checks

  predicate MemberMatches(m: Member, c: Case) {
    m.task == c.task && m.context == c.context && m.graph == c.graph && m.ceiling <= c.ceiling + TOLERANCE
  }

  predicate MembersMatch(members: seq<Member>, cases: seq<Case>) {
    forall i, j :: 0 <= i < |members| && 0 <= j < |cases| && members[i].caseId == cases[j].id ==> MemberMatches(members[i], cases[j])
  }

  predicate PackMatches(h: Hash, m: Manifest, pack: Pack) {
    h(PackDoc(pack)) == m.pack && MemberCases(m.members) == CaseIds(pack.cases) && MembersMatch(m.members, pack.cases)
  }

  predicate ResultsExact(results: seq<Result>, m: Manifest) { |Keys(results)| == |results| && Keys(results) == MemberKeys(m.members) }

  predicate ResultAllowed(digest: Digest, members: seq<Member>, r: Result) {
    && r.manifest == digest
    && forall j :: 0 <= j < |members| && MemberKey(members[j]) == KeyOf(r) ==> r.cost <= members[j].ceiling + TOLERANCE
  }

  predicate AllAllowed(digest: Digest, members: seq<Member>, results: seq<Result>) {
    forall i :: 0 <= i < |results| ==> ResultAllowed(digest, members, results[i])
  }

  function TotalCost(results: seq<Result>): real {
    if results == [] then 0.0 else TotalCost(results[..|results| - 1]) + results[|results| - 1].cost
  }

  // ----- grouping

  /** The results of one candidate, in order. */
  function Of(results: seq<Result>, candidate: Digest): seq<Result> {
    if results == [] then []
    else
      var before, last := Of(results[..|results| - 1], candidate), results[|results| - 1];
      if last.candidate == candidate then before + [last] else before
  }

  /** The candidates in first-seen order: the dictionary's keys. */
  function FirstSeen(results: seq<Result>): seq<Digest> {
    if results == [] then []
    else
      var before, last := FirstSeen(results[..|results| - 1]), results[|results| - 1].candidate;
      if last in before then before else before + [last]
  }

  function Count(results: seq<Result>, verdict: Verdict): nat {
    if results == [] then 0
    else Count(results[..|results| - 1], verdict) + if results[|results| - 1].verdict == verdict then 1 else 0
  }

  function EvidenceOf(r: Result): Evidence { Evidence(r.caseId, r.sha, r.verdict, r.evidence) }

  function RowOf(e: ReplayDocument -> Digest, candidate: Digest, items: seq<Result>): Row {
    Row(candidate, Count(items, Passed), Count(items, Failed), TotalCost(items),
        e(EvidenceSet(seq(|items|, i requires 0 <= i < |items| => EvidenceOf(items[i])))))
  }

  function RowsOf(e: ReplayDocument -> Digest, candidates: seq<Digest>, results: seq<Result>): seq<Row> {
    seq(|candidates|, i requires 0 <= i < |candidates| => RowOf(e, candidates[i], Of(results, candidates[i])))
  }

  function CompareOrdered(h: Hash, e: ReplayDocument -> Digest, m: Manifest, ordered: seq<Result>): Option<Comparison> {
    var digest := h(ManifestDoc(m));
    if !AllAllowed(digest, m.members, ordered) || TotalCost(ordered) > m.aggregate + TOLERANCE then None
    else Some(Comparison(digest, e(ReplayDoc(digest, ordered)), Sort(RowsOf(e, FirstSeen(ordered), ordered), RowLess), TotalCost(ordered)))
  }

  /** The whole comparison; None stands for its ValueError. */
  function Compare(h: Hash, e: ReplayDocument -> Digest, m: Manifest, results: seq<Result>, pack: Pack): Option<Comparison> {
    if !PackMatches(h, m, pack) || !ResultsExact(results, m) then None
    else CompareOrdered(h, e, m, Sort(results, ResultLess))
  }

  /** The loops of the comparison, against its specification. */
  method CompareDifferentialResults(h: Hash, e: ReplayDocument -> Digest, m: Manifest, results: seq<Result>, pack: Pack)
      returns (comparison: Option<Comparison>)
    ensures comparison == Compare(h, e, m, results, pack)
  {
    hide PackMatches, ResultsExact, Sort, ResultAllowed, RowOf;
    if !PackMatches(h, m, pack) || !ResultsExact(results, m) { return None; }
    var ordered := Sort(results, ResultLess);
    var digest := h(ManifestDoc(m));
    var aggregate := 0.0;
    for i := 0 to |ordered|
      invariant aggregate == TotalCost(ordered[..i])
      invariant forall k :: 0 <= k < i ==> ResultAllowed(digest, m.members, ordered[k])
    {
      if !ResultAllowed(digest, m.members, ordered[i]) { return None; }
      assert ordered[..i + 1][..i] == ordered[..i];
      aggregate := aggregate + ordered[i].cost;
    }
    assert ordered[..|ordered|] == ordered;
    if aggregate > m.aggregate + TOLERANCE { return None; }
    var order, grouped := Group(ordered);
    var rows: seq<Row> := [];
    for i := 0 to |order|
      invariant rows == RowsOf(e, order, ordered)[..i]
    {
      rows := rows + [RowOf(e, order[i], grouped[order[i]])];
    }
    assert RowsOf(e, order, ordered)[..|order|] == RowsOf(e, order, ordered);
    return Some(Comparison(digest, e(ReplayDoc(digest, ordered)), Sort(rows, RowLess), aggregate));
  }

  /** The dictionary of lists, with its insertion order. */
  method Group(ordered: seq<Result>) returns (order: seq<Digest>, grouped: map<Digest, seq<Result>>)
    ensures order == FirstSeen(ordered)
    ensures forall c :: c in order ==> c in grouped && grouped[c] == Of(ordered, c)
  {
    order, grouped := [], map[];
    for i := 0 to |ordered|
      invariant order == FirstSeen(ordered[..i])
      invariant forall c :: c in order <==> c in grouped
      invariant forall c :: c in grouped ==> grouped[c] == Of(ordered[..i], c)
      invariant forall c :: c !in grouped ==> Of(ordered[..i], c) == []
    {
      var item := ordered[i];
      assert ordered[..i + 1][..i] == ordered[..i];
      if item.candidate !in grouped {
        order := order + [item.candidate];
        grouped := grouped[item.candidate := []];
      }
      grouped := grouped[item.candidate := grouped[item.candidate] + [item]];
    }
    assert ordered[..|ordered|] == ordered;
  }

  // ----- order independence

  lemma ResultOrder()
    ensures StrictOrder(ResultLess)
  {
    forall x: Result, y: Result, z: Result | ResultLess(x, y) && ResultLess(y, z) ensures ResultLess(x, z) {
      if LexLess(x.caseId, y.caseId) && LexLess(y.caseId, z.caseId) { LexTransitive(x.caseId, y.caseId, z.caseId); }
    }
    forall x: Result, y: Result | ResultLess(x, y) ensures !ResultLess(y, x) {
      if LexLess(x.caseId, y.caseId) { LexAsymmetric(x.caseId, y.caseId); }
      if LexLess(y.caseId, x.caseId) { LexAsymmetric(y.caseId, x.caseId); }
    }
  }

  lemma RowOrder()
    ensures StrictOrder(RowLess)
  {
  }

  lemma KeysSnoc(results: seq<Result>, r: Result)
    ensures Keys(results + [r]) == Keys(results) + {KeyOf(r)}
  {
    assert forall i :: 0 <= i < |results| ==> (results + [r])[i] == results[i];
    assert (results + [r])[|results|] == r;
  }

  /** As many keys as results means that no key repeats. */
  lemma {:induction false} CountedKeysDiffer(results: seq<Result>)
    ensures |Keys(results)| <= |results|
    ensures |Keys(results)| == |results| ==> forall i, j :: 0 <= i < j < |results| ==> KeyOf(results[i]) != KeyOf(results[j])
  {
    hide KeyOf;
    if results == [] {
      assert Keys(results) == {};
    } else {
      var before, last := results[..|results| - 1], results[|results| - 1];
      CountedKeysDiffer(before);
      KeysSnoc(before, last);
      assert before + [last] == results;
      if |Keys(results)| == |results| {
        assert KeyOf(last) !in Keys(before);
        forall i | 0 <= i < |before| ensures KeyOf(results[i]) != KeyOf(last) { assert KeyOf(before[i]) in Keys(before); }
        assert forall i :: 0 <= i < |before| ==> results[i] == before[i];
      }
    }
  }

  lemma CountedIsApart(results: seq<Result>)
    requires |Keys(results)| == |results|
    ensures Apart(results, ResultLess)
  {
    CountedKeysDiffer(results);
    forall i, j | 0 <= i < j < |results| ensures ResultLess(results[i], results[j]) || ResultLess(results[j], results[i]) {
      assert KeyOf(results[i]) != KeyOf(results[j]);
      LexTotal(results[i].caseId, results[j].caseId);
    }
  }

  lemma SameKeys(a: seq<Result>, b: seq<Result>)
    requires multiset(a) == multiset(b)
    ensures Keys(a) == Keys(b) && |a| == |b|
  {
    assert |a| == |multiset(a)| == |multiset(b)| == |b|;
    forall r ensures r in a <==> r in b { assert r in a <==> r in multiset(a); assert r in b <==> r in multiset(b); }
    KeysAreOfElements(a, b);
    KeysAreOfElements(b, a);
  }

  lemma KeysAreOfElements(a: seq<Result>, b: seq<Result>)
    requires forall r :: r in a ==> r in b
    ensures Keys(a) <= Keys(b)
  {
    forall k | k in Keys(a) ensures k in Keys(b) {
      var i :| 0 <= i < |a| && KeyOf(a[i]) == k;
      assert a[i] in b;
      var j :| 0 <= j < |b| && b[j] == a[i];
      assert KeyOf(b[j]) == k;
    }
  }

  /** The comparison, refusals included, does not depend on the order of its results. */
  lemma ComparisonForgetsOrder(h: Hash, e: ReplayDocument -> Digest, m: Manifest, a: seq<Result>, b: seq<Result>, pack: Pack)
    requires multiset(a) == multiset(b)
    ensures Compare(h, e, m, a, pack) == Compare(h, e, m, b, pack)
  {
    hide PackMatches, CompareOrdered, Sort, StrictOrder, Apart, Keys, ResultLess;
    SameKeys(a, b);
    if ResultsExact(a, m) {
      ResultOrder();
      CountedIsApart(a);
      CountedIsApart(b);
      SortForgetsOrder(a, b, ResultLess);
    }
  }

  // ----- the rows

  lemma {:induction false} FirstSeenAre(results: seq<Result>)
    ensures forall i, j :: 0 <= i < j < |FirstSeen(results)| ==> FirstSeen(results)[i] != FirstSeen(results)[j]
    ensures forall c :: c in FirstSeen(results) <==> exists i :: 0 <= i < |results| && results[i].candidate == c
  {
    if results != [] {
      var before, last := results[..|results| - 1], results[|results| - 1];
      FirstSeenAre(before);
      forall c ensures c in FirstSeen(results) <==> exists i :: 0 <= i < |results| && results[i].candidate == c {
        if c in FirstSeen(before) {
          var i :| 0 <= i < |before| && before[i].candidate == c;
          assert results[i].candidate == c;
        }
        if i :| 0 <= i < |results| && results[i].candidate == c {
          if i < |before| { assert before[i].candidate == c; }
        }
      }
    }
  }

  lemma {:induction false} CountsAddUp(items: seq<Result>)
    ensures Count(items, Passed) + Count(items, Failed) == |items|
  {
    if items != [] { CountsAddUp(items[..|items| - 1]); }
  }

  /** The cost of the groups adds up to the cost of the results. */
  function GroupCost(results: seq<Result>, candidates: seq<Digest>): real {
    if candidates == [] then 0.0
    else GroupCost(results, candidates[..|candidates| - 1]) + TotalCost(Of(results, candidates[|candidates| - 1]))
  }

  lemma OfLast(results: seq<Result>, c: Digest)
    requires results != []
    ensures var before, last := results[..|results| - 1], results[|results| - 1];
            TotalCost(Of(results, c)) == TotalCost(Of(before, c)) + if last.candidate == c then last.cost else 0.0
  {
    var before, last := results[..|results| - 1], results[|results| - 1];
    assert (Of(before, c) + [last])[..|Of(before, c)|] == Of(before, c);
  }

  /** One more result adds its cost to the groups that include its candidate. */
  lemma {:induction false} GroupCostStep(results: seq<Result>, candidates: seq<Digest>)
    requires results != [] && forall i, j :: 0 <= i < j < |candidates| ==> candidates[i] != candidates[j]
    ensures var before, last := results[..|results| - 1], results[|results| - 1];
            GroupCost(results, candidates) == GroupCost(before, candidates) + if last.candidate in candidates then last.cost else 0.0
    decreases |candidates|
  {
    if candidates != [] {
      var some, c := candidates[..|candidates| - 1], candidates[|candidates| - 1];
      GroupCostStep(results, some);
      OfLast(results, c);
      assert candidates == some + [c];
      assert results[|results| - 1].candidate in candidates <==> results[|results| - 1].candidate in some || results[|results| - 1].candidate == c;
    }
  }

  lemma {:induction false} NoGroup(results: seq<Result>, c: Digest)
    requires c !in FirstSeen(results)
    ensures Of(results, c) == []
  {
    if results != [] { NoGroup(results[..|results| - 1], c); }
  }

  lemma GroupCostSnoc(results: seq<Result>, candidates: seq<Digest>, c: Digest)
    ensures GroupCost(results, candidates + [c]) == GroupCost(results, candidates) + TotalCost(Of(results, c))
  {
    hide Of, TotalCost;
    assert (candidates + [c])[..|candidates|] == candidates;
  }

  lemma FirstSeenDistinct(results: seq<Result>)
    ensures forall i, j :: 0 <= i < j < |FirstSeen(results)| ==> FirstSeen(results)[i] != FirstSeen(results)[j]
  {
    FirstSeenAre(results);
  }

  lemma NothingSeen()
    ensures GroupCost([], FirstSeen([])) == TotalCost([])
  {
  }

  lemma NothingCosts()
    ensures TotalCost([]) == 0.0
  {
  }

  lemma FirstSeenSnoc(before: seq<Result>, last: Result)
    ensures FirstSeen(before + [last])
         == if last.candidate in FirstSeen(before) then FirstSeen(before) else FirstSeen(before) + [last.candidate]
  {
    assert (before + [last])[..|before|] == before;
  }

  lemma {:induction false} GroupsAddUp(results: seq<Result>)
    ensures GroupCost(results, FirstSeen(results)) == TotalCost(results)
  {
    hide Of, FirstSeen, GroupCost;
    if results == [] {
      NothingSeen();
    } else {
      var before, last := results[..|results| - 1], results[|results| - 1];
      GroupsAddUp(before);
      FirstSeenDistinct(results);
      FirstSeenSnoc(before, last);
      assert before + [last] == results;
      GroupCostStep(results, FirstSeen(results));
      assert last.candidate in FirstSeen(results);
      if last.candidate !in FirstSeen(before) {
        NoGroup(before, last.candidate);
        NothingCosts();
        GroupCostSnoc(before, FirstSeen(before), last.candidate);
      }
    }
  }

  function RowCost(rows: seq<Row>): real {
    if rows == [] then 0.0 else RowCost(rows[..|rows| - 1]) + rows[|rows| - 1].cost
  }

  lemma {:induction false} RowCostConcat(a: seq<Row>, b: seq<Row>)
    ensures RowCost(a + b) == RowCost(a) + RowCost(b)
    decreases |b|
  {
    if b == [] {
      assert a + b == a;
    } else {
      assert (a + b)[..|a + b| - 1] == a + b[..|b| - 1];
      RowCostConcat(a, b[..|b| - 1]);
    }
  }

  lemma {:induction false} InsertRowCost(x: Row, s: seq<Row>)
    ensures RowCost(Insert(x, s, RowLess)) == RowCost(s) + x.cost
  {
    hide RowLess;
    assert [x][..0] == [];
    if s == [] || RowLess(x, s[0]) {
      RowCostConcat([x], s);
    } else {
      InsertRowCost(x, s[1..]);
      RowCostConcat([s[0]], Insert(x, s[1..], RowLess));
      RowCostConcat([s[0]], s[1..]);
      assert s == [s[0]] + s[1..];
    }
  }

  lemma {:induction false} SortRowCost(s: seq<Row>)
    ensures RowCost(Sort(s, RowLess)) == RowCost(s)
  {
    hide RowLess;
    if s != [] {
      SortRowCost(s[..|s| - 1]);
      InsertRowCost(s[|s| - 1], Sort(s[..|s| - 1], RowLess));
    }
  }

  lemma {:induction false} RowsCost(e: ReplayDocument -> Digest, candidates: seq<Digest>, results: seq<Result>)
    ensures RowCost(RowsOf(e, candidates, results)) == GroupCost(results, candidates)
  {
    hide Of, TotalCost, Count;
    if candidates != [] {
      RowsCost(e, candidates[..|candidates| - 1], results);
      var rows := RowsOf(e, candidates, results);
      assert rows[..|rows| - 1] == RowsOf(e, candidates[..|candidates| - 1], results);
    }
  }

  // ----- a group has one result for each case

  lemma {:induction false} OfAre(results: seq<Result>, c: Digest)
    ensures forall r :: r in Of(results, c) <==> r in results && r.candidate == c
    ensures |Keys(results)| == |results| ==> |Keys(Of(results, c))| == |Of(results, c)|
  {
    hide KeyOf;
    if results == [] {
      assert Keys(results) == {};
    } else {
      var before, last := results[..|results| - 1], results[|results| - 1];
      OfAre(before, c);
      assert results == before + [last];
      KeysSnoc(before, last);
      KeysSnoc(Of(before, c), last);
      CountedKeysDiffer(before);
      KeysAreOfElements(Of(before, c), before);
    }
  }

  function CaseSet(results: seq<Result>): set<string> { set i | 0 <= i < |results| :: results[i].caseId }

  lemma {:induction false} CasesAreKeys(results: seq<Result>, c: Digest)
    requires forall r :: r in results ==> r.candidate == c
    ensures |CaseSet(results)| == |Keys(results)|
  {
    if results == [] {
      assert Keys(results) == {} && CaseSet(results) == {};
    } else {
      var before, last := results[..|results| - 1], results[|results| - 1];
      CasesAreKeys(before, c);
      KeysSnoc(before, last);
      assert before + [last] == results;
      CaseSetSnoc(before, last);
      CaseIffKey(before, c, last.caseId);
      assert last in results;
    }
  }

  lemma CaseSetSnoc(results: seq<Result>, r: Result)
    ensures CaseSet(results + [r]) == CaseSet(results) + {r.caseId}
  {
    assert forall i :: 0 <= i < |results| ==> (results + [r])[i] == results[i];
    assert (results + [r])[|results|] == r;
  }

  lemma CaseIffKey(results: seq<Result>, c: Digest, id: string)
    requires forall r :: r in results ==> r.candidate == c
    ensures id in CaseSet(results) <==> Key(id, c) in Keys(results)
  {
    if id in CaseSet(results) {
      var i :| 0 <= i < |results| && results[i].caseId == id;
      assert results[i] in results && KeyOf(results[i]) == Key(id, c);
    }
    if Key(id, c) in Keys(results) {
      var i :| 0 <= i < |results| && KeyOf(results[i]) == Key(id, c);
      assert results[i].caseId == id;
    }
  }

  // ----- what a comparison says

  /** A manifest as its constructor leaves it. */
  ghost predicate ManifestValid(h: Hash, m: Manifest) {
    ChecksBeforeAggregate(h, m) && WithinAggregate(m) && Increasing(m.members, MemberLess)
  }

  /** Every constructed manifest is valid. */
  lemma ConstructedIsValid(h: Hash, fields: Manifest)
    requires Construct(h, fields).Some?
    ensures ManifestValid(h, Construct(h, fields).value)
  {
    hide Sort, StrictOrder, MemberLess, Ordered, ExactMatrix, Candidates, ContractMet, DigestsMet, TotalCeiling;
    MemberOrder();
    SortOrdered(fields.members, MemberLess);
    OrderedDistinct(Sort(fields.members, MemberLess));
  }

  lemma SortedKeys(results: seq<Result>)
    ensures Keys(Sort(results, ResultLess)) == Keys(results) && |Sort(results, ResultLess)| == |results|
  {
    hide Sort, ResultLess, Keys;
    SortPermutes(results, ResultLess);
    SameKeys(results, Sort(results, ResultLess));
  }

  /** In an exact matrix over the cases of the probe pack, every candidate has every case. */
  lemma CandidateHasCases(members: seq<Member>, cases: seq<Case>, c: Digest)
    requires ExactMatrix(members) && MemberCases(members) == CaseIds(cases) && c in Candidates(members)
    ensures forall id :: id in CaseIds(cases) <==> Key(id, c) in MemberKeys(members)
  {
    var at :| 0 <= at < |members| && members[at].candidate == c;
    forall id ensures id in CaseIds(cases) <==> Key(id, c) in MemberKeys(members) {
      if id in CaseIds(cases) {
        var i :| 0 <= i < |members| && members[i].caseId == id;
        assert id in CasesOf(members, members[i].candidate) && id in CasesOf(members, members[at].candidate);
        var j :| 0 <= j < |members| && members[j].candidate == c && members[j].caseId == id;
        assert MemberKey(members[j]) == Key(id, c);
      }
      if Key(id, c) in MemberKeys(members) {
        var i :| 0 <= i < |members| && MemberKey(members[i]) == Key(id, c);
        assert members[i].caseId == id && id in MemberCases(members);
      }
    }
  }

  lemma {:induction false} CaseCount(cases: seq<Case>)
    requires DistinctCases(cases)
    ensures |CaseIds(cases)| == |cases|
  {
    if cases == [] {
      assert CaseIds(cases) == {};
    } else {
      var before, c := cases[..|cases| - 1], cases[|cases| - 1];
      CaseCount(before);
      assert forall i :: 0 <= i < |before| ==> before[i] == cases[i];
      assert c.id !in CaseIds(before);
      assert CaseIds(cases) == CaseIds(before) + {c.id};
    }
  }

  /** A group of exact results has one result for each case of the probe pack. */
  lemma GroupIsComplete(results: seq<Result>, members: seq<Member>, cases: seq<Case>, c: Digest)
    requires |Keys(results)| == |results| && Keys(results) == MemberKeys(members)
    requires ExactMatrix(members) && MemberCases(members) == CaseIds(cases) && DistinctCases(cases) && c in Candidates(members)
    ensures |Of(results, c)| == |cases|
  {
    hide ExactMatrix, Of, DistinctCases;
    var items := Of(results, c);
    OfAre(results, c);
    CasesAreKeys(items, c);
    CaseCount(cases);
    CandidateHasCases(members, cases, c);
    forall id ensures id in CaseSet(items) <==> id in CaseIds(cases) {
      CaseIffKey(items, c, id);
      if Key(id, c) in Keys(items) { KeysAreOfElements(items, results); }
      if Key(id, c) in Keys(results) {
        var i :| 0 <= i < |results| && KeyOf(results[i]) == Key(id, c);
        assert results[i] in items;
        var j :| 0 <= j < |items| && items[j] == results[i];
        assert KeyOf(items[j]) == Key(id, c);
      }
    }
    assert CaseSet(items) == CaseIds(cases);
  }

  /** The candidates seen are those of the manifest. */
  lemma SeenAreCandidates(results: seq<Result>, members: seq<Member>)
    requires Keys(results) == MemberKeys(members)
    ensures forall c :: c in FirstSeen(results) <==> c in Candidates(members)
  {
    FirstSeenAre(results);
    forall c ensures c in FirstSeen(results) <==> c in Candidates(members) {
      if c in FirstSeen(results) {
        var i :| 0 <= i < |results| && results[i].candidate == c;
        assert KeyOf(results[i]) in MemberKeys(members);
        var j :| 0 <= j < |members| && MemberKey(members[j]) == KeyOf(results[i]);
        assert members[j].candidate == c;
      }
      if c in Candidates(members) {
        var j :| 0 <= j < |members| && members[j].candidate == c;
        assert MemberKey(members[j]) in Keys(results);
        var i :| 0 <= i < |results| && KeyOf(results[i]) == MemberKey(members[j]);
        assert results[i].candidate == c;
      }
    }
  }

  lemma RowsApart(e: ReplayDocument -> Digest, candidates: seq<Digest>, results: seq<Result>)
    requires forall i, j :: 0 <= i < j < |candidates| ==> candidates[i] != candidates[j]
    ensures Apart(RowsOf(e, candidates, results), RowLess)
  {
    hide Of, TotalCost, Count;
    var rows := RowsOf(e, candidates, results);
    forall i, j | 0 <= i < j < |rows| ensures RowLess(rows[i], rows[j]) || RowLess(rows[j], rows[i]) {
      assert rows[i].candidate == candidates[i] && rows[j].candidate == candidates[j];
    }
  }

  /** Each candidate of the manifest has exactly one row, in which passed and failed make up the cases of the probe pack. */
  lemma RowsCoverCandidates(h: Hash, e: ReplayDocument -> Digest, fields: Manifest, m: Manifest, results: seq<Result>, pack: Pack)
    requires Construct(h, fields) == Some(m) && PackValid(pack) && Compare(h, e, m, results, pack).Some?
    ensures var rows := Compare(h, e, m, results, pack).value.rows;
            && RowsRight(rows, m, |pack.cases|)
            && (forall c :: c in Candidates(m.members) ==> HasRowOf(rows, c))
            && (forall i, j :: 0 <= i < j < |rows| ==> rows[i].candidate != rows[j].candidate)
  {
    hide Sort, ResultLess, RowLess, Keys, MemberKeys, Candidates, ExactMatrix, MemberCases, CaseIds;
    hide ContractMet, DigestsMet, Of;
    hide Increasing, StrictOrder, FirstSeen, TotalCost, MembersMatch, AllAllowed, WithinAggregate;
    hide DistinctCases, DistinctKeys, PackValid, Construct;
    ConstructedIsValid(h, fields);
    var ordered := Sort(results, ResultLess);
    var candidates := FirstSeen(ordered);
    SortedKeys(results);
    PackCasesDistinct(pack);
    SeenAreCandidates(ordered, m.members);
    FirstSeenAre(ordered);
    var unsorted := RowsOf(e, candidates, ordered);
    forall i | 0 <= i < |unsorted|
      ensures unsorted[i].candidate in Candidates(m.members) && unsorted[i].passed + unsorted[i].failed == |pack.cases|
    {
      GroupIsComplete(ordered, m.members, pack.cases, candidates[i]);
      CountsAddUp(Of(ordered, candidates[i]));
    }
    forall c | c in Candidates(m.members) ensures HasRowOf(Sort(unsorted, RowLess), c) {
      var i :| 0 <= i < |candidates| && candidates[i] == c;
      assert unsorted[i].candidate == c;
      SortedHasRow(unsorted, c);
    }
    SortIsInjective(unsorted);
    SortedRows(unsorted, m, |pack.cases|);
  }

  ghost predicate HasRowOf(rows: seq<Row>, c: Digest) { exists i :: 0 <= i < |rows| && rows[i].candidate == c }

  ghost predicate RowsRight(rows: seq<Row>, m: Manifest, cases: nat) {
    forall i :: 0 <= i < |rows| ==> rows[i].candidate in Candidates(m.members) && rows[i].passed + rows[i].failed == cases
  }

  /** Sorting the rows keeps what is said of each of them. */
  lemma SortedRows(unsorted: seq<Row>, m: Manifest, cases: nat)
    requires RowsRight(unsorted, m, cases)
    ensures RowsRight(Sort(unsorted, RowLess), m, cases)
  {
    hide Sort, RowLess, Candidates;
    SortMembers(unsorted, RowLess);
    forall i | 0 <= i < |Sort(unsorted, RowLess)|
      ensures var row := Sort(unsorted, RowLess)[i]; row.candidate in Candidates(m.members) && row.passed + row.failed == cases
    {
      assert Sort(unsorted, RowLess)[i] in unsorted;
    }
  }

  lemma SortedHasRow(unsorted: seq<Row>, c: Digest)
    requires HasRowOf(unsorted, c)
    ensures HasRowOf(Sort(unsorted, RowLess), c)
  {
    hide Sort, RowLess;
    SortMembers(unsorted, RowLess);
    var i :| 0 <= i < |unsorted| && unsorted[i].candidate == c;
    assert unsorted[i] in Sort(unsorted, RowLess);
    var j :| 0 <= j < |Sort(unsorted, RowLess)| && Sort(unsorted, RowLess)[j] == unsorted[i];
  }

  lemma SortIsInjective(unsorted: seq<Row>)
    requires forall i, j :: 0 <= i < j < |unsorted| ==> unsorted[i].candidate != unsorted[j].candidate
    ensures var rows := Sort(unsorted, RowLess);
            forall i, j :: 0 <= i < j < |rows| ==> rows[i].candidate != rows[j].candidate
  {
    hide Sort, StrictOrder;
    var rows := Sort(unsorted, RowLess);
    RowOrder();
    CandidatesApart(unsorted);
    SortIncreasing(unsorted, RowLess);
    SortMembers(unsorted, RowLess);
    forall i, j | 0 <= i < j < |rows| ensures rows[i].candidate != rows[j].candidate {
      assert RowLess(rows[i], rows[j]);
      assert rows[i] in unsorted && rows[j] in unsorted && rows[i] != rows[j];
    }
  }

  lemma CandidatesApart(rows: seq<Row>)
    requires forall i, j :: 0 <= i < j < |rows| ==> rows[i].candidate != rows[j].candidate
    ensures Apart(rows, RowLess)
  {
  }

  /** The rows are in strict ranking order and their costs add up to the aggregate, which is within the manifest's ceiling. */
  lemma RowsAreRanked(h: Hash, e: ReplayDocument -> Digest, m: Manifest, results: seq<Result>, pack: Pack)
    requires Compare(h, e, m, results, pack).Some?
    ensures var c := Compare(h, e, m, results, pack).value;
            && Increasing(c.rows, RowLess) && RowCost(c.rows) == c.aggregate && c.aggregate <= m.aggregate + TOLERANCE
            && c.aggregate == TotalCost(Sort(results, ResultLess))
  {
    hide Sort, ResultLess, RowLess, FirstSeen, TotalCost, RowCost, GroupCost, AllAllowed, PackMatches;
    hide ResultsExact, StrictOrder, RowsOf;
    var ordered := Sort(results, ResultLess);
    var unsorted := RowsOf(e, FirstSeen(ordered), ordered);
    RowOrder();
    FirstSeenAre(ordered);
    RowsApart(e, FirstSeen(ordered), ordered);
    SortIncreasing(unsorted, RowLess);
    SortRowCost(unsorted);
    RowsCost(e, FirstSeen(ordered), ordered);
    GroupsAddUp(ordered);
  }
}
