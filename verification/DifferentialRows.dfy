/** What a comparison of differential results says (differential.py), in terms of the results themselves. */
module DifferentialRows {
  import opened Text
  import opened Sorting
  import opened DifferentialManifest
  import opened DifferentialReplay

  /** The cases in which a candidate got a verdict. */
  ghost function CasesWith(results: seq<Result>, c: Digest, verdict: Verdict): set<string> {
    set r | r in results && r.candidate == c && r.verdict == verdict :: r.caseId
  }

  /** What a result costs one candidate, and all of them together. */
  function Share(r: Result, c: Digest): real { if r.candidate == c then r.cost else 0.0 }

  function CostTo(results: seq<Result>, c: Digest): real {
    if results == [] then 0.0 else CostTo(results[..|results| - 1], c) + Share(results[|results| - 1], c)
  }

  lemma {:induction false} CountIsCases(items: seq<Result>, c: Digest, verdict: Verdict)
    requires forall i, j :: 0 <= i < j < |items| ==> items[i].caseId != items[j].caseId
    requires forall r :: r in items ==> r.candidate == c
    ensures Count(items, verdict) == |CasesWith(items, c, verdict)|
  {
    hide CasesWith;
    if items == [] {
      NoCases(c, verdict);
    } else {
      var before, last := items[..|items| - 1], items[|items| - 1];
      assert items == before + [last] && last in items;
      CountIsCases(before, c, verdict);
      CasesSnoc(before, last, c, verdict);
      forall r | r in before ensures r.caseId != last.caseId {
        var i :| 0 <= i < |before| && before[i] == r;
        assert items[i] == r;
      }
      NotAmong(before, c, verdict, last.caseId);
    }
  }

  lemma NoCases(c: Digest, verdict: Verdict)
    ensures CasesWith([], c, verdict) == {}
  {
  }

  lemma CasesSnoc(before: seq<Result>, last: Result, c: Digest, verdict: Verdict)
    requires last.candidate == c
    ensures CasesWith(before + [last], c, verdict)
         == CasesWith(before, c, verdict) + if last.verdict == verdict then {last.caseId} else {}
  {
    assert forall r :: r in before + [last] <==> r in before || r == last;
  }

  lemma NotAmong(results: seq<Result>, c: Digest, verdict: Verdict, id: string)
    requires forall r :: r in results ==> r.caseId != id
    ensures id !in CasesWith(results, c, verdict)
  {
  }

  lemma {:induction false} CostConcat(a: seq<Result>, b: seq<Result>, c: Digest)
    ensures CostTo(a + b, c) == CostTo(a, c) + CostTo(b, c)
    decreases |b|
  {
    if b == [] {
      assert a + b == a;
    } else {
      assert (a + b)[..|a + b| - 1] == a + b[..|b| - 1];
      CostConcat(a, b[..|b| - 1], c);
    }
  }

  lemma {:induction false} InsertCost(x: Result, s: seq<Result>, c: Digest)
    ensures CostTo(Insert(x, s, ResultLess), c) == CostTo(s, c) + Share(x, c)
  {
    hide ResultLess, CostTo, Share;
    OneCost(x, c);
    if s == [] || ResultLess(x, s[0]) {
      CostConcat([x], s, c);
    } else {
      InsertCost(x, s[1..], c);
      CostConcat([s[0]], Insert(x, s[1..], ResultLess), c);
      CostConcat([s[0]], s[1..], c);
      assert s == [s[0]] + s[1..];
    }
  }

  lemma OneCost(x: Result, c: Digest)
    ensures CostTo([x], c) == Share(x, c)
  {
    assert [x][..0] == [];
  }

  lemma {:induction false} SortCost(s: seq<Result>, c: Digest)
    ensures CostTo(Sort(s, ResultLess), c) == CostTo(s, c)
  {
    hide ResultLess, Share;
    if s != [] {
      SortCost(s[..|s| - 1], c);
      InsertCost(s[|s| - 1], Sort(s[..|s| - 1], ResultLess), c);
    }
  }

  lemma {:induction false} GroupCostIs(results: seq<Result>, c: Digest)
    ensures TotalCost(Of(results, c)) == CostTo(results, c)
  {
    if results != [] {
      GroupCostIs(results[..|results| - 1], c);
      var before, last := Of(results[..|results| - 1], c), results[|results| - 1];
      assert (before + [last])[..|before|] == before;
    }
  }

  /** A row built from the results in any order that does not repeat a key. */
  lemma RowMeans(e: ReplayDocument -> Digest, results: seq<Result>, c: Digest)
    requires |Keys(results)| == |results|
    ensures var row := RowOf(e, c, Of(results, c));
            && row.candidate == c && row.cost == CostTo(results, c)
            && row.passed == |CasesWith(results, c, Passed)| && row.failed == |CasesWith(results, c, Failed)|
  {
    hide CasesWith, Count, CostTo, TotalCost, Keys, Of;
    var items := Of(results, c);
    OfAre(results, c);
    CasesApart(items, c);
    GroupCostIs(results, c);
    CountIsCases(items, c, Passed);
    CountIsCases(items, c, Failed);
    SameCases(items, results, c, Passed);
    SameCases(items, results, c, Failed);
  }

  lemma CasesApart(items: seq<Result>, c: Digest)
    requires |Keys(items)| == |items| && forall r :: r in items ==> r.candidate == c
    ensures forall i, j :: 0 <= i < j < |items| ==> items[i].caseId != items[j].caseId
  {
    hide Keys;
    CountedKeysDiffer(items);
    forall i, j | 0 <= i < j < |items| ensures items[i].caseId != items[j].caseId {
      assert items[i] in items && items[j] in items && KeyOf(items[i]) != KeyOf(items[j]);
    }
  }

  lemma SameCases(a: seq<Result>, b: seq<Result>, c: Digest, verdict: Verdict)
    requires forall r: Result :: r.candidate == c ==> (r in a <==> r in b)
    ensures CasesWith(a, c, verdict) == CasesWith(b, c, verdict)
  {
  }

  /** Each row counts the cases its candidate passed and failed, and adds up what the candidate's results cost. */
  lemma RowsCountResults(h: Hash, e: ReplayDocument -> Digest, m: Manifest, results: seq<Result>, pack: Pack)
    requires Compare(h, e, m, results, pack).Some?
    ensures var comparison := Compare(h, e, m, results, pack).value;
            && comparison.manifest == h(ManifestDoc(m)) && comparison.replay == e(ReplayDoc(comparison.manifest, Sort(results, ResultLess)))
            && forall row :: row in comparison.rows ==>
                 && row.passed == |CasesWith(results, row.candidate, Passed)| && row.failed == |CasesWith(results, row.candidate, Failed)|
                 && row.cost == CostTo(results, row.candidate)
  {
    hide Sort, ResultLess, RowLess, FirstSeen, TotalCost, AllAllowed, PackMatches, Keys, MemberKeys, CostTo, CasesWith, Of, RowOf;
    var ordered := Sort(results, ResultLess);
    var unsorted := RowsOf(e, FirstSeen(ordered), ordered);
    SortedKeys(results);
    SortMembers(results, ResultLess);
    SortMembers(unsorted, RowLess);
    forall row | row in unsorted
      ensures row.passed == |CasesWith(results, row.candidate, Passed)| && row.failed == |CasesWith(results, row.candidate, Failed)|
      ensures row.cost == CostTo(results, row.candidate)
    {
      var i :| 0 <= i < |unsorted| && unsorted[i] == row;
      var c := FirstSeen(ordered)[i];
      RowMeans(e, ordered, c);
      SortCost(results, c);
      SameCases(ordered, results, c, Passed);
      SameCases(ordered, results, c, Failed);
    }
  }

  /** A candidate that passed every case stands before every candidate that failed one. */
  lemma CleanComesFirst(h: Hash, e: ReplayDocument -> Digest, fields: Manifest, m: Manifest, results: seq<Result>, pack: Pack, i: nat, j: nat)
    requires Construct(h, fields) == Some(m) && PackValid(pack) && Compare(h, e, m, results, pack).Some?
    requires var rows := Compare(h, e, m, results, pack).value.rows;
             && i < |rows| && j < |rows| && CasesWith(results, rows[i].candidate, Failed) == {}
             && CasesWith(results, rows[j].candidate, Failed) != {}
    ensures i < j
  {
    hide Compare, Construct, PackValid, CasesWith, CostTo, StrictOrder;
    var rows := Compare(h, e, m, results, pack).value.rows;
    RowsCountResults(h, e, m, results, pack);
    RowsCoverCandidates(h, e, fields, m, results, pack);
    RowsAreRanked(h, e, m, results, pack);
    assert rows[i] in rows && rows[j] in rows;
    SomeCase(CasesWith(results, rows[j].candidate, Failed));
    NotBefore(rows[i], rows[j], |pack.cases|);
    InOrder(rows, j, i);
  }

  /** The ranking, spelled out: most passed, fewest failed, cheapest, and by candidate. */
  lemma RankMeans(h: Hash, e: ReplayDocument -> Digest, m: Manifest, results: seq<Result>, pack: Pack, i: nat, j: nat)
    requires Compare(h, e, m, results, pack).Some? && i < j < |Compare(h, e, m, results, pack).value.rows|
    ensures var a, b := Compare(h, e, m, results, pack).value.rows[i], Compare(h, e, m, results, pack).value.rows[j];
            && a.passed >= b.passed && (a.passed == b.passed ==> a.failed <= b.failed)
            && (a.passed == b.passed && a.failed == b.failed ==> a.cost <= b.cost)
            && (a.passed == b.passed && a.failed == b.failed && a.cost == b.cost ==> a.candidate < b.candidate)
  {
    hide Compare;
    RowsAreRanked(h, e, m, results, pack);
  }

  /** The evidence of a row is that of its candidate's results, all of them. */
  lemma RowsNameEvidence(h: Hash, e: ReplayDocument -> Digest, m: Manifest, results: seq<Result>, pack: Pack, row: Row)
      returns (items: seq<Evidence>)
    requires Compare(h, e, m, results, pack).Some? && row in Compare(h, e, m, results, pack).value.rows
    ensures row.evidenceSet == e(EvidenceSet(items))
    ensures forall r :: r in results && r.candidate == row.candidate ==> Evidence(r.caseId, r.sha, r.verdict, r.evidence) in items
    ensures forall ev :: ev in items ==>
              exists r :: r in results && r.candidate == row.candidate && ev == Evidence(r.caseId, r.sha, r.verdict, r.evidence)
  {
    hide Sort, ResultLess, RowLess, FirstSeen, TotalCost, AllAllowed, PackMatches, Keys, MemberKeys, Of, Count;
    var ordered := Sort(results, ResultLess);
    var unsorted := RowsOf(e, FirstSeen(ordered), ordered);
    SortMembers(results, ResultLess);
    SortMembers(unsorted, RowLess);
    var i :| 0 <= i < |unsorted| && unsorted[i] == row;
    var mine := Of(ordered, row.candidate);
    OfAre(ordered, row.candidate);
    items := seq(|mine|, k requires 0 <= k < |mine| => EvidenceOf(mine[k]));
    forall r | r in results && r.candidate == row.candidate ensures Evidence(r.caseId, r.sha, r.verdict, r.evidence) in items {
      var k :| 0 <= k < |mine| && mine[k] == r;
      assert items[k] == Evidence(r.caseId, r.sha, r.verdict, r.evidence);
    }
    forall ev | ev in items
      ensures exists r :: r in results && r.candidate == row.candidate && ev == Evidence(r.caseId, r.sha, r.verdict, r.evidence)
    {
      var k :| 0 <= k < |items| && items[k] == ev;
      assert mine[k] in mine;
    }
  }

  lemma NotBefore(clean: Row, other: Row, cases: nat)
    requires clean.passed + clean.failed == cases == other.passed + other.failed && clean.failed == 0 < other.failed
    ensures !RowLess(other, clean) && other != clean
  {
  }

  lemma InOrder(rows: seq<Row>, i: nat, j: nat)
    requires Increasing(rows, RowLess) && i < |rows| && j < |rows| && !RowLess(rows[i], rows[j]) && rows[i] != rows[j]
    ensures j < i
  {
    hide RowLess;
  }

  lemma SomeCase(s: set<string>)
    requires s != {}
    ensures |s| > 0
  {
    assert |s| == 0 ==> s == {};
  }

  // ----- which results are compared at all

  /** A member of the manifest has a result: for its case and candidate, under this manifest, within its own ceiling. */
  ghost predicate Answers(h: Hash, m: Manifest, member: Member, r: Result) {
    && r.caseId == member.caseId && r.candidate == member.candidate && r.manifest == h(ManifestDoc(m))
    && r.cost <= member.ceiling + TOLERANCE
  }

  /** A comparison is made only of one result for each member of the manifest and no others, each under this manifest and
      within the ceiling of its member, and for the very pack the manifest was made of. */
  lemma ComparedAreExact(h: Hash, e: ReplayDocument -> Digest, m: Manifest, results: seq<Result>, pack: Pack)
    requires Compare(h, e, m, results, pack).Some?
    ensures m.pack == h(PackDoc(pack))
    ensures forall r :: r in results ==> exists member :: member in m.members && Answers(h, m, member, r)
    ensures forall member :: member in m.members ==> exists r :: r in results && Answers(h, m, member, r)
    ensures forall i, j :: 0 <= i < j < |results| ==> results[i].caseId != results[j].caseId || results[i].candidate != results[j].candidate
  {
    hide Sort, ResultLess, RowLess, RowsOf, TotalCost, MemberCases, MembersMatch, DistinctKeys;
    var ordered := Sort(results, ResultLess);
    SortMembers(results, ResultLess);
    CountedKeysDiffer(results);
    forall r | r in results ensures exists member :: member in m.members && Answers(h, m, member, r) {
      var member := MemberFor(m.members, results, r);
      ResultAnswers(h, m, ordered, member, r);
    }
    forall member | member in m.members ensures exists r :: r in results && Answers(h, m, member, r) {
      var r := ResultFor(m.members, results, member);
      ResultAnswers(h, m, ordered, member, r);
    }
  }

  lemma MemberFor(members: seq<Member>, results: seq<Result>, r: Result) returns (member: Member)
    requires Keys(results) == MemberKeys(members) && r in results
    ensures member in members && MemberKey(member) == KeyOf(r)
  {
    assert KeyOf(r) in Keys(results);
    var i :| 0 <= i < |members| && MemberKey(members[i]) == KeyOf(r);
    member := members[i];
  }

  lemma ResultFor(members: seq<Member>, results: seq<Result>, member: Member) returns (r: Result)
    requires Keys(results) == MemberKeys(members) && member in members
    ensures r in results && MemberKey(member) == KeyOf(r)
  {
    assert MemberKey(member) in MemberKeys(members);
    var i :| 0 <= i < |results| && KeyOf(results[i]) == MemberKey(member);
    r := results[i];
  }

  lemma ResultAnswers(h: Hash, m: Manifest, results: seq<Result>, member: Member, r: Result)
    requires AllAllowed(h(ManifestDoc(m)), m.members, results) && r in results && member in m.members && MemberKey(member) == KeyOf(r)
    ensures Answers(h, m, member, r)
  {
    var i :| 0 <= i < |results| && results[i] == r;
    assert ResultAllowed(h(ManifestDoc(m)), m.members, results[i]);
    var j :| 0 <= j < |m.members| && m.members[j] == member;
    assert MemberKey(m.members[j]) == KeyOf(r);
  }
}
