/** The accounting status snapshot (accounting.py): the folding loop over the GROUP BY result, and the agreement of every
    figure with the rows it summarises. */
module StatusSnapshot {
  import opened Text
  import opened Accounting

  /** The `provider_id` and `since` arguments; times are instants, whose printed order is their order. */
  datatype Filter = Filter(provider: Option<string>, since: Option<int>)

  predicate Matches(f: Filter, row: Invocation) {
    && (f.provider.Some? ==> row.dispatch.provider == f.provider.value)
    && (f.since.Some? ==> f.since.value <= row.dispatchedAt)
  }

  // ----- the GROUP BY result

  datatype GroupKey = GroupKey(provider: string, billing: Billing, status: Option<Status>, failureCode: Option<string>,
                               failureStage: Option<string>, networkAttempted: Option<bool>, responseReceived: Option<bool>,
                               httpStatus: Option<int>, errorCode: Option<string>, transportStage: Option<string>)

  datatype Group = Group(key: GroupKey, runs: nat, cost: real)

  function KeyOf(row: Invocation): GroupKey {
    var t := row.terminal;
    GroupKey(row.dispatch.provider, row.billing, if t.Some? then Some(t.value.status) else None,
             if t.Some? then t.value.failureCode else None, if t.Some? then t.value.failureStage else None,
             row.evidence.networkAttempted, row.evidence.responseReceived, row.evidence.httpStatus, row.evidence.errorCode,
             row.evidence.transportStage)
  }

  /** A row's share of SUM(currency_cost_usd), where NULL adds nothing. */
  function CostOf(row: Invocation): real { if row.evidence.cost.Some? then row.evidence.cost.value else 0.0 }

  function TotalCost(rows: seq<Invocation>): real { if rows == [] then 0.0 else CostOf(rows[0]) + TotalCost(rows[1..]) }

  /** The sub-sequence of rows that satisfy `p`. */
  function Where(rows: seq<Invocation>, p: Invocation -> bool): seq<Invocation> {
    if rows == [] then [] else (if p(rows[0]) then [rows[0]] else []) + Where(rows[1..], p)
  }

  // Row conditions, named so that two mentions are one value.
  function HasKey(key: GroupKey): Invocation -> bool { r => KeyOf(r) == key }
  function KeyMeets(p: GroupKey -> bool): Invocation -> bool { r => p(KeyOf(r)) }
  function KeyAmong(groups: seq<Group>, p: GroupKey -> bool): Invocation -> bool { r => p(KeyOf(r)) && KeyIn(groups, KeyOf(r)) }
  function Either(p: Invocation -> bool, q: Invocation -> bool): Invocation -> bool { r => p(r) || q(r) }
  function Nothing(): Invocation -> bool { r => false }
  function OnLine(provider: string, billing: Billing): Invocation -> bool {
    (r: Invocation) => r.dispatch.provider == provider && r.billing == billing
  }

  // Key conditions.
  function LineKey(provider: string, billing: Billing): GroupKey -> bool { k => InLine(k, provider, billing) }
  function AnyKey(): GroupKey -> bool { k => true }

  /** What SQLite's GROUP BY promises: one group for each key present, with its COUNT and SUM. */
  ghost predicate IsGroupBy(groups: seq<Group>, rows: seq<Invocation>) {
    && (forall i, j :: 0 <= i < j < |groups| ==> groups[i].key != groups[j].key)
    && (forall i :: 0 <= i < |groups| ==>
          var members := Where(rows, HasKey(groups[i].key));
          members != [] && groups[i].runs == |members| && groups[i].cost == TotalCost(members))
    && (forall i :: 0 <= i < |rows| ==> exists j :: 0 <= j < |groups| && groups[j].key == KeyOf(rows[i]))
  }

  function SumRuns(groups: seq<Group>): nat { if groups == [] then 0 else groups[0].runs + SumRuns(groups[1..]) }

  function SumCost(groups: seq<Group>): real { if groups == [] then 0.0 else groups[0].cost + SumCost(groups[1..]) }

  function GroupsWhere(groups: seq<Group>, p: GroupKey -> bool): seq<Group> {
    if groups == [] then [] else (if p(groups[0].key) then [groups[0]] else []) + GroupsWhere(groups[1..], p)
  }

  lemma {:induction false} SplitRow(rows: seq<Invocation>, p: Invocation -> bool, q: Invocation -> bool)
    requires forall i :: 0 <= i < |rows| ==> !(p(rows[i]) && q(rows[i]))
    ensures |Where(rows, Either(p, q))| == |Where(rows, p)| + |Where(rows, q)|
    ensures TotalCost(Where(rows, Either(p, q))) == TotalCost(Where(rows, p)) + TotalCost(Where(rows, q))
  {
    if rows != [] {
      SplitRow(rows[1..], p, q);
      CostHead(rows, p);
      CostHead(rows, q);
      CostHead(rows, Either(p, q));
    }
  }

  lemma CostHead(rows: seq<Invocation>, p: Invocation -> bool)
    requires rows != []
    ensures TotalCost(Where(rows, p)) == (if p(rows[0]) then CostOf(rows[0]) else 0.0) + TotalCost(Where(rows[1..], p))
    ensures |Where(rows, p)| == (if p(rows[0]) then 1 else 0) + |Where(rows[1..], p)|
  {
    var rest := Where(rows[1..], p);
    if p(rows[0]) {
      assert ([rows[0]] + rest)[1..] == rest;
    } else {
      assert [] + rest == rest;
    }
  }

  /** Predicates that agree on the rows select the same rows. */
  lemma {:induction false} WhereAgree(rows: seq<Invocation>, p: Invocation -> bool, q: Invocation -> bool)
    requires forall i :: 0 <= i < |rows| ==> p(rows[i]) == q(rows[i])
    ensures Where(rows, p) == Where(rows, q)
  {
    if rows != [] { WhereAgree(rows[1..], p, q); }
  }

  predicate KeyIn(groups: seq<Group>, key: GroupKey) { exists j :: 0 <= j < |groups| && groups[j].key == key }

  /** Adding up the groups chosen by `p` adds up the rows whose key is among them. */
  lemma {:induction false} GroupsAddUp(groups: seq<Group>, rows: seq<Invocation>, p: GroupKey -> bool)
    requires forall i, j :: 0 <= i < j < |groups| ==> groups[i].key != groups[j].key
    requires forall i :: 0 <= i < |groups| ==>
               var members := Where(rows, HasKey(groups[i].key));
               groups[i].runs == |members| && groups[i].cost == TotalCost(members)
    ensures var chosen := Where(rows, KeyAmong(groups, p));
            SumRuns(GroupsWhere(groups, p)) == |chosen| && SumCost(GroupsWhere(groups, p)) == TotalCost(chosen)
  {
    hide KeyOf;
    if groups == [] {
      forall i | 0 <= i < |rows| ensures KeyAmong(groups, p)(rows[i]) == Nothing()(rows[i]) {
        assert !KeyIn(groups, KeyOf(rows[i]));
      }
      WhereAgree(rows, KeyAmong(groups, p), Nothing());
      WhereNothing(rows);
    } else {
      assert !KeyIn(groups[1..], groups[0].key);
      GroupsAddUp(groups[1..], rows, p);
      GroupsHead(groups, p);
      AmongHead(groups, rows, p);
    }
  }

  lemma GroupsHead(groups: seq<Group>, p: GroupKey -> bool)
    requires groups != []
    ensures var rest := GroupsWhere(groups[1..], p);
            && SumRuns(GroupsWhere(groups, p)) == (if p(groups[0].key) then groups[0].runs else 0) + SumRuns(rest)
            && SumCost(GroupsWhere(groups, p)) == (if p(groups[0].key) then groups[0].cost else 0.0) + SumCost(rest)
  {
    var rest := GroupsWhere(groups[1..], p);
    if p(groups[0].key) {
      assert ([groups[0]] + rest)[1..] == rest;
    } else {
      assert [] + rest == rest;
    }
  }

  lemma AmongHead(groups: seq<Group>, rows: seq<Invocation>, p: GroupKey -> bool)
    requires groups != [] && !KeyIn(groups[1..], groups[0].key)
    ensures var mine := Where(rows, HasKey(groups[0].key));
            var rest := Where(rows, KeyAmong(groups[1..], p));
            && |Where(rows, KeyAmong(groups, p))| == (if p(groups[0].key) then |mine| else 0) + |rest|
            && TotalCost(Where(rows, KeyAmong(groups, p)))
            == (if p(groups[0].key) then TotalCost(mine) else 0.0) + TotalCost(rest)
  {
    hide KeyOf, KeyIn;
    var key, rest := groups[0].key, groups[1..];
    KeyInSplit(groups);
    if p(key) {
      SplitRow(rows, HasKey(key), KeyAmong(rest, p));
      WhereAgree(rows, KeyAmong(groups, p), Either(HasKey(key), KeyAmong(rest, p)));
    } else {
      forall i | 0 <= i < |rows| ensures KeyAmong(groups, p)(rows[i]) == KeyAmong(rest, p)(rows[i]) {
        var k := KeyOf(rows[i]);
        assert KeyIn(groups, k) <==> k == key || KeyIn(rest, k);
      }
      WhereAgree(rows, KeyAmong(groups, p), KeyAmong(rest, p));
    }
  }

  lemma KeyInSplit(groups: seq<Group>)
    requires groups != []
    ensures forall k :: KeyIn(groups, k) <==> k == groups[0].key || KeyIn(groups[1..], k)
  {
    forall k ensures KeyIn(groups, k) <==> k == groups[0].key || KeyIn(groups[1..], k) {
      if KeyIn(groups[1..], k) {
        var j :| 0 <= j < |groups[1..]| && groups[1..][j].key == k;
        assert groups[j + 1].key == k;
      }
      if KeyIn(groups, k) && k != groups[0].key {
        var j :| 0 <= j < |groups| && groups[j].key == k;
        assert groups[1..][j - 1].key == k;
      }
    }
  }

  lemma {:induction false} WhereNothing(rows: seq<Invocation>)
    ensures Where(rows, Nothing()) == []
  {
    if rows != [] { WhereNothing(rows[1..]); }
  }

  /** For a full GROUP BY the groups chosen by a condition on the key account for exactly the rows that meet it. */
  lemma GroupByAddsUp(groups: seq<Group>, rows: seq<Invocation>, p: GroupKey -> bool)
    requires IsGroupBy(groups, rows)
    ensures var chosen := Where(rows, KeyMeets(p));
            SumRuns(GroupsWhere(groups, p)) == |chosen| && SumCost(GroupsWhere(groups, p)) == TotalCost(chosen)
  {
    GroupsAddUp(groups, rows, p);
    forall i | 0 <= i < |rows| ensures KeyAmong(groups, p)(rows[i]) == KeyMeets(p)(rows[i]) {
      assert KeyIn(groups, KeyOf(rows[i]));
    }
    WhereAgree(rows, KeyAmong(groups, p), KeyMeets(p));
  }

  // ----- the folding loop

  datatype ProviderGroup = ProviderGroup(provider: string, billing: Billing, runs: nat, cost: real)

  /** One line per provider and billing state, in first-seen order: the dictionary's values. */
  predicate OneLineEach(lines: seq<ProviderGroup>) {
    forall i, j :: 0 <= i < j < |lines| ==> lines[i].provider != lines[j].provider || lines[i].billing != lines[j].billing
  }

  function LineIndex(lines: seq<ProviderGroup>, provider: string, billing: Billing): (i: nat)
    ensures i <= |lines|
    ensures i < |lines| ==> lines[i].provider == provider && lines[i].billing == billing
    ensures forall k :: 0 <= k < i ==> lines[k].provider != provider || lines[k].billing != billing
  {
    if lines == [] || (lines[0].provider == provider && lines[0].billing == billing) then 0
    else 1 + LineIndex(lines[1..], provider, billing)
  }

  predicate InLine(key: GroupKey, provider: string, billing: Billing) { key.provider == provider && key.billing == billing }

  /** A line holds the totals of the groups with its provider and billing state. */
  ghost predicate LineTotals(line: ProviderGroup, groups: seq<Group>) {
    var mine := GroupsWhere(groups, LineKey(line.provider, line.billing));
    line.runs == SumRuns(mine) && line.cost == SumCost(mine)
  }

  function LineRuns(lines: seq<ProviderGroup>): nat { if lines == [] then 0 else lines[0].runs + LineRuns(lines[1..]) }

  function LineCost(lines: seq<ProviderGroup>): real { if lines == [] then 0.0 else lines[0].cost + LineCost(lines[1..]) }

  predicate Failed(key: GroupKey) { key.status == Some(CandidateFailure) }

  lemma {:induction false} LineUpdate(lines: seq<ProviderGroup>, i: nat, line: ProviderGroup)
    requires i < |lines|
    ensures LineRuns(lines[i := line]) == LineRuns(lines) - lines[i].runs + line.runs
    ensures LineCost(lines[i := line]) == LineCost(lines) - lines[i].cost + line.cost
  {
    if i == 0 {
      assert lines[0 := line][1..] == lines[1..];
    } else {
      LineUpdate(lines[1..], i - 1, line);
      assert lines[i := line][1..] == lines[1..][i - 1 := line];
    }
  }

  lemma {:induction false} LineAppend(lines: seq<ProviderGroup>, line: ProviderGroup)
    ensures LineRuns(lines + [line]) == LineRuns(lines) + line.runs
    ensures LineCost(lines + [line]) == LineCost(lines) + line.cost
  {
    if lines == [] {
      assert lines + [line] == [line];
    } else {
      LineAppend(lines[1..], line);
      assert (lines + [line])[1..] == lines[1..] + [line];
    }
  }

  lemma {:induction false} GroupAppend(groups: seq<Group>, g: Group, p: GroupKey -> bool)
    ensures GroupsWhere(groups + [g], p) == GroupsWhere(groups, p) + if p(g.key) then [g] else []
  {
    if groups == [] {
      assert groups + [g] == [g];
    } else {
      GroupAppend(groups[1..], g, p);
      assert (groups + [g])[1..] == groups[1..] + [g];
    }
  }

  lemma {:induction false} SumAppend(groups: seq<Group>, g: Group)
    ensures SumRuns(groups + [g]) == SumRuns(groups) + g.runs && SumCost(groups + [g]) == SumCost(groups) + g.cost
  {
    if groups == [] {
      assert groups + [g] == [g];
    } else {
      SumAppend(groups[1..], g);
      assert (groups + [g])[1..] == groups[1..] + [g];
    }
  }

  /** How one more group changes the totals of a line. */
  lemma LineTotalsStep(line: ProviderGroup, groups: seq<Group>, g: Group)
    requires LineTotals(line, groups)
    ensures LineTotals(if InLine(g.key, line.provider, line.billing)
                       then line.(runs := line.runs + g.runs, cost := line.cost + g.cost) else line, groups + [g])
  {
    var p := LineKey(line.provider, line.billing);
    GroupAppend(groups, g, p);
    SumAppend(GroupsWhere(groups, p), g);
    assert GroupsWhere(groups, p) + [] == GroupsWhere(groups, p);
  }

  lemma {:induction false} NoGroupsInLine(groups: seq<Group>, provider: string, billing: Billing)
    requires forall i :: 0 <= i < |groups| ==> !InLine(groups[i].key, provider, billing)
    ensures GroupsWhere(groups, LineKey(provider, billing)) == []
  {
    if groups != [] { NoGroupsInLine(groups[1..], provider, billing); }
  }

  /** What the loop has built from the groups it has seen. */
  ghost predicate Folded(lines: seq<ProviderGroup>, groups: seq<Group>) {
    && OneLineEach(lines)
    && (forall i :: 0 <= i < |lines| ==> LineTotals(lines[i], groups))
    && (forall i :: 0 <= i < |groups| ==> HasLine(lines, groups[i].key))
    && LineRuns(lines) == SumRuns(groups) && LineCost(lines) == SumCost(groups)
  }

  predicate HasLine(lines: seq<ProviderGroup>, key: GroupKey) {
    exists j :: 0 <= j < |lines| && InLine(key, lines[j].provider, lines[j].billing)
  }

  lemma NoLineNoGroups(lines: seq<ProviderGroup>, groups: seq<Group>, provider: string, billing: Billing)
    requires Folded(lines, groups)
    requires forall k :: 0 <= k < |lines| ==> lines[k].provider != provider || lines[k].billing != billing
    ensures LineTotals(ProviderGroup(provider, billing, 0, 0.0), groups)
  {
    forall i | 0 <= i < |groups| ensures !InLine(groups[i].key, provider, billing) {
      assert HasLine(lines, groups[i].key);
    }
    NoGroupsInLine(groups, provider, billing);
  }

  lemma FoldNewLine(lines: seq<ProviderGroup>, groups: seq<Group>, g: Group)
    requires Folded(lines, groups)
    requires forall k :: 0 <= k < |lines| ==> !InLine(g.key, lines[k].provider, lines[k].billing)
    ensures Folded(lines + [ProviderGroup(g.key.provider, g.key.billing, g.runs, g.cost)], groups + [g])
  {
    hide LineTotals, HasLine, SumRuns, SumCost, LineRuns, LineCost;
    var line := ProviderGroup(g.key.provider, g.key.billing, g.runs, g.cost);
    var lines' := lines + [line];
    NoLineNoGroups(lines, groups, g.key.provider, g.key.billing);
    LineTotalsStep(ProviderGroup(g.key.provider, g.key.billing, 0, 0.0), groups, g);
    forall i | 0 <= i < |lines| ensures LineTotals(lines'[i], groups + [g]) { LineTotalsStep(lines[i], groups, g); }
    LineAppend(lines, line);
    SumAppend(groups, g);
    LinesKept(lines, lines', groups, g, |lines|);
  }

  lemma FoldOldLine(lines: seq<ProviderGroup>, groups: seq<Group>, g: Group, at: nat)
    requires Folded(lines, groups)
    requires at < |lines| && InLine(g.key, lines[at].provider, lines[at].billing)
    ensures Folded(lines[at := lines[at].(runs := lines[at].runs + g.runs, cost := lines[at].cost + g.cost)], groups + [g])
  {
    hide LineTotals, HasLine, SumRuns, SumCost, LineRuns, LineCost;
    var line := lines[at].(runs := lines[at].runs + g.runs, cost := lines[at].cost + g.cost);
    var lines' := lines[at := line];
    forall i | 0 <= i < |lines| ensures LineTotals(lines'[i], groups + [g]) { LineTotalsStep(lines[i], groups, g); }
    LineUpdate(lines, at, line);
    SumAppend(groups, g);
    LinesKept(lines, lines', groups, g, at);
  }

  lemma LinesKept(lines: seq<ProviderGroup>, lines': seq<ProviderGroup>, groups: seq<Group>, g: Group, at: nat)
    requires forall i :: 0 <= i < |groups| ==> HasLine(lines, groups[i].key)
    requires |lines| <= |lines'| && at < |lines'| && InLine(g.key, lines'[at].provider, lines'[at].billing)
    requires forall j :: 0 <= j < |lines| ==> lines'[j].provider == lines[j].provider && lines'[j].billing == lines[j].billing
    ensures forall i :: 0 <= i < |groups + [g]| ==> HasLine(lines', (groups + [g])[i].key)
  {
    forall i | 0 <= i < |groups + [g]| ensures HasLine(lines', (groups + [g])[i].key) {
      if i < |groups| {
        assert HasLine(lines, groups[i].key);
        var j :| 0 <= j < |lines| && InLine(groups[i].key, lines[j].provider, lines[j].billing);
        assert InLine(groups[i].key, lines'[j].provider, lines'[j].billing);
      }
    }
  }

  /** The loop of the snapshot: provider lines accumulate in a dictionary, failures are listed. */
  method FoldGroups(groups: seq<Group>) returns (lines: seq<ProviderGroup>, failures: seq<Group>)
    ensures Folded(lines, groups)
    ensures failures == GroupsWhere(groups, Failed)
  {
    hide Folded;
    lines, failures := [], [];
    EmptyFold();
    for n := 0 to |groups|
      invariant Folded(lines, groups[..n])
      invariant failures == GroupsWhere(groups[..n], Failed)
    {
      var g := groups[n];
      assert groups[..n + 1] == groups[..n] + [g];
      GroupAppend(groups[..n], g, Failed);
      var at := LineIndex(lines, g.key.provider, g.key.billing);
      if at == |lines| {
        FoldNewLine(lines, groups[..n], g);
        lines := lines + [ProviderGroup(g.key.provider, g.key.billing, g.runs, g.cost)];
      } else {
        FoldOldLine(lines, groups[..n], g, at);
        lines := lines[at := lines[at].(runs := lines[at].runs + g.runs, cost := lines[at].cost + g.cost)];
      }
      if Failed(g.key) { failures := failures + [g]; }
    }
    assert groups[..|groups|] == groups;
  }

  lemma EmptyFold()
    ensures Folded([], [])
  {
  }

  // ----- agreement with the rows

  /** A table scan: every invocation once, in some order. */
  ghost predicate Scans(scan: seq<string>, l: Ledger) {
    && (forall i, j :: 0 <= i < j < |scan| ==> scan[i] != scan[j])
    && (forall run :: run in l.invocations <==> run in scan)
  }

  function Matched(scan: seq<string>, l: Ledger, f: Filter): seq<Invocation>
    requires forall i :: 0 <= i < |scan| ==> scan[i] in l.invocations
  {
    if scan == [] then []
    else (if Matches(f, l.invocations[scan[0]]) then [l.invocations[scan[0]]] else []) + Matched(scan[1..], l, f)
  }

  function MatchedRuns(l: Ledger, f: Filter): set<string> {
    set run | run in l.invocations && Matches(f, l.invocations[run])
  }

  function UnsettledRuns(l: Ledger, f: Filter): set<string> {
    set run | run in MatchedRuns(l, f) && l.invocations[run].terminal.None?
  }

  /** Outbox ids joined to a matched invocation and still pending. */
  function PendingRecords(l: Ledger, f: Filter): set<string> {
    set id | id in l.outbox && l.outbox[id].pending && l.outbox[id].run in MatchedRuns(l, f)
  }

  lemma {:induction false} MatchedSize(scan: seq<string>, l: Ledger, f: Filter)
    requires forall i :: 0 <= i < |scan| ==> scan[i] in l.invocations
    requires forall i, j :: 0 <= i < j < |scan| ==> scan[i] != scan[j]
    ensures |Matched(scan, l, f)| == |set run | run in scan && Matches(f, l.invocations[run])|
  {
    var all := set run | run in scan && Matches(f, l.invocations[run]);
    if scan == [] {
      assert all == {};
    } else {
      MatchedSize(scan[1..], l, f);
      var rest := set run | run in scan[1..] && Matches(f, l.invocations[run]);
      assert scan[0] !in scan[1..];
      assert forall run :: run in scan <==> run == scan[0] || run in scan[1..];
      if Matches(f, l.invocations[scan[0]]) {
        assert all == {scan[0]} + rest;
      } else {
        assert all == rest;
      }
    }
  }

  /** A set and its image under a map that never repeats a value have the same size. */
  lemma {:induction false} ImageSize(ids: set<string>, l: Ledger)
    requires forall id :: id in ids ==> id in l.outbox
    requires OneRecordPerRun(l)
    ensures |set id | id in ids :: l.outbox[id].run| == |ids|
  {
    var runs := set id | id in ids :: l.outbox[id].run;
    if ids == {} {
      assert runs == {};
    } else {
      var id :| id in ids;
      var rest := set other | other in ids - {id} :: l.outbox[other].run;
      ImageSize(ids - {id}, l);
      assert l.outbox[id].run !in rest;
      assert runs == rest + {l.outbox[id].run};
    }
  }

  lemma InvParts(l: Ledger)
    requires Inv(l)
    ensures OneRecordPerRun(l)
    ensures forall id :: id in l.outbox ==> RecordInv(l, l.outbox[id])
    ensures forall run :: run in l.invocations && l.invocations[run].terminal.Some? ==> HasRecord(l, run)
  {
  }

  lemma RecordOf(l: Ledger, run: string) returns (id: string)
    requires HasRecord(l, run)
    ensures id in l.outbox && l.outbox[id].run == run
  {
    id :| id in l.outbox && l.outbox[id].run == run;
  }

  function SettledRuns(l: Ledger, f: Filter): set<string> {
    set run | run in MatchedRuns(l, f) && l.invocations[run].terminal.Some?
  }

  /** The matched terminal runs are exactly those with a pending record. */
  lemma SettledHaveRecords(l: Ledger, f: Filter)
    requires Inv(l)
    ensures SettledRuns(l, f) == set id | id in PendingRecords(l, f) :: l.outbox[id].run
  {
    hide Matches, Shows, RowInv, Inv, HasRecord, MatchedRuns;
    InvParts(l);
    var settled := set id | id in PendingRecords(l, f) :: l.outbox[id].run;
    forall run | run in SettledRuns(l, f) ensures run in settled {
      assert run in l.invocations by { MatchedExist(l, f, run); }
      var id := RecordOf(l, run);
      assert RecordInv(l, l.outbox[id]) && id in PendingRecords(l, f);
    }
    forall run | run in settled ensures run in SettledRuns(l, f) {
      var id :| id in PendingRecords(l, f) && l.outbox[id].run == run;
      assert RecordInv(l, l.outbox[id]);
    }
  }

  lemma MatchedExist(l: Ledger, f: Filter, run: string)
    requires run in MatchedRuns(l, f)
    ensures run in l.invocations
  {
  }

  /** Unsettled invocations and pending outbox records together make up the matched invocations. */
  lemma UnsettledPlusPending(l: Ledger, f: Filter)
    requires Inv(l)
    ensures |UnsettledRuns(l, f)| + |PendingRecords(l, f)| == |MatchedRuns(l, f)|
  {
    hide Matches, RecordInv, RowInv, Inv, HasRecord, OneRecordPerRun;
    InvParts(l);
    ImageSize(PendingRecords(l, f), l);
    SettledHaveRecords(l, f);
    assert MatchedRuns(l, f) == UnsettledRuns(l, f) + SettledRuns(l, f);
    assert UnsettledRuns(l, f) !! SettledRuns(l, f);
  }

  /** The matched runs are those of the provider asked for, dispatched at or after the time asked for. */
  lemma MatchedMeans(l: Ledger, f: Filter)
    ensures forall run :: run in MatchedRuns(l, f) <==>
              && run in l.invocations && f.provider in {None, Some(l.invocations[run].dispatch.provider)}
              && (f.since.Some? ==> l.invocations[run].dispatchedAt >= f.since.value)
  {
  }

  // The conditions the totals count rows by.
  function InState(billing: Billing): Invocation -> bool { (r: Invocation) => r.billing == billing }
  function NotTerminal(): Invocation -> bool { (r: Invocation) => r.terminal.None? }
  function WithoutTier(): Invocation -> bool { (r: Invocation) => r.dispatch.tier.None? }

  /** The matched runs whose rows meet a condition. */
  function RunsWhere(l: Ledger, f: Filter, p: Invocation -> bool): set<string> {
    set run | run in l.invocations && Matches(f, l.invocations[run]) && p(l.invocations[run])
  }

  lemma MatchedHead(scan: seq<string>, l: Ledger, f: Filter, p: Invocation -> bool)
    requires scan != [] && forall i :: 0 <= i < |scan| ==> scan[i] in l.invocations
    ensures var row := l.invocations[scan[0]];
            |Where(Matched(scan, l, f), p)| == (if Matches(f, row) && p(row) then 1 else 0) + |Where(Matched(scan[1..], l, f), p)|
  {
    hide Matches;
    var row, tail := l.invocations[scan[0]], Matched(scan[1..], l, f);
    if Matches(f, row) {
      assert ([row] + tail)[1..] == tail;
      CostHead([row] + tail, p);
    } else {
      assert [] + tail == tail;
    }
  }

  lemma NoneMatched(l: Ledger, f: Filter, p: Invocation -> bool)
    ensures Where(Matched([], l, f), p) == []
  {
  }

  /** Counting the scanned rows that meet a condition counts the runs that do. */
  lemma {:induction false} CountsRuns(scan: seq<string>, l: Ledger, f: Filter, p: Invocation -> bool)
    requires forall i :: 0 <= i < |scan| ==> scan[i] in l.invocations
    requires forall i, j :: 0 <= i < j < |scan| ==> scan[i] != scan[j]
    ensures |Where(Matched(scan, l, f), p)| == |set run | run in scan && Matches(f, l.invocations[run]) && p(l.invocations[run])|
  {
    hide Matches, Where, Matched;
    var all := set run | run in scan && Matches(f, l.invocations[run]) && p(l.invocations[run]);
    if scan == [] {
      assert all == {};
      NoneMatched(l, f, p);
    } else {
      CountsRuns(scan[1..], l, f, p);
      MatchedHead(scan, l, f, p);
      var rest := set run | run in scan[1..] && Matches(f, l.invocations[run]) && p(l.invocations[run]);
      assert scan[0] !in scan[1..];
      assert forall run :: run in scan <==> run == scan[0] || run in scan[1..];
      if Matches(f, l.invocations[scan[0]]) && p(l.invocations[scan[0]]) {
        assert all == {scan[0]} + rest;
      } else {
        assert all == rest;
      }
    }
  }

  lemma ScanCounts(scan: seq<string>, l: Ledger, f: Filter, p: Invocation -> bool)
    requires Scans(scan, l)
    ensures |Where(Matched(scan, l, f), p)| == |RunsWhere(l, f, p)|
  {
    hide Matches;
    CountsRuns(scan, l, f, p);
    assert RunsWhere(l, f, p) == set run | run in scan && Matches(f, l.invocations[run]) && p(l.invocations[run]);
  }

  /** The figures the snapshot takes from one scan of the rows. */
  datatype Totals = Totals(knownCost: real, unknownAfterDispatch: nat, unsettled: nat, legacyPreTier: nat)

  function TotalsOf(rows: seq<Invocation>): Totals {
    Totals(TotalCost(rows), |Where(rows, InState(UnknownAfterDispatch))|, |Where(rows, NotTerminal())|, |Where(rows, WithoutTier())|)
  }

  /** In every reachable ledger, for every filter and every scan order, the figures of the snapshot agree with the rows and
      with one another. */
  lemma SnapshotAgrees(calls: seq<Call>, f: Filter, scan: seq<string>, groups: seq<Group>, lines: seq<ProviderGroup>)
    requires var l := AfterCalls(Ledger(map[], map[]), calls);
             Scans(scan, l) && IsGroupBy(groups, Matched(scan, l, f))
    requires Folded(lines, groups)
    ensures var l := AfterCalls(Ledger(map[], map[]), calls);
            var rows := Matched(scan, l, f);
            var totals := TotalsOf(rows);
            && |rows| == |MatchedRuns(l, f)|
            && (forall run :: run in MatchedRuns(l, f) <==>
                  && run in l.invocations && f.provider in {None, Some(l.invocations[run].dispatch.provider)}
                  && (f.since.Some? ==> l.invocations[run].dispatchedAt >= f.since.value))
            && LineRuns(lines) == |rows| && LineCost(lines) == totals.knownCost
            && totals.unknownAfterDispatch == LineRuns(LinesIn(lines, UnknownAfterDispatch))
            && totals.unsettled == |UnsettledRuns(l, f)| && totals.unsettled + |PendingRecords(l, f)| == |rows|
            && totals.legacyPreTier == |RunsWhere(l, f, WithoutTier())|
            && SumRuns(GroupsWhere(groups, Failed)) == |Where(rows, KeyMeets(Failed))|
            && forall i :: 0 <= i < |lines| ==>
                 var mine := Where(rows, OnLine(lines[i].provider, lines[i].billing));
                 lines[i].runs == |mine| && lines[i].cost == TotalCost(mine)
  {
    hide AfterCalls, Inv, Matches, KeyOf, IsGroupBy, Folded, LineRuns, LineCost, Where, KeyMeets, OnLine;
    hide PendingRecords, LinesIn;
    var l := AfterCalls(Ledger(map[], map[]), calls);
    var rows := Matched(scan, l, f);
    MatchedMeans(l, f);
    EmptyInv();
    RunsKeepInv(Ledger(map[], map[]), calls);
    UnsettledPlusPending(l, f);
    MatchedSize(scan, l, f);
    assert MatchedRuns(l, f) == set run | run in scan && Matches(f, l.invocations[run]);
    FiguresAgree(groups, rows, lines);
    StateAddsUp(groups, rows, lines, UnknownAfterDispatch);
    ScanCounts(scan, l, f, NotTerminal());
    assert UnsettledRuns(l, f) == RunsWhere(l, f, NotTerminal());
    ScanCounts(scan, l, f, WithoutTier());
  }

  // ----- one billing state over all providers

  /** The lines of one billing state. */
  function LinesIn(lines: seq<ProviderGroup>, billing: Billing): seq<ProviderGroup> {
    if lines == [] then [] else (if lines[0].billing == billing then [lines[0]] else []) + LinesIn(lines[1..], billing)
  }

  predicate LineIn(lines: seq<ProviderGroup>, provider: string, billing: Billing) {
    exists j :: 0 <= j < |lines| && lines[j].provider == provider && lines[j].billing == billing
  }

  function OnLines(lines: seq<ProviderGroup>, billing: Billing): Invocation -> bool {
    (r: Invocation) => r.billing == billing && LineIn(lines, r.dispatch.provider, billing)
  }

  lemma LineInHead(lines: seq<ProviderGroup>, provider: string, billing: Billing)
    requires lines != []
    ensures LineIn(lines, provider, billing)
       <==> (lines[0].provider == provider && lines[0].billing == billing) || LineIn(lines[1..], provider, billing)
  {
    if LineIn(lines[1..], provider, billing) {
      var j :| 0 <= j < |lines[1..]| && lines[1..][j].provider == provider && lines[1..][j].billing == billing;
      assert lines[j + 1].provider == provider;
    }
    if j :| 1 <= j < |lines| && lines[j].provider == provider && lines[j].billing == billing {
      assert lines[1..][j - 1] == lines[j];
    }
  }

  lemma {:induction false} LinesAddUp(lines: seq<ProviderGroup>, rows: seq<Invocation>, billing: Billing)
    requires OneLineEach(lines)
    requires forall i :: 0 <= i < |lines| ==> lines[i].runs == |Where(rows, OnLine(lines[i].provider, lines[i].billing))|
    ensures LineRuns(LinesIn(lines, billing)) == |Where(rows, OnLines(lines, billing))|
  {
    if lines == [] {
      WhereAgree(rows, OnLines(lines, billing), Nothing());
      WhereNothing(rows);
    } else {
      var line, rest := lines[0], lines[1..];
      LinesAddUp(rest, rows, billing);
      forall i | 0 <= i < |rows| { LineInHead(lines, rows[i].dispatch.provider, billing); }
      if line.billing == billing {
        var mine := OnLine(line.provider, billing);
        assert !LineIn(rest, line.provider, billing);
        SplitRow(rows, mine, OnLines(rest, billing));
        WhereAgree(rows, OnLines(lines, billing), Either(mine, OnLines(rest, billing)));
        assert ([line] + LinesIn(rest, billing))[1..] == LinesIn(rest, billing);
      } else {
        WhereAgree(rows, OnLines(lines, billing), OnLines(rest, billing));
        assert [] + LinesIn(rest, billing) == LinesIn(rest, billing);
      }
    }
  }

  /** The lines of a billing state, over all providers, add up to the rows in it. */
  lemma StateAddsUp(groups: seq<Group>, rows: seq<Invocation>, lines: seq<ProviderGroup>, billing: Billing)
    requires IsGroupBy(groups, rows) && Folded(lines, groups)
    ensures LineRuns(LinesIn(lines, billing)) == |Where(rows, InState(billing))|
  {
    FiguresAgree(groups, rows, lines);
    LinesAddUp(lines, rows, billing);
    forall i | 0 <= i < |rows| ensures OnLines(lines, billing)(rows[i]) == InState(billing)(rows[i]) {
      var j :| 0 <= j < |groups| && groups[j].key == KeyOf(rows[i]);
      assert HasLine(lines, groups[j].key);
      var k :| 0 <= k < |lines| && InLine(groups[j].key, lines[k].provider, lines[k].billing);
      assert lines[k].provider == rows[i].dispatch.provider;
    }
    WhereAgree(rows, OnLines(lines, billing), InState(billing));
  }

  /** The figures against the rows they were grouped from. */
  lemma FiguresAgree(groups: seq<Group>, rows: seq<Invocation>, lines: seq<ProviderGroup>)
    requires IsGroupBy(groups, rows) && Folded(lines, groups)
    ensures LineRuns(lines) == |rows| && LineCost(lines) == TotalCost(rows)
    ensures SumRuns(GroupsWhere(groups, Failed)) == |Where(rows, KeyMeets(Failed))|
    ensures forall i :: 0 <= i < |lines| ==>
              var mine := Where(rows, OnLine(lines[i].provider, lines[i].billing));
              lines[i].runs == |mine| && lines[i].cost == TotalCost(mine)
  {
    hide IsGroupBy;
    GroupByAddsUp(groups, rows, AnyKey());
    AllGroups(groups);
    AllRows(rows);
    GroupByAddsUp(groups, rows, Failed);
    forall i | 0 <= i < |lines|
      ensures var mine := Where(rows, OnLine(lines[i].provider, lines[i].billing));
              lines[i].runs == |mine| && lines[i].cost == TotalCost(mine)
    {
      LineAgrees(groups, rows, lines[i]);
    }
  }

  lemma LineAgrees(groups: seq<Group>, rows: seq<Invocation>, line: ProviderGroup)
    requires IsGroupBy(groups, rows) && LineTotals(line, groups)
    ensures var mine := Where(rows, OnLine(line.provider, line.billing));
            line.runs == |mine| && line.cost == TotalCost(mine)
  {
    hide IsGroupBy;
    var p := LineKey(line.provider, line.billing);
    GroupByAddsUp(groups, rows, p);
    forall i | 0 <= i < |rows| ensures KeyMeets(p)(rows[i]) == OnLine(line.provider, line.billing)(rows[i]) {
      assert KeyOf(rows[i]).provider == rows[i].dispatch.provider && KeyOf(rows[i]).billing == rows[i].billing;
    }
    WhereAgree(rows, KeyMeets(p), OnLine(line.provider, line.billing));
  }

  lemma EmptyInv()
    ensures Inv(Ledger(map[], map[]))
  {
  }

  lemma {:induction false} AllGroups(groups: seq<Group>)
    ensures GroupsWhere(groups, AnyKey()) == groups
  {
    if groups != [] { AllGroups(groups[1..]); }
  }

  lemma {:induction false} AllRows(rows: seq<Invocation>)
    ensures Where(rows, KeyMeets(AnyKey())) == rows
  {
    if rows != [] { AllRows(rows[1..]); }
  }
}
