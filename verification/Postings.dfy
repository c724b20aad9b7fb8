/** Exactly-once accumulation (accounting.py): account entries named after their evidence, and plan costs named by an
    idempotency key. Calls may be retried, rejected and interleaved; a balance still counts every piece of evidence once. */
module Postings {
  import opened Text

  /** The unit separator that joins the parts of an entry's name. */
  const SEPARATOR := '\U{1f}'

  datatype Posting = Posting(account: string, run: Option<string>, kind: string, amount: real, source: string, digest: string)

  datatype CostClass = Discovery | Probe | ProductionExecution | Verification | Integration | HumanCorrection

  datatype Cost = Cost(plan: string, run: Option<string>, role: Option<string>, route: Option<string>, class_: CostClass,
                       amount: real, kind: string, basis: string, idempotency: string)

  datatype Evidence = Evidence(account: string, kind: string, source: string, digest: string)

  datatype CostKey = CostKey(plan: string, idempotency: string)

  /** `provider_accounts` and `invocations` by key; `accounting_entries` and `plan_costs` in insertion order. */
  datatype Books = Books(accounts: set<string>, runs: set<string>, entries: seq<Posting>, costs: seq<Cost>)

  datatype Call =
    | OpenAccount(account: string)
    | AddRun(run: string)
    | AppendEntry(posting: Posting)
    | RecordCost(cost: Cost)

  datatype Reply = Accepted | Conflict | ValueError

  function StripAll(p: Posting): Posting {
    p.(account := Lower(p.account), kind := Strip(p.kind), source := Strip(p.source), digest := Lower(p.digest))
  }

  predicate ValidRun(run: Option<string>) { run.Some? ==> IsUuid4(run.value) }

  /** The checks on an already normalised entry. */
  predicate ValidPosting(p: Posting) {
    && IsUuid(p.account) && ValidRun(p.run) && 1 <= |p.kind| <= 256 && 1 <= |p.source| <= 256 && IsSha256(p.digest)
    && (p.kind == "credit" ==> 0.0 <= p.amount) && (p.kind == "debit" ==> p.amount <= 0.0)
  }

  predicate ValidCost(c: Cost) {
    && IsSha256(c.plan) && ValidRun(c.run) && 0.0 <= c.amount && SafeId(c.kind, 256) && IsSha256(c.basis)
    && (c.role.Some? ==> IsSha256(c.role.value)) && (c.route.Some? ==> IsSha256(c.route.value))
    && SafeId(c.idempotency, 512)
  }

  function LowerOption(s: Option<string>): Option<string> { if s.Some? then Some(Lower(s.value)) else None }

  function NormalCost(c: Cost): Cost {
    c.(plan := Lower(c.plan), run := LowerOption(c.run), role := LowerOption(c.role), route := LowerOption(c.route),
       kind := Strip(c.kind), basis := Lower(c.basis), idempotency := Strip(c.idempotency))
  }

  function NormalPosting(p: Posting): Posting { StripAll(p).(run := LowerOption(p.run)) }

  function EvidenceOf(p: Posting): Evidence { Evidence(p.account, p.kind, p.source, p.digest) }

  /** What the entry id is a uuid5 of. */
  function EntryName(p: Posting): string {
    p.account + [SEPARATOR] + (p.kind + [SEPARATOR] + (p.source + [SEPARATOR] + p.digest))
  }

  function KeyOf(c: Cost): CostKey { CostKey(c.plan, c.idempotency) }

  /** The position of the first row with a key, or the number of rows. */
  function Find<K(==), R>(rows: seq<R>, key: R -> K, k: K): (at: nat)
    ensures at <= |rows| && (at < |rows| ==> key(rows[at]) == k)
    ensures forall i :: 0 <= i < at ==> key(rows[i]) != k
  {
    if rows == [] || key(rows[0]) == k then 0 else 1 + Find(rows[1..], key, k)
  }

  predicate RunKnown(b: Books, run: Option<string>) { run.Some? ==> run.value in b.runs }

  function AppendAt(b: Books, p: Posting): (Books, Reply) {
    var at := Find(b.entries, EntryName, EntryName(p));
    if at < |b.entries| then
      (b, if b.entries[at].run == p.run && b.entries[at].amount == p.amount then Accepted else Conflict)
    else if p.account !in b.accounts || !RunKnown(b, p.run) then (b, Conflict)
    else (b.(entries := b.entries + [p]), Accepted)
  }

  function CostAt(b: Books, c: Cost): (Books, Reply) {
    var at := Find(b.costs, KeyOf, KeyOf(c));
    if at < |b.costs| then (b, if b.costs[at] == c then Accepted else Conflict)
    else if !RunKnown(b, c.run) then (b, Conflict)
    else (b.(costs := b.costs + [c]), Accepted)
  }

  function Apply(b: Books, call: Call): (Books, Reply) {
    match call
    case OpenAccount(account) => (b.(accounts := b.accounts + {account}), Accepted)
    case AddRun(run) => (b.(runs := b.runs + {run}), Accepted)
    case AppendEntry(p) => if !ValidPosting(NormalPosting(p)) then (b, ValueError) else AppendAt(b, NormalPosting(p))
    case RecordCost(c) => if !ValidCost(NormalCost(c)) then (b, ValueError) else CostAt(b, NormalCost(c))
  }

  /** Each method is one transaction. */
  class PostingStore {
    var accounts: set<string>
    var runs: set<string>
    var entries: seq<Posting>
    var costs: seq<Cost>

    ghost function Model(): Books reads this { Books(accounts, runs, entries, costs) }

    constructor ()
      ensures Model() == Books({}, {}, [], [])
    {
      accounts, runs, entries, costs := {}, {}, [], [];
    }

    method AppendAccountingEntry(p: Posting) returns (reply: Reply)
      modifies this
      ensures (Model(), reply) == Apply(old(Model()), AppendEntry(p))
    {
      hide Strip, EntryName;
      var row := NormalPosting(p);
      if !ValidPosting(row) { return ValueError; }
      var at := Find(entries, EntryName, EntryName(row));
      if at < |entries| {
        if entries[at].run != row.run || entries[at].amount != row.amount { return Conflict; }
        return Accepted;
      }
      if row.account !in accounts || (row.run.Some? && row.run.value !in runs) { return Conflict; }
      entries := entries + [row];
      return Accepted;
    }

    method RecordPlanCost(c: Cost) returns (reply: Reply)
      modifies this
      ensures (Model(), reply) == Apply(old(Model()), RecordCost(c))
    {
      hide Strip;
      var row := NormalCost(c);
      if !ValidCost(row) { return ValueError; }
      var at := Find(costs, KeyOf, KeyOf(row));
      if at < |costs| {
        if costs[at] != row { return Conflict; }
        return Accepted;
      }
      if row.run.Some? && row.run.value !in runs { return Conflict; }
      costs := costs + [row];
      return Accepted;
    }
  }

  // ----- the rows are the first accepted call of each key

  /** The elements that are the first with their key, in order. */
  function FirstBy<K(==), R>(key: R -> K, rows: seq<R>): seq<R> {
    if rows == [] then []
    else
      var kept := FirstBy(key, rows[..|rows| - 1]);
      var last := rows[|rows| - 1];
      if Find(kept, key, key(last)) < |kept| then kept else kept + [last]
  }

  function AfterCalls(b: Books, calls: seq<Call>): Books {
    if calls == [] then b else Apply(AfterCalls(b, calls[..|calls| - 1]), calls[|calls| - 1]).0
  }

  /** The normalised entries of the accepted appends, retries included, in call order. */
  function AcceptedEntries(b: Books, calls: seq<Call>): seq<Posting> {
    if calls == [] then []
    else
      var before := AcceptedEntries(b, calls[..|calls| - 1]);
      var call := calls[|calls| - 1];
      if call.AppendEntry? && Apply(AfterCalls(b, calls[..|calls| - 1]), call).1 == Accepted
      then before + [NormalPosting(call.posting)] else before
  }

  function AcceptedCosts(b: Books, calls: seq<Call>): seq<Cost> {
    if calls == [] then []
    else
      var before := AcceptedCosts(b, calls[..|calls| - 1]);
      var call := calls[|calls| - 1];
      if call.RecordCost? && Apply(AfterCalls(b, calls[..|calls| - 1]), call).1 == Accepted
      then before + [NormalCost(call.cost)] else before
  }

  const EMPTY := Books({}, {}, [], [])

  lemma FirstByLast<K, R>(key: R -> K, rows: seq<R>, row: R)
    ensures FirstBy(key, rows + [row])
         == if Find(FirstBy(key, rows), key, key(row)) < |FirstBy(key, rows)| then FirstBy(key, rows) else FirstBy(key, rows) + [row]
  {
    assert (rows + [row])[..|rows|] == rows;
  }

  lemma FirstByEmpty<K, R>(key: R -> K)
    ensures FirstBy(key, []) == []
  {
  }

  lemma EntriesStep(b: Books, call: Call)
    ensures Apply(b, call).0.entries
         == if call.AppendEntry? && Apply(b, call).1 == Accepted
               && Find(b.entries, EntryName, EntryName(NormalPosting(call.posting))) == |b.entries|
            then b.entries + [NormalPosting(call.posting)] else b.entries
  {
    hide EntryName, ValidPosting, ValidCost, NormalPosting, NormalCost;
  }

  lemma CostsStep(b: Books, call: Call)
    ensures Apply(b, call).0.costs
         == if call.RecordCost? && Apply(b, call).1 == Accepted
               && Find(b.costs, KeyOf, KeyOf(NormalCost(call.cost))) == |b.costs|
            then b.costs + [NormalCost(call.cost)] else b.costs
  {
    hide EntryName, ValidPosting, ValidCost, NormalPosting, NormalCost, KeyOf;
  }

  /** The stored entries are the accepted ones, the first under each name. */
  lemma {:induction false} EntriesAreFirstByName(calls: seq<Call>)
    ensures AfterCalls(EMPTY, calls).entries == FirstBy(EntryName, AcceptedEntries(EMPTY, calls))
  {
    hide EntryName, NormalPosting, Apply, FirstBy;
    FirstByEmpty<string, Posting>(EntryName);
    if calls != [] {
      var before, call := calls[..|calls| - 1], calls[|calls| - 1];
      EntriesAreFirstByName(before);
      EntriesStep(AfterCalls(EMPTY, before), call);
      if call.AppendEntry? { FirstByLast(EntryName, AcceptedEntries(EMPTY, before), NormalPosting(call.posting)); }
    }
  }

  /** The stored costs are the accepted ones, the first under each idempotency key. */
  lemma {:induction false} CostsAreFirstByKey(calls: seq<Call>)
    ensures AfterCalls(EMPTY, calls).costs == FirstBy(KeyOf, AcceptedCosts(EMPTY, calls))
  {
    hide NormalCost, KeyOf, Apply, FirstBy;
    FirstByEmpty<CostKey, Cost>(KeyOf);
    if calls != [] {
      var before, call := calls[..|calls| - 1], calls[|calls| - 1];
      CostsAreFirstByKey(before);
      CostsStep(AfterCalls(EMPTY, before), call);
      if call.RecordCost? { FirstByLast(KeyOf, AcceptedCosts(EMPTY, before), NormalCost(call.cost)); }
    }
  }

  /** `FirstBy` keeps one element for each key that occurs. */
  lemma {:induction false} FirstByKeeps<K, R>(key: R -> K, rows: seq<R>)
    ensures forall i, j :: 0 <= i < j < |FirstBy(key, rows)| ==> key(FirstBy(key, rows)[i]) != key(FirstBy(key, rows)[j])
    ensures forall row :: row in FirstBy(key, rows) ==> row in rows
    ensures forall row :: row in rows ==> HasKey(FirstBy(key, rows), key, key(row))
  {
    if rows != [] {
      var before, last := rows[..|rows| - 1], rows[|rows| - 1];
      FirstByKeeps(key, before);
      var kept := FirstBy(key, before);
      assert forall row :: row in rows <==> row in before || row == last;
      forall row | row in rows ensures HasKey(FirstBy(key, rows), key, key(row)) {
        if row in before {
          var i :| 0 <= i < |kept| && key(kept[i]) == key(row);
          assert FirstBy(key, rows)[i] == kept[i];
        } else {
          var at := Find(kept, key, key(last));
          assert key(FirstBy(key, rows)[at]) == key(row);
        }
      }
    }
  }

  predicate HasKey<K(==), R>(rows: seq<R>, key: R -> K, k: K) { exists i :: 0 <= i < |rows| && key(rows[i]) == k }

  lemma SameFind<J, K, R>(j: R -> J, k: R -> K, kept: seq<R>, last: R, rows: seq<R>)
    requires forall p, q :: p in rows && q in rows ==> (j(p) == j(q) <==> k(p) == k(q))
    requires last in rows && forall p :: p in kept ==> p in rows
    ensures Find(kept, j, j(last)) == Find(kept, k, k(last))
  {
    hide Find;
    var a, b := Find(kept, j, j(last)), Find(kept, k, k(last));
    assert a < |kept| ==> kept[a] in rows;
    assert b < |kept| ==> kept[b] in rows;
  }

  /** Two keys that tell the same rows apart keep the same rows. */
  lemma {:induction false} SameFirst<J, K, R>(j: R -> J, k: R -> K, rows: seq<R>)
    requires forall p, q :: p in rows && q in rows ==> (j(p) == j(q) <==> k(p) == k(q))
    ensures FirstBy(j, rows) == FirstBy(k, rows)
  {
    if rows != [] {
      var before, last := rows[..|rows| - 1], rows[|rows| - 1];
      SameFirst(j, k, before);
      FirstByKeeps(j, before);
      var kept := FirstBy(j, before);
      SameFind(j, k, kept, last, rows);
    }
  }

  /** No two of the entries differ in their evidence yet share a name. */
  ghost predicate NoClash(rows: seq<Posting>) {
    forall p, q :: p in rows && q in rows && EntryName(p) == EntryName(q) ==> EvidenceOf(p) == EvidenceOf(q)
  }

  /** The stored entries are one for each piece of accepted evidence, exactly when no two accepted entries with
      different evidence share a name. */
  lemma EntriesOncePerEvidence(calls: seq<Call>)
    ensures AfterCalls(EMPTY, calls).entries == FirstBy(EvidenceOf, AcceptedEntries(EMPTY, calls))
       <==> NoClash(AcceptedEntries(EMPTY, calls))
  {
    hide AfterCalls, AcceptedEntries, EntryName, FirstBy;
    var rows := AcceptedEntries(EMPTY, calls);
    EntriesAreFirstByName(calls);
    SameEvidenceSameName();
    if NoClash(rows) { SameFirst(EntryName, EvidenceOf, rows); }
    if FirstBy(EntryName, rows) == FirstBy(EvidenceOf, rows) {
      forall p, q | p in rows && q in rows && EntryName(p) == EntryName(q) ensures EvidenceOf(p) == EvidenceOf(q) {
        SharedRow(rows, p, q);
      }
    }
  }

  /** A stored entry of other evidence has the name. */
  predicate NameTaken(b: Books, row: Posting) {
    exists i :: 0 <= i < |b.entries| && EntryName(b.entries[i]) == EntryName(row) && EvidenceOf(b.entries[i]) != EvidenceOf(row)
  }

  /** What a caller can look up before a call: an accepted entry is stored under its evidence exactly when its name is not
      taken by other evidence. */
  lemma AcceptedIsCountedIff(calls: seq<Call>, p: Posting)
    requires Apply(AfterCalls(EMPTY, calls), AppendEntry(p)).1 == Accepted
    ensures var b, row := AfterCalls(EMPTY, calls), NormalPosting(p);
            HasKey(Apply(b, AppendEntry(p)).0.entries, EvidenceOf, EvidenceOf(row)) <==> !NameTaken(b, row)
  {
    hide AfterCalls, AcceptedEntries, EntryName, EvidenceOf, FirstBy, ValidPosting, NormalPosting, Apply;
    var b, row := AfterCalls(EMPTY, calls), NormalPosting(p);
    var b' := Apply(b, AppendEntry(p)).0;
    EntriesAreFirstByName(calls);
    EntriesStep(b, AppendEntry(p));
    var at := Find(b.entries, EntryName, EntryName(row));
    if at < |b.entries| {
      if !NameTaken(b, row) { assert EvidenceOf(b'.entries[at]) == EvidenceOf(row); }
      if j :| 0 <= j < |b'.entries| && EvidenceOf(b'.entries[j]) == EvidenceOf(row) {
        SameName(b.entries[j], row);
        if k :| 0 <= k < |b.entries| && EntryName(b.entries[k]) == EntryName(row) && EvidenceOf(b.entries[k]) != EvidenceOf(row) {
          KeptOnce(EntryName, AcceptedEntries(EMPTY, calls), j, k);
        }
      }
    } else {
      assert b'.entries[|b.entries|] == row;
    }
  }

  /** An accepted append leaves a row with its own amount and run, under its own name; a credit is never negative and a debit never
      positive. */
  lemma AppendWrites(b: Books, p: Posting)
    requires Apply(b, AppendEntry(p)).1 == Accepted
    ensures var (b', at) := (Apply(b, AppendEntry(p)).0, Find(Apply(b, AppendEntry(p)).0.entries, EntryName, EntryName(NormalPosting(p))));
            && at < |b'.entries| && b'.entries[at].amount == p.amount && b'.entries[at].run == LowerOption(p.run)
            && EntryName(b'.entries[at]) == EntryName(Posting(Lower(p.account), None, Strip(p.kind), p.amount, Strip(p.source), Lower(p.digest)))
            && (Strip(p.kind) == "credit" ==> p.amount >= 0.0) && (Strip(p.kind) == "debit" ==> p.amount <= 0.0)
            && b' == b.(entries := b'.entries) && b.entries <= b'.entries && |b'.entries| <= |b.entries| + 1
  {
    hide Strip, Lower, IsUuid, IsSha256, EntryName;
    SameParts(p);
    var row := NormalPosting(p);
    if Find(b.entries, EntryName, EntryName(row)) == |b.entries| { FindLast(b.entries, EntryName, row); }
  }

  /** An accepted cost leaves a row with its own class and amount, under its own plan and key; a cost is never negative. */
  lemma CostWrites(b: Books, c: Cost)
    requires Apply(b, RecordCost(c)).1 == Accepted
    ensures var b' := Apply(b, RecordCost(c)).0;
            && c.amount >= 0.0 && b' == b.(costs := b'.costs) && b.costs <= b'.costs && |b'.costs| <= |b.costs| + 1
            && exists row :: row in b'.costs && row.amount == c.amount && row.class_ == c.class_ && row.plan == Lower(c.plan)
                             && row.idempotency == Strip(c.idempotency) && row.run == LowerOption(c.run)
  {
    hide Strip, Lower, IsUuid, IsSha256, SafeId;
    var b', row := Apply(b, RecordCost(c)).0, NormalCost(c);
    var at := Find(b.costs, KeyOf, KeyOf(row));
    assert if at < |b.costs| then b'.costs[at] == row else b'.costs[|b.costs|] == row;
    assert row in b'.costs;
  }

  lemma SameParts(p: Posting)
    ensures EntryName(NormalPosting(p))
         == EntryName(Posting(Lower(p.account), None, Strip(p.kind), p.amount, Strip(p.source), Lower(p.digest)))
  {
    hide Strip, Lower;
  }

  lemma {:induction false} FindLast<K, R>(rows: seq<R>, key: R -> K, row: R)
    requires Find(rows, key, key(row)) == |rows|
    ensures Find(rows + [row], key, key(row)) == |rows|
  {
    if rows == [] {
      assert rows + [row] == [row];
    } else {
      assert (rows + [row])[1..] == rows[1..] + [row];
      FindLast(rows[1..], key, row);
    }
  }

  lemma SameEvidenceSameName()
    ensures forall p, q :: EvidenceOf(p) == EvidenceOf(q) ==> EntryName(p) == EntryName(q)
  {
  }

  lemma SharedRow(rows: seq<Posting>, p: Posting, q: Posting)
    requires FirstBy(EntryName, rows) == FirstBy(EvidenceOf, rows)
    requires p in rows && q in rows && EntryName(p) == EntryName(q)
    ensures EvidenceOf(p) == EvidenceOf(q)
  {
    hide EntryName, FirstBy, EvidenceOf;
    var kept := FirstBy(EvidenceOf, rows);
    var i := KeptAt(EvidenceOf, rows, p);
    var j := KeptAt(EvidenceOf, rows, q);
    SameName(kept[i], p);
    SameName(kept[j], q);
    KeptOnce(EntryName, rows, i, j);
  }

  lemma KeptAt<K, R>(key: R -> K, rows: seq<R>, row: R) returns (i: nat)
    requires row in rows
    ensures i < |FirstBy(key, rows)| && key(FirstBy(key, rows)[i]) == key(row)
  {
    hide FirstBy;
    FirstByKeeps(key, rows);
    assert HasKey(FirstBy(key, rows), key, key(row));
    i :| 0 <= i < |FirstBy(key, rows)| && key(FirstBy(key, rows)[i]) == key(row);
  }

  lemma KeptOnce<K, R>(key: R -> K, rows: seq<R>, i: nat, j: nat)
    requires i < |FirstBy(key, rows)| && j < |FirstBy(key, rows)| && key(FirstBy(key, rows)[i]) == key(FirstBy(key, rows)[j])
    ensures i == j
  {
    hide FirstBy;
    FirstByKeeps(key, rows);
  }

  lemma SameName(p: Posting, q: Posting)
    requires EvidenceOf(p) == EvidenceOf(q)
    ensures EntryName(p) == EntryName(q)
  {
  }

  // ----- when names identify evidence

  predicate Free(s: string) { SEPARATOR !in s }

  lemma {:induction false} JoinInjective(a: string, b: string, c: string, d: string)
    requires Free(a) && Free(c)
    requires a + [SEPARATOR] + b == c + [SEPARATOR] + d
    ensures a == c && b == d
  {
    var s := a + [SEPARATOR] + b;
    assert s[|a|] == SEPARATOR && s[|c|] == SEPARATOR;
    assert forall i :: 0 <= i < |a| ==> s[i] == a[i];
    assert forall i :: 0 <= i < |c| ==> s[i] == c[i];
    assert a == s[..|a|] && c == s[..|c|] && b == s[|a| + 1..] && d == s[|c| + 1..];
  }

  lemma NameIdentifiesEvidence(p: Posting, q: Posting)
    requires ValidPosting(p) && ValidPosting(q) && Free(p.kind) && Free(p.source) && Free(q.kind) && Free(q.source)
    requires EntryName(p) == EntryName(q)
    ensures EvidenceOf(p) == EvidenceOf(q)
  {
    IdsAreFree(p);
    IdsAreFree(q);
    var pr, qr := p.source + [SEPARATOR] + p.digest, q.source + [SEPARATOR] + q.digest;
    JoinInjective(p.account, p.kind + [SEPARATOR] + pr, q.account, q.kind + [SEPARATOR] + qr);
    JoinInjective(p.kind, pr, q.kind, qr);
    JoinInjective(p.source, p.digest, q.source, q.digest);
  }

  lemma IdsAreFree(p: Posting)
    requires ValidPosting(p)
    ensures Free(p.account)
  {
    forall i | 0 <= i < |p.account| ensures p.account[i] != SEPARATOR { }
  }

  /** Entries whose kinds contain no separator are counted once for each piece of evidence, whatever was retried or
      rejected, and every accepted entry is among them. */
  lemma BalanceCountsEvidenceOnce(calls: seq<Call>, account: string)
    requires forall p :: p in AcceptedEntries(EMPTY, calls) ==> Free(p.kind) && Free(p.source)
    ensures var rows := AcceptedEntries(EMPTY, calls);
            && Balance(AfterCalls(EMPTY, calls).entries, account) == Balance(FirstBy(EvidenceOf, rows), account)
            && forall p :: p in rows ==> p in FirstBy(EvidenceOf, rows)
  {
    hide AfterCalls, AcceptedEntries, EntryName, FirstBy, Balance, ValidPosting;
    var rows := AcceptedEntries(EMPTY, calls);
    AcceptedAreValid(calls);
    forall p, q | p in rows && q in rows && EntryName(p) == EntryName(q) ensures EvidenceOf(p) == EvidenceOf(q) {
      NameIdentifiesEvidence(p, q);
    }
    EntriesOncePerEvidence(calls);
    forall p | p in rows ensures p in FirstBy(EvidenceOf, rows) { AcceptedIsStored(calls, p); }
  }

  lemma {:induction false} AcceptedAreValid(calls: seq<Call>)
    ensures forall p :: p in AcceptedEntries(EMPTY, calls) ==> ValidPosting(p)
  {
    hide ValidPosting, ValidCost, NormalPosting, NormalCost, AppendAt, CostAt;
    if calls != [] { AcceptedAreValid(calls[..|calls| - 1]); }
  }

  /** An accepted entry agrees with a stored row in name, run and amount. */
  predicate Stored(entries: seq<Posting>, p: Posting) {
    exists i :: 0 <= i < |entries| && Agrees(entries[i], p)
  }

  predicate Agrees(row: Posting, p: Posting) { EntryName(row) == EntryName(p) && row.run == p.run && row.amount == p.amount }

  lemma {:induction false} AcceptedAgree(calls: seq<Call>)
    ensures forall p :: p in AcceptedEntries(EMPTY, calls) ==> Stored(AfterCalls(EMPTY, calls).entries, p)
  {
    hide EntryName, ValidPosting, ValidCost, NormalPosting, NormalCost;
    if calls != [] {
      var before, call := calls[..|calls| - 1], calls[|calls| - 1];
      AcceptedAgree(before);
      var b, b' := AfterCalls(EMPTY, before), AfterCalls(EMPTY, calls);
      forall p | p in AcceptedEntries(EMPTY, calls) ensures Stored(b'.entries, p) {
        if p in AcceptedEntries(EMPTY, before) {
          var i :| 0 <= i < |b.entries| && Agrees(b.entries[i], p);
          assert Agrees(b'.entries[i], p);
        } else {
          var at := Find(b.entries, EntryName, EntryName(p));
          assert Agrees(b'.entries[at], p);
        }
      }
    }
  }

  lemma AcceptedIsStored(calls: seq<Call>, p: Posting)
    requires p in AcceptedEntries(EMPTY, calls) && NoClash(AcceptedEntries(EMPTY, calls))
    ensures p in AfterCalls(EMPTY, calls).entries
    ensures AfterCalls(EMPTY, calls).entries == FirstBy(EvidenceOf, AcceptedEntries(EMPTY, calls))
  {
    hide AfterCalls, AcceptedEntries, EntryName, FirstBy;
    EntriesOncePerEvidence(calls);
    AcceptedAgree(calls);
    var rows, entries := AcceptedEntries(EMPTY, calls), AfterCalls(EMPTY, calls).entries;
    FirstByKeeps(EvidenceOf, rows);
    var i :| 0 <= i < |entries| && Agrees(entries[i], p);
    assert entries[i] in rows;
  }

  /** With a separator inside a kind, two different pieces of evidence share one entry: the second append is accepted
      and never counted. */
  lemma SeparatorLosesEvidence(account: string, digest: string)
    requires IsUuid(account) && IsSha256(digest)
    ensures var p := Posting(account, None, ['a', SEPARATOR, 'b'], 1.0, ['c'], digest);
            var q := Posting(account, None, ['a'], 1.0, ['b', SEPARATOR, 'c'], digest);
            && ValidPosting(p) && ValidPosting(q) && EvidenceOf(p) != EvidenceOf(q)
            && var b := Books({account}, {}, [p], []);
               AppendAt(Books({account}, {}, [], []), p) == (b, Accepted) && AppendAt(b, q) == (b, Accepted)
  {
    hide IsUuid, IsSha256;
    var p := Posting(account, None, ['a', SEPARATOR, 'b'], 1.0, ['c'], digest);
    var q := Posting(account, None, ['a'], 1.0, ['b', SEPARATOR, 'c'], digest);
    assert p.kind[1] == SEPARATOR && p.kind != q.kind;
    var rest := [SEPARATOR] + digest;
    assert p.kind + [SEPARATOR] + (p.source + [SEPARATOR] + digest) == ['a', SEPARATOR, 'b', SEPARATOR, 'c'] + rest;
    assert q.kind + [SEPARATOR] + (q.source + [SEPARATOR] + digest) == ['a', SEPARATOR, 'b', SEPARATOR, 'c'] + rest;
    assert EntryName(p) == EntryName(q);
    assert [] + [p] == [p];
  }

  // ----- totals

  /** SUM(amount) over the entries of one account, 0.0 when there is none. */
  function Balance(entries: seq<Posting>, account: string): real {
    if entries == [] then 0.0 else (if entries[0].account == account then entries[0].amount else 0.0) + Balance(entries[1..], account)
  }

  function ClassTotal(costs: seq<Cost>, plan: string, c: CostClass): real {
    if costs == [] then 0.0
    else (if costs[0].plan == plan && costs[0].class_ == c then costs[0].amount else 0.0) + ClassTotal(costs[1..], plan, c)
  }

  function PlanTotal(costs: seq<Cost>, plan: string): real {
    if costs == [] then 0.0 else (if costs[0].plan == plan then costs[0].amount else 0.0) + PlanTotal(costs[1..], plan)
  }

  predicate HasClass(costs: seq<Cost>, plan: string, c: CostClass) {
    exists i :: 0 <= i < |costs| && costs[i].plan == plan && costs[i].class_ == c
  }

  /** The GROUP BY of one plan: a total for each class that occurs. */
  function PlanCosts(b: Books, plan: string): map<CostClass, real> {
    map c: CostClass | HasClass(b.costs, plan, c) :: ClassTotal(b.costs, plan, c)
  }

  function TotalIn(totals: map<CostClass, real>, c: CostClass): real { if c in totals then totals[c] else 0.0 }

  /** The sum of the dictionary's values, as the budget check takes it. */
  function BudgetTotal(totals: map<CostClass, real>): real {
    TotalIn(totals, Discovery) + TotalIn(totals, Probe) + TotalIn(totals, ProductionExecution) + TotalIn(totals, Verification)
    + TotalIn(totals, Integration) + TotalIn(totals, HumanCorrection)
  }

  lemma {:induction false} AbsentClassIsZero(costs: seq<Cost>, plan: string, c: CostClass)
    requires !HasClass(costs, plan, c)
    ensures ClassTotal(costs, plan, c) == 0.0
  {
    if costs != [] {
      assert !(costs[0].plan == plan && costs[0].class_ == c);
      assert forall i :: 0 <= i < |costs[1..]| ==> costs[1..][i] == costs[i + 1];
      AbsentClassIsZero(costs[1..], plan, c);
    }
  }

  lemma {:induction false} ClassesPartition(costs: seq<Cost>, plan: string)
    ensures PlanTotal(costs, plan)
         == ClassTotal(costs, plan, Discovery) + ClassTotal(costs, plan, Probe) + ClassTotal(costs, plan, ProductionExecution)
          + ClassTotal(costs, plan, Verification) + ClassTotal(costs, plan, Integration) + ClassTotal(costs, plan, HumanCorrection)
  {
    if costs != [] { ClassesPartition(costs[1..], plan); }
  }

  /** After any calls: every accepted cost is stored, one for each idempotency key of its plan; a class total adds up
      those; and the class totals of a plan, which the budget check sums, add up to all of its costs. */
  lemma PlanCostsCountKeysOnce(calls: seq<Call>, plan: string, c: CostClass)
    ensures var b, rows := AfterCalls(EMPTY, calls), AcceptedCosts(EMPTY, calls);
            && (forall cost :: cost in rows <==> cost in b.costs)
            && (forall i, j :: 0 <= i < j < |b.costs| ==> KeyOf(b.costs[i]) != KeyOf(b.costs[j]))
            && (c in PlanCosts(b, plan) <==> HasClass(rows, plan, c))
            && (c in PlanCosts(b, plan) ==> PlanCosts(b, plan)[c] == ClassTotal(FirstBy(KeyOf, rows), plan, c))
            && BudgetTotal(PlanCosts(b, plan)) == PlanTotal(FirstBy(KeyOf, rows), plan)
  {
    hide AfterCalls, AcceptedCosts, FirstBy, KeyOf, ClassTotal, PlanTotal;
    var b, rows := AfterCalls(EMPTY, calls), AcceptedCosts(EMPTY, calls);
    CostsAreFirstByKey(calls);
    FirstByKeeps(KeyOf, rows);
    AcceptedCostsAreStored(calls);
    PlanTotalIsSum(b, plan);
    SameClasses(rows, b.costs, plan, c);
  }

  lemma PlanTotalIsSum(b: Books, plan: string)
    ensures BudgetTotal(PlanCosts(b, plan)) == PlanTotal(b.costs, plan)
  {
    hide ClassTotal, PlanTotal, HasClass;
    var totals := PlanCosts(b, plan);
    ClassesPartition(b.costs, plan);
    forall k: CostClass ensures TotalIn(totals, k) == ClassTotal(b.costs, plan, k) {
      if !HasClass(b.costs, plan, k) { AbsentClassIsZero(b.costs, plan, k); }
    }
  }

  lemma SameClasses(rows: seq<Cost>, costs: seq<Cost>, plan: string, c: CostClass)
    requires forall cost :: cost in rows <==> cost in costs
    ensures HasClass(rows, plan, c) <==> HasClass(costs, plan, c)
  {
    if HasClass(rows, plan, c) {
      var i :| 0 <= i < |rows| && rows[i].plan == plan && rows[i].class_ == c;
      assert rows[i] in costs;
    }
    if HasClass(costs, plan, c) {
      var i :| 0 <= i < |costs| && costs[i].plan == plan && costs[i].class_ == c;
      assert costs[i] in rows;
    }
  }

  lemma {:induction false} AcceptedCostsAreStored(calls: seq<Call>)
    ensures forall cost :: cost in AcceptedCosts(EMPTY, calls) ==> cost in AfterCalls(EMPTY, calls).costs
  {
    hide ValidPosting, ValidCost, NormalPosting, NormalCost, KeyOf;
    if calls != [] { AcceptedCostsAreStored(calls[..|calls| - 1]); }
  }
}
