/** The model passport (model_passport.py): a projection of append-only evidence as of a time, and its cache. Timestamps are
    normalised strings, compared as strings. */
module Passports {
  import opened Text
  import opened PayloadKeys
  import opened Sorting
  import Timestamps

  type Fields = map<string, Json>

  /** A stored record: its identifier, its date, and the rest; a payload that is not an object is None. */
  datatype Record<T> = Record(id: string, at: string, body: T)

  datatype Observation = Observation(subject: string, route: Option<string>, snapshot: string, payload: Option<Fields>)

  datatype Evidence = Evidence(subject: string, key: string, payload: Option<Fields>)

  datatype Decision = Decision(key: string, state: string, evidenceSet: string, payload: Option<Fields>)

  datatype Invalidation = Invalidation(key: string, reason: string)

  datatype Subject = Subject(payload: Option<Fields>, firstSnapshot: string)

  /** The observatory tables; rows are in insertion order. */
  datatype Store = Store(subjects: map<string, Subject>, snapshots: map<string, string>, routes: map<string, string>,
                         observations: seq<Record<Observation>>, evidence: seq<Record<Evidence>>,
                         decisions: seq<Record<Decision>>, invalidations: seq<Record<Invalidation>>)

  datatype Price = Price(observation: string, route: string, at: string, kind: string, amount: real)

  datatype Privacy = Privacy(observation: string, route: string, at: string, status: string)

  datatype Qualification = Qualification(decision: string, key: string, state: string, evidenceSet: string, at: string)

  /** What the loop over observations accumulates. */
  datatype Gathered = Gathered(prices: seq<Price>, privacy: seq<Privacy>, benchmarks: set<string>, failures: set<string>,
                               blindSpots: set<string>)

  /** The projection; the sorted tuples of the original are sets here, and its digest is a function of these fields. */
  datatype Passport = Passport(subject: string, status: string, firstSnapshot: string, asOf: string, routes: set<string>,
                               observations: seq<string>, evidence: seq<string>, decisions: seq<string>, invalidations: seq<string>,
                               gathered: Gathered, states: seq<Qualification>, latestEvidence: Option<string>)

  datatype Outcome<T> = Built(value: T) | Conflict | ValueError

  /** Decimal parsing: the finite non-negative amount a text denotes. */
  type Decimals = string -> Option<real>

  // ----- reading as of a time

  predicate RecordLess<T>(a: Record<T>, b: Record<T>) { LexLess(a.at, b.at) || (a.at == b.at && LexLess(a.id, b.id)) }

  function Where<T>(rows: seq<Record<T>>, p: T -> bool): seq<Record<T>> {
    if rows == [] then []
    else Where(rows[..|rows| - 1], p) + if p(rows[|rows| - 1].body) then [rows[|rows| - 1]] else []
  }

  /** `item.at <= as_of` as a string comparison. */
  predicate NotAfter(at: string, asOf: string) { !LexLess(asOf, at) }

  function Upto<T>(rows: seq<Record<T>>, asOf: string): seq<Record<T>> {
    if rows == [] then [] else (if NotAfter(rows[0].at, asOf) then [rows[0]] else []) + Upto(rows[1..], asOf)
  }

  /** A read in date and identifier order, cut off. */
  function View<T>(rows: seq<Record<T>>, p: T -> bool, asOf: string): seq<Record<T>> {
    Upto(Sort(Where(rows, p), (a: Record<T>, b: Record<T>) => RecordLess(a, b)), asOf)
  }

  function Identifiers<T>(rows: seq<Record<T>>): seq<string> { seq(|rows|, i requires 0 <= i < |rows| => rows[i].id) }

  // Conditions, named so that two mentions are one value.
  function ObservesSubject(subject: string): Observation -> bool { (o: Observation) => o.subject == subject }
  function EvidenceOfSubject(subject: string): Evidence -> bool { (e: Evidence) => e.subject == subject }
  function DecidesAmong(keys: set<string>): Decision -> bool { (d: Decision) => d.key in keys }
  function InvalidatesAmong(keys: set<string>): Invalidation -> bool { (i: Invalidation) => i.key in keys }

  // ----- payload fields

  function Get(fields: Fields, key: string): Json { if key in fields then fields[key] else Null }

  /** An optional text field: null or text. */
  function TextField(fields: Fields, key: string): Outcome<Option<string>> {
    match Get(fields, key)
    case Null => Built(None)
    case Text(s) => Built(Some(s))
    case _ => Conflict
  }

  predicate AllTexts(items: seq<Json>) { forall i :: 0 <= i < |items| ==> items[i].Text? && items[i].text != "" }

  function BlindSpots(fields: Fields): Outcome<set<string>> {
    match Get(fields, "blind_spots")
    case Null => Built({})
    case List(items) => if AllTexts(items) then Built(set i | 0 <= i < |items| && items[i].Text? :: items[i].text) else Conflict
    case _ => Conflict
  }

  function PriceOf(amounts: Decimals, o: Record<Observation>, item: Json): Outcome<Price> {
    if !item.Object? then Conflict
    else
      var kind, amount := Get(item.fields, "price_kind"), Get(item.fields, "usd_per_unit");
      if o.body.route.None? || !kind.Text? || !amount.Text? then Conflict
      else match amounts(amount.text) case None => Conflict case Some(a) => Built(Price(o.id, o.body.route.value, o.at, kind.text, a))
  }

  function Prices(amounts: Decimals, o: Record<Observation>, items: seq<Json>): Outcome<seq<Price>> {
    if items == [] then Built([])
    else
      match Prices(amounts, o, items[..|items| - 1])
      case Built(before) =>
        (match PriceOf(amounts, o, items[|items| - 1]) case Built(p) => Built(before + [p]) case Conflict => Conflict case ValueError => ValueError)
      case e => e
  }

  /** The prices of an observation. A missing key is not a list, so the observation is refused; null has no price. */
  function PricesOf(amounts: Decimals, o: Record<Observation>, fields: Fields): Outcome<seq<Price>> {
    if "pricing" !in fields then Conflict
    else
      match fields["pricing"]
      case Null => Built([])
      case List(items) => Prices(amounts, o, items)
      case _ => Conflict
  }

  function AddSome(s: set<string>, t: Option<string>): set<string> { if t.Some? then s + {t.value} else s }

  /** One observation more; None stands for an `ObservatoryConflict`. */
  function Gather(amounts: Decimals, g: Gathered, o: Record<Observation>): Option<Gathered> {
    if o.body.payload.None? then None
    else
      var fields := o.body.payload.value;
      var prices, status := PricesOf(amounts, o, fields), TextField(fields, "privacy_status");
      var benchmark, failure, spots := TextField(fields, "benchmark_digest"), TextField(fields, "failure_mode"), BlindSpots(fields);
      if !prices.Built? || !status.Built? || !benchmark.Built? || !failure.Built? || !spots.Built? then None
      else if status.value.Some? && o.body.route.None? then None
      else
        Some(Gathered(g.prices + prices.value,
                      g.privacy + (if status.value.Some? then [Privacy(o.id, o.body.route.value, o.at, status.value.value)] else []),
                      AddSome(g.benchmarks, benchmark.value), AddSome(g.failures, failure.value), g.blindSpots + spots.value))
  }

  function GatherAll(amounts: Decimals, rows: seq<Record<Observation>>): Option<Gathered> {
    if rows == [] then Some(Gathered([], [], {}, {}, {}))
    else match GatherAll(amounts, rows[..|rows| - 1]) case None => None case Some(g) => Gather(amounts, g, rows[|rows| - 1])
  }

  /** An evidence item more. */
  function Weigh(g: Gathered, e: Record<Evidence>): Option<Gathered> {
    if e.body.payload.None? then None
    else
      var failure, spots := TextField(e.body.payload.value, "failure_mode"), BlindSpots(e.body.payload.value);
      if !failure.Built? || !spots.Built? then None
      else Some(g.(failures := AddSome(g.failures, failure.value), blindSpots := g.blindSpots + spots.value))
  }

  function WeighAll(g: Gathered, rows: seq<Record<Evidence>>): Option<Gathered> {
    if rows == [] then Some(g)
    else match WeighAll(g, rows[..|rows| - 1]) case None => None case Some(g') => Weigh(g', rows[|rows| - 1])
  }

  /** A decision more. */
  function Decide(g: Gathered, d: Record<Decision>): Option<Gathered> {
    if d.body.payload.None? || !BlindSpots(d.body.payload.value).Built? then None
    else
      Some(g.(blindSpots := g.blindSpots + BlindSpots(d.body.payload.value).value,
              failures := if d.body.state in {"rejected", "suspended", "revoked", "stale"} then g.failures + {"qualification_" + d.body.state}
                          else g.failures))
  }

  function DecideAll(g: Gathered, rows: seq<Record<Decision>>): Option<Gathered> {
    if rows == [] then Some(g)
    else match DecideAll(g, rows[..|rows| - 1]) case None => None case Some(g') => Decide(g', rows[|rows| - 1])
  }

  function Reasons(rows: seq<Record<Invalidation>>): set<string> { set i | 0 <= i < |rows| :: rows[i].body.reason }

  function Absences(evidence: bool, privacy: bool, decisions: bool, unresolved: bool): set<string> {
    (if evidence then {} else {"no_subject_evidence"}) + (if privacy then {} else {"no_route_privacy_evidence"})
    + (if decisions then {} else {"no_qualification_decision"}) + (if unresolved then {"identity_unresolved"} else {})
  }

  // ----- the projection

  function RoutesOf(rows: seq<Record<Observation>>): set<string> {
    set i | 0 <= i < |rows| && rows[i].body.route.Some? :: rows[i].body.route.value
  }

  function KnownRoutes(store: Store, subject: string): set<string> { set r | r in store.routes && store.routes[r] == subject }

  function KeysOf(rows: seq<Record<Evidence>>): set<string> { set i | 0 <= i < |rows| :: rows[i].body.key }

  function StatesOf(rows: seq<Record<Decision>>): seq<Qualification> {
    seq(|rows|, i requires 0 <= i < |rows| =>
      Qualification(rows[i].id, rows[i].body.key, rows[i].body.state, rows[i].body.evidenceSet, rows[i].at))
  }

  /** The four cut-off reads. */
  datatype Reads = Reads(observations: seq<Record<Observation>>, evidence: seq<Record<Evidence>>, decisions: seq<Record<Decision>>,
                         invalidations: seq<Record<Invalidation>>)

  function ReadAll(store: Store, subject: string, asOf: string): Reads {
    var evidence := View(store.evidence, EvidenceOfSubject(subject), asOf);
    Reads(View(store.observations, ObservesSubject(subject), asOf), evidence, View(store.decisions, DecidesAmong(KeysOf(evidence)), asOf),
          View(store.invalidations, InvalidatesAmong(KeysOf(evidence)), asOf))
  }

  function Project(amounts: Decimals, subject: string, status: string, first: string, asOf: string, r: Reads): Outcome<Passport> {
    match GatherAll(amounts, r.observations)
    case None => Conflict
    case Some(a) =>
      match WeighAll(a, r.evidence)
      case None => Conflict
      case Some(b) =>
        match DecideAll(b, r.decisions)
        case None => Conflict
        case Some(c) =>
          var d := c.(failures := c.failures + Reasons(r.invalidations),
                      blindSpots := c.blindSpots + Absences(r.evidence != [], c.privacy != [], r.decisions != [], status == "unresolved"));
          Built(Passport(subject, status, first, asOf, RoutesOf(r.observations), Identifiers(r.observations), Identifiers(r.evidence),
                         Identifiers(r.decisions), Identifiers(r.invalidations), d, StatesOf(r.decisions),
                         if r.evidence == [] then None else Some(r.evidence[|r.evidence| - 1].at)))
  }

  function StatusOf(s: Subject): Option<string> {
    if s.payload.None? then None
    else
      match Get(s.payload.value, "identity_status")
      case Text(t) => if t in {"resolved", "claimed", "unresolved"} then Some(t) else None
      case _ => None
  }

  /** `_build`. */
  function Build(amounts: Decimals, store: Store, subject: string, asOf: string): Outcome<Passport> {
    if subject !in store.subjects then Conflict
    else
      var s := store.subjects[subject];
      if StatusOf(s).None? || s.firstSnapshot !in store.snapshots then Conflict
      else if LexLess(asOf, store.snapshots[s.firstSnapshot]) then ValueError
      else
        var r := ReadAll(store, subject, asOf);
        if !(RoutesOf(r.observations) <= KnownRoutes(store, subject)) then Conflict
        else Project(amounts, subject, StatusOf(s).value, s.firstSnapshot, asOf, r)
  }

  // ----- the append-only store

  datatype Append =
    | AddSubject(id: string, subject: Subject)
    | AddSnapshot(id: string, takenAt: string)
    | AddRoute(id: string, owner: string)
    | AddObservation(observation: Record<Observation>)
    | AddEvidence(evidence: Record<Evidence>)
    | AddDecision(decision: Record<Decision>)
    | AddInvalidation(invalidation: Record<Invalidation>)

  predicate HasId<T>(rows: seq<Record<T>>, id: string) { exists i :: 0 <= i < |rows| && rows[i].id == id }

  /** Rows are inserted once and never changed, and the rows they refer to must be there; an observation's route must belong to
      its subject. */
  function ApplyAppend(store: Store, a: Append): Store {
    match a
    case AddSubject(id, subject) =>
      if id in store.subjects || subject.firstSnapshot !in store.snapshots then store else store.(subjects := store.subjects[id := subject])
    case AddSnapshot(id, at) => if id in store.snapshots then store else store.(snapshots := store.snapshots[id := at])
    case AddRoute(id, subject) =>
      if id in store.routes || subject !in store.subjects then store else store.(routes := store.routes[id := subject])
    case AddObservation(o) =>
      if HasId(store.observations, o.id) || !Bound(store, o.body) then store else store.(observations := store.observations + [o])
    case AddEvidence(e) => if HasId(store.evidence, e.id) then store else store.(evidence := store.evidence + [e])
    case AddDecision(d) => if HasId(store.decisions, d.id) then store else store.(decisions := store.decisions + [d])
    case AddInvalidation(i) => if HasId(store.invalidations, i.id) then store else store.(invalidations := store.invalidations + [i])
  }

  predicate RouteBinds(store: Store, o: Observation) {
    o.route.Some? ==> o.route.value in store.routes && store.routes[o.route.value] == o.subject
  }

  /** The rows an observation refers to are there. */
  predicate Bound(store: Store, o: Observation) { RouteBinds(store, o) && o.subject in store.subjects && o.snapshot in store.snapshots }

  /** Every observation's route is known and belongs to its subject. */
  ghost predicate RoutesBound(store: Store) {
    forall i :: 0 <= i < |store.observations| ==> RouteBinds(store, store.observations[i].body)
  }

  function After(store: Store, appends: seq<Append>): Store
    decreases |appends|
  {
    if appends == [] then store else After(ApplyAppend(store, appends[0]), appends[1..])
  }

  const NOTHING := Store(map[], map[], map[], [], [], [], [])

  lemma AppendKeepsRoutes(store: Store, a: Append)
    requires RoutesBound(store)
    ensures RoutesBound(ApplyAppend(store, a))
  {
    var store' := ApplyAppend(store, a);
    forall i | 0 <= i < |store'.observations| ensures RouteBinds(store', store'.observations[i].body) {
      if i < |store.observations| { assert RouteBinds(store, store.observations[i].body); }
    }
  }

  // ----- what a cut-off view shows

  lemma {:induction false} UptoInsert<T>(x: Record<T>, rows: seq<Record<T>>, less: (Record<T>, Record<T>) -> bool, asOf: string)
    requires !NotAfter(x.at, asOf)
    ensures Upto(Insert(x, rows, less), asOf) == Upto(rows, asOf)
  {
    hide NotAfter;
    if rows == [] || less(x, rows[0]) {
      assert ([x] + rows)[1..] == rows;
    } else {
      UptoInsert(x, rows[1..], less, asOf);
    }
  }

  lemma WhereSnoc<T>(rows: seq<Record<T>>, x: Record<T>, p: T -> bool)
    ensures Where(rows + [x], p) == Where(rows, p) + if p(x.body) then [x] else []
  {
    assert (rows + [x])[..|rows|] == rows;
  }

  lemma SortSnoc<T>(rows: seq<Record<T>>, x: Record<T>, less: (Record<T>, Record<T>) -> bool)
    ensures Sort(rows + [x], less) == Insert(x, Sort(rows, less), less)
  {
    assert (rows + [x])[..|rows|] == rows;
  }

  /** A row outside the condition, or after the time, is not seen. */
  lemma ViewUnchanged<T>(rows: seq<Record<T>>, x: Record<T>, p: T -> bool, asOf: string)
    requires !p(x.body) || !NotAfter(x.at, asOf)
    ensures View(rows + [x], p, asOf) == View(rows, p, asOf)
  {
    hide NotAfter, Upto, Where, Sort, Insert, RecordLess;
    var less := (a: Record<T>, b: Record<T>) => RecordLess(a, b);
    WhereSnoc(rows, x, p);
    if p(x.body) {
      SortSnoc(Where(rows, p), x, less);
      UptoInsert(x, Sort(Where(rows, p), less), less, asOf);
    } else {
      assert Where(rows, p) + [] == Where(rows, p);
    }
  }

  lemma {:induction false} UptoHas<T>(rows: seq<Record<T>>, x: Record<T>, asOf: string)
    ensures x in Upto(rows, asOf) <==> x in rows && NotAfter(x.at, asOf)
  {
    hide NotAfter;
    if rows != [] {
      UptoHas(rows[1..], x, asOf);
      assert x in rows <==> x == rows[0] || x in rows[1..];
    }
  }

  lemma {:induction false} WhereHas<T>(rows: seq<Record<T>>, x: Record<T>, p: T -> bool)
    ensures x in Where(rows, p) <==> x in rows && p(x.body)
  {
    if rows != [] {
      WhereHas(rows[..|rows| - 1], x, p);
      assert x in rows <==> x in rows[..|rows| - 1] || x == rows[|rows| - 1];
    }
  }

  lemma ViewHas<T>(rows: seq<Record<T>>, x: Record<T>, p: T -> bool, asOf: string)
    ensures x in View(rows, p, asOf) <==> x in rows && p(x.body) && NotAfter(x.at, asOf)
  {
    hide NotAfter, Upto, Where, Sort, RecordLess;
    var less := (a: Record<T>, b: Record<T>) => RecordLess(a, b);
    UptoHas(Sort(Where(rows, p), less), x, asOf);
    SortMembers(Where(rows, p), less);
    WhereHas(rows, x, p);
  }

  /** A new row that is seen changes the identifiers of the view. */
  lemma ViewChanges<T>(rows: seq<Record<T>>, x: Record<T>, p: T -> bool, asOf: string)
    requires p(x.body) && NotAfter(x.at, asOf) && !HasId(rows, x.id)
    ensures Identifiers(View(rows + [x], p, asOf)) != Identifiers(View(rows, p, asOf))
  {
    hide NotAfter, View;
    var before, now := View(rows, p, asOf), View(rows + [x], p, asOf);
    ViewHas(rows + [x], x, p, asOf);
    assert (rows + [x])[|rows|] == x;
    var i :| 0 <= i < |now| && now[i] == x;
    assert Identifiers(now)[i] == x.id;
    forall k | 0 <= k < |before| ensures Identifiers(before)[k] != x.id {
      ViewHas(rows, before[k], p, asOf);
      assert before[k] in rows;
      var j :| 0 <= j < |rows| && rows[j] == before[k];
      assert rows[j].id != x.id;
    }
  }

  // ----- the passport at a time is a fact about that time

  /** Dated after the time, or not dated at all. */
  predicate DatedAfter(a: Append, asOf: string) {
    match a
    case AddObservation(o) => !NotAfter(o.at, asOf)
    case AddEvidence(e) => !NotAfter(e.at, asOf)
    case AddDecision(d) => !NotAfter(d.at, asOf)
    case AddInvalidation(i) => !NotAfter(i.at, asOf)
    case _ => true
  }

  /** Later-dated rows change none of the four reads. */
  lemma ReadsUnchanged(store: Store, a: Append, subject: string, asOf: string)
    requires DatedAfter(a, asOf)
    ensures ReadAll(ApplyAppend(store, a), subject, asOf) == ReadAll(store, subject, asOf)
  {
    hide View, NotAfter;
    var keys := KeysOf(View(store.evidence, EvidenceOfSubject(subject), asOf));
    match a
    case AddObservation(o) => ViewUnchanged(store.observations, o, ObservesSubject(subject), asOf);
    case AddEvidence(e) => ViewUnchanged(store.evidence, e, EvidenceOfSubject(subject), asOf);
    case AddDecision(d) => ViewUnchanged(store.decisions, d, DecidesAmong(keys), asOf);
    case AddInvalidation(i) => ViewUnchanged(store.invalidations, i, InvalidatesAmong(keys), asOf);
    case _ =>
  }

  lemma RoutesGrow(store: Store, a: Append, subject: string)
    ensures KnownRoutes(store, subject) <= KnownRoutes(ApplyAppend(store, a), subject)
  {
  }

  /** The passport at a time is unchanged by anything appended with a later date. */
  lemma AppendKeepsPassport(amounts: Decimals, store: Store, a: Append, subject: string, asOf: string)
    requires DatedAfter(a, asOf) && Build(amounts, store, subject, asOf).Built?
    ensures Build(amounts, ApplyAppend(store, a), subject, asOf) == Build(amounts, store, subject, asOf)
  {
    hide ReadAll, Project, StatusOf, RoutesOf, DatedAfter, KnownRoutes;
    ReadsUnchanged(store, a, subject, asOf);
    RoutesGrow(store, a, subject);
  }

  lemma {:induction false} LaterAppendsKeepPassport(amounts: Decimals, store: Store, appends: seq<Append>, subject: string, asOf: string)
    requires Build(amounts, store, subject, asOf).Built? && forall i :: 0 <= i < |appends| ==> DatedAfter(appends[i], asOf)
    ensures Build(amounts, After(store, appends), subject, asOf) == Build(amounts, store, subject, asOf)
    decreases |appends|
  {
    hide Build, ApplyAppend, DatedAfter;
    if appends != [] {
      AppendKeepsPassport(amounts, store, appends[0], subject, asOf);
      LaterAppendsKeepPassport(amounts, ApplyAppend(store, appends[0]), appends[1..], subject, asOf);
    }
  }

  /** String dates and cut-offs compare as the instants they were printed from. */
  lemma CutoffIsByInstant(at: int, asOf: int)
    requires Timestamps.Stamp(at).Some? && Timestamps.Stamp(asOf).Some?
    ensures NotAfter(Timestamps.Stamp(at).value, Timestamps.Stamp(asOf).value) <==> at <= asOf
  {
    hide Timestamps.Stamp;
    Timestamps.StampOrder(asOf, at);
  }

  // ----- exactly which rows matter

  /** The qualification keys of the evidence seen at a time. */
  function SeenKeys(store: Store, subject: string, asOf: string): set<string> {
    KeysOf(View(store.evidence, EvidenceOfSubject(subject), asOf))
  }

  predicate Seen(store: Store, a: Append, subject: string, asOf: string) {
    match a
    case AddObservation(o) => !HasId(store.observations, o.id) && Bound(store, o.body) && o.body.subject == subject && NotAfter(o.at, asOf)
    case AddEvidence(e) => !HasId(store.evidence, e.id) && e.body.subject == subject && NotAfter(e.at, asOf)
    case AddDecision(d) => !HasId(store.decisions, d.id) && d.body.key in SeenKeys(store, subject, asOf) && NotAfter(d.at, asOf)
    case AddInvalidation(i) => !HasId(store.invalidations, i.id) && i.body.key in SeenKeys(store, subject, asOf) && NotAfter(i.at, asOf)
    case _ => false
  }

  /** The four lists of identifiers a passport shows. */
  function Shown(r: Reads): (seq<string>, seq<string>, seq<string>, seq<string>) {
    (Identifiers(r.observations), Identifiers(r.evidence), Identifiers(r.decisions), Identifiers(r.invalidations))
  }

  lemma BuiltShows(amounts: Decimals, store: Store, subject: string, asOf: string)
    requires Build(amounts, store, subject, asOf).Built?
    ensures var p := Build(amounts, store, subject, asOf).value;
            Shown(ReadAll(store, subject, asOf)) == (p.observations, p.evidence, p.decisions, p.invalidations)
  {
    hide ReadAll, GatherAll, WeighAll, DecideAll, StatusOf, RoutesOf;
  }

  lemma SeenChangesReads(store: Store, a: Append, subject: string, asOf: string)
    requires Seen(store, a, subject, asOf)
    ensures Shown(ReadAll(ApplyAppend(store, a), subject, asOf)) != Shown(ReadAll(store, subject, asOf))
  {
    hide View, NotAfter, HasId, Bound, Identifiers, KeysOf;
    match a
    case AddObservation(o) => ViewChanges(store.observations, o, ObservesSubject(subject), asOf);
    case AddEvidence(e) => ViewChanges(store.evidence, e, EvidenceOfSubject(subject), asOf);
    case AddDecision(d) => ViewChanges(store.decisions, d, DecidesAmong(SeenKeys(store, subject, asOf)), asOf);
    case AddInvalidation(i) => ViewChanges(store.invalidations, i, InvalidatesAmong(SeenKeys(store, subject, asOf)), asOf);
  }

  lemma UnseenKeepsReads(store: Store, a: Append, subject: string, asOf: string)
    requires !Seen(store, a, subject, asOf)
    ensures ReadAll(ApplyAppend(store, a), subject, asOf) == ReadAll(store, subject, asOf)
  {
    hide View, NotAfter, HasId, Bound, KeysOf;
    var keys := SeenKeys(store, subject, asOf);
    match a
    case AddObservation(o) =>
      if ApplyAppend(store, a) != store { ViewUnchanged(store.observations, o, ObservesSubject(subject), asOf); }
    case AddEvidence(e) =>
      if ApplyAppend(store, a) != store { ViewUnchanged(store.evidence, e, EvidenceOfSubject(subject), asOf); }
    case AddDecision(d) =>
      if ApplyAppend(store, a) != store { ViewUnchanged(store.decisions, d, DecidesAmong(keys), asOf); }
    case AddInvalidation(i) =>
      if ApplyAppend(store, a) != store { ViewUnchanged(store.invalidations, i, InvalidatesAmong(keys), asOf); }
    case _ =>
  }

  /** A passport stays the same exactly when the appended row is not one it would show: of another subject or qualification
      key, dated after the time, or already there. */
  lemma PassportChangesIffSeen(amounts: Decimals, store: Store, a: Append, subject: string, asOf: string)
    requires Build(amounts, store, subject, asOf).Built?
    ensures Build(amounts, ApplyAppend(store, a), subject, asOf) == Build(amounts, store, subject, asOf) <==> !Seen(store, a, subject, asOf)
  {
    hide ReadAll, Project, StatusOf, RoutesOf, KnownRoutes, Seen, ApplyAppend, Build, Shown;
    if Seen(store, a, subject, asOf) {
      SeenChangesReads(store, a, subject, asOf);
      BuiltShows(amounts, store, subject, asOf);
      if Build(amounts, ApplyAppend(store, a), subject, asOf) == Build(amounts, store, subject, asOf) {
        BuiltShows(amounts, ApplyAppend(store, a), subject, asOf);
      }
    } else {
      UnseenKeepsReads(store, a, subject, asOf);
      RoutesGrow(store, a, subject);
      SameReadsSamePassport(amounts, store, a, subject, asOf);
    }
  }

  lemma SameReadsSamePassport(amounts: Decimals, store: Store, a: Append, subject: string, asOf: string)
    requires Build(amounts, store, subject, asOf).Built?
    requires ReadAll(ApplyAppend(store, a), subject, asOf) == ReadAll(store, subject, asOf)
    ensures Build(amounts, ApplyAppend(store, a), subject, asOf) == Build(amounts, store, subject, asOf)
  {
    hide ReadAll, Project, StatusOf, RoutesOf, KnownRoutes;
    RoutesGrow(store, a, subject);
  }

  /** In a store built by appends, no seen observation has an unknown route. */
  lemma {:induction false} AppendsBindRoutes(store: Store, appends: seq<Append>)
    requires RoutesBound(store)
    ensures RoutesBound(After(store, appends))
    decreases |appends|
  {
    hide RoutesBound, ApplyAppend;
    if appends != [] {
      AppendKeepsRoutes(store, appends[0]);
      AppendsBindRoutes(ApplyAppend(store, appends[0]), appends[1..]);
    }
  }

  lemma RoutesNeverMissing(appends: seq<Append>, subject: string, asOf: string)
    ensures var store := After(NOTHING, appends);
            RoutesOf(ReadAll(store, subject, asOf).observations) <= KnownRoutes(store, subject)
  {
    hide After, View, NotAfter;
    var store := After(NOTHING, appends);
    AppendsBindRoutes(NOTHING, appends);
    var seen := View(store.observations, ObservesSubject(subject), asOf);
    forall r | r in RoutesOf(seen) ensures r in KnownRoutes(store, subject) {
      var i :| 0 <= i < |seen| && seen[i].body.route.Some? && seen[i].body.route.value == r;
      ViewHas(store.observations, seen[i], ObservesSubject(subject), asOf);
      var k :| 0 <= k < |store.observations| && store.observations[k] == seen[i];
      assert RouteBinds(store, store.observations[k].body);
    }
  }

  // ----- exactly when a passport is built

  predicate TextOrNull(fields: Fields, key: string) { Get(fields, key).Null? || Get(fields, key).Text? }

  predicate SpotsFine(fields: Fields) {
    var spots := Get(fields, "blind_spots");
    spots.Null? || (spots.List? && AllTexts(spots.items))
  }

  predicate PriceFine(amounts: Decimals, item: Json) {
    && item.Object? && Get(item.fields, "price_kind").Text? && Get(item.fields, "usd_per_unit").Text?
    && amounts(Get(item.fields, "usd_per_unit").text).Some?
  }

  predicate ListFine(amounts: Decimals, routed: bool, items: seq<Json>) {
    forall i :: 0 <= i < |items| ==> routed && PriceFine(amounts, items[i])
  }

  /** The key has to be there: null, or a list whose prices all belong to a route. */
  predicate PricingFine(amounts: Decimals, routed: bool, fields: Fields) {
    && "pricing" in fields
    && (var pricing := fields["pricing"];
        pricing.Null? || (pricing.List? && ListFine(amounts, routed, pricing.items)))
  }

  /** What the payload of an observation has to be, on its own, to be projected. */
  predicate ObservationFine(amounts: Decimals, o: Observation) {
    && o.payload.Some?
    && PricingFine(amounts, o.route.Some?, o.payload.value)
    && TextOrNull(o.payload.value, "privacy_status") && (Get(o.payload.value, "privacy_status").Text? ==> o.route.Some?)
    && TextOrNull(o.payload.value, "benchmark_digest") && TextOrNull(o.payload.value, "failure_mode")
    && SpotsFine(o.payload.value)
  }

  predicate EvidenceFine(e: Evidence) {
    e.payload.Some? && TextOrNull(e.payload.value, "failure_mode") && SpotsFine(e.payload.value)
  }

  predicate DecisionFine(d: Decision) { d.payload.Some? && SpotsFine(d.payload.value) }

  lemma {:induction false} PricesFine(amounts: Decimals, o: Record<Observation>, items: seq<Json>)
    ensures Prices(amounts, o, items).Built? <==> ListFine(amounts, o.body.route.Some?, items)
  {
    hide PriceFine, PriceOf;
    if items != [] {
      PricesFine(amounts, o, items[..|items| - 1]);
      OnePriceFine(amounts, o, items[|items| - 1]);
    }
  }

  lemma OnePriceFine(amounts: Decimals, o: Record<Observation>, item: Json)
    ensures PriceOf(amounts, o, item).Built? <==> o.body.route.Some? && PriceFine(amounts, item)
  {
  }

  lemma FieldsFine(fields: Fields, key: string)
    ensures TextField(fields, key).Built? <==> TextOrNull(fields, key)
    ensures TextField(fields, key).Built? ==> (TextField(fields, key).value.Some? <==> Get(fields, key).Text?)
    ensures BlindSpots(fields).Built? <==> SpotsFine(fields)
  {
  }

  lemma PricingIsFine(amounts: Decimals, o: Record<Observation>, fields: Fields)
    ensures PricesOf(amounts, o, fields).Built? <==> PricingFine(amounts, o.body.route.Some?, fields)
  {
    hide ListFine, Prices;
    if "pricing" in fields && fields["pricing"].List? { PricesFine(amounts, o, fields["pricing"].items); }
  }

  lemma GatherFine(amounts: Decimals, g: Gathered, o: Record<Observation>)
    ensures Gather(amounts, g, o).Some? <==> ObservationFine(amounts, o.body)
  {
    hide TextField, TextOrNull, BlindSpots, SpotsFine, PricesOf, PricingFine, Get;
    if o.body.payload.Some? {
      var fields := o.body.payload.value;
      FieldsFine(fields, "privacy_status");
      FieldsFine(fields, "benchmark_digest");
      FieldsFine(fields, "failure_mode");
      PricingIsFine(amounts, o, fields);
    }
  }

  lemma {:induction false} GatherAllFine(amounts: Decimals, rows: seq<Record<Observation>>)
    ensures GatherAll(amounts, rows).Some? <==> forall o :: o in rows ==> ObservationFine(amounts, o.body)
  {
    hide Gather, ObservationFine;
    if rows != [] {
      var before, last := rows[..|rows| - 1], rows[|rows| - 1];
      assert rows == before + [last];
      GatherAllFine(amounts, before);
      if GatherAll(amounts, before).Some? { GatherFine(amounts, GatherAll(amounts, before).value, last); }
    }
  }

  lemma {:induction false} WeighAllFine(g: Gathered, rows: seq<Record<Evidence>>)
    ensures WeighAll(g, rows).Some? <==> forall e :: e in rows ==> EvidenceFine(e.body)
  {
    hide TextField, TextOrNull, BlindSpots, SpotsFine;
    if rows != [] {
      var before, last := rows[..|rows| - 1], rows[|rows| - 1];
      assert rows == before + [last];
      WeighAllFine(g, before);
      if last.body.payload.Some? { FieldsFine(last.body.payload.value, "failure_mode"); }
    }
  }

  lemma {:induction false} DecideAllFine(g: Gathered, rows: seq<Record<Decision>>)
    ensures DecideAll(g, rows).Some? <==> forall d :: d in rows ==> DecisionFine(d.body)
  {
    hide TextField, TextOrNull, BlindSpots, SpotsFine;
    if rows != [] {
      var before, last := rows[..|rows| - 1], rows[|rows| - 1];
      assert rows == before + [last];
      DecideAllFine(g, before);
      if last.body.payload.Some? { FieldsFine(last.body.payload.value, "failure_mode"); }
    }
  }

  ghost predicate ReadsAreFine(amounts: Decimals, r: Reads) {
    && (forall o :: o in r.observations ==> ObservationFine(amounts, o.body))
    && (forall e :: e in r.evidence ==> EvidenceFine(e.body))
    && (forall d :: d in r.decisions ==> DecisionFine(d.body))
  }

  lemma ProjectFine(amounts: Decimals, subject: string, status: string, first: string, asOf: string, r: Reads)
    ensures !Project(amounts, subject, status, first, asOf, r).ValueError?
    ensures Project(amounts, subject, status, first, asOf, r).Built?
       <==> ReadsAreFine(amounts, r)
  {
    hide GatherAll, WeighAll, DecideAll, ObservationFine, EvidenceFine, DecisionFine;
    GatherAllFine(amounts, r.observations);
    if GatherAll(amounts, r.observations).Some? {
      var a := GatherAll(amounts, r.observations).value;
      WeighAllFine(a, r.evidence);
      if WeighAll(a, r.evidence).Some? { DecideAllFine(WeighAll(a, r.evidence).value, r.decisions); }
    }
  }

  /** The subject is known with a valid status and a first snapshot. */
  predicate Introduced(store: Store, subject: string) {
    && subject in store.subjects && StatusOf(store.subjects[subject]).Some?
    && store.subjects[subject].firstSnapshot in store.snapshots
  }

  predicate BeforeFirst(store: Store, subject: string, asOf: string)
    requires Introduced(store, subject)
  {
    LexLess(asOf, store.snapshots[store.subjects[subject].firstSnapshot])
  }

  /** Every row of the subject dated by the time is well formed. */
  ghost predicate RowsFine(amounts: Decimals, store: Store, subject: string, asOf: string) {
    && (forall o :: o in store.observations && o.body.subject == subject && NotAfter(o.at, asOf) ==> ObservationFine(amounts, o.body))
    && (forall e :: e in store.evidence && e.body.subject == subject && NotAfter(e.at, asOf) ==> EvidenceFine(e.body))
    && (forall d :: d in store.decisions && d.body.key in SeenKeys(store, subject, asOf) && NotAfter(d.at, asOf) ==> DecisionFine(d.body))
  }

  lemma ReadsFine(amounts: Decimals, store: Store, subject: string, asOf: string)
    ensures RowsFine(amounts, store, subject, asOf) <==> ReadsAreFine(amounts, ReadAll(store, subject, asOf))
  {
    hide View, ObservationFine, EvidenceFine, DecisionFine, NotAfter, KeysOf;
    forall o { ViewHas(store.observations, o, ObservesSubject(subject), asOf); }
    forall e { ViewHas(store.evidence, e, EvidenceOfSubject(subject), asOf); }
    forall d { ViewHas(store.decisions, d, DecidesAmong(SeenKeys(store, subject, asOf)), asOf); }
  }

  lemma BuildOutcome(amounts: Decimals, store: Store, subject: string, asOf: string)
    ensures Build(amounts, store, subject, asOf).ValueError? <==> Introduced(store, subject) && BeforeFirst(store, subject, asOf)
    ensures Build(amounts, store, subject, asOf).Built?
       <==> && Introduced(store, subject) && !BeforeFirst(store, subject, asOf)
            && RoutesOf(ReadAll(store, subject, asOf).observations) <= KnownRoutes(store, subject)
            && RowsFine(amounts, store, subject, asOf)
  {
    hide ReadAll, Project, StatusOf, RoutesOf, KnownRoutes, RowsFine, ObservationFine, EvidenceFine, DecisionFine;
    ReadsFine(amounts, store, subject, asOf);
    if Introduced(store, subject) {
      var row := store.subjects[subject];
      ProjectFine(amounts, subject, StatusOf(row).value, row.firstSnapshot, asOf, ReadAll(store, subject, asOf));
    }
  }

  /** In every store built by appends, a passport is built exactly when the subject is introduced, the time is not before its
      first snapshot, and every row that would be shown is well formed on its own. */
  lemma BuildSucceedsIff(amounts: Decimals, appends: seq<Append>, subject: string, asOf: string)
    ensures var store := After(NOTHING, appends);
            Build(amounts, store, subject, asOf).Built? <==>
            Introduced(store, subject) && !BeforeFirst(store, subject, asOf) && RowsFine(amounts, store, subject, asOf)
  {
    hide After, Build, Introduced, BeforeFirst, RowsFine, ReadAll, RoutesOf, KnownRoutes;
    BuildOutcome(amounts, After(NOTHING, appends), subject, asOf);
    RoutesNeverMissing(appends, subject, asOf);
  }

  /** What an appender can check beforehand: an observation spoils a passport exactly when it would be shown in it and is not
      well formed. */
  lemma ObservationSpoilsIff(amounts: Decimals, appends: seq<Append>, o: Record<Observation>, subject: string, asOf: string)
    requires Build(amounts, After(NOTHING, appends), subject, asOf).Built?
    ensures var store := After(NOTHING, appends);
            Build(amounts, ApplyAppend(store, AddObservation(o)), subject, asOf).Built? <==>
            !Seen(store, AddObservation(o), subject, asOf) || ObservationFine(amounts, o.body)
  {
    hide After, Build, ObservationFine, EvidenceFine, DecisionFine, StatusOf, NotAfter, SeenKeys, HasId, Bound;
    var store := After(NOTHING, appends);
    BuildSucceedsIff(amounts, appends, subject, asOf);
    AfterSnoc(NOTHING, appends, AddObservation(o));
    BuildSucceedsIff(amounts, appends + [AddObservation(o)], subject, asOf);
    SameKeys(store, o, subject, asOf);
    NewObservation(amounts, store, o, subject, asOf);
  }

  lemma {:induction false} AfterSnoc(store: Store, appends: seq<Append>, a: Append)
    ensures After(store, appends + [a]) == ApplyAppend(After(store, appends), a)
    decreases |appends|
  {
    hide ApplyAppend;
    if appends == [] {
      assert ([] + [a])[1..] == [];
    } else {
      assert (appends + [a])[1..] == appends[1..] + [a];
      AfterSnoc(ApplyAppend(store, appends[0]), appends[1..], a);
    }
  }

  lemma SameKeys(store: Store, o: Record<Observation>, subject: string, asOf: string)
    ensures SeenKeys(ApplyAppend(store, AddObservation(o)), subject, asOf) == SeenKeys(store, subject, asOf)
  {
    hide View, HasId, Bound;
  }

  lemma NewObservation(amounts: Decimals, store: Store, o: Record<Observation>, subject: string, asOf: string)
    requires RowsFine(amounts, store, subject, asOf)
    requires SeenKeys(ApplyAppend(store, AddObservation(o)), subject, asOf) == SeenKeys(store, subject, asOf)
    ensures RowsFine(amounts, ApplyAppend(store, AddObservation(o)), subject, asOf)
       <==> !Seen(store, AddObservation(o), subject, asOf) || ObservationFine(amounts, o.body)
  {
    hide SeenKeys, ObservationFine, EvidenceFine, DecisionFine, NotAfter, HasId, Bound;
    if Seen(store, AddObservation(o), subject, asOf) { assert o in (store.observations + [o]); }
  }

  /** An observation without a pricing key makes every passport that would show it fail, */
  lemma MissingPricingFails(amounts: Decimals, store: Store, o: Record<Observation>, asOf: string)
    requires o in store.observations && NotAfter(o.at, asOf)
    requires o.body.payload.Some? && "pricing" !in o.body.payload.value
    ensures !Build(amounts, store, o.body.subject, asOf).Built?
  {
    hide Build, Introduced, BeforeFirst, ReadAll, RoutesOf, KnownRoutes, EvidenceFine, DecisionFine, NotAfter, SeenKeys;
    BuildOutcome(amounts, store, o.body.subject, asOf);
  }

  /** A store of one model with one observation. */
  function OneObservation(payload: Fields): Store {
    After(NOTHING, [AddSnapshot("first", "2026"), AddSubject("model", Subject(Some(map["identity_status" := Json.Text("claimed")]), "first")),
                    AddObservation(Record("seen", "2026", Observation("model", None, "first", Some(payload))))])
  }

  lemma OneObservationIs(payload: Fields)
    ensures OneObservation(payload)
         == Store(map["model" := Subject(Some(map["identity_status" := Json.Text("claimed")]), "first")], map["first" := "2026"], map[],
                  [Record("seen", "2026", Observation("model", None, "first", Some(payload)))], [], [], [])
  {
    var subject := Subject(Some(map["identity_status" := Json.Text("claimed")]), "first");
    var o := Record("seen", "2026", Observation("model", None, "first", Some(payload)));
    var a, b, c := AddSnapshot("first", "2026"), AddSubject("model", subject), AddObservation(o);
    var one := ApplyAppend(NOTHING, a);
    var two := ApplyAppend(one, b);
    assert [a, b, c][1..] == [b, c] && [b, c][1..] == [c] && [c][1..] == [];
    assert After(NOTHING, [a, b, c]) == After(one, [b, c]) == After(two, [c]) == ApplyAppend(two, c);
    assert ApplyAppend(two, c) == two.(observations := [] + [o]);
  }

  lemma NoRoutesRead(store: Store)
    requires |store.observations| == 1 && store.observations[0].body.route.None?
    ensures RoutesOf(ReadAll(store, "model", "2026").observations) == {}
  {
    hide View, NotAfter;
    var seen := ReadAll(store, "model", "2026").observations;
    forall i | 0 <= i < |seen| ensures seen[i].body.route.None? {
      ViewHas(store.observations, seen[i], ObservesSubject("model"), "2026");
    }
  }

  lemma OneObservationBuilds(amounts: Decimals, payload: Fields)
    ensures !Build(amounts, OneObservation(payload), "model", "2026").ValueError?
    ensures Build(amounts, OneObservation(payload), "model", "2026").Built?
       <==> ObservationFine(amounts, Observation("model", None, "first", Some(payload)))
  {
    hide Build, ReadAll, ObservationFine, RoutesOf, KnownRoutes, OneObservation;
    var store := OneObservation(payload);
    OneObservationIs(payload);
    if LexLess("2026", "2026") { LexAsymmetric("2026", "2026"); }
    BuildOutcome(amounts, store, "model", "2026");
    NoRoutesRead(store);
  }

  /** and the store accepts such observations: without the key there is no passport, with a null there is one. */
  lemma MissingPricingHappens(amounts: Decimals)
    ensures Build(amounts, OneObservation(map[]), "model", "2026") == Conflict
    ensures Build(amounts, OneObservation(map["pricing" := Null]), "model", "2026").Built?
  {
    hide Build, OneObservation;
    OneObservationBuilds(amounts, map[]);
    OneObservationBuilds(amounts, map["pricing" := Null]);
    OnlyPricing(amounts);
  }

  lemma OnlyPricing(amounts: Decimals)
    ensures !ObservationFine(amounts, Observation("model", None, "first", Some(map[])))
    ensures ObservationFine(amounts, Observation("model", None, "first", Some(map["pricing" := Null])))
  {
    var fields: Fields := map["pricing" := Null];
    assert "privacy_status" !in fields && "benchmark_digest" !in fields && "failure_mode" !in fields && "blind_spots" !in fields;
  }

  // ----- the projector and its cache

  class ObservatoryDatabase {
    var tables: Store

    constructor ()
      ensures tables == NOTHING
    {
      tables := NOTHING;
    }

    /** `append_observation`: the route must belong to the subject; a row with the identifier must be this very row, and is not
        inserted again; a new row needs its subject and its snapshot. */
    method AppendObservation(o: Record<Observation>) returns (accepted: bool)
      modifies this
      ensures accepted <==> RouteBinds(old(tables), o.body)
                            && if HasId(old(tables).observations, o.id) then o in old(tables).observations else Bound(old(tables), o.body)
      ensures tables == ApplyAppend(old(tables), AddObservation(o))
      ensures accepted ==> o in tables.observations
    {
      if o.body.route.Some? {
        var route := o.body.route.value;
        if route !in tables.routes || tables.routes[route] != o.body.subject { return false; }
      }
      if HasId(tables.observations, o.id) { return o in tables.observations; }
      if o.body.subject !in tables.subjects || o.body.snapshot !in tables.snapshots { return false; }
      tables := tables.(observations := tables.observations + [o]);
      assert tables.observations[|tables.observations| - 1] == o;
      return true;
    }
  }

  datatype CacheKey = CacheKey(subject: string, asOf: string)

  class ModelPassportProjector {
    const store: ObservatoryDatabase
    const amounts: Decimals
    var cache: map<CacheKey, Passport>

    constructor (store: ObservatoryDatabase, amounts: Decimals)
      ensures this.store == store && this.amounts == amounts && cache == map[]
    {
      this.store, this.amounts, cache := store, amounts, map[];
    }

    /** Every cached passport is the one a rebuild would give. */
    ghost predicate Right()
      reads this, store
    {
      CacheRight(amounts, store.tables, cache)
    }

    /** `_build`: the loops over the cut-off reads. */
    method Rebuild(subject: string, asOf: string) returns (outcome: Outcome<Passport>)
      ensures outcome == Build(amounts, store.tables, subject, asOf)
    {
      hide Gather, Weigh, Decide, StatusOf, View, RoutesOf, KnownRoutes, KeysOf;
      if subject !in store.tables.subjects { return Conflict; }
      var s := store.tables.subjects[subject];
      var status := StatusOf(s);
      if status.None? { return Conflict; }
      if s.firstSnapshot !in store.tables.snapshots { return Conflict; }
      if LexLess(asOf, store.tables.snapshots[s.firstSnapshot]) { return ValueError; }
      var r := ReadAll(store.tables, subject, asOf);
      if !(RoutesOf(r.observations) <= KnownRoutes(store.tables, subject)) { return Conflict; }
      var g := GatherLoop(r.observations);
      if g.None? { return Conflict; }
      g := WeighLoop(g.value, r.evidence);
      if g.None? { return Conflict; }
      g := DecideLoop(g.value, r.decisions);
      if g.None? { return Conflict; }
      var c := g.value;
      var d := c.(failures := c.failures + Reasons(r.invalidations),
                  blindSpots := c.blindSpots + Absences(r.evidence != [], c.privacy != [], r.decisions != [], status.value == "unresolved"));
      return Built(Passport(subject, status.value, s.firstSnapshot, asOf, RoutesOf(r.observations), Identifiers(r.observations),
                            Identifiers(r.evidence), Identifiers(r.decisions), Identifiers(r.invalidations), d, StatesOf(r.decisions),
                            if r.evidence == [] then None else Some(r.evidence[|r.evidence| - 1].at)));
    }

    method GatherLoop(rows: seq<Record<Observation>>) returns (g: Option<Gathered>)
      ensures g == GatherAll(amounts, rows)
    {
      hide Gather;
      g := Some(Gathered([], [], {}, {}, {}));
      for n := 0 to |rows|
        invariant g == GatherAll(amounts, rows[..n]) && g.Some?
      {
        assert rows[..n + 1][..n] == rows[..n];
        g := Gather(amounts, g.value, rows[n]);
        if g.None? {
          GatherNone(amounts, rows, n + 1);
          return;
        }
      }
      assert rows[..|rows|] == rows;
    }

    method WeighLoop(g0: Gathered, rows: seq<Record<Evidence>>) returns (g: Option<Gathered>)
      ensures g == WeighAll(g0, rows)
    {
      hide Weigh;
      g := Some(g0);
      for n := 0 to |rows|
        invariant g == WeighAll(g0, rows[..n]) && g.Some?
      {
        assert rows[..n + 1][..n] == rows[..n];
        g := Weigh(g.value, rows[n]);
        if g.None? {
          WeighNone(g0, rows, n + 1);
          return;
        }
      }
      assert rows[..|rows|] == rows;
    }

    method DecideLoop(g0: Gathered, rows: seq<Record<Decision>>) returns (g: Option<Gathered>)
      ensures g == DecideAll(g0, rows)
    {
      hide Decide;
      g := Some(g0);
      for n := 0 to |rows|
        invariant g == DecideAll(g0, rows[..n]) && g.Some?
      {
        assert rows[..n + 1][..n] == rows[..n];
        g := Decide(g.value, rows[n]);
        if g.None? {
          DecideNone(g0, rows, n + 1);
          return;
        }
      }
      assert rows[..|rows|] == rows;
    }

    /** Serves from the cache, or builds and keeps; either way what a rebuild gives. */
    method BuildPassport(subject: string, asOf: Timestamps.Written) returns (outcome: Outcome<Passport>)
      requires Right() && Timestamps.Representable(asOf.local)
      modifies `cache
      ensures Right()
      ensures outcome == match Timestamps.AwareIso8601(asOf)
                         case None => ValueError
                         case Some(time) => Build(amounts, store.tables, subject, time)
    {
      hide Build, Timestamps.AwareIso8601;
      var time := Timestamps.AwareIso8601(asOf);
      if time.None? { return ValueError; }
      var key := CacheKey(subject, time.value);
      if key in cache { return Built(cache[key]); }
      outcome := Rebuild(subject, time.value);
      if outcome.Built? { cache := cache[key := outcome.value]; }
    }

    method ClearCache(subject: Option<string>)
      requires Right()
      modifies `cache
      ensures Right()
      ensures cache == map k | k in old(cache) && (subject.Some? && k.subject != subject.value) :: old(cache)[k]
    {
      hide Build;
      cache := map k | k in cache && (subject.Some? && k.subject != subject.value) :: cache[k];
    }
  }

  lemma {:induction false} GatherNone(amounts: Decimals, rows: seq<Record<Observation>>, n: nat)
    requires n <= |rows| && GatherAll(amounts, rows[..n]).None?
    ensures GatherAll(amounts, rows).None?
    decreases |rows| - n
  {
    if n == |rows| {
      assert rows[..n] == rows;
    } else {
      assert rows[..n + 1][..n] == rows[..n];
      GatherNone(amounts, rows, n + 1);
    }
  }

  lemma {:induction false} WeighNone(g: Gathered, rows: seq<Record<Evidence>>, n: nat)
    requires n <= |rows| && WeighAll(g, rows[..n]).None?
    ensures WeighAll(g, rows).None?
    decreases |rows| - n
  {
    if n == |rows| {
      assert rows[..n] == rows;
    } else {
      assert rows[..n + 1][..n] == rows[..n];
      WeighNone(g, rows, n + 1);
    }
  }

  lemma {:induction false} DecideNone(g: Gathered, rows: seq<Record<Decision>>, n: nat)
    requires n <= |rows| && DecideAll(g, rows[..n]).None?
    ensures DecideAll(g, rows).None?
    decreases |rows| - n
  {
    if n == |rows| {
      assert rows[..n] == rows;
    } else {
      assert rows[..n + 1][..n] == rows[..n];
      DecideNone(g, rows, n + 1);
    }
  }

  ghost predicate CacheRight(amounts: Decimals, store: Store, cache: map<CacheKey, Passport>) {
    forall k :: k in cache ==> Build(amounts, store, k.subject, k.asOf) == Built(cache[k])
  }

  /** A cache that is right stays right exactly as long as no appended row is one a cached passport would show; rows dated
      after every cached time never are. */
  lemma CacheStaysRightIff(amounts: Decimals, store: Store, cache: map<CacheKey, Passport>, a: Append)
    requires CacheRight(amounts, store, cache)
    ensures CacheRight(amounts, ApplyAppend(store, a), cache) <==> forall k :: k in cache ==> !Seen(store, a, k.subject, k.asOf)
  {
    hide Build, ApplyAppend, Seen;
    forall k | k in cache
      ensures Build(amounts, ApplyAppend(store, a), k.subject, k.asOf) == Built(cache[k]) <==> !Seen(store, a, k.subject, k.asOf)
    {
      PassportChangesIffSeen(amounts, store, a, k.subject, k.asOf);
    }
  }

  lemma CacheStaysRight(amounts: Decimals, store: Store, cache: map<CacheKey, Passport>, appends: seq<Append>)
    requires CacheRight(amounts, store, cache)
    requires forall k, i :: k in cache && 0 <= i < |appends| ==> DatedAfter(appends[i], k.asOf)
    ensures CacheRight(amounts, After(store, appends), cache)
  {
    hide Build, After, DatedAfter;
    forall k | k in cache ensures Build(amounts, After(store, appends), k.subject, k.asOf) == Built(cache[k]) {
      LaterAppendsKeepPassport(amounts, store, appends, k.subject, k.asOf);
    }
  }
}
