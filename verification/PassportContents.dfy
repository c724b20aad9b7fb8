/** What a model passport contains (model_passport.py), read off the stored rows it was built from. */
module PassportContents {
  import opened Text
  import opened PayloadKeys
  import opened Sorting
  import opened Passports

  // ----- what a row says

  predicate Says(payload: Option<Fields>, key: string, text: string) {
    payload.Some? && Get(payload.value, key) == Json.Text(text)
  }

  ghost predicate Spots(payload: Option<Fields>, spot: string) {
    payload.Some? && Get(payload.value, "blind_spots").List? && Json.Text(spot) in Get(payload.value, "blind_spots").items
  }

  /** One listed price of an observation. */
  ghost predicate Quotes(amounts: Decimals, o: Record<Observation>, price: Price) {
    && o.body.payload.Some? && o.body.route.Some? && price.observation == o.id && price.route == o.body.route.value && price.at == o.at
    && Get(o.body.payload.value, "pricing").List?
    && exists item :: item in Get(o.body.payload.value, "pricing").items && Lists(amounts, item, price)
  }

  predicate Lists(amounts: Decimals, item: Json, price: Price) {
    && item.Object? && Get(item.fields, "price_kind") == Json.Text(price.kind)
    && Get(item.fields, "usd_per_unit").Text? && amounts(Get(item.fields, "usd_per_unit").text) == Some(price.amount)
  }

  predicate Privately(o: Record<Observation>, entry: Privacy) {
    && o.body.route.Some? && entry.observation == o.id && entry.route == o.body.route.value && entry.at == o.at
    && Says(o.body.payload, "privacy_status", entry.status)
  }

  // Conditions on rows, named so that two mentions are one value.
  function ObservationSays(key: string, text: string): Record<Observation> -> bool { (o: Record<Observation>) => Says(o.body.payload, key, text) }
  function EvidenceSays(key: string, text: string): Record<Evidence> -> bool { (e: Record<Evidence>) => Says(e.body.payload, key, text) }
  ghost function ObservationSpots(spot: string): Record<Observation> -> bool { (o: Record<Observation>) => Spots(o.body.payload, spot) }
  ghost function EvidenceSpots(spot: string): Record<Evidence> -> bool { (e: Record<Evidence>) => Spots(e.body.payload, spot) }
  ghost function DecisionSpots(spot: string): Record<Decision> -> bool { (d: Record<Decision>) => Spots(d.body.payload, spot) }
  ghost function ListsPrice(amounts: Decimals, price: Price): Record<Observation> -> bool {
    (o: Record<Observation>) => Quotes(amounts, o, price)
  }
  function ListsPrivacy(entry: Privacy): Record<Observation> -> bool { (o: Record<Observation>) => Privately(o, entry) }
  function Marks(failure: string): Record<Decision> -> bool {
    (d: Record<Decision>) => d.body.state in {"rejected", "suspended", "revoked", "stale"} && failure == "qualification_" + d.body.state
  }
  function TakesRoute(route: string): Record<Observation> -> bool { (o: Record<Observation>) => o.body.route == Some(route) }
  function Gives(reason: string): Record<Invalidation> -> bool { (i: Record<Invalidation>) => i.body.reason == reason }
  function Qualifies(q: Qualification): Record<Decision> -> bool {
    (d: Record<Decision>) => q == Qualification(d.id, d.body.key, d.body.state, d.body.evidenceSet, d.at)
  }

  ghost predicate Any<T>(rows: seq<Record<T>>, p: Record<T> -> bool) { exists r :: r in rows && p(r) }

  lemma SomeSnoc<T>(rows: seq<Record<T>>, last: Record<T>, p: Record<T> -> bool)
    ensures Any(rows + [last], p) <==> Any(rows, p) || p(last)
  {
    assert last in rows + [last];
    if Any(rows, p) {
      var r :| r in rows && p(r);
      assert r in rows + [last];
    }
  }

  // ----- what the loops gather

  lemma {:induction false} PricesAre(amounts: Decimals, o: Record<Observation>, items: seq<Json>)
    requires Prices(amounts, o, items).Built?
    ensures forall price :: price in Prices(amounts, o, items).value <==>
              && o.body.route.Some? && price.observation == o.id && price.route == o.body.route.value && price.at == o.at
              && exists item :: item in items && Lists(amounts, item, price)
  {
    hide Lists, PriceOf;
    if items != [] {
      var before, last := items[..|items| - 1], items[|items| - 1];
      var prices, one := Prices(amounts, o, before).value, PriceOf(amounts, o, last).value;
      PricesAre(amounts, o, before);
      PriceIs(amounts, o, last);
      assert items == before + [last] && Prices(amounts, o, items).value == prices + [one];
      hide Prices;
      forall price
        ensures price in prices + [one] <==>
                  && o.body.route.Some? && price.observation == o.id && price.route == o.body.route.value && price.at == o.at
                  && exists item :: item in items && Lists(amounts, item, price)
      {
        assert price in prices + [one] <==> price in prices || price == one;
        assert forall item :: item in items <==> item in before || item == last;
        if Lists(amounts, last, price) { assert last in items; }
      }
    }
  }

  lemma PriceIs(amounts: Decimals, o: Record<Observation>, item: Json)
    requires PriceOf(amounts, o, item).Built?
    ensures forall price :: price == PriceOf(amounts, o, item).value <==>
              && o.body.route.Some? && price.observation == o.id && price.route == o.body.route.value && price.at == o.at
              && Lists(amounts, item, price)
  {
  }

  lemma ObservedPrices(amounts: Decimals, o: Record<Observation>)
    requires o.body.payload.Some? && PricesOf(amounts, o, o.body.payload.value).Built?
    ensures forall price :: price in PricesOf(amounts, o, o.body.payload.value).value <==> Quotes(amounts, o, price)
  {
    hide Lists, Prices;
    var pricing := Get(o.body.payload.value, "pricing");
    if pricing.List? { PricesAre(amounts, o, pricing.items); }
  }

  lemma TextIs(fields: Fields, key: string)
    requires TextField(fields, key).Built?
    ensures forall x :: TextField(fields, key).value == Some(x) <==> Says(Some(fields), key, x)
  {
  }

  lemma SpotsAre(fields: Fields)
    requires BlindSpots(fields).Built?
    ensures forall x :: x in BlindSpots(fields).value <==> Spots(Some(fields), x)
  {
    var spots := Get(fields, "blind_spots");
    if spots.List? {
      forall x | Spots(Some(fields), x) ensures x in BlindSpots(fields).value {
        var i :| 0 <= i < |spots.items| && spots.items[i] == Json.Text(x);
      }
    }
  }

  /** The five accumulators hold what the observations say. */
  ghost predicate Gathers(amounts: Decimals, rows: seq<Record<Observation>>, g: Gathered) {
    && (forall x :: x in g.benchmarks <==> Any(rows, ObservationSays("benchmark_digest", x)))
    && (forall x :: x in g.failures <==> Any(rows, ObservationSays("failure_mode", x)))
    && (forall x :: x in g.blindSpots <==> Any(rows, ObservationSpots(x)))
    && (forall price :: price in g.prices <==> Any(rows, ListsPrice(amounts, price)))
    && (forall entry :: entry in g.privacy <==> Any(rows, ListsPrivacy(entry)))
  }

  lemma GatherOne(amounts: Decimals, g: Gathered, o: Record<Observation>)
    requires Gather(amounts, g, o).Some?
    ensures var g' := Gather(amounts, g, o).value;
            && (forall x :: x in g'.benchmarks <==> x in g.benchmarks || Says(o.body.payload, "benchmark_digest", x))
            && (forall x :: x in g'.failures <==> x in g.failures || Says(o.body.payload, "failure_mode", x))
            && (forall x :: x in g'.blindSpots <==> x in g.blindSpots || Spots(o.body.payload, x))
            && (forall price :: price in g'.prices <==> price in g.prices || Quotes(amounts, o, price))
            && (forall entry :: entry in g'.privacy <==> entry in g.privacy || Privately(o, entry))
  {
    hide TextField, BlindSpots, PricesOf, Quotes, Says, Spots;
    var fields := o.body.payload.value;
    TextIs(fields, "privacy_status");
    TextIs(fields, "benchmark_digest");
    TextIs(fields, "failure_mode");
    SpotsAre(fields);
    ObservedPrices(amounts, o);
  }

  lemma {:induction false} GatherAllIs(amounts: Decimals, rows: seq<Record<Observation>>)
    requires GatherAll(amounts, rows).Some?
    ensures Gathers(amounts, rows, GatherAll(amounts, rows).value)
  {
    hide Gather, Says, Spots, Quotes, Privately, Any;
    if rows == [] {
      NothingGathered(amounts);
    } else {
      var before, last := rows[..|rows| - 1], rows[|rows| - 1];
      GatherAllIs(amounts, before);
      GatherOne(amounts, GatherAll(amounts, before).value, last);
      assert rows == before + [last];
      forall x { SomeSnoc(before, last, ObservationSays("benchmark_digest", x)); }
      forall x { SomeSnoc(before, last, ObservationSays("failure_mode", x)); }
      forall x { SomeSnoc(before, last, ObservationSpots(x)); }
      forall price { SomeSnoc(before, last, ListsPrice(amounts, price)); }
      forall entry { SomeSnoc(before, last, ListsPrivacy(entry)); }
    }
  }

  lemma NothingGathered(amounts: Decimals)
    ensures Gathers(amounts, [], Gathered([], [], {}, {}, {}))
  {
    hide Says, Spots, Quotes, Privately;
  }

  lemma {:induction false} WeighAllIs(g: Gathered, rows: seq<Record<Evidence>>)
    requires WeighAll(g, rows).Some?
    ensures var g' := WeighAll(g, rows).value;
            && g' == g.(failures := g'.failures, blindSpots := g'.blindSpots)
            && (forall x :: x in g'.failures <==> x in g.failures || Any(rows, EvidenceSays("failure_mode", x)))
            && (forall x :: x in g'.blindSpots <==> x in g.blindSpots || Any(rows, EvidenceSpots(x)))
  {
    hide TextField, BlindSpots, Says, Spots;
    if rows != [] {
      var before, last := rows[..|rows| - 1], rows[|rows| - 1];
      WeighAllIs(g, before);
      assert rows == before + [last];
      TextIs(last.body.payload.value, "failure_mode");
      SpotsAre(last.body.payload.value);
      hide Any;
      forall x { SomeSnoc(before, last, EvidenceSays("failure_mode", x)); }
      forall x { SomeSnoc(before, last, EvidenceSpots(x)); }
    }
  }

  lemma {:induction false} DecideAllIs(g: Gathered, rows: seq<Record<Decision>>)
    requires DecideAll(g, rows).Some?
    ensures var g' := DecideAll(g, rows).value;
            && g' == g.(failures := g'.failures, blindSpots := g'.blindSpots)
            && (forall x :: x in g'.failures <==> x in g.failures || Any(rows, Marks(x)))
            && (forall x :: x in g'.blindSpots <==> x in g.blindSpots || Any(rows, DecisionSpots(x)))
  {
    hide BlindSpots, Spots;
    if rows != [] {
      var before, last := rows[..|rows| - 1], rows[|rows| - 1];
      DecideAllIs(g, before);
      assert rows == before + [last];
      SpotsAre(last.body.payload.value);
      hide Any;
      forall x { SomeSnoc(before, last, Marks(x)); }
      forall x { SomeSnoc(before, last, DecisionSpots(x)); }
    }
  }

  // ----- the passport

  /** Some stored row that meets the condition and is not dated after the time says so. */
  ghost predicate AmongSeen<T>(rows: seq<Record<T>>, p: T -> bool, asOf: string, q: Record<T> -> bool) {
    exists r :: r in rows && p(r.body) && NotAfter(r.at, asOf) && q(r)
  }

  function Whatever<T>(): Record<T> -> bool { (r: Record<T>) => true }

  lemma ViewSays<T>(rows: seq<Record<T>>, p: T -> bool, asOf: string, q: Record<T> -> bool)
    ensures Any(View(rows, p, asOf), q) <==> AmongSeen(rows, p, asOf, q)
  {
    hide View, NotAfter;
    forall r { ViewHas(rows, r, p, asOf); }
  }

  lemma ViewEmpty<T>(rows: seq<Record<T>>, p: T -> bool, asOf: string)
    ensures View(rows, p, asOf) != [] <==> AmongSeen(rows, p, asOf, Whatever())
  {
    hide View, NotAfter, AmongSeen;
    ViewSays(rows, p, asOf, Whatever());
    var seen := View(rows, p, asOf);
    if seen != [] { assert seen[0] in seen && Whatever<T>()(seen[0]); }
  }

  lemma StatusIs(s: Subject)
    ensures forall t :: StatusOf(s) == Some(t) <==> t in {"resolved", "claimed", "unresolved"} && Says(s.payload, "identity_status", t)
  {
  }

  lemma ReasonsAre(rows: seq<Record<Invalidation>>)
    ensures forall x :: x in Reasons(rows) <==> Any(rows, Gives(x))
  {
    forall x | x in Reasons(rows) ensures Any(rows, Gives(x)) {
      var i :| 0 <= i < |rows| && rows[i].body.reason == x;
      assert rows[i] in rows && Gives(x)(rows[i]);
    }
    forall x | Any(rows, Gives(x)) ensures x in Reasons(rows) {
      var r :| r in rows && Gives(x)(r);
      var i :| 0 <= i < |rows| && rows[i] == r;
    }
  }

  lemma RoutesAre(rows: seq<Record<Observation>>)
    ensures forall x :: x in RoutesOf(rows) <==> Any(rows, TakesRoute(x))
  {
    forall x | x in RoutesOf(rows) ensures Any(rows, TakesRoute(x)) {
      var i :| 0 <= i < |rows| && rows[i].body.route.Some? && rows[i].body.route.value == x;
      assert rows[i] in rows && TakesRoute(x)(rows[i]);
    }
    forall x | Any(rows, TakesRoute(x)) ensures x in RoutesOf(rows) {
      var o :| o in rows && TakesRoute(x)(o);
      var i :| 0 <= i < |rows| && rows[i] == o;
    }
  }

  lemma StatesAre(rows: seq<Record<Decision>>)
    ensures forall q :: q in StatesOf(rows) <==> Any(rows, Qualifies(q))
  {
    forall q | q in StatesOf(rows) ensures Any(rows, Qualifies(q)) {
      var i :| 0 <= i < |rows| && StatesOf(rows)[i] == q;
      assert rows[i] in rows && Qualifies(q)(rows[i]);
    }
    forall q | Any(rows, Qualifies(q)) ensures q in StatesOf(rows) {
      var d :| d in rows && Qualifies(q)(d);
      var i :| 0 <= i < |rows| && rows[i] == d;
      assert StatesOf(rows)[i] == q;
    }
  }

  /** What the passport lists as missing. */
  ghost predicate Missing(store: Store, subject: string, asOf: string, spot: string)
    requires subject in store.subjects
  {
    || (spot == "no_subject_evidence" && !AmongSeen(store.evidence, EvidenceOfSubject(subject), asOf, Whatever()))
    || (spot == "no_route_privacy_evidence"
        && forall entry :: !AmongSeen(store.observations, ObservesSubject(subject), asOf, ListsPrivacy(entry)))
    || (spot == "no_qualification_decision"
        && !AmongSeen(store.decisions, DecidesAmong(SeenKeys(store, subject, asOf)), asOf, Whatever()))
    || (spot == "identity_unresolved" && Says(store.subjects[subject].payload, "identity_status", "unresolved"))
  }

  /** The benchmarks, prices, privacy entries and qualification states of a passport are those of the stored rows of its subject
      up to its time, no more and no fewer. */
  lemma PassportListsRows(amounts: Decimals, store: Store, subject: string, asOf: string)
    requires Build(amounts, store, subject, asOf).Built?
    ensures var p := Build(amounts, store, subject, asOf).value;
            && subject in store.subjects && p.status in {"resolved", "claimed", "unresolved"}
            && Says(store.subjects[subject].payload, "identity_status", p.status)
            && p.subject == subject && p.asOf == asOf && p.firstSnapshot == store.subjects[subject].firstSnapshot
            && (forall x :: x in p.gathered.benchmarks <==>
                  AmongSeen(store.observations, ObservesSubject(subject), asOf, ObservationSays("benchmark_digest", x)))
            && (forall x :: x in p.routes <==> AmongSeen(store.observations, ObservesSubject(subject), asOf, TakesRoute(x)))
            && (forall price :: price in p.gathered.prices <==>
                  AmongSeen(store.observations, ObservesSubject(subject), asOf, ListsPrice(amounts, price)))
            && (forall entry :: entry in p.gathered.privacy <==>
                  AmongSeen(store.observations, ObservesSubject(subject), asOf, ListsPrivacy(entry)))
            && (forall q :: q in p.states <==>
                  AmongSeen(store.decisions, DecidesAmong(SeenKeys(store, subject, asOf)), asOf, Qualifies(q)))
  {
    hide View, Any, AmongSeen, GatherAll, WeighAll, DecideAll, StatusOf, RoutesOf, KnownRoutes, KeysOf, NotAfter;
    var r := ReadAll(store, subject, asOf);
    BuiltFromLoops(amounts, store, subject, asOf);
    StatusIs(store.subjects[subject]);
    StatesAre(r.decisions);
    RoutesAre(r.observations);
    forall x { ViewSays(store.observations, ObservesSubject(subject), asOf, TakesRoute(x)); }
    forall x { ViewSays(store.observations, ObservesSubject(subject), asOf, ObservationSays("benchmark_digest", x)); }
    forall price { ViewSays(store.observations, ObservesSubject(subject), asOf, ListsPrice(amounts, price)); }
    forall entry { ViewSays(store.observations, ObservesSubject(subject), asOf, ListsPrivacy(entry)); }
    forall q { ViewSays(store.decisions, DecidesAmong(SeenKeys(store, subject, asOf)), asOf, Qualifies(q)); }
  }

  /** Its known failures are the failure modes of observations and evidence, the marks of decisions that went against it, and
      the reasons of invalidations. */
  lemma PassportKnowsFailures(amounts: Decimals, store: Store, subject: string, asOf: string)
    requires Build(amounts, store, subject, asOf).Built?
    ensures forall x :: x in Build(amounts, store, subject, asOf).value.gathered.failures <==>
              || AmongSeen(store.observations, ObservesSubject(subject), asOf, ObservationSays("failure_mode", x))
              || AmongSeen(store.evidence, EvidenceOfSubject(subject), asOf, EvidenceSays("failure_mode", x))
              || AmongSeen(store.decisions, DecidesAmong(SeenKeys(store, subject, asOf)), asOf, Marks(x))
              || AmongSeen(store.invalidations, InvalidatesAmong(SeenKeys(store, subject, asOf)), asOf, Gives(x))
  {
    hide View, Any, AmongSeen, GatherAll, WeighAll, DecideAll, StatusOf, RoutesOf, KnownRoutes, KeysOf, NotAfter;
    BuiltFromLoops(amounts, store, subject, asOf);
    ReasonsAre(ReadAll(store, subject, asOf).invalidations);
    forall x { ViewSays(store.observations, ObservesSubject(subject), asOf, ObservationSays("failure_mode", x)); }
    forall x { ViewSays(store.evidence, EvidenceOfSubject(subject), asOf, EvidenceSays("failure_mode", x)); }
    forall x { ViewSays(store.decisions, DecidesAmong(SeenKeys(store, subject, asOf)), asOf, Marks(x)); }
    forall x { ViewSays(store.invalidations, InvalidatesAmong(SeenKeys(store, subject, asOf)), asOf, Gives(x)); }
  }

  /** Its blind spots are those that the rows list and those of what is missing. */
  lemma PassportKnowsBlindSpots(amounts: Decimals, store: Store, subject: string, asOf: string)
    requires Build(amounts, store, subject, asOf).Built?
    ensures subject in store.subjects
    ensures forall x :: x in Build(amounts, store, subject, asOf).value.gathered.blindSpots <==>
              || AmongSeen(store.observations, ObservesSubject(subject), asOf, ObservationSpots(x))
              || AmongSeen(store.evidence, EvidenceOfSubject(subject), asOf, EvidenceSpots(x))
              || AmongSeen(store.decisions, DecidesAmong(SeenKeys(store, subject, asOf)), asOf, DecisionSpots(x))
              || Missing(store, subject, asOf, x)
  {
    hide View, Any, AmongSeen, GatherAll, WeighAll, DecideAll, RoutesOf, KnownRoutes, KeysOf, NotAfter;
    BuiltFromLoops(amounts, store, subject, asOf);
    ViewEmpty(store.evidence, EvidenceOfSubject(subject), asOf);
    ViewEmpty(store.decisions, DecidesAmong(SeenKeys(store, subject, asOf)), asOf);
    PassportListsRows(amounts, store, subject, asOf);
    NoEntries(Build(amounts, store, subject, asOf).value.gathered.privacy);
    forall x { ViewSays(store.observations, ObservesSubject(subject), asOf, ObservationSpots(x)); }
    forall x { ViewSays(store.evidence, EvidenceOfSubject(subject), asOf, EvidenceSpots(x)); }
    forall x { ViewSays(store.decisions, DecidesAmong(SeenKeys(store, subject, asOf)), asOf, DecisionSpots(x)); }
  }

  lemma NoEntries(entries: seq<Privacy>)
    ensures entries == [] <==> forall entry :: entry !in entries
  {
    if entries != [] { assert entries[0] in entries; }
  }

  /** The loops, one after the other. */
  lemma BuiltFromLoops(amounts: Decimals, store: Store, subject: string, asOf: string)
    requires Build(amounts, store, subject, asOf).Built?
    ensures var r, p := ReadAll(store, subject, asOf), Build(amounts, store, subject, asOf).value;
            var a := GatherAll(amounts, r.observations);
            && a.Some? && Gathers(amounts, r.observations, a.value)
            && p.gathered.benchmarks == a.value.benchmarks && p.gathered.prices == a.value.prices && p.gathered.privacy == a.value.privacy
            && (forall x :: x in p.gathered.failures <==>
                  || x in a.value.failures || Any(r.evidence, EvidenceSays("failure_mode", x)) || Any(r.decisions, Marks(x))
                  || x in Reasons(r.invalidations))
            && (forall x :: x in p.gathered.blindSpots <==>
                  || x in a.value.blindSpots || Any(r.evidence, EvidenceSpots(x)) || Any(r.decisions, DecisionSpots(x))
                  || x in Absences(r.evidence != [], a.value.privacy != [], r.decisions != [], p.status == "unresolved"))
            && p.states == StatesOf(r.decisions) && p.routes == RoutesOf(r.observations) && StatusOf(store.subjects[subject]) == Some(p.status)
  {
    hide ReadAll, StatusOf, RoutesOf, KnownRoutes, GatherAll, WeighAll, DecideAll, Gathers, Any, Reasons, Absences, StatesOf;
    var r := ReadAll(store, subject, asOf);
    GatherAllIs(amounts, r.observations);
    var a := GatherAll(amounts, r.observations).value;
    WeighAllIs(a, r.evidence);
    DecideAllIs(WeighAll(a, r.evidence).value, r.decisions);
  }

  // ----- the latest evidence

  lemma {:induction false} UptoOrdered<T>(rows: seq<Record<T>>, asOf: string)
    requires forall i, j :: 0 <= i < j < |rows| ==> !RecordLess(rows[j], rows[i])
    ensures forall i, j :: 0 <= i < j < |Upto(rows, asOf)| ==> !RecordLess(Upto(rows, asOf)[j], Upto(rows, asOf)[i])
  {
    hide NotAfter, RecordLess;
    if rows != [] {
      UptoOrdered(rows[1..], asOf);
      var rest := Upto(rows[1..], asOf);
      forall j | 0 <= j < |rest| ensures !RecordLess(rest[j], rows[0]) {
        UptoHas(rows[1..], rest[j], asOf);
        var k :| 0 <= k < |rows[1..]| && rows[1..][k] == rest[j];
        assert rows[k + 1] == rest[j];
      }
    }
  }

  lemma RecordOrder<T(!new)>()
    ensures StrictOrder((a: Record<T>, b: Record<T>) => RecordLess(a, b))
  {
    forall x: Record<T>, y: Record<T>, z: Record<T> | RecordLess(x, y) && RecordLess(y, z) ensures RecordLess(x, z) {
      if LexLess(x.at, y.at) && LexLess(y.at, z.at) { LexTransitive(x.at, y.at, z.at); }
      if LexLess(x.id, y.id) && LexLess(y.id, z.id) { LexTransitive(x.id, y.id, z.id); }
    }
    forall x: Record<T>, y: Record<T> | RecordLess(x, y) ensures !RecordLess(y, x) {
      if LexLess(x.at, y.at) { LexAsymmetric(x.at, y.at); }
      if LexLess(x.id, y.id) { LexAsymmetric(x.id, y.id); }
    }
  }

  /** The date of the latest evidence is that of a seen item that no seen item is dated after. */
  lemma LatestIsLatest(amounts: Decimals, store: Store, subject: string, asOf: string)
    requires Build(amounts, store, subject, asOf).Built?
    ensures var latest := Build(amounts, store, subject, asOf).value.latestEvidence;
            && (latest.None? <==> !AmongSeen(store.evidence, EvidenceOfSubject(subject), asOf, Whatever()))
            && (latest.Some? ==> forall e :: e in store.evidence && e.body.subject == subject && NotAfter(e.at, asOf) ==> NotAfter(e.at, latest.value))
            && (latest.Some? ==> exists e :: e in store.evidence && e.body.subject == subject && NotAfter(e.at, asOf) && e.at == latest.value)
  {
    hide View, NotAfter, AmongSeen, GatherAll, WeighAll, DecideAll, StatusOf, RoutesOf, KnownRoutes, KeysOf;
    var p := EvidenceOfSubject(subject);
    var seen := View(store.evidence, p, asOf);
    ViewEmpty(store.evidence, p, asOf);
    if seen != [] {
      var last := seen[|seen| - 1];
      ViewHas(store.evidence, last, p, asOf);
      assert last in seen;
      forall e | e in store.evidence && e.body.subject == subject && NotAfter(e.at, asOf) ensures NotAfter(e.at, last.at) {
        ViewHas(store.evidence, e, p, asOf);
        LastIsLatest(store.evidence, p, asOf, e);
      }
    }
  }

  lemma LastIsLatest(rows: seq<Record<Evidence>>, p: Evidence -> bool, asOf: string, e: Record<Evidence>)
    requires e in View(rows, p, asOf)
    ensures View(rows, p, asOf) != [] && NotAfter(e.at, View(rows, p, asOf)[|View(rows, p, asOf)| - 1].at)
  {
    hide Where, Sort, Upto, LexLess;
    var less := (a: Record<Evidence>, b: Record<Evidence>) => RecordLess(a, b);
    RecordOrder<Evidence>();
    SortOrdered(Where(rows, p), less);
    var sorted := Sort(Where(rows, p), less);
    assert forall i, j :: 0 <= i < j < |sorted| ==> !less(sorted[j], sorted[i]);
    UptoOrdered(sorted, asOf);
    var seen := View(rows, p, asOf);
    var k :| 0 <= k < |seen| && seen[k] == e;
    if k == |seen| - 1 { LexIrreflexive(e.at); } else { assert !RecordLess(seen[|seen| - 1], seen[k]); }
  }

  // ----- each entry once

  /** How many prices an observation lists, and whether it has a privacy status. */
  function Listed(o: Record<Observation>): nat {
    if o.body.payload.Some? && Get(o.body.payload.value, "pricing").List? then |Get(o.body.payload.value, "pricing").items| else 0
  }

  function Stated(o: Record<Observation>): nat {
    if o.body.payload.Some? && Get(o.body.payload.value, "privacy_status").Text? then 1 else 0
  }

  function SumOf(rows: seq<Record<Observation>>, count: Record<Observation> -> nat): nat {
    if rows == [] then 0 else SumOf(rows[..|rows| - 1], count) + count(rows[|rows| - 1])
  }

  lemma {:induction false} OnePriceEach(amounts: Decimals, o: Record<Observation>, items: seq<Json>)
    requires Prices(amounts, o, items).Built?
    ensures |Prices(amounts, o, items).value| == |items|
  {
    if items != [] { OnePriceEach(amounts, o, items[..|items| - 1]); }
  }

  lemma {:induction false} EntriesCounted(amounts: Decimals, rows: seq<Record<Observation>>)
    requires GatherAll(amounts, rows).Some?
    ensures var g := GatherAll(amounts, rows).value; |g.prices| == SumOf(rows, Listed) && |g.privacy| == SumOf(rows, Stated)
  {
    hide BlindSpots, Prices;
    if rows != [] {
      EntriesCounted(amounts, rows[..|rows| - 1]);
      var o := rows[|rows| - 1];
      var pricing := Get(o.body.payload.value, "pricing");
      if pricing.List? { OnePriceEach(amounts, o, pricing.items); }
    }
  }

  /** Each listed price and each privacy status has one entry. */
  lemma EntriesOnce(amounts: Decimals, store: Store, subject: string, asOf: string)
    requires Build(amounts, store, subject, asOf).Built?
    ensures var g, seen := Build(amounts, store, subject, asOf).value.gathered, View(store.observations, ObservesSubject(subject), asOf);
            |g.prices| == SumOf(seen, Listed) && |g.privacy| == SumOf(seen, Stated)
  {
    hide View, GatherAll, SumOf;
    BuiltFromLoops(amounts, store, subject, asOf);
    EntriesCounted(amounts, View(store.observations, ObservesSubject(subject), asOf));
  }
}
