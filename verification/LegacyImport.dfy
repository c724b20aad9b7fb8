/** The incremental import of a legacy line ledger (legacy_ledger.py): scanning, recognising what was imported before,
    one transaction per file. JSON reading and hashing are parameters. */
module LegacyImport {
  import opened Text
  import opened PayloadKeys

  type Payload = map<string, Json>

  const NEWLINE: byte := 10

  /** What decoding and parsing one line gives. */
  datatype Document = NotUtf8 | RepeatedKey | NotJson | NotShaped | Shaped(id: string, kind: string, at: string, payload: Payload)

  /** The parts of the import that are not modelled further: hashing, JSON, time parsing and the path test. */
  datatype Reader = Reader(sha256: Bytes -> string, document: Bytes -> Document, aware: string -> bool, isPath: string -> bool)

  datatype Line =
    | ValidLine(number: nat, id: string, kind: string, at: string, payload: Payload)
    | CorruptLine(number: nat, raw: Bytes, code: string)

  /** What an event says, wherever it was read from. */
  datatype Logical = Logical(id: string, kind: string, at: string, payload: Payload)

  datatype EventId = EventId(source: string, line: nat, id: string)

  /** An `events` row with a source. */
  datatype Row = Row(id: EventId, kind: string, at: string, payload: Payload, source: string, line: nat)

  datatype Report = Report(bytes: nat, expected: Option<nat>, observed: nat, valid: nat, corrupt: nat, duplicates: nat,
                           imported: nat, already: nat, complete: bool)

  datatype Quarantined = Quarantined(source: string, line: Line)

  /** `events` with a source, in sequence order; `legacy_sources`; `legacy_quarantine`. */
  datatype Ledger = Ledger(events: seq<Row>, sources: map<string, Report>, quarantine: seq<Quarantined>)

  datatype Reply = Imported(report: Report) | LegacyLedgerError | ValueError

  // ----- lines

  function Split(raw: Bytes): (lines: seq<Bytes>)
    ensures lines != []
  {
    if raw == [] then [[]]
    else
      var rest := Split(raw[1..]);
      if raw[0] == NEWLINE then [[]] + rest else [[raw[0]] + rest[0]] + rest[1..]
  }

  function Classify(r: Reader, number: nat, raw: Bytes): Line {
    match r.document(raw)
    case NotUtf8 => CorruptLine(number, raw, "invalid_utf8")
    case RepeatedKey => CorruptLine(number, raw, "duplicate_json_key")
    case NotJson => CorruptLine(number, raw, "invalid_json")
    case NotShaped => CorruptLine(number, raw, "invalid_shape")
    case Shaped(id, kind, at, payload) =>
      if Strip(id) == "" || Strip(kind) == "" || Strip(at) == "" || !r.aware(at) then CorruptLine(number, raw, "invalid_shape")
      else if !Accepted(Object(payload), r.isPath) then CorruptLine(number, raw, "forbidden_payload")
      else ValidLine(number, id, kind, at, payload)
  }

  /** The non-blank lines, classified, the first numbered `number`. */
  function Classified(r: Reader, lines: seq<Bytes>, number: nat): seq<Line> {
    if lines == [] then []
    else (if Blank(lines[0]) then [] else [Classify(r, number, lines[0])]) + Classified(r, lines[1..], number + 1)
  }

  function Lines(r: Reader, raw: Bytes): seq<Line> { Classified(r, Split(raw), 1) }

  function Valid(lines: seq<Line>): (valid: seq<Line>)
    ensures forall i :: 0 <= i < |valid| ==> valid[i].ValidLine? && valid[i] in lines
  {
    if lines == [] then [] else (if lines[0].ValidLine? then [lines[0]] else []) + Valid(lines[1..])
  }

  function Corrupt(lines: seq<Line>): seq<Line> {
    if lines == [] then [] else (if lines[0].ValidLine? then [] else [lines[0]]) + Corrupt(lines[1..])
  }

  function LogicalOf(line: Line): Logical
    requires line.ValidLine?
  {
    Logical(line.id, line.kind, line.at, line.payload)
  }

  function Logicals(lines: seq<Line>): seq<Logical>
    requires forall i :: 0 <= i < |lines| ==> lines[i].ValidLine?
  {
    seq(|lines|, i requires 0 <= i < |lines| => LogicalOf(lines[i]))
  }

  function Ids(events: seq<Logical>): set<string> { set i | 0 <= i < |events| :: events[i].id }

  predicate Distinct(events: seq<Logical>) { forall i, j :: 0 <= i < j < |events| ==> events[i].id != events[j].id }

  /** How many valid lines repeat the id of an earlier one. */
  function Repeats(events: seq<Logical>): nat {
    if events == [] then 0
    else
      var before := events[..|events| - 1];
      Repeats(before) + if events[|events| - 1].id in Ids(before) then 1 else 0
  }

  // ----- stored events

  function IdKey(): string { "legacy_event_id" }

  function SourceKey(): string { "legacy_source_sha256" }

  function LineKey(): string { "legacy_source_line" }

  lemma KeysDiffer()
    ensures IdKey() != SourceKey() && IdKey() != LineKey() && SourceKey() != LineKey()
  {
    assert IdKey()[7] == 'e' && SourceKey()[7] == 's' && LineKey()[7] == 's' && SourceKey()[14] == 's' && LineKey()[14] == 'l';
  }

  function Extended(payload: Payload, id: string, source: string, number: nat): Payload {
    payload[IdKey() := Json.Text(id)][SourceKey() := Json.Text(source)][LineKey() := Json.Whole(number)]
  }

  function RowOf(source: string, line: Line): Row
    requires line.ValidLine?
  {
    Row(EventId(source, line.number, line.id), line.kind, line.at, Extended(line.payload, line.id, source, line.number), source,
        line.number)
  }

  predicate HasProvenance(row: Row) {
    && IdKey() in row.payload && row.payload[IdKey()].Text? && Strip(row.payload[IdKey()].text) != ""
    && SourceKey() in row.payload && row.payload[SourceKey()] == Json.Text(row.source)
    && LineKey() in row.payload && row.payload[LineKey()] == Json.Whole(row.line)
  }

  function LogicalOfRow(row: Row): Logical
    requires HasProvenance(row)
  {
    Logical(row.payload[IdKey()].text, row.kind, row.at, row.payload - {IdKey(), SourceKey(), LineKey()})
  }

  /** The imported events by legacy id, unless a row has bad provenance or repeats an id. */
  function Existing(events: seq<Row>): Option<map<string, Logical>> {
    if events == [] then Some(map[])
    else
      var row := events[|events| - 1];
      match Existing(events[..|events| - 1])
      case None => None
      case Some(known) =>
        if !HasProvenance(row) || LogicalOfRow(row).id in known then None
        else Some(known[LogicalOfRow(row).id := LogicalOfRow(row)])
  }

  // ----- the import

  function New(known: map<string, Logical>, lines: seq<Line>): (items: seq<Line>)
    requires forall i :: 0 <= i < |lines| ==> lines[i].ValidLine?
    ensures |items| <= |lines| && forall i :: 0 <= i < |items| ==> items[i].ValidLine? && items[i] in lines
  {
    if lines == [] then []
    else
      var before := New(known, lines[..|lines| - 1]);
      if lines[|lines| - 1].id in known then before else before + [lines[|lines| - 1]]
  }

  predicate Agrees(known: map<string, Logical>, line: Line)
    requires line.ValidLine?
  {
    line.id in known ==> known[line.id] == LogicalOf(line)
  }

  predicate Storable(r: Reader, source: string, line: Line)
    requires line.ValidLine?
  {
    Accepted(Object(Extended(line.payload, line.id, source, line.number)), r.isPath)
  }

  predicate AllAgree(known: map<string, Logical>, lines: seq<Line>)
    requires forall i :: 0 <= i < |lines| ==> lines[i].ValidLine?
  {
    forall i :: 0 <= i < |lines| ==> Agrees(known, lines[i])
  }

  predicate AllStorable(r: Reader, source: string, lines: seq<Line>)
    requires forall i :: 0 <= i < |lines| ==> lines[i].ValidLine?
  {
    forall i :: 0 <= i < |lines| ==> Storable(r, source, lines[i])
  }

  function Rows(source: string, lines: seq<Line>): seq<Row>
    requires forall i :: 0 <= i < |lines| ==> lines[i].ValidLine?
  {
    seq(|lines|, i requires 0 <= i < |lines| => RowOf(source, lines[i]))
  }

  function Held(source: string, lines: seq<Line>): seq<Quarantined> {
    seq(|lines|, i requires 0 <= i < |lines| => Quarantined(source, lines[i]))
  }

  /** The counts of a scan; `imported` as the source row keeps it. */
  function Counts(r: Reader, raw: Bytes, expected: Option<nat>): Report {
    var lines := Lines(r, raw);
    var valid, corrupt, repeats := |Valid(lines)|, |Corrupt(lines)|, Repeats(Logicals(Valid(lines)));
    Report(|raw|, expected, |lines|, valid, corrupt, repeats, valid, 0,
           corrupt == 0 && repeats == 0 && (expected.None? || expected.value == |lines|))
  }

  function ImportNew(r: Reader, l: Ledger, raw: Bytes, expected: Option<nat>, known: map<string, Logical>): (Ledger, Reply) {
    var source, valid := r.sha256(raw), Valid(Lines(r, raw));
    var items := New(known, valid);
    if !AllAgree(known, valid) then (l, LegacyLedgerError)
    else if !AllStorable(r, source, items) then (l, ValueError)
    else
      var counts := Counts(r, raw, expected);
      (Ledger(l.events + Rows(source, items), l.sources[source := counts], l.quarantine + Held(source, Corrupt(Lines(r, raw)))),
       Imported(counts.(imported := |items|, already := |valid| - |items|)))
  }

  /** One transaction. */
  function Import(r: Reader, l: Ledger, raw: Bytes, expected: Option<nat>): (Ledger, Reply) {
    var source := r.sha256(raw);
    if source in l.sources then
      var row := l.sources[source];
      if row.expected != expected then (l, LegacyLedgerError) else (l, Imported(row.(imported := 0, already := row.imported)))
    else
      match Existing(l.events)
      case None => (l, LegacyLedgerError)
      case Some(known) => ImportNew(r, l, raw, expected, known)
  }

  // ----- what a line becomes

  /** Free of the three keys the import adds. */
  predicate Unreserved(payload: Payload) { IdKey() !in payload && SourceKey() !in payload && LineKey() !in payload }

  lemma RowKeepsLine(source: string, line: Line)
    requires line.ValidLine? && Strip(line.id) != ""
    ensures HasProvenance(RowOf(source, line))
    ensures LogicalOfRow(RowOf(source, line))
         == LogicalOf(line).(payload := line.payload - {IdKey(), SourceKey(), LineKey()})
    ensures Unreserved(line.payload) ==> LogicalOfRow(RowOf(source, line)) == LogicalOf(line)
  {
    hide IdKey, SourceKey, LineKey, Strip;
    KeysDiffer();
    assert Extended(line.payload, line.id, source, line.number) - {IdKey(), SourceKey(), LineKey()}
        == line.payload - {IdKey(), SourceKey(), LineKey()};
    assert Unreserved(line.payload) ==> line.payload - {IdKey(), SourceKey(), LineKey()} == line.payload;
  }

  lemma LegacyKeysAllowed()
    ensures !ForbiddenKey(IdKey()) && !ForbiddenKey(SourceKey()) && !ForbiddenKey(LineKey())
  {
    hide Normalise, ForbiddenName;
    PlainKey(IdKey());
    PlainKey(SourceKey());
    PlainKey(LineKey());
    NotForbidden(IdKey());
    NotForbidden(SourceKey());
    NotForbidden(LineKey());
  }

  lemma NotForbidden(key: string)
    requires key != "" && key[0] == 'l' && key[|key| - 1] in {'d', '6', 'e'}
    ensures !ForbiddenName(key)
  {
    hide EndsWith;
    EndsDiffer(key, "_body");
    EndsDiffer(key, "_content");
    EndsDiffer(key, "_path");
    EndsDiffer(key, "_paths");
  }

  lemma EndsDiffer(key: string, suffix: string)
    requires key != "" && suffix != "" && key[|key| - 1] != suffix[|suffix| - 1]
    ensures !EndsWith(key, suffix)
  {
    assert |suffix| <= |key| ==> key[|key| - |suffix|..][|suffix| - 1] == key[|key| - 1];
  }

  lemma PlainKey(key: string)
    requires key != "" && forall i :: 0 <= i < |key| ==> IsLower(key[i]) || IsDigit(key[i]) || key[i] == '_'
    ensures Normalise(key) == key
  {
    hide Normalise, Strip, Spaced;
    StripFixed(key);
    NormaliseByPlace(key);
    SpacedOfFolded(None, key);
  }

  /** The stored payload passes the check exactly when the line's own payload, its id and the digest do. */
  lemma StorableIff(r: Reader, source: string, line: Line)
    requires line.ValidLine? && Accepted(Object(line.payload), r.isPath)
    ensures Storable(r, source, line) <==> !r.isPath(line.id) && !r.isPath(source)
  {
    hide IdKey, SourceKey, LineKey, ForbiddenKey;
    KeysDiffer();
    LegacyKeysAllowed();
    var p := Extended(line.payload, line.id, source, line.number);
    assert p[IdKey()] == Json.Text(line.id) && p[SourceKey()] == Json.Text(source);
    if !r.isPath(line.id) && !r.isPath(source) {
      forall k | k in p ensures !ForbiddenKey(k) && Accepted(p[k], r.isPath) {
        if k !in {IdKey(), SourceKey(), LineKey()} { assert k in line.payload && p[k] == line.payload[k]; }
      }
    }
    if Storable(r, source, line) { assert Accepted(p[IdKey()], r.isPath) && Accepted(p[SourceKey()], r.isPath); }
  }

  // ----- what was imported before

  /** The stored events, read back. */
  function Read(events: seq<Row>): seq<Logical>
    requires forall i :: 0 <= i < |events| ==> HasProvenance(events[i])
  {
    seq(|events|, i requires 0 <= i < |events| => LogicalOfRow(events[i]))
  }

  ghost predicate AllProven(events: seq<Row>) { forall i :: 0 <= i < |events| ==> HasProvenance(events[i]) }

  /** `known` holds exactly `events`, by id. */
  ghost predicate Holds(known: map<string, Logical>, events: seq<Logical>) {
    && (forall i :: 0 <= i < |events| ==> events[i].id in known && known[events[i].id] == events[i])
    && (forall id :: id in known ==> id in Ids(events))
  }

  /** The earlier events can be recognised exactly when no id is stored twice. */
  lemma {:induction false} ExistingIffDistinct(events: seq<Row>)
    requires AllProven(events)
    ensures Existing(events).Some? <==> Distinct(Read(events))
    ensures Existing(events).Some? ==> Holds(Existing(events).value, Read(events))
  {
    hide HasProvenance, LogicalOfRow, Distinct, Holds, Ids, Read;
    if events == [] {
      NothingHeld();
      assert Read(events) == [] by { ReadEmpty(events); }
    } else {
      var before, row := events[..|events| - 1], events[|events| - 1];
      ExistingIffDistinct(before);
      ReadSnoc(before, row);
      assert before + [row] == events;
      DistinctSnoc(Read(before), LogicalOfRow(row));
      if Existing(before).Some? { HoldsSnoc(Existing(before).value, Read(before), LogicalOfRow(row)); }
    }
  }

  lemma NothingHeld()
    ensures Distinct([]) && Holds(map[], [])
  {
  }

  lemma ReadEmpty(events: seq<Row>)
    requires events == []
    ensures Read(events) == []
  {
  }

  lemma ReadSnoc(events: seq<Row>, row: Row)
    requires AllProven(events) && HasProvenance(row)
    ensures AllProven(events + [row]) && Read(events + [row]) == Read(events) + [LogicalOfRow(row)]
  {
    hide HasProvenance, LogicalOfRow;
  }

  lemma DistinctSnoc(events: seq<Logical>, e: Logical)
    ensures Distinct(events + [e]) <==> Distinct(events) && e.id !in Ids(events)
  {
    var all := events + [e];
    assert forall i :: 0 <= i < |events| ==> all[i] == events[i];
    assert all[|events|] == e;
    if Distinct(all) {
      forall i, j | 0 <= i < j < |events| ensures events[i].id != events[j].id { assert all[i].id != all[j].id; }
      forall i | 0 <= i < |events| ensures events[i].id != e.id { assert all[i].id != all[|events|].id; }
    }
  }

  lemma HoldsSnoc(known: map<string, Logical>, events: seq<Logical>, e: Logical)
    requires Holds(known, events)
    ensures e.id in known <==> e.id in Ids(events)
    ensures e.id !in known ==> Holds(known[e.id := e], events + [e])
  {
    hide Ids;
    IdsSnoc(events, e);
    IdsHold(events);
  }

  lemma IdsHold(events: seq<Logical>)
    ensures forall i :: 0 <= i < |events| ==> events[i].id in Ids(events)
    ensures forall id :: id in Ids(events) ==> exists i :: 0 <= i < |events| && events[i].id == id
  {
  }

  lemma IdsSnoc(events: seq<Logical>, e: Logical)
    ensures Ids(events + [e]) == Ids(events) + {e.id}
  {
    assert forall i :: 0 <= i < |events| ==> (events + [e])[i] == events[i];
    assert (events + [e])[|events|] == e;
  }

  // ----- every reachable ledger

  datatype File = File(raw: Bytes, expected: Option<nat>)

  function AfterImports(r: Reader, files: seq<File>): Ledger {
    if files == [] then Ledger([], map[], [])
    else Import(r, AfterImports(r, files[..|files| - 1]), files[|files| - 1].raw, files[|files| - 1].expected).0
  }

  /** Digests determine their bytes and are not path-like. */
  ghost predicate GoodDigests(r: Reader) {
    && (forall a, b :: r.sha256(a) == r.sha256(b) ==> a == b)
    && (forall a :: !r.isPath(r.sha256(a)))
  }

  ghost predicate SourcesRight(r: Reader, l: Ledger) {
    forall raw :: r.sha256(raw) in l.sources ==>
      l.sources[r.sha256(raw)] == Counts(r, raw, l.sources[r.sha256(raw)].expected)
  }

  /** What an import that changes the ledger adds to it. */
  lemma ImportAdds(r: Reader, l: Ledger, raw: Bytes, expected: Option<nat>)
    requires Import(r, l, raw, expected).0 != l
    ensures r.sha256(raw) !in l.sources && Existing(l.events).Some?
    ensures var l', items := Import(r, l, raw, expected).0, New(Existing(l.events).value, Valid(Lines(r, raw)));
            && l'.events == l.events + Rows(r.sha256(raw), items) && l'.sources == l.sources[r.sha256(raw) := Counts(r, raw, expected)]
  {
    hide Existing, New, Lines, Valid, Corrupt, Counts, AllAgree, AllStorable;
  }

  lemma ImportKeeps(r: Reader, l: Ledger, raw: Bytes, expected: Option<nat>)
    requires GoodDigests(r) && AllProven(l.events) && SourcesRight(r, l)
    ensures var l' := Import(r, l, raw, expected).0; AllProven(l'.events) && SourcesRight(r, l')
  {
    hide HasProvenance, Existing, Counts, RowOf, Import, New, Lines, Valid;
    var l' := Import(r, l, raw, expected).0;
    if l' != l {
      ImportAdds(r, l, raw, expected);
      CountsExpected(r, raw, expected);
      RowsProven(r, raw, New(Existing(l.events).value, Valid(Lines(r, raw))));
    }
  }

  lemma RowsProven(r: Reader, raw: Bytes, items: seq<Line>)
    requires forall i :: 0 <= i < |items| ==> items[i].ValidLine? && items[i] in Lines(r, raw)
    ensures AllProven(Rows(r.sha256(raw), items))
  {
    hide HasProvenance, RowOf, Lines;
    ItemsNamed(r, raw);
    forall i | 0 <= i < |items| ensures HasProvenance(RowOf(r.sha256(raw), items[i])) { RowKeepsLine(r.sha256(raw), items[i]); }
  }

  lemma CountsExpected(r: Reader, raw: Bytes, expected: Option<nat>)
    ensures Counts(r, raw, expected).expected == expected
  {
  }

  /** A valid line has an id that is not blank, and a payload that passes the check. */
  lemma ItemsNamed(r: Reader, raw: Bytes)
    ensures forall line :: line in Lines(r, raw) && line.ValidLine? ==> Strip(line.id) != "" && Accepted(Object(line.payload), r.isPath)
  {
    ClassifiedNamed(r, Split(raw), 1);
  }

  lemma {:induction false} ClassifiedNamed(r: Reader, lines: seq<Bytes>, number: nat)
    ensures forall line :: line in Classified(r, lines, number) && line.ValidLine? ==>
              Strip(line.id) != "" && Accepted(Object(line.payload), r.isPath)
    decreases |lines|
  {
    hide Strip, Accepted, Blank;
    if lines != [] { ClassifiedNamed(r, lines[1..], number + 1); }
  }

  lemma {:induction false} ReachableKeeps(r: Reader, files: seq<File>)
    requires GoodDigests(r)
    ensures var l := AfterImports(r, files); AllProven(l.events) && SourcesRight(r, l)
  {
    hide Import, AllProven, SourcesRight, GoodDigests;
    if files == [] {
      EmptyKeeps(r);
    } else {
      var before, file := files[..|files| - 1], files[|files| - 1];
      ReachableKeeps(r, before);
      ImportKeeps(r, AfterImports(r, before), file.raw, file.expected);
    }
  }

  lemma EmptyKeeps(r: Reader)
    ensures AllProven([]) && SourcesRight(r, Ledger([], map[], []))
  {
  }

  /** In every report the imported and the already imported events make up the valid lines, and the valid and the corrupt
      lines make up the non-blank ones. */
  lemma ReportsAddUp(r: Reader, files: seq<File>, raw: Bytes, expected: Option<nat>)
    requires GoodDigests(r)
    requires Import(r, AfterImports(r, files), raw, expected).1.Imported?
    ensures var report := Import(r, AfterImports(r, files), raw, expected).1.report;
            && report.imported + report.already == report.valid == |Valid(Lines(r, raw))|
            && report.valid + report.corrupt == report.observed == |Lines(r, raw)|
  {
    hide AfterImports, Existing, Agrees, Storable, GoodDigests, AllProven, HasProvenance, Valid, Corrupt, Lines;
    CorruptSize(Lines(r, raw));
    ReachableKeeps(r, files);
  }

  /** A line is valid exactly if it holds an event with a name, a kind and an aware time, and a payload that passes the check. */
  lemma ValidLineIff(r: Reader, number: nat, raw: Bytes, line: Line)
    requires line.ValidLine?
    ensures Classify(r, number, raw) == line <==>
              && r.document(raw) == Shaped(line.id, line.kind, line.at, line.payload) && line.number == number
              && Strip(line.id) != "" && Strip(line.kind) != "" && Strip(line.at) != "" && r.aware(line.at)
              && Accepted(Object(line.payload), r.isPath)
  {
    hide Strip, Accepted;
  }

  /** A report calls the file complete exactly when every line was valid, no id came twice, and the number of lines was expected. */
  lemma CompleteIff(r: Reader, raw: Bytes, expected: Option<nat>)
    ensures Counts(r, raw, expected).complete <==>
              && (forall line :: line in Lines(r, raw) ==> line.ValidLine?) && Distinct(Logicals(Valid(Lines(r, raw))))
              && expected in {None, Some(|Lines(r, raw)|)}
    ensures Counts(r, raw, expected).duplicates + |Ids(Logicals(Valid(Lines(r, raw))))| == |Valid(Lines(r, raw))|
    ensures Counts(r, raw, expected).bytes == |raw| && Counts(r, raw, expected).expected == expected
  {
    hide Lines, Valid, Distinct, Repeats;
    CorruptNone(Lines(r, raw));
    RepeatsNone(Logicals(Valid(Lines(r, raw))));
  }

  lemma {:induction false} CorruptNone(lines: seq<Line>)
    ensures |Corrupt(lines)| == 0 <==> forall line :: line in lines ==> line.ValidLine?
  {
    if lines != [] {
      CorruptNone(lines[1..]);
      assert forall line :: line in lines <==> line == lines[0] || line in lines[1..];
    }
  }

  lemma {:induction false} RepeatsNone(events: seq<Logical>)
    ensures Repeats(events) == 0 <==> Distinct(events)
    ensures Repeats(events) + |Ids(events)| == |events|
  {
    hide Distinct, Ids;
    if events == [] {
      NothingHeld();
      NoIds();
    } else {
      var before, last := events[..|events| - 1], events[|events| - 1];
      RepeatsNone(before);
      IdsSnoc(before, last);
      DistinctSnoc(before, last);
      assert before + [last] == events;
      OneIdMore(Ids(before), last.id);
    }
  }

  lemma NoIds()
    ensures Ids([]) == {}
  {
  }

  lemma OneIdMore(ids: set<string>, id: string)
    ensures |ids + {id}| == |ids| + if id in ids then 0 else 1
  {
    if id in ids { assert ids + {id} == ids; }
  }

  /** Every corrupt line of an accepted new file is quarantined with its bytes, and nothing else is. */
  lemma QuarantineIsCorrupt(r: Reader, l: Ledger, raw: Bytes, expected: Option<nat>)
    requires r.sha256(raw) !in l.sources && Import(r, l, raw, expected).1.Imported?
    ensures var after := Import(r, l, raw, expected).0.quarantine;
            && |after| == |l.quarantine| + Import(r, l, raw, expected).1.report.corrupt && l.quarantine <= after
            && forall i :: |l.quarantine| <= i < |after| ==>
                 after[i].source == r.sha256(raw) && after[i].line in Lines(r, raw) && after[i].line.CorruptLine?
  {
    hide Existing, New, Lines, Valid, AllAgree, AllStorable;
    CorruptAre(Lines(r, raw));
  }

  lemma {:induction false} CorruptAre(lines: seq<Line>)
    ensures forall line :: line in Corrupt(lines) <==> line in lines && line.CorruptLine?
  {
    if lines != [] {
      CorruptAre(lines[1..]);
      assert forall line :: line in lines <==> line == lines[0] || line in lines[1..];
    }
  }

  /** A file that was not imported before is accepted exactly when no id is stored twice, every valid line with a stored id
      says what the stored event says, and no new id looks like a path. */
  lemma ImportedIff(r: Reader, files: seq<File>, raw: Bytes, expected: Option<nat>)
    requires GoodDigests(r) && r.sha256(raw) !in AfterImports(r, files).sources
    ensures AllProven(AfterImports(r, files).events)
    ensures var stored := Read(AfterImports(r, files).events);
            var valid := Valid(Lines(r, raw));
            Import(r, AfterImports(r, files), raw, expected).1.Imported? <==>
              && Distinct(stored)
              && (forall i, j :: 0 <= i < |valid| && 0 <= j < |stored| && valid[i].id == stored[j].id ==> LogicalOf(valid[i]) == stored[j])
              && (forall i :: 0 <= i < |valid| && valid[i].id !in Ids(stored) ==> !r.isPath(valid[i].id))
  {
    hide AfterImports, Existing, HasProvenance, LogicalOfRow, Distinct, GoodDigests, SourcesRight;
    ReachableKeeps(r, files);
    var events := AfterImports(r, files).events;
    ExistingIffDistinct(events);
    if Existing(events).Some? { ImportNewIff(r, AfterImports(r, files), raw, expected, Existing(events).value, Read(events)); }
  }

  lemma ImportNewIff(r: Reader, l: Ledger, raw: Bytes, expected: Option<nat>, known: map<string, Logical>, stored: seq<Logical>)
    requires Holds(known, stored) && GoodDigests(r)
    ensures var valid := Valid(Lines(r, raw));
            ImportNew(r, l, raw, expected, known).1.Imported? <==>
              && (forall i, j :: 0 <= i < |valid| && 0 <= j < |stored| && valid[i].id == stored[j].id ==> LogicalOf(valid[i]) == stored[j])
              && (forall i :: 0 <= i < |valid| && valid[i].id !in Ids(stored) ==> !r.isPath(valid[i].id))
  {
    hide Lines, Counts, Valid, Corrupt, AllAgree, AllStorable, New, Ids;
    var source, valid := r.sha256(raw), Valid(Lines(r, raw));
    AgreeIff(known, stored, valid);
    StorableWhen(r, raw, known, stored);
  }

  lemma StorableWhen(r: Reader, raw: Bytes, known: map<string, Logical>, stored: seq<Logical>)
    requires Holds(known, stored) && GoodDigests(r)
    ensures var valid := Valid(Lines(r, raw));
            AllStorable(r, r.sha256(raw), New(known, valid)) <==>
              forall i :: 0 <= i < |valid| && valid[i].id !in Ids(stored) ==> !r.isPath(valid[i].id)
  {
    hide Storable, Lines, Accepted, Holds, Valid, New, Ids;
    var source, valid := r.sha256(raw), Valid(Lines(r, raw));
    var items := New(known, valid);
    ItemsNamed(r, raw);
    ValidAre(Lines(r, raw));
    KnownIffStored(known, stored);
    NewAre(known, valid);
    forall i | 0 <= i < |items| ensures Storable(r, source, items[i]) <==> !r.isPath(items[i].id) { StorableIff(r, source, items[i]); }
    if AllStorable(r, source, items) {
      forall i | 0 <= i < |valid| && valid[i].id !in Ids(stored) ensures !r.isPath(valid[i].id) { assert valid[i] in items; }
    }
  }

  lemma ValidAre(lines: seq<Line>)
    ensures forall i :: 0 <= i < |Valid(lines)| ==> Valid(lines)[i].ValidLine? && Valid(lines)[i] in lines
  {
  }

  lemma KnownIffStored(known: map<string, Logical>, stored: seq<Logical>)
    requires Holds(known, stored)
    ensures forall id :: id in known <==> id in Ids(stored)
  {
  }

  lemma AgreeIff(known: map<string, Logical>, stored: seq<Logical>, valid: seq<Line>)
    requires Holds(known, stored) && forall i :: 0 <= i < |valid| ==> valid[i].ValidLine?
    ensures AllAgree(known, valid)
       <==> (forall i, j :: 0 <= i < |valid| && 0 <= j < |stored| && valid[i].id == stored[j].id ==> LogicalOf(valid[i]) == stored[j])
  {
  }

  /** The new items are the valid lines whose id is not known. */
  lemma {:induction false} NewAre(known: map<string, Logical>, lines: seq<Line>)
    requires forall i :: 0 <= i < |lines| ==> lines[i].ValidLine?
    ensures forall line :: line in New(known, lines) <==> line in lines && line.id !in known
  {
    if lines != [] {
      NewAre(known, lines[..|lines| - 1]);
      assert lines == lines[..|lines| - 1] + [lines[|lines| - 1]];
    }
  }

  // ----- a ledger that grows by whole lines

  predicate Whole(raw: Bytes) { raw == [] || raw[|raw| - 1] == NEWLINE }

  /** The next version of a file: the same, or one that goes on after a complete last line. */
  predicate Grows(a: Bytes, b: Bytes) { a == b || (a <= b && Whole(a)) }

  lemma {:induction false} SplitAppend(a: Bytes, more: Bytes)
    requires Whole(a)
    ensures var lines := Split(a); lines[|lines| - 1] == [] && Split(a + more) == lines[..|lines| - 1] + Split(more)
  {
    hide Split;
    if a == [] {
      SplitNothing();
      assert a + more == more;
      assert Split(a)[..0] + Split(more) == Split(more);
    } else {
      SplitAppend(a[1..], more);
      hide Whole;
      SplitHead(a[0], a[1..]);
      SplitHead(a[0], a[1..] + more);
      assert [a[0]] + a[1..] == a && [a[0]] + (a[1..] + more) == a + more;
      if a[0] != NEWLINE { SplitWhole(a[1..]); }
      Prepended(a[0], Split(a[1..]), Split(more));
    }
  }

  lemma SplitNothing()
    ensures Split([]) == [[]]
  {
  }

  /** One more byte in front of the lines. */
  function Prepend(c: byte, lines: seq<Bytes>): seq<Bytes>
    requires lines != []
  {
    if c == NEWLINE then [[]] + lines else [[c] + lines[0]] + lines[1..]
  }

  lemma SplitHead(c: byte, a: Bytes)
    ensures Split([c] + a) == Prepend(c, Split(a))
  {
    assert ([c] + a)[1..] == a;
  }

  lemma Prepended(c: byte, lines: seq<Bytes>, more: seq<Bytes>)
    requires lines != [] && more != [] && lines[|lines| - 1] == [] && (c == NEWLINE || |lines| >= 2)
    ensures var all := Prepend(c, lines);
            all[|all| - 1] == [] && Prepend(c, lines[..|lines| - 1] + more) == all[..|all| - 1] + more
  {
    if c != NEWLINE {
      assert (lines[..|lines| - 1] + more)[1..] == lines[1..|lines| - 1] + more;
    }
  }

  lemma {:induction false} SplitWhole(a: Bytes)
    requires a != [] && a[|a| - 1] == NEWLINE
    ensures |Split(a)| >= 2
    decreases |a|
  {
    if a[0] != NEWLINE { SplitWhole(a[1..]); }
  }

  lemma {:induction false} ClassifiedConcat(r: Reader, x: seq<Bytes>, y: seq<Bytes>, number: nat)
    ensures Classified(r, x + y, number) == Classified(r, x, number) + Classified(r, y, number + |x|)
    decreases |x|
  {
    hide Classify, Blank;
    if x == [] {
      assert x + y == y;
    } else {
      assert (x + y)[1..] == x[1..] + y;
      ClassifiedConcat(r, x[1..], y, number + 1);
    }
  }

  lemma LinesGrow(r: Reader, a: Bytes, b: Bytes)
    requires Grows(a, b)
    ensures Lines(r, a) <= Lines(r, b)
  {
    hide Classified, Split;
    if a != b {
      var more, lines := b[|a|..], Split(a);
      assert b == a + more;
      SplitAppend(a, more);
      ClassifiedConcat(r, lines[..|lines| - 1], Split(more), 1);
      ClassifiedConcat(r, lines[..|lines| - 1], [[]], 1);
      assert lines == lines[..|lines| - 1] + [[]];
      BlankLine(r, 1 + |lines[..|lines| - 1]|);
    }
  }

  lemma BlankLine(r: Reader, number: nat)
    ensures Classified(r, [[]], number) == []
  {
  }

  lemma {:induction false} ValidGrow(a: seq<Line>, b: seq<Line>)
    requires a <= b
    ensures Valid(a) <= Valid(b)
  {
    if a != [] {
      assert a[1..] <= b[1..];
      ValidGrow(a[1..], b[1..]);
      SameFront(if a[0].ValidLine? then [a[0]] else [], Valid(a[1..]), Valid(b[1..]));
    }
  }

  lemma SameFront(front: seq<Line>, a: seq<Line>, b: seq<Line>)
    requires a <= b
    ensures front + a <= front + b
  {
    assert front + b == front + a + b[|a|..];
  }

  /** Each id once, no id like a path, and no payload that uses the three reserved keys. */
  ghost predicate Faithful(r: Reader, raw: Bytes) {
    var valid := Valid(Lines(r, raw));
    Distinct(Logicals(valid)) && forall i :: 0 <= i < |valid| ==> !r.isPath(valid[i].id) && Unreserved(valid[i].payload)
  }

  lemma FaithfulShrinks(r: Reader, a: Bytes, b: Bytes)
    requires Grows(a, b) && Faithful(r, b)
    ensures Faithful(r, a) && Valid(Lines(r, a)) <= Valid(Lines(r, b))
  {
    hide Lines, Valid, Unreserved;
    LinesGrow(r, a, b);
    ValidGrow(Lines(r, a), Lines(r, b));
    ValidAre(Lines(r, a));
    ValidAre(Lines(r, b));
    var va, vb := Valid(Lines(r, a)), Valid(Lines(r, b));
    assert forall i :: 0 <= i < |va| ==> va[i] == vb[i];
    assert forall i :: 0 <= i < |va| ==> Logicals(va)[i] == Logicals(vb)[i];
  }

  /** When the known ids are those of the first `k` lines, and no id repeats, the new items are the rest. */
  lemma {:induction false} NewIsRest(known: map<string, Logical>, lines: seq<Line>, k: nat)
    requires forall i :: 0 <= i < |lines| ==> lines[i].ValidLine?
    requires k <= |lines| && forall i :: 0 <= i < |lines| ==> (lines[i].id in known <==> i < k)
    ensures New(known, lines) == lines[k..]
  {
    if lines != [] {
      if k == |lines| { AllKnown(known, lines); }
      else {
        NewIsRest(known, lines[..|lines| - 1], k);
        assert lines[..|lines| - 1][k..] + [lines[|lines| - 1]] == lines[k..];
      }
    }
  }

  lemma {:induction false} AllKnown(known: map<string, Logical>, lines: seq<Line>)
    requires forall i :: 0 <= i < |lines| ==> lines[i].ValidLine? && lines[i].id in known
    ensures New(known, lines) == []
  {
    if lines != [] { AllKnown(known, lines[..|lines| - 1]); }
  }

  ghost predicate Versions(files: seq<File>) { forall i :: 0 <= i < |files| - 1 ==> Grows(files[i].raw, files[i + 1].raw) }

  lemma {:induction false} VersionsArePrefixes(files: seq<File>, i: nat)
    requires Versions(files) && i < |files|
    ensures files[i].raw <= files[|files| - 1].raw
    decreases |files| - i
  {
    if i + 1 < |files| { VersionsArePrefixes(files, i + 1); }
  }

  lemma {:induction false} SourcesAreFiles(r: Reader, files: seq<File>, source: string)
    requires source in AfterImports(r, files).sources
    ensures exists i :: 0 <= i < |files| && r.sha256(files[i].raw) == source
  {
    hide Import;
    if files != [] {
      var before, last := files[..|files| - 1], files[|files| - 1];
      var l := AfterImports(r, before);
      if source in l.sources {
        SourcesAreFiles(r, before, source);
        var i :| 0 <= i < |before| && r.sha256(before[i].raw) == source;
        assert r.sha256(files[i].raw) == source;
      } else {
        ImportAdds(r, l, last.raw, last.expected);
        assert r.sha256(files[|files| - 1].raw) == source;
      }
    }
  }

  /** A version that was imported before is the previous one. */
  lemma SeenIsPrevious(r: Reader, files: seq<File>, raw: Bytes)
    requires GoodDigests(r) && files != [] && Versions(files) && Grows(files[|files| - 1].raw, raw)
    requires r.sha256(raw) in AfterImports(r, files).sources
    ensures raw == files[|files| - 1].raw
  {
    hide AfterImports;
    SourcesAreFiles(r, files, r.sha256(raw));
    var i :| 0 <= i < |files| && r.sha256(files[i].raw) == r.sha256(raw);
    VersionsArePrefixes(files, i);
  }

  /** One more version, not imported before, adds exactly its new lines. */
  lemma NextVersion(r: Reader, files: seq<File>, prev: Bytes, file: File)
    requires GoodDigests(r) && AllProven(AfterImports(r, files).events)
    requires Read(AfterImports(r, files).events) == Logicals(Valid(Lines(r, prev)))
    requires Grows(prev, file.raw) && Faithful(r, file.raw) && r.sha256(file.raw) !in AfterImports(r, files).sources
    ensures Import(r, AfterImports(r, files), file.raw, file.expected).1.Imported?
    ensures var l' := Import(r, AfterImports(r, files), file.raw, file.expected).0;
            AllProven(l'.events) && Read(l'.events) == Logicals(Valid(Lines(r, file.raw)))
  {
    hide AfterImports, Import, Lines, Valid, New, HasProvenance, LogicalOfRow, Unreserved, RowOf, Existing;
    var l, valid, old_ := AfterImports(r, files), Valid(Lines(r, file.raw)), Valid(Lines(r, prev));
    FaithfulShrinks(r, prev, file.raw);
    ValidAre(Lines(r, file.raw));
    ValidAre(Lines(r, prev));
    VersionAgrees(r, files, prev, file);
    ImportedIff(r, files, file.raw, file.expected);
    ExistingIffDistinct(l.events);
    var known := Existing(l.events).value;
    KnownIsPrefix(known, old_, valid);
    NewIsRest(known, valid, |old_|);
    AcceptedAdds(r, l, file.raw, file.expected);
    ReadRows(r, file.raw, valid[|old_|..]);
    assert Logicals(old_) + Logicals(valid[|old_|..]) == Logicals(valid);
  }

  lemma VersionAgrees(r: Reader, files: seq<File>, prev: Bytes, file: File)
    requires AllProven(AfterImports(r, files).events)
    requires Read(AfterImports(r, files).events) == Logicals(Valid(Lines(r, prev)))
    requires Valid(Lines(r, prev)) <= Valid(Lines(r, file.raw)) && Faithful(r, file.raw)
    ensures var stored, valid := Read(AfterImports(r, files).events), Valid(Lines(r, file.raw));
            && Distinct(stored)
            && (forall i, j :: 0 <= i < |valid| && 0 <= j < |stored| && valid[i].id == stored[j].id ==> LogicalOf(valid[i]) == stored[j])
            && (forall i :: 0 <= i < |valid| && valid[i].id !in Ids(stored) ==> !r.isPath(valid[i].id))
  {
    hide AfterImports, Lines, Valid, HasProvenance, LogicalOfRow, Read, Ids, Unreserved;
    ValidAre(Lines(r, file.raw));
    ValidAre(Lines(r, prev));
    var stored, valid := Read(AfterImports(r, files).events), Valid(Lines(r, file.raw));
    assert forall j :: 0 <= j < |stored| ==> stored[j] == Logicals(valid)[j];
    assert forall i :: 0 <= i < |valid| ==> Logicals(valid)[i] == LogicalOf(valid[i]);
  }

  lemma KnownIsPrefix(known: map<string, Logical>, old_: seq<Line>, valid: seq<Line>)
    requires forall i :: 0 <= i < |valid| ==> valid[i].ValidLine?
    requires old_ <= valid && Distinct(Logicals(valid)) && Holds(known, Logicals(old_))
    ensures forall i :: 0 <= i < |valid| ==> (valid[i].id in known <==> i < |old_|)
  {
    assert forall i :: 0 <= i < |valid| ==> Logicals(valid)[i].id == valid[i].id;
    assert forall i :: 0 <= i < |old_| ==> Logicals(old_)[i].id == valid[i].id;
    forall i | 0 <= i < |valid| && valid[i].id in known ensures i < |old_| {
      assert valid[i].id in Ids(Logicals(old_));
      var j :| 0 <= j < |old_| && Logicals(old_)[j].id == valid[i].id;
      assert Logicals(valid)[j].id == Logicals(valid)[i].id;
    }
  }

  lemma AcceptedAdds(r: Reader, l: Ledger, raw: Bytes, expected: Option<nat>)
    requires r.sha256(raw) !in l.sources && Import(r, l, raw, expected).1.Imported?
    ensures Existing(l.events).Some?
    ensures Import(r, l, raw, expected).0.events
         == l.events + Rows(r.sha256(raw), New(Existing(l.events).value, Valid(Lines(r, raw))))
  {
    hide Existing, New, Lines, Valid, Corrupt, Counts, AllAgree, AllStorable;
  }

  lemma ReadRows(r: Reader, raw: Bytes, items: seq<Line>)
    requires forall i :: 0 <= i < |items| ==> items[i].ValidLine? && items[i] in Lines(r, raw) && Unreserved(items[i].payload)
    ensures AllProven(Rows(r.sha256(raw), items)) && Read(Rows(r.sha256(raw), items)) == Logicals(items)
  {
    hide HasProvenance, RowOf, Lines, LogicalOfRow, Unreserved;
    RowsProven(r, raw, items);
    ItemsNamed(r, raw);
    forall i | 0 <= i < |items| ensures LogicalOfRow(Rows(r.sha256(raw), items)[i]) == LogicalOf(items[i]) {
      RowKeepsLine(r.sha256(raw), items[i]);
    }
  }

  /** Importing every version in turn stores the events of the last version, in order. */
  lemma {:induction false} VersionsStoreLast(r: Reader, files: seq<File>)
    requires GoodDigests(r) && files != [] && Versions(files) && Faithful(r, files[|files| - 1].raw)
    ensures AllProven(AfterImports(r, files).events)
    ensures Read(AfterImports(r, files).events) == Logicals(Valid(Lines(r, files[|files| - 1].raw)))
  {
    hide Import, Lines, Valid, Faithful, GoodDigests, Grows, AllProven, Read;
    var before, last := files[..|files| - 1], files[|files| - 1];
    ReachableKeeps(r, files);
    ReachableKeeps(r, before);
    if before == [] {
      NothingStored(r);
      NextVersion(r, [], [], last);
    } else {
      var prev := files[|files| - 2].raw;
      assert Grows(prev, last.raw);
      FaithfulShrinks(r, prev, last.raw);
      VersionsStoreLast(r, before);
      if r.sha256(last.raw) in AfterImports(r, before).sources {
        SeenIsPrevious(r, before, last.raw);
        SeenAddsNothing(r, AfterImports(r, before), last);
      } else {
        NextVersion(r, before, prev, last);
      }
    }
  }

  lemma NothingStored(r: Reader)
    ensures var l := AfterImports(r, []); AllProven(l.events) && Read(l.events) == Logicals(Valid(Lines(r, []))) && l.sources == map[]
    ensures forall b :: Grows([], b)
  {
    BlankLine(r, 1);
  }

  lemma SeenAddsNothing(r: Reader, l: Ledger, file: File)
    requires r.sha256(file.raw) in l.sources
    ensures Import(r, l, file.raw, file.expected).0 == l
  {
  }

  /** The incremental import equals the one-shot import: the same logical events in the same order, each once. */
  lemma IncrementalEqualsOneShot(r: Reader, files: seq<File>)
    requires GoodDigests(r) && files != [] && Versions(files) && Faithful(r, files[|files| - 1].raw)
    ensures AllProven(AfterImports(r, files).events) && AllProven(AfterImports(r, [files[|files| - 1]]).events)
    ensures Read(AfterImports(r, files).events) == Read(AfterImports(r, [files[|files| - 1]]).events)
    ensures Distinct(Read(AfterImports(r, files).events))
  {
    hide AfterImports, Lines, Valid, GoodDigests;
    VersionsStoreLast(r, files);
    VersionsStoreLast(r, [files[|files| - 1]]);
  }

  /** Every later version is accepted, unless it is an unchanged file with another expected count. */
  lemma VersionIsAccepted(r: Reader, files: seq<File>, file: File)
    requires GoodDigests(r) && files != [] && Versions(files) && Grows(files[|files| - 1].raw, file.raw) && Faithful(r, file.raw)
    ensures Import(r, AfterImports(r, files), file.raw, file.expected).1.LegacyLedgerError? ==>
              && file.raw == files[|files| - 1].raw && r.sha256(file.raw) in AfterImports(r, files).sources
              && AfterImports(r, files).sources[r.sha256(file.raw)].expected != file.expected
    ensures Import(r, AfterImports(r, files), file.raw, file.expected).1 != ValueError
  {
    hide AfterImports, Lines, Valid, Faithful, GoodDigests, Grows;
    FaithfulShrinks(r, files[|files| - 1].raw, file.raw);
    VersionsStoreLast(r, files);
    if r.sha256(file.raw) in AfterImports(r, files).sources {
      SeenIsPrevious(r, files, file.raw);
    } else {
      NextVersion(r, files, files[|files| - 1].raw, file);
    }
  }

  // ----- the importer

  lemma ValidHead(line: Line, rest: seq<Line>)
    ensures Valid([line] + rest) == (if line.ValidLine? then [line] else []) + Valid(rest)
  {
    assert ([line] + rest)[1..] == rest;
  }

  lemma {:induction false} ValidSnoc(lines: seq<Line>, line: Line)
    ensures Valid(lines + [line]) == Valid(lines) + (if line.ValidLine? then [line] else [])
  {
    hide Valid;
    ValidNone();
    if lines == [] {
      assert lines + [line] == [line] + [];
      ValidHead(line, []);
    } else {
      ValidSnoc(lines[1..], line);
      ValidHead(lines[0], lines[1..]);
      ValidHead(lines[0], lines[1..] + [line]);
      assert [lines[0]] + lines[1..] == lines && [lines[0]] + (lines[1..] + [line]) == lines + [line];
    }
  }

  lemma ValidNone()
    ensures Valid([]) == []
  {
  }

  lemma {:induction false} CorruptSnoc(lines: seq<Line>, line: Line)
    ensures Corrupt(lines + [line]) == Corrupt(lines) + (if line.ValidLine? then [] else [line])
  {
    hide Valid;
    if lines == [] {
      assert lines + [line] == [line];
    } else {
      CorruptSnoc(lines[1..], line);
      assert (lines + [line])[1..] == lines[1..] + [line];
    }
  }

  /** One more line of the scan. */
  lemma ScanStep(r: Reader, lines: seq<Bytes>, n: nat)
    requires n < |lines|
    ensures var before, line := Classified(r, lines[..n], 1), Classify(r, n + 1, lines[n]);
            && Classified(r, lines[..n + 1], 1) == (if Blank(lines[n]) then before else before + [line])
            && Valid(before + [line]) == Valid(before) + (if line.ValidLine? then [line] else [])
            && Corrupt(before + [line]) == Corrupt(before) + (if line.ValidLine? then [] else [line])
  {
    hide Classify, Blank, Valid, Corrupt;
    assert lines[..n + 1] == lines[..n] + [lines[n]];
    ClassifiedConcat(r, lines[..n], [lines[n]], 1);
    OneLine(r, lines[n], n + 1);
    ValidSnoc(Classified(r, lines[..n], 1), Classify(r, n + 1, lines[n]));
    CorruptSnoc(Classified(r, lines[..n], 1), Classify(r, n + 1, lines[n]));
  }

  lemma OneLine(r: Reader, line: Bytes, number: nat)
    ensures Classified(r, [line], number) == if Blank(line) then [] else [Classify(r, number, line)]
  {
    hide Classify, Blank;
    assert [line][1..] == [];
  }

  lemma RepeatsStep(valid: seq<Line>, line: Line)
    requires line.ValidLine? && forall i :: 0 <= i < |valid| ==> valid[i].ValidLine?
    ensures Repeats(Logicals(valid + [line])) == Repeats(Logicals(valid)) + (if line.id in Ids(Logicals(valid)) then 1 else 0)
    ensures Ids(Logicals(valid + [line])) == Ids(Logicals(valid)) + {line.id}
  {
    var all := Logicals(valid + [line]);
    assert all == Logicals(valid) + [LogicalOf(line)];
    assert all[..|all| - 1] == Logicals(valid);
    IdsSnoc(Logicals(valid), LogicalOf(line));
  }

  /** The line loop, with the growing lists and the set of ids seen. */
  method Scan(r: Reader, raw: Bytes) returns (valid: seq<Line>, corrupt: seq<Line>, duplicates: nat)
    ensures valid == Valid(Lines(r, raw)) && corrupt == Corrupt(Lines(r, raw)) && duplicates == Repeats(Logicals(valid))
  {
    hide Classified, Classify, Valid, Corrupt, Repeats, Ids, Blank;
    var lines := Split(raw);
    valid, corrupt, duplicates := [], [], 0;
    var seen: set<string> := {};
    ScanStart(r);
    for n := 0 to |lines|
      invariant valid == Valid(Classified(r, lines[..n], 1)) && corrupt == Corrupt(Classified(r, lines[..n], 1))
      invariant duplicates == Repeats(Logicals(valid)) && seen == Ids(Logicals(valid))
    {
      ScanStep(r, lines, n);
      if !Blank(lines[n]) {
        var line := Classify(r, n + 1, lines[n]);
        if line.ValidLine? {
          RepeatsStep(valid, line);
          if line.id in seen { duplicates := duplicates + 1; }
          seen := seen + {line.id};
          valid := valid + [line];
        } else {
          corrupt := corrupt + [line];
        }
      }
    }
    assert lines[..|lines|] == lines;
  }

  lemma ScanStart(r: Reader)
    ensures Valid(Classified(r, [], 1)) == [] && Corrupt(Classified(r, [], 1)) == [] && Repeats(Logicals([])) == 0
    ensures Ids(Logicals([])) == {}
  {
  }

  /** Splits the valid lines into new items and already imported ones, stopping at the first that disagrees. */
  method Divide(known: map<string, Logical>, valid: seq<Line>) returns (items: seq<Line>, already: nat, agree: bool)
    requires forall i :: 0 <= i < |valid| ==> valid[i].ValidLine?
    ensures agree <==> AllAgree(known, valid)
    ensures agree ==> items == New(known, valid) && already == |valid| - |items|
  {
    hide Agrees;
    items, already := [], 0;
    for n := 0 to |valid|
      invariant items == New(known, valid[..n]) && already == n - |items|
      invariant forall i :: 0 <= i < n ==> Agrees(known, valid[i])
    {
      assert valid[..n + 1][..n] == valid[..n];
      if valid[n].id !in known {
        items := items + [valid[n]];
      } else {
        if known[valid[n].id] != LogicalOf(valid[n]) {
          NotAgreeing(known, valid, n);
          return items, already, false;
        }
        already := already + 1;
      }
      AgreesWhen(known, valid[n]);
    }
    assert valid[..|valid|] == valid;
    agree := true;
  }

  class LegacyLedgerImporter {
    var events: seq<Row>
    var sources: map<string, Report>
    var quarantine: seq<Quarantined>

    ghost function Model(): Ledger reads this { Ledger(events, sources, quarantine) }

    constructor ()
      ensures Model() == Ledger([], map[], [])
    {
      events, sources, quarantine := [], map[], [];
    }

    /** Reads the imported events back into a dictionary by legacy id. */
    method ExistingLegacyEvents() returns (known: Option<map<string, Logical>>)
      ensures known == Existing(events)
    {
      hide HasProvenance, LogicalOfRow;
      var result: map<string, Logical> := map[];
      for n := 0 to |events|
        invariant Existing(events[..n]) == Some(result)
      {
        var row := events[n];
        assert events[..n + 1][..n] == events[..n] && events[..n + 1][n] == row;
        if !HasProvenance(row) || LogicalOfRow(row).id in result {
          assert Existing(events[..n + 1]) == None;
          NoneStays(events, n + 1);
          return None;
        }
        result := result[LogicalOfRow(row).id := LogicalOfRow(row)];
      }
      assert events[..|events|] == events;
      return Some(result);
    }

    method ImportFile(r: Reader, raw: Bytes, expected: Option<nat>) returns (reply: Reply)
      modifies this
      ensures (Model(), reply) == Import(r, old(Model()), raw, expected)
    {
      hide Existing, Lines, Valid, Corrupt, Repeats, AllAgree, Storable, RowOf, New;
      var source := r.sha256(raw);
      var valid, corrupt, duplicates := Scan(r, raw);
      CorruptSize(Lines(r, raw));
      var observed := |valid| + |corrupt|;
      var complete := |corrupt| == 0 && duplicates == 0 && (expected.None? || expected.value == observed);
      if source in sources {
        var row := sources[source];
        if row.expected != expected { return LegacyLedgerError; }
        return Imported(row.(imported := 0, already := row.imported));
      }
      var known := ExistingLegacyEvents();
      if known.None? { return LegacyLedgerError; }
      var items, already, agree := Divide(known.value, valid);
      if !agree { return LegacyLedgerError; }
      if exists i :: 0 <= i < |items| && !Storable(r, source, items[i]) { return ValueError; }
      events := events + Rows(source, items);
      sources := sources[source := Report(|raw|, expected, observed, |valid|, |corrupt|, duplicates, |valid|, 0, complete)];
      quarantine := quarantine + Held(source, corrupt);
      return Imported(Report(|raw|, expected, observed, |valid|, |corrupt|, duplicates, |items|, already, complete));
    }
  }

  lemma {:induction false} NoneStays(events: seq<Row>, n: nat)
    requires n <= |events| && Existing(events[..n]).None?
    ensures Existing(events).None?
    decreases |events| - n
  {
    if n == |events| {
      assert events[..n] == events;
    } else {
      assert events[..n + 1][..n] == events[..n];
      NoneStays(events, n + 1);
    }
  }

  lemma {:induction false} CorruptSize(lines: seq<Line>)
    ensures |Corrupt(lines)| + |Valid(lines)| == |lines|
  {
    if lines != [] { CorruptSize(lines[1..]); }
  }

  lemma AgreesWhen(known: map<string, Logical>, line: Line)
    requires line.ValidLine?
    requires line.id in known ==> known[line.id] == LogicalOf(line)
    ensures Agrees(known, line)
  {
  }

  lemma NotAgreeing(known: map<string, Logical>, valid: seq<Line>, n: nat)
    requires n < |valid| && forall i :: 0 <= i < |valid| ==> valid[i].ValidLine?
    requires valid[n].id in known && known[valid[n].id] != LogicalOf(valid[n])
    ensures !AllAgree(known, valid)
  {
    assert !Agrees(known, valid[n]);
  }
}
