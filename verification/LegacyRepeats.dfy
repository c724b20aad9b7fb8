/** When a legacy file stops all later imports (legacy_ledger.py): a stored id that occurs twice can no longer be recognised. */
module LegacyRepeats {
  import opened Text
  import opened PayloadKeys
  import opened LegacyImport

  /** No two valid lines share an id that is not stored yet. */
  predicate NewIdsDiffer(stored: seq<Logical>, valid: seq<Line>)
    requires forall i :: 0 <= i < |valid| ==> valid[i].ValidLine?
  {
    forall i, j :: 0 <= i < j < |valid| && valid[i].id !in Ids(stored) && valid[j].id !in Ids(stored) ==> valid[i].id != valid[j].id
  }

  predicate IdsDiffer(lines: seq<Line>)
    requires forall i :: 0 <= i < |lines| ==> lines[i].ValidLine?
  {
    forall i, j :: 0 <= i < j < |lines| ==> lines[i].id != lines[j].id
  }

  predicate UnknownDiffer(known: map<string, Logical>, valid: seq<Line>)
    requires forall i :: 0 <= i < |valid| ==> valid[i].ValidLine?
  {
    forall i, j :: 0 <= i < j < |valid| && valid[i].id !in known && valid[j].id !in known ==> valid[i].id != valid[j].id
  }

  lemma {:induction false} NewDiffer(known: map<string, Logical>, valid: seq<Line>)
    requires forall i :: 0 <= i < |valid| ==> valid[i].ValidLine?
    ensures IdsDiffer(New(known, valid)) <==> UnknownDiffer(known, valid)
  {
    hide IdsDiffer, UnknownDiffer;
    if valid == [] {
      NothingDiffers(known);
    } else {
      var before, last := valid[..|valid| - 1], valid[|valid| - 1];
      NewDiffer(known, before);
      NewAre(known, before);
      assert valid == before + [last];
      UnknownSnoc(known, before, last);
      if last.id !in known { NewSnocDiffers(New(known, before), last); }
    }
  }

  lemma NothingDiffers(known: map<string, Logical>)
    ensures IdsDiffer([]) && UnknownDiffer(known, [])
  {
  }

  lemma UnknownSnoc(known: map<string, Logical>, before: seq<Line>, last: Line)
    requires last.ValidLine? && forall i :: 0 <= i < |before| ==> before[i].ValidLine?
    ensures UnknownDiffer(known, before + [last])
       <==> UnknownDiffer(known, before)
            && (last.id !in known ==> forall line :: line in before && line.id !in known ==> line.id != last.id)
  {
    var all := before + [last];
    assert all[|before|] == last && forall i :: 0 <= i < |before| ==> all[i] == before[i];
    if UnknownDiffer(known, all) {
      forall i, j | 0 <= i < j < |before| && before[i].id !in known && before[j].id !in known ensures before[i].id != before[j].id {
        assert all[i].id != all[j].id;
      }
      forall line | last.id !in known && line in before && line.id !in known ensures line.id != last.id {
        var i :| 0 <= i < |before| && before[i] == line;
        assert all[i].id != all[|before|].id;
      }
    }
  }

  lemma NewSnocDiffers(items: seq<Line>, last: Line)
    requires last.ValidLine? && forall i :: 0 <= i < |items| ==> items[i].ValidLine?
    ensures IdsDiffer(items + [last]) <==> IdsDiffer(items) && forall line :: line in items ==> line.id != last.id
  {
    var all := items + [last];
    assert all[|items|] == last && forall i :: 0 <= i < |items| ==> all[i] == items[i];
    if IdsDiffer(all) {
      forall line | line in items ensures line.id != last.id {
        var i :| 0 <= i < |items| && items[i] == line;
        assert all[i].id != all[|items|].id;
      }
      forall i, j | 0 <= i < j < |items| ensures items[i].id != items[j].id { assert all[i].id != all[j].id; }
    }
  }

  /** Appending rows whose ids are not stored keeps the ids apart exactly when theirs are. */
  lemma RowsDiffer(stored: seq<Logical>, read: seq<Logical>, items: seq<Line>)
    requires Distinct(stored) && |read| == |items| && forall i :: 0 <= i < |items| ==> items[i].ValidLine?
    requires forall i :: 0 <= i < |items| ==> read[i].id == items[i].id && items[i].id !in Ids(stored)
    ensures Distinct(stored + read) <==> IdsDiffer(items)
  {
    var all, n := stored + read, |stored|;
    assert forall i :: 0 <= i < n ==> all[i] == stored[i] && stored[i].id in Ids(stored);
    assert forall i :: 0 <= i < |items| ==> all[n + i] == read[i];
    if Distinct(all) {
      forall i, j | 0 <= i < j < |items| ensures items[i].id != items[j].id { assert all[n + i].id != all[n + j].id; }
    }
    if IdsDiffer(items) {
      forall i, j | 0 <= i < j < |all| ensures all[i].id != all[j].id {
        if i >= n { assert items[i - n].id != items[j - n].id; } else if j >= n { assert all[j] == read[j - n]; }
      }
    }
  }

  /** An accepted new file leaves a ledger whose ids are all different exactly when it repeats no id that was not stored before;
      repeating a stored id does no harm. */
  lemma StaysRecognisableIff(r: Reader, files: seq<File>, raw: Bytes, expected: Option<nat>)
    requires GoodDigests(r) && r.sha256(raw) !in AfterImports(r, files).sources
    requires Import(r, AfterImports(r, files), raw, expected).1.Imported?
    ensures var l := AfterImports(r, files);
            var l' := Import(r, l, raw, expected).0;
            && AllProven(l.events) && AllProven(l'.events)
            && (Distinct(Read(l'.events)) <==> NewIdsDiffer(Read(l.events), Valid(Lines(r, raw))))
  {
    hide AfterImports, Import, Existing, HasProvenance, LogicalOfRow, GoodDigests, SourcesRight, Lines, Valid, New, Counts, Ids;
    var l, valid := AfterImports(r, files), Valid(Lines(r, raw));
    var l' := Import(r, l, raw, expected).0;
    ReachableKeeps(r, files);
    ImportKeeps(r, l, raw, expected);
    ExistingIffDistinct(l.events);
    AddedSource(r, l, raw, expected);
    ImportAdds(r, l, raw, expected);
    var known := Existing(l.events).value;
    var items := New(known, valid);
    RowIds(r, raw, items);
    ReadConcat(l.events, Rows(r.sha256(raw), items));
    KnownIffStored(known, Read(l.events));
    NewAre(known, valid);
    NewDiffer(known, valid);
    RowsDiffer(Read(l.events), Read(Rows(r.sha256(raw), items)), items);
  }

  lemma RowIds(r: Reader, raw: Bytes, items: seq<Line>)
    requires forall i :: 0 <= i < |items| ==> items[i].ValidLine? && items[i] in Lines(r, raw)
    ensures var rows := Rows(r.sha256(raw), items);
            && AllProven(rows) && |Read(rows)| == |items|
            && forall i :: 0 <= i < |items| ==> Read(rows)[i].id == items[i].id
  {
    hide Lines, HasProvenance, RowOf, LogicalOfRow, Strip, Accepted;
    RowsProven(r, raw, items);
    ItemsNamed(r, raw);
    forall i | 0 <= i < |items| ensures Read(Rows(r.sha256(raw), items))[i].id == items[i].id { OneRowId(r.sha256(raw), items[i]); }
  }

  lemma OneRowId(source: string, line: Line)
    requires line.ValidLine? && Strip(line.id) != ""
    ensures HasProvenance(RowOf(source, line)) && LogicalOfRow(RowOf(source, line)).id == line.id
  {
    hide HasProvenance, RowOf, LogicalOfRow, Strip;
    RowKeepsLine(source, line);
  }

  lemma AddedSource(r: Reader, l: Ledger, raw: Bytes, expected: Option<nat>)
    requires r.sha256(raw) !in l.sources && Import(r, l, raw, expected).1.Imported?
    ensures Import(r, l, raw, expected).0 != l
  {
    hide Existing, Counts, Lines, Valid, New, AllAgree, AllStorable;
    assert r.sha256(raw) in Import(r, l, raw, expected).0.sources;
  }

  lemma ReadConcat(a: seq<Row>, b: seq<Row>)
    requires AllProven(a) && AllProven(b)
    ensures AllProven(a + b) && Read(a + b) == Read(a) + Read(b)
  {
    hide HasProvenance, LogicalOfRow;
  }

  /** A ledger in which some id is stored twice refuses every file it has not seen, and never changes again. */
  lemma RepeatedIdBlocks(r: Reader, l: Ledger, raw: Bytes, expected: Option<nat>)
    requires AllProven(l.events) && !Distinct(Read(l.events))
    ensures Import(r, l, raw, expected).0 == l
    ensures r.sha256(raw) !in l.sources ==> Import(r, l, raw, expected).1 == LegacyLedgerError
  {
    hide Existing, Distinct, Read, Lines, Valid, New;
    ExistingIffDistinct(l.events);
  }

  lemma {:induction false} BlockedForGood(r: Reader, files: seq<File>, more: seq<File>)
    requires AllProven(AfterImports(r, files).events) && !Distinct(Read(AfterImports(r, files).events))
    ensures AfterImports(r, files + more) == AfterImports(r, files)
  {
    hide Distinct, Read, Import;
    if more == [] {
      assert files + more == files;
    } else {
      var all, last := files + more, more[|more| - 1];
      assert all[..|all| - 1] == files + more[..|more| - 1] && all[|all| - 1] == last;
      BlockedForGood(r, files, more[..|more| - 1]);
      RepeatedIdBlocks(r, AfterImports(r, files), last.raw, last.expected);
    }
  }

  // ----- such a file

  /** A reader that takes every line for the same event. */
  const ONE_EVENT := Reader((b: Bytes) => seq(|b|, i requires 0 <= i < |b| => b[i] as char), _ => Shaped("id", "kind", "now", map[]),
                            _ => true, _ => false)

  /** Two lines of one letter. */
  const TWICE: Bytes := [65, 10, 65]

  lemma TwiceLines()
    ensures Split(TWICE) == [[65], [65]]
  {
    assert TWICE[1..] == [10, 65] && TWICE[1..][1..] == [65] && TWICE[1..][1..][1..] == [];
    assert Split([]) == [[]] && Split([65]) == [[65] + []] + [] && [65] + [] == [65];
    assert Split([10, 65]) == [[]] + Split([65]);
    assert Split(TWICE) == [[65] + []] + [[65]];
  }

  lemma OneEventDigests()
    ensures GoodDigests(ONE_EVENT)
  {
    forall a: Bytes, b: Bytes | ONE_EVENT.sha256(a) == ONE_EVENT.sha256(b) ensures a == b {
      assert |a| == |ONE_EVENT.sha256(a)| == |b|;
      forall i | 0 <= i < |a| ensures a[i] == b[i] { assert ONE_EVENT.sha256(a)[i] == ONE_EVENT.sha256(b)[i]; }
    }
  }

  function Taken(number: nat): Line { ValidLine(number, "id", "kind", "now", map[]) }

  lemma TwiceValid()
    ensures Lines(ONE_EVENT, TWICE) == [Taken(1), Taken(2)] && Valid(Lines(ONE_EVENT, TWICE)) == [Taken(1), Taken(2)]
  {
    hide Split, Blank, Classify;
    TwiceLines();
    OneLineTaken(1);
    OneLineTaken(2);
    var line: Bytes := [65];
    assert [line, line][1..] == [line] && [line][1..] == [];
    assert Classified(ONE_EVENT, [line], 2) == [Taken(2)] + [];
    assert Classified(ONE_EVENT, [line, line], 1) == [Taken(1)] + [Taken(2)];
    BothValid();
  }

  lemma OneLineTaken(number: nat)
    ensures !Blank([65]) && Classify(ONE_EVENT, number, [65]) == Taken(number)
  {
    hide Strip, ForbiddenKey, Classify, IsSpace, Accepted;
    var line: Bytes := [65];
    assert line[0] !in {9, 10, 11, 12, 13, 32};
    NotBlank("id");
    NotBlank("kind");
    NotBlank("now");
    NothingForbidden(ONE_EVENT.isPath);
    ShapedIsValid(ONE_EVENT, number, line, "id", "kind", "now", map[]);
  }

  lemma NothingForbidden(isPath: string -> bool)
    ensures Accepted(Object(map[]), isPath)
  {
  }

  lemma ShapedIsValid(r: Reader, number: nat, raw: Bytes, id: string, kind: string, at: string, payload: Payload)
    requires r.document(raw) == Shaped(id, kind, at, payload) && Strip(id) != "" && Strip(kind) != "" && Strip(at) != ""
    requires r.aware(at) && Accepted(Object(payload), r.isPath)
    ensures Classify(r, number, raw) == ValidLine(number, id, kind, at, payload)
  {
    hide Strip, Accepted;
  }

  lemma BothValid()
    ensures Valid([Taken(1), Taken(2)]) == [Taken(1), Taken(2)]
  {
    assert [Taken(1), Taken(2)][1..] == [Taken(2)] && [Taken(2)][1..] == [];
    assert Valid([Taken(2)]) == [Taken(2)] + [];
  }

  lemma NotBlank(s: string)
    requires s != "" && IsLower(s[0]) && IsLower(s[|s| - 1])
    ensures Strip(s) != ""
  {
    hide Strip;
    StripFixed(s);
  }

  /** A file whose only event stands in it twice is imported into the empty ledger, and from then on every other file is
      refused. */
  lemma RepeatBlocksEverything(other: Bytes, expected: Option<nat>)
    requires other != TWICE
    ensures var l := AfterImports(ONE_EVENT, [File(TWICE, None)]);
            && Import(ONE_EVENT, AfterImports(ONE_EVENT, []), TWICE, None).1.Imported?
            && Import(ONE_EVENT, l, other, expected) == (l, LegacyLedgerError)
  {
    hide Import, Lines, Valid, Existing, HasProvenance, LogicalOfRow, SourcesRight;
    var r, empty := ONE_EVENT, AfterImports(ONE_EVENT, []);
    OneEventDigests();
    TwiceValid();
    EmptyLedger(r);
    ImportedIff(r, [], TWICE, None);
    assert Import(r, empty, TWICE, None).1.Imported?;
    StaysRecognisableIff(r, [], TWICE, None);
    TwiceRepeats();
    var l := AfterImports(r, [File(TWICE, None)]);
    assert [File(TWICE, None)][..0] == [];
    assert l == Import(r, empty, TWICE, None).0;
    OnlySource(r, l, TWICE, other);
    RepeatedIdBlocks(r, l, other, expected);
  }

  lemma EmptyLedger(r: Reader)
    ensures AfterImports(r, []) == Ledger([], map[], []) && Read([]) == []
  {
  }

  lemma TwiceRepeats()
    ensures !NewIdsDiffer([], [Taken(1), Taken(2)])
  {
    var valid := [Taken(1), Taken(2)];
    assert valid[0].id == valid[1].id && valid[0].id !in Ids([]);
  }

  lemma OnlySource(r: Reader, l: Ledger, raw: Bytes, other: Bytes)
    requires GoodDigests(r) && other != raw && l == Import(r, Ledger([], map[], []), raw, None).0
    ensures r.sha256(other) !in l.sources
  {
    hide Import;
    if l != Ledger([], map[], []) { ImportAdds(r, Ledger([], map[], []), raw, None); }
  }
}
