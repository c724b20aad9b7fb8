/** Payload hygiene (event_store.py): the key normaliser that sees through spellings, and the recursive check that refuses
    forbidden keys and path-like values at any depth. Letters are ASCII. */
module PayloadKeys {
  import opened Text

  // ----- the normaliser, as its two substitutions

  function UpperRun(s: string): (k: nat)
    ensures k <= |s| && (forall i :: 0 <= i < k ==> IsUpper(s[i])) && (k < |s| ==> !IsUpper(s[k]))
  {
    if s == "" || !IsUpper(s[0]) then 0 else 1 + UpperRun(s[1..])
  }

  /** The longest first group of `([A-Z]+)([A-Z][a-z])` at the head of `s`, trying `m` letters and then fewer; 0 if none. */
  function Backtrack(s: string, m: nat): (n: nat)
    ensures n <= m && (n > 0 ==> n + 1 < |s|)
  {
    if m == 0 then 0
    else if m + 1 < |s| && IsUpper(s[m]) && IsLower(s[m + 1]) then m
    else Backtrack(s, m - 1)
  }

  /** The first substitution: leftmost matches, each getting an underscore between its groups. */
  function SeparateAcronyms(s: string): string {
    if s == "" then ""
    else
      var n := Backtrack(s, UpperRun(s));
      if n > 0 then s[..n] + ['_'] + s[n..n + 2] + SeparateAcronyms(s[n + 2..])
      else [s[0]] + SeparateAcronyms(s[1..])
  }

  predicate EndsWord(c: char) { IsLower(c) || IsDigit(c) }

  /** The second substitution: an underscore at every place between `[a-z0-9]` and `[A-Z]`. */
  function SeparateWords(s: string): string {
    if s == "" then ""
    else if |s| >= 2 && EndsWord(s[0]) && IsUpper(s[1]) then [s[0], '_'] + SeparateWords(s[1..])
    else [s[0]] + SeparateWords(s[1..])
  }

  function Dash(c: char): char { if c == '-' then '_' else c }

  function Underscored(s: string): (t: string)
    ensures |t| == |s| && forall i :: 0 <= i < |s| ==> t[i] == Dash(s[i])
  {
    seq(|s|, i requires 0 <= i < |s| => Dash(s[i]))
  }

  function Normalise(key: string): string { Underscored(Lower(SeparateWords(SeparateAcronyms(Strip(key))))) }

  // ----- the same by looking at each place

  /** Whether an underscore goes between `before` and `c`, where `after` follows `c`. */
  predicate Break(before: Option<char>, c: char, after: Option<char>) {
    && before.Some? && IsUpper(c)
    && (EndsWord(before.value) || (IsUpper(before.value) && after.Some? && IsLower(after.value)))
  }

  function Head(s: string): Option<char> { if s == "" then None else Some(s[0]) }

  /** Lower-cases `s`, which follows `before`, and puts the underscores in. */
  function Spaced(before: Option<char>, s: string): string
    decreases |s|
  {
    if s == "" then ""
    else (if Break(before, s[0], Head(s[1..])) then ['_'] else []) + [Dash(LowerChar(s[0]))] + Spaced(Some(s[0]), s[1..])
  }

  function Folded(s: string): string { Underscored(Lower(s)) }

  /** The first substitution, place by place. */
  function Acronyms(before: Option<char>, s: string): string
    decreases |s|
  {
    if s == "" then ""
    else (if before.Some? && IsUpper(before.value) && IsUpper(s[0]) && |s| >= 2 && IsLower(s[1]) then ['_'] else [])
         + [s[0]] + Acronyms(Some(s[0]), s[1..])
  }

  lemma {:induction false} BacktrackFinds(s: string, m: nat)
    requires m <= UpperRun(s)
    ensures Backtrack(s, m)
         == if 2 <= UpperRun(s) < |s| && IsLower(s[UpperRun(s)]) && m >= UpperRun(s) - 1 then UpperRun(s) - 1 else 0
  {
    if m > 0 { BacktrackFinds(s, m - 1); }
  }

  /** A run of capitals with nothing before it that it could break from. */
  lemma {:induction false} AcronymsRun(before: Option<char>, s: string, n: nat)
    requires 1 <= n && n + 1 < |s| && (forall i :: 0 <= i <= n ==> IsUpper(s[i])) && IsLower(s[n + 1])
    ensures Acronyms(before, s) == s[..n] + ['_'] + s[n..n + 2] + Acronyms(Some(s[n + 1]), s[n + 2..])
    decreases |s|
  {
    hide Acronyms;
    AcronymsCons(before, s);
    assert [] + [s[0]] == [s[0]];
    if n == 1 {
      AcronymsCons(Some(s[0]), s[1..]);
      AcronymsCons(Some(s[1]), s[2..]);
      assert s[1..][1..] == s[2..] && s[2..][1..] == s[3..] && s[1..3] == [s[1]] + [s[2]] && s[..1] == [s[0]];
    } else {
      AcronymsRun(Some(s[0]), s[1..], n - 1);
      assert s[1..][n..] == s[n + 1..] && s[1..][n - 1..n + 1] == s[n..n + 2] && s[1..][n + 1..] == s[n + 2..];
      assert [s[0]] + s[1..][..n - 1] == s[..n];
    }
  }

  lemma AcronymsCons(before: Option<char>, s: string)
    requires s != ""
    ensures Acronyms(before, s)
         == (if before.Some? && IsUpper(before.value) && IsUpper(s[0]) && |s| >= 2 && IsLower(s[1]) then ['_'] else [])
            + [s[0]] + Acronyms(Some(s[0]), s[1..])
  {
  }

  /** What precedes `s` does not continue a run of capitals that a lower-case letter ends. */
  predicate NoRunGoesOn(before: Option<char>, s: string) {
    before.None? || !IsUpper(before.value) || UpperRun(s) == 0 || UpperRun(s) == |s| || !IsLower(s[UpperRun(s)])
  }

  lemma {:induction false} AcronymsByPlace(before: Option<char>, s: string)
    requires NoRunGoesOn(before, s)
    ensures SeparateAcronyms(s) == Acronyms(before, s)
    decreases |s|
  {
    hide Backtrack, UpperRun, Acronyms, NoRunGoesOn;
    AcronymsOfEmpty(before);
    if s != "" {
      var n := Backtrack(s, UpperRun(s));
      if n > 0 {
        AcronymStep(before, s, n);
        AcronymsByPlace(Some(s[n + 1]), s[n + 2..]);
      } else {
        PlainStep(before, s);
        AcronymsByPlace(Some(s[0]), s[1..]);
      }
    }
  }

  lemma AcronymsOfEmpty(before: Option<char>)
    ensures Acronyms(before, "") == ""
  {
  }

  lemma AcronymStep(before: Option<char>, s: string, n: nat)
    requires n == Backtrack(s, UpperRun(s)) && n > 0
    ensures Acronyms(before, s) == s[..n] + ['_'] + s[n..n + 2] + Acronyms(Some(s[n + 1]), s[n + 2..])
    ensures NoRunGoesOn(Some(s[n + 1]), s[n + 2..])
  {
    hide Acronyms, Backtrack;
    BacktrackFinds(s, UpperRun(s));
    AcronymsRun(before, s, n);
  }

  lemma PlainStep(before: Option<char>, s: string)
    requires s != "" && NoRunGoesOn(before, s) && Backtrack(s, UpperRun(s)) == 0
    ensures Acronyms(before, s) == [s[0]] + Acronyms(Some(s[0]), s[1..]) && NoRunGoesOn(Some(s[0]), s[1..])
  {
    hide Backtrack, UpperRun;
    RunTail(s);
    NoRunNext(s);
    if IsUpper(s[0]) && |s| >= 2 && IsLower(s[1]) { assert UpperRun(s) == 1; }
    assert [] + [s[0]] == [s[0]];
  }

  lemma NoRunNext(s: string)
    requires s != "" && Backtrack(s, UpperRun(s)) == 0
    ensures NoRunGoesOn(Some(s[0]), s[1..])
  {
    hide Backtrack, UpperRun;
    RunTail(s);
    BacktrackFinds(s, UpperRun(s));
    var k := UpperRun(s);
    if IsUpper(s[0]) && k < |s| { assert s[1..][k - 1] == s[k]; }
  }

  lemma RunTail(s: string)
    requires s != ""
    ensures UpperRun(s[1..]) == if IsUpper(s[0]) then UpperRun(s) - 1 else UpperRun(s[1..])
  {
  }

  /** One letter put in front, with or without an underscore. */
  lemma FoldedCons(breaks: bool, c: char, rest: string)
    ensures Folded((if breaks then ['_'] else []) + [c] + rest)
         == (if breaks then ['_'] else []) + [Dash(LowerChar(c))] + Folded(rest)
  {
  }

  lemma WordsAfterTwo(before: Option<char>, c: char, rest: string)
    ensures SeparateWordsAfter(before, ['_', c] + rest) == ['_'] + [c] + SeparateWordsAfter(Some(c), rest)
  {
    assert (['_', c] + rest)[1..] == [c] + rest && ([c] + rest)[1..] == rest;
    assert SeparateWordsAfter(Some('_'), [c] + rest) == [c] + SeparateWordsAfter(Some(c), rest);
  }

  lemma WordsAfterOne(before: Option<char>, c: char, rest: string)
    ensures SeparateWordsAfter(before, [c] + rest)
         == (if before.Some? && EndsWord(before.value) && IsUpper(c) then ['_'] else []) + [c] + SeparateWordsAfter(Some(c), rest)
  {
    assert ([c] + rest)[1..] == rest;
  }

  /** Both substitutions and the folding, place by place. */
  lemma {:induction false} SpacedIsBoth(before: Option<char>, s: string)
    ensures Folded(SeparateWordsAfter(before, Acronyms(before, s))) == Spaced(before, s)
    decreases |s|
  {
    hide Folded, SeparateWordsAfter;
    if s == "" {
      assert Folded(SeparateWordsAfter(before, "")) == "" by { FoldedEmpty(before); }
    } else {
      var c, rest := s[0], Acronyms(Some(s[0]), s[1..]);
      SpacedIsBoth(Some(c), s[1..]);
      var breaks := before.Some? && IsUpper(before.value) && IsUpper(c) && |s| >= 2 && IsLower(s[1]);
      if breaks {
        assert ['_'] + [c] + rest == ['_', c] + rest;
        WordsAfterTwo(before, c, rest);
      } else {
        assert [] + [c] + rest == [c] + rest;
        WordsAfterOne(before, c, rest);
      }
      FoldedCons(Break(before, c, Head(s[1..])), c, SeparateWordsAfter(Some(c), rest));
    }
  }

  lemma FoldedEmpty(before: Option<char>)
    ensures Folded(SeparateWordsAfter(before, "")) == ""
  {
  }

  /** `SeparateWords` of what follows `before`. */
  function SeparateWordsAfter(before: Option<char>, s: string): string
    decreases |s|
  {
    if s == "" then ""
    else (if before.Some? && EndsWord(before.value) && IsUpper(s[0]) then ['_'] else []) + [s[0]]
         + SeparateWordsAfter(Some(s[0]), s[1..])
  }

  lemma {:induction false} WordsByPlace(s: string)
    ensures SeparateWords(s) == SeparateWordsAfter(None, s)
    ensures s != "" ==> SeparateWords(s) == [s[0]] + SeparateWordsAfter(Some(s[0]), s[1..])
  {
    if |s| >= 2 {
      WordsByPlace(s[1..]);
      assert s[1..][0] == s[1];
    } else if |s| == 1 {
      assert s[1..] == "";
    }
  }

  lemma NormaliseByPlace(key: string)
    ensures Normalise(key) == Spaced(None, Strip(key))
  {
    hide Strip;
    var s := Strip(key);
    AcronymsByPlace(None, s);
    WordsByPlace(Acronyms(None, s));
    SpacedIsBoth(None, s);
  }

  // ----- spellings

  datatype Style = Low | Capital | Acronym

  datatype Joint = Underscore | Hyphen | Adjacent

  /** A word, how it is written, and what joins it to the next word. */
  datatype Piece = Piece(word: string, style: Style, joint: Joint)

  predicate AllLower(w: string) { forall i :: 0 <= i < |w| ==> IsLower(w[i]) }

  predicate IsWord(w: string) { |w| >= 2 && AllLower(w) }

  function UpperChar(c: char): char { if IsLower(c) then (c as int - 32) as char else c }

  function Upper(s: string): (t: string)
    ensures |t| == |s| && forall i :: 0 <= i < |s| ==> t[i] == UpperChar(s[i])
  {
    seq(|s|, i requires 0 <= i < |s| => UpperChar(s[i]))
  }

  function Written(p: Piece): string
    requires p.word != ""
  {
    match p.style
    case Low => p.word
    case Capital => [UpperChar(p.word[0])] + p.word[1..]
    case Acronym => Upper(p.word)
  }

  function JointText(j: Joint): string {
    match j
    case Underscore => ['_']
    case Hyphen => ['-']
    case Adjacent => []
  }

  ghost predicate Words(pieces: seq<Piece>) { forall i :: 0 <= i < |pieces| ==> IsWord(pieces[i].word) }

  /** The spelling: snake, kebab, camel and acronym keys are all of this form. */
  function Spell(pieces: seq<Piece>): string
    requires Words(pieces)
  {
    if pieces == [] then ""
    else Written(pieces[0]) + (if |pieces| > 1 then JointText(pieces[0].joint) else []) + Spell(pieces[1..])
  }

  function Snake(pieces: seq<Piece>): string {
    if pieces == [] then "" else pieces[0].word + (if |pieces| > 1 then ['_'] else []) + Snake(pieces[1..])
  }

  /** Two adjacent words can be told apart: the second starts with a capital and they are not both acronyms. */
  predicate Apart(a: Piece, b: Piece) { a.joint == Adjacent ==> b.style != Low && !(a.style == Acronym && b.style == Acronym) }

  predicate AllApart(pieces: seq<Piece>) { forall i :: 0 <= i < |pieces| - 1 ==> Apart(pieces[i], pieces[i + 1]) }

  lemma SpacedCons(before: Option<char>, c: char, rest: string)
    ensures Spaced(before, [c] + rest)
         == (if Break(before, c, Head(rest)) then ['_'] else []) + [Dash(LowerChar(c))] + Spaced(Some(c), rest)
  {
    assert ([c] + rest)[1..] == rest;
  }

  lemma UpperCons(w: string)
    requires w != ""
    ensures Upper(w) == [UpperChar(w[0])] + Upper(w[1..])
  {
  }

  /** Lower-case letters are copied, and the last one is what follows sees. */
  lemma {:induction false} SpacedLower(before: Option<char>, w: string, rest: string)
    requires w != "" && AllLower(w)
    ensures Spaced(before, w + rest) == w + Spaced(Some(w[|w| - 1]), rest)
    decreases |w|
  {
    hide Spaced;
    SpacedCons(before, w[0], w[1..] + rest);
    assert w + rest == [w[0]] + (w[1..] + rest);
    if |w| == 1 {
      assert w[1..] + rest == rest;
      assert [] + [w[0]] == w;
    } else {
      SpacedLower(Some(w[0]), w[1..], rest);
      assert [] + [w[0]] + w[1..] == w;
    }
  }

  predicate Low1(rest: string) { rest != "" && IsLower(rest[0]) }

  /** The word, with its last letter broken off if asked. */
  function Broken(w: string, break_: bool): string
    requires w != ""
  {
    if break_ then w[..|w| - 1] + ['_'] + w[|w| - 1..] else w
  }

  lemma BrokenCons(w: string, break_: bool)
    requires |w| >= 2
    ensures Broken(w, break_) == [w[0]] + Broken(w[1..], break_)
  {
  }

  /** Capitals are folded; only the last can be broken off, by a lower-case letter that follows. */
  lemma {:induction false} SpacedUpper(before: char, w: string, rest: string)
    requires IsUpper(before) && w != "" && AllLower(w)
    ensures Spaced(Some(before), Upper(w) + rest) == Broken(w, Low1(rest)) + Spaced(Some(UpperChar(w[|w| - 1])), rest)
    decreases |w|
  {
    hide Spaced, Upper, Broken;
    var c := UpperChar(w[0]);
    UpperCons(w);
    SpacedCons(Some(before), c, Upper(w[1..]) + rest);
    assert Upper(w) + rest == [c] + (Upper(w[1..]) + rest);
    assert Dash(LowerChar(c)) == w[0];
    if |w| == 1 {
      OneLetter(w, rest);
    } else {
      BrokenCons(w, Low1(rest));
      SpacedUpper(c, w[1..], rest);
      UpperCons(w[1..]);
      assert Head(Upper(w[1..]) + rest) == Some(UpperChar(w[1]));
      assert [] + [w[0]] == [w[0]];
    }
  }

  lemma OneLetter(w: string, rest: string)
    requires |w| == 1
    ensures Upper(w[1..]) + rest == rest && Broken(w, false) == [] + [w[0]] && Broken(w, true) == ['_'] + [w[0]]
  {
    hide IsLower;
    var c := w[0];
    assert w == [c];
    assert w[1..] == "" && Upper("") == "" && "" + rest == rest;
    assert w[..0] == "" && w[0..] == [c] && "" + ['_'] + [c] == ['_'] + [c] && "" + [c] == [c];
  }

  /** Whether a piece gets an underscore in front. */
  predicate Led(before: Option<char>, p: Piece) {
    && p.style != Low && before.Some?
    && (EndsWord(before.value) || (IsUpper(before.value) && p.style == Capital))
  }

  /** What a piece contributes. */
  function Contribution(before: Option<char>, p: Piece, rest: string): string
    requires IsWord(p.word)
  {
    (if Led(before, p) then ['_'] else []) + Broken(p.word, p.style == Acronym && Low1(rest))
  }

  lemma SpacedCapital(before: Option<char>, w: string, rest: string)
    requires IsWord(w)
    ensures Spaced(before, [UpperChar(w[0])] + w[1..] + rest)
         == (if before.Some? && (EndsWord(before.value) || IsUpper(before.value)) then ['_'] else []) + w
            + Spaced(Some(w[|w| - 1]), rest)
  {
    hide Spaced;
    var c := UpperChar(w[0]);
    SpacedCons(before, c, w[1..] + rest);
    assert [c] + w[1..] + rest == [c] + (w[1..] + rest) && Head(w[1..] + rest) == Some(w[1]) && LowerChar(c) == w[0];
    SpacedLower(Some(c), w[1..], rest);
    assert [w[0]] + w[1..] == w;
  }

  lemma SpacedAcronym(before: Option<char>, w: string, rest: string)
    requires IsWord(w)
    ensures Spaced(before, Upper(w) + rest)
         == (if before.Some? && EndsWord(before.value) then ['_'] else []) + Broken(w, Low1(rest))
            + Spaced(Some(UpperChar(w[|w| - 1])), rest)
  {
    hide Spaced, Upper, Broken;
    var c := UpperChar(w[0]);
    UpperCons(w);
    UpperCons(w[1..]);
    SpacedCons(before, c, Upper(w[1..]) + rest);
    assert Upper(w) + rest == [c] + (Upper(w[1..]) + rest) && Head(Upper(w[1..]) + rest) == Some(UpperChar(w[1]));
    assert LowerChar(c) == w[0];
    SpacedUpper(c, w[1..], rest);
    BrokenCons(w, Low1(rest));
  }

  lemma SpacedPiece(before: Option<char>, p: Piece, rest: string)
    requires IsWord(p.word)
    ensures Spaced(before, Written(p) + rest)
         == Contribution(before, p, rest) + Spaced(Some(Written(p)[|p.word| - 1]), rest)
  {
    hide Spaced, Broken;
    NotBroken(p.word);
    match p.style
    case Low => SpacedLower(before, p.word, rest);
    case Capital => SpacedCapital(before, p.word, rest);
    case Acronym => SpacedAcronym(before, p.word, rest);
  }

  lemma NotBroken(w: string)
    requires w != ""
    ensures Broken(w, false) == w && (|w| > 1 ==> Broken(w[1..], false) == w[1..])
  {
  }

  /** What precedes a piece: nothing, a joint, or the end of a piece it can be told apart from. */
  predicate Precedes(before: Option<char>, p: Piece) {
    || before.None? || before.value in {'_', '-'}
    || (IsLower(before.value) && p.style != Low) || (IsUpper(before.value) && p.style == Capital)
  }

  function Prefix(before: Option<char>): string {
    if before.None? || before.value in {'_', '-'} then [] else ['_']
  }

  function LastOf(p: Piece): char
    requires IsWord(p.word)
  {
    Written(p)[|p.word| - 1]
  }

  /** What follows the first piece of a spelling. */
  function Rest(pieces: seq<Piece>): string
    requires Words(pieces) && |pieces| > 1
  {
    JointText(pieces[0].joint) + Spell(pieces[1..])
  }

  lemma SpellHead(pieces: seq<Piece>)
    requires Words(pieces) && |pieces| > 1
    ensures Spell(pieces) == Written(pieces[0]) + Rest(pieces)
    ensures Snake(pieces) == pieces[0].word + (['_'] + Snake(pieces[1..]))
    ensures |Spell(pieces[1..])| >= 2 && Spell(pieces[1..])[0] == Written(pieces[1])[0] && Spell(pieces[1..])[1] == Written(pieces[1])[1]
  {
    hide Written;
    SpellStart(pieces[1..]);
  }

  lemma SpellStart(pieces: seq<Piece>)
    requires Words(pieces) && pieces != []
    ensures |Spell(pieces)| >= 2 && Spell(pieces)[0] == Written(pieces[0])[0] && Spell(pieces)[1] == Written(pieces[0])[1]
  {
    assert IsWord(pieces[0].word) && |Written(pieces[0])| == |pieces[0].word|;
  }

  /** What the second piece of a spelling sees before it. */
  function Next(p: Piece): Option<char>
    requires IsWord(p.word)
  {
    match p.joint
    case Underscore => Some('_')
    case Hyphen => Some('-')
    case Adjacent => Some(LastOf(p))
  }

  function Gap(p: Piece): string { if p.joint == Adjacent then [] else ['_'] }

  lemma SpacedJoint(before: Option<char>, c: char, tail: string)
    requires c in {'_', '-'}
    ensures Spaced(before, [c] + tail) == ['_'] + Spaced(Some(c), tail)
  {
    SpacedCons(before, c, tail);
    hide Spaced;
    assert !Break(before, c, Head(tail)) && Dash(LowerChar(c)) == '_';
    assert [] + ['_'] == ['_'];
  }

  lemma JointFolds(p: Piece, tail: string)
    requires IsWord(p.word)
    ensures Spaced(Some(LastOf(p)), JointText(p.joint) + tail) == Gap(p) + Spaced(Next(p), tail)
  {
    hide Spaced, LastOf;
    match p.joint
    case Adjacent => assert [] + tail == tail;
    case Underscore => SpacedJoint(Some(LastOf(p)), '_', tail);
    case Hyphen => SpacedJoint(Some(LastOf(p)), '-', tail);
  }

  lemma NextPrecedes(a: Piece, b: Piece)
    requires IsWord(a.word) && IsWord(b.word) && Apart(a, b)
    ensures Precedes(Next(a), b) && Prefix(Next(a)) == (if a.joint == Adjacent then ['_'] else [])
  {
  }

  lemma PieceCopied(before: Option<char>, p: Piece, rest: string)
    requires IsWord(p.word) && Precedes(before, p) && !(p.style == Acronym && Low1(rest))
    ensures Contribution(before, p, rest) == Prefix(before) + p.word
  {
  }

  /** The first piece of a spelling is copied, when the next one can be told apart from it. */
  lemma FirstPiece(before: Option<char>, pieces: seq<Piece>)
    requires Words(pieces) && |pieces| > 1 && Precedes(before, pieces[0]) && Apart(pieces[0], pieces[1])
    ensures Precedes(Next(pieces[0]), pieces[1])
    ensures Spaced(before, Spell(pieces))
         == (Prefix(before) + pieces[0].word) + (Gap(pieces[0]) + Spaced(Next(pieces[0]), Spell(pieces[1..])))
  {
    hide Spaced, Written, Contribution, Precedes, Prefix, Spell;
    var p := pieces[0];
    SpellHead(pieces);
    SpacedPiece(before, p, Rest(pieces));
    RestIsNotLow(pieces);
    PieceCopied(before, p, Rest(pieces));
    JointFolds(p, Spell(pieces[1..]));
    NextPrecedes(p, pieces[1]);
  }

  lemma RestIsNotLow(pieces: seq<Piece>)
    requires Words(pieces) && |pieces| > 1 && Apart(pieces[0], pieces[1])
    ensures !Low1(Rest(pieces))
  {
    hide Spell;
    SpellHead(pieces);
    assert pieces[0].joint == Adjacent ==> Rest(pieces) == Spell(pieces[1..]);
  }

  lemma {:induction false} ApartIsSnake(before: Option<char>, pieces: seq<Piece>)
    requires Words(pieces) && pieces != [] && Precedes(before, pieces[0]) && AllApart(pieces)
    ensures Spaced(before, Spell(pieces)) == Prefix(before) + Snake(pieces)
    decreases |pieces|
  {
    hide Spaced, Written, Spell, Snake;
    if |pieces| == 1 {
      OnePiece(before, pieces[0], pieces);
    } else {
      FirstPiece(before, pieces);
      SpellHead(pieces);
      forall i | 0 <= i < |pieces[1..]| - 1 ensures Apart(pieces[1..][i], pieces[1..][i + 1]) { assert Apart(pieces[i + 1], pieces[i + 2]); }
      ApartIsSnake(Next(pieces[0]), pieces[1..]);
      GapAndPrefix(pieces[0], pieces[1], Snake(pieces[1..]));
    }
  }

  lemma OnePiece(before: Option<char>, p: Piece, pieces: seq<Piece>)
    requires Words(pieces) && pieces == [p] && Precedes(before, p)
    ensures Spaced(before, Spell(pieces)) == Prefix(before) + Snake(pieces)
  {
    SpacedPiece(before, p, []);
    assert Written(p) + [] == Spell(pieces);
    assert Snake(pieces) == p.word;
  }

  lemma Differ(a: string, b: string, x: string, y: string)
    requires x != y
    ensures a + (b + x) != a + (b + y)
  {
    assert x == (a + (b + x))[|a| + |b|..] && y == (a + (b + y))[|a| + |b|..];
  }

  /** An acronym that runs into a lower-case word gets its underscore one letter early. */
  lemma AcronymIntoLow(before: Option<char>, pieces: seq<Piece>)
    requires Words(pieces) && |pieces| > 1 && Precedes(before, pieces[0]) && pieces[0].joint == Adjacent
    requires pieces[0].style == Acronym && pieces[1].style == Low
    ensures Spaced(before, Spell(pieces)) != Prefix(before) + Snake(pieces)
  {
    hide Spaced, Spell, Snake, Broken, Precedes, Prefix, Written;
    var p, rest := pieces[0], Rest(pieces);
    SpellHead(pieces);
    SpacedPiece(before, p, rest);
    LowStart(pieces);
    AcronymContribution(before, p, rest);
    BrokenDiffers(Prefix(before), p.word, Spaced(Some(LastOf(p)), rest), Snake(pieces[1..]));
  }

  lemma LowStart(pieces: seq<Piece>)
    requires Words(pieces) && |pieces| > 1 && pieces[0].joint == Adjacent && pieces[1].style == Low
    ensures Low1(Rest(pieces))
  {
    hide Spell;
    SpellHead(pieces);
    assert Rest(pieces) == Spell(pieces[1..]) && IsWord(pieces[1].word);
  }

  lemma AcronymContribution(before: Option<char>, p: Piece, rest: string)
    requires IsWord(p.word) && p.style == Acronym && Precedes(before, p) && Low1(rest)
    ensures Contribution(before, p, rest) == Prefix(before) + Broken(p.word, true)
  {
    hide Broken;
  }

  lemma BrokenDiffers(a: string, w: string, t: string, u: string)
    requires IsWord(w)
    ensures a + Broken(w, true) + t != a + (w + (['_'] + u))
  {
    var i := |a| + |w| - 1;
    assert (a + Broken(w, true) + t)[i] == Broken(w, true)[|w| - 1] == '_';
    assert (a + (w + (['_'] + u)))[i] == w[|w| - 1];
  }

  /** What follows a piece without a break starts with a letter. */
  lemma NoBreakNoGap(c: char, rest: string)
    requires |rest| >= 2 && !Break(Some(c), rest[0], Some(rest[1])) && (IsLower(rest[0]) || IsUpper(rest[0]))
    ensures var t := Spaced(Some(c), rest); t != "" && t[0] != '_'
  {
    assert Head(rest[1..]) == Some(rest[1]);
  }

  /** Two other pieces that run together get no underscore. */
  lemma RunTogether(before: Option<char>, pieces: seq<Piece>)
    requires Words(pieces) && |pieces| > 1 && Precedes(before, pieces[0]) && !Apart(pieces[0], pieces[1])
    requires !(pieces[0].style == Acronym && pieces[1].style == Low)
    ensures Spaced(before, Spell(pieces)) != Prefix(before) + Snake(pieces)
  {
    hide Spaced, Spell, Snake;
    var p, w, rest, n := pieces[0], pieces[0].word, Rest(pieces), |Prefix(before)|;
    SpellHead(pieces);
    SpacedPiece(before, p, rest);
    PieceCopied(before, p, rest);
    assert rest == Spell(pieces[1..]);
    var tail := Spaced(Some(LastOf(p)), rest);
    NoBreakNoGap(LastOf(p), rest);
    hide LastOf;
    assert (Prefix(before) + w + tail)[n + |w|] == tail[0];
    assert (Prefix(before) + (w + (['_'] + Snake(pieces[1..]))))[n + |w|] == '_';
  }

  /** Two pieces that cannot be told apart lose their underscore, or get it in the wrong place. */
  lemma NotApartNotSnake(before: Option<char>, pieces: seq<Piece>)
    requires Words(pieces) && |pieces| > 1 && Precedes(before, pieces[0]) && !Apart(pieces[0], pieces[1])
    ensures Spaced(before, Spell(pieces)) != Prefix(before) + Snake(pieces)
  {
    hide Spaced, Spell, Snake, Precedes;
    if pieces[0].style == Acronym && pieces[1].style == Low { AcronymIntoLow(before, pieces); } else { RunTogether(before, pieces); }
  }

  lemma GapAndPrefix(a: Piece, b: Piece, t: string)
    requires IsWord(a.word) && IsWord(b.word) && Apart(a, b)
    ensures Gap(a) + (Prefix(Next(a)) + t) == ['_'] + t
  {
    NextPrecedes(a, b);
  }

  lemma {:induction false} NotAllApartNotSnake(before: Option<char>, pieces: seq<Piece>)
    requires Words(pieces) && pieces != [] && Precedes(before, pieces[0]) && !AllApart(pieces)
    ensures Spaced(before, Spell(pieces)) != Prefix(before) + Snake(pieces)
    decreases |pieces|
  {
    hide Spaced, Written, Spell, Snake, Precedes, Apart, Gap, Prefix, Next;
    if !Apart(pieces[0], pieces[1]) {
      NotApartNotSnake(before, pieces);
    } else {
      var i :| 0 <= i < |pieces| - 1 && !Apart(pieces[i], pieces[i + 1]);
      assert !Apart(pieces[1..][i - 1], pieces[1..][i]);
      FirstPiece(before, pieces);
      SpellHead(pieces);
      NotAllApartNotSnake(Next(pieces[0]), pieces[1..]);
      var a, b, snake := Prefix(before) + pieces[0].word, Gap(pieces[0]), Snake(pieces[1..]);
      GapAndPrefix(pieces[0], pieces[1], snake);
      Differ(a, b, Spaced(Next(pieces[0]), Spell(pieces[1..])), Prefix(Next(pieces[0])) + snake);
      assert Prefix(before) + Snake(pieces) == a + (b + (Prefix(Next(pieces[0])) + snake));
    }
  }

  /** Snake, kebab, camel and acronym spellings of words of two letters or more normalise to the snake key, exactly when
      no two adjacent words run together (in particular, no two adjacent acronyms). */
  lemma SpellingsMeet(pieces: seq<Piece>)
    requires Words(pieces) && pieces != []
    ensures Normalise(Spell(pieces)) == Snake(pieces) <==> AllApart(pieces)
  {
    hide Spaced, Spell, Snake, Normalise, AllApart;
    NormaliseByPlace(Spell(pieces));
    SpellingIsStripped(pieces);
    assert [] + Snake(pieces) == Snake(pieces);
    if AllApart(pieces) { ApartIsSnake(None, pieces); } else { NotAllApartNotSnake(None, pieces); }
  }

  lemma {:induction false} SpellingIsStripped(pieces: seq<Piece>)
    requires Words(pieces) && pieces != []
    ensures Strip(Spell(pieces)) == Spell(pieces)
  {
    hide Strip;
    SpellEnds(pieces);
    StripFixed(Spell(pieces));
  }

  lemma {:induction false} SpellEnds(pieces: seq<Piece>)
    requires Words(pieces) && pieces != []
    ensures var s := Spell(pieces); s != "" && !IsSpace(s[0]) && !IsSpace(s[|s| - 1])
  {
    var w := Written(pieces[0]);
    WrittenEnds(pieces[0]);
    hide Written, IsSpace;
    if |pieces| > 1 {
      var rest := Spell(pieces[1..]);
      var joint := JointText(pieces[0].joint);
      SpellEnds(pieces[1..]);
      assert Spell(pieces) == w + joint + rest;
      assert (w + joint + rest)[|w + joint + rest| - 1] == rest[|rest| - 1];
    } else {
      assert Spell(pieces) == w + [] + "";
    }
  }

  lemma WrittenEnds(p: Piece)
    requires IsWord(p.word)
    ensures var w := Written(p); w != "" && !IsSpace(w[0]) && !IsSpace(w[|w| - 1])
  {
  }

  lemma {:induction false} SpacedOfFolded(before: Option<char>, s: string)
    requires forall i :: 0 <= i < |s| ==> !IsUpper(s[i]) && s[i] != '-'
    ensures Spaced(before, s) == s
    decreases |s|
  {
    if s != "" {
      SpacedOfFolded(Some(s[0]), s[1..]);
      assert [s[0]] + s[1..] == s;
    }
  }

  lemma {:induction false} SpacedIsFolded(before: Option<char>, s: string)
    ensures forall i :: 0 <= i < |Spaced(before, s)| ==> !IsUpper(Spaced(before, s)[i]) && Spaced(before, s)[i] != '-'
    ensures s != "" ==> Spaced(before, s) != "" && (!IsSpace(s[|s| - 1]) ==> !IsSpace(Spaced(before, s)[|Spaced(before, s)| - 1]))
    ensures s != "" && before.None? && !IsSpace(s[0]) ==> !IsSpace(Spaced(before, s)[0])
    decreases |s|
  {
    if s != "" { SpacedIsFolded(Some(s[0]), s[1..]); }
  }

  /** The normaliser leaves its own output alone, for every key. */
  lemma NormaliseIsIdempotent(key: string)
    ensures Normalise(Normalise(key)) == Normalise(key)
  {
    hide Strip, Normalise, Spaced;
    var s := Strip(key);
    StripEnds(key);
    var t := Spaced(None, s);
    NormaliseByPlace(key);
    NormaliseByPlace(t);
    SpacedIsFolded(None, s);
    SpacedOfEmpty(None);
    StripFixed(t);
    SpacedOfFolded(None, t);
  }

  lemma SpacedOfEmpty(before: Option<char>)
    ensures Spaced(before, "") == ""
  {
  }

  // ----- the recursive payload check

  datatype Json =
    | Null
    | Flag(flag: bool)
    | Number(number: real)
    | Whole(whole: int)
    | Text(text: string)
    | Blob(bytes: Bytes)
    | List(items: seq<Json>)
    | Object(fields: map<string, Json>)

  predicate EndsWith(s: string, suffix: string) { |suffix| <= |s| && s[|s| - |suffix|..] == suffix }

  predicate ForbiddenName(k: string) {
    || k == "answer" || k == "api_key" || k == "authorization" || k == "authorization_header" || k == "bearer_token"
    || k == "body" || k == "content" || k == "credential" || k == "path" || k == "paths" || k == "private_key"
    || k == "prompt" || k == "raw_response"
    || EndsWith(k, "_body") || EndsWith(k, "_content") || EndsWith(k, "_path") || EndsWith(k, "_paths")
  }

  predicate ForbiddenKey(key: string) { ForbiddenName(Normalise(key)) }

  /** The recursive check; `isPath` is the test for path-like text. */
  predicate Accepted(v: Json, isPath: string -> bool) {
    match v
    case Object(fields) => forall k :: k in fields ==> !ForbiddenKey(k) && Accepted(fields[k], isPath)
    case List(items) => forall i :: 0 <= i < |items| ==> Accepted(items[i], isPath)
    case Blob(_) => false
    case Text(text) => !isPath(text)
    case _ => true
  }

  datatype Step = Field(key: string) | Index(i: nat)

  /** The value reached by following keys and indices. */
  function At(v: Json, path: seq<Step>): Option<Json>
    decreases |path|
  {
    if path == [] then Some(v)
    else
      match (v, path[0])
      case (Object(fields), Field(k)) => if k in fields then At(fields[k], path[1..]) else None
      case (List(items), Index(i)) => if i < |items| then At(items[i], path[1..]) else None
      case _ => None
  }

  /** What the check asks of a value, its parts apart. */
  predicate Clean(v: Json, isPath: string -> bool) {
    match v
    case Object(fields) => forall k :: k in fields ==> !ForbiddenKey(k)
    case Blob(_) => false
    case Text(text) => !isPath(text)
    case _ => true
  }

  lemma {:induction false} AcceptedBelow(v: Json, isPath: string -> bool, path: seq<Step>)
    requires Accepted(v, isPath) && At(v, path).Some?
    ensures Clean(At(v, path).value, isPath)
    decreases |path|
  {
    hide ForbiddenKey;
    if path != [] {
      match (v, path[0])
      case (Object(fields), Field(k)) => AcceptedBelow(fields[k], isPath, path[1..]);
      case (List(items), Index(i)) => AcceptedBelow(items[i], isPath, path[1..]);
      case _ =>
    }
  }

  /** A refused value has an unclean value inside. */
  lemma {:induction false} RefusedSomewhere(v: Json, isPath: string -> bool) returns (path: seq<Step>)
    requires !Accepted(v, isPath)
    ensures At(v, path).Some? && !Clean(At(v, path).value, isPath)
    decreases v
  {
    hide ForbiddenKey;
    path := [];
    match v
    case Object(fields) =>
      if k :| k in fields && !Accepted(fields[k], isPath) {
        var rest := RefusedSomewhere(fields[k], isPath);
        path := [Field(k)] + rest;
        assert path[1..] == rest;
      }
    case List(items) =>
      var i :| 0 <= i < |items| && !Accepted(items[i], isPath);
      var rest := RefusedSomewhere(items[i], isPath);
      path := [Index(i)] + rest;
      assert path[1..] == rest;
    case _ =>
  }

  /** The check accepts exactly the payloads with no forbidden key, bytes or path-like text at any depth. */
  lemma AcceptedIffCleanEverywhere(v: Json, isPath: string -> bool)
    ensures Accepted(v, isPath) <==> forall path :: At(v, path).Some? ==> Clean(At(v, path).value, isPath)
  {
    hide Accepted, Clean, At;
    if Accepted(v, isPath) {
      forall path | At(v, path).Some? ensures Clean(At(v, path).value, isPath) { AcceptedBelow(v, isPath, path); }
    } else {
      var path := RefusedSomewhere(v, isPath);
    }
  }

  /** However a forbidden key is spelled and however deep it sits, the payload is refused. */
  lemma ForbiddenSpellingIsRefused(v: Json, isPath: string -> bool, path: seq<Step>, pieces: seq<Piece>)
    requires Words(pieces) && pieces != [] && AllApart(pieces) && ForbiddenName(Snake(pieces))
    requires At(v, path).Some? && At(v, path).value.Object? && Spell(pieces) in At(v, path).value.fields
    ensures !Accepted(v, isPath)
  {
    hide Normalise, Spell, Snake, AllApart, At, ForbiddenName;
    SpellingsMeet(pieces);
    if Accepted(v, isPath) { AcceptedBelow(v, isPath, path); }
  }

  /** The restriction is needed: two acronyms written together hide the underscore, and the key is let through. */
  lemma AdjacentAcronymsAreMissed()
    ensures var pieces := [Piece("api", Acronym, Adjacent), Piece("key", Acronym, Adjacent)];
            Words(pieces) && ForbiddenName(Snake(pieces)) && !ForbiddenKey(Spell(pieces))
  {
    hide Normalise, Spaced, Upper, ForbiddenName, Strip;
    var pieces := [Piece("api", Acronym, Adjacent), Piece("key", Acronym, Adjacent)];
    assert pieces[1..] == [pieces[1]] && Snake(pieces[1..]) == "key" + [] + Snake(pieces[1..][1..]);
    assert "api" + ['_'] + "key" == "api_key" && "key" + [] + "" == "key";
    assert Snake(pieces) == "api_key";
    AcronymSpelling(pieces);
    SpellingIsStripped(pieces);
    NormaliseByPlace(Spell(pieces));
    SpacedAcronym(None, "apikey", "");
    SpacedOfEmpty(Some(UpperChar('y')));
    NotBroken("apikey");
    assert Upper("apikey") + "" == Upper("apikey") && [] + "apikey" + "" == "apikey";
    OneIsForbidden();
  }

  lemma AcronymSpelling(pieces: seq<Piece>)
    requires pieces == [Piece("api", Acronym, Adjacent), Piece("key", Acronym, Adjacent)]
    ensures Words(pieces) && Spell(pieces) == Upper("apikey")
  {
    assert pieces[1..] == [pieces[1]] && Spell(pieces[1..]) == Upper("key") + [] + Spell(pieces[1..][1..]);
    assert Upper("api") + [] + Upper("key") == Upper("apikey");
    assert Upper("key") + [] + "" == Upper("key");
  }

  lemma OneIsForbidden()
    ensures ForbiddenName("api_key") && !ForbiddenName("apikey")
  {
  }
}
