/** Vietnamese plate normalization (application/normalization.py): the position-aware corrector,
    the independent notion of a layout reading it searches for, and its projection law. */
module PlateNormalization {
  import opened Options

  datatype Correction = Correction(position: nat, from: char, to: char)

  datatype Candidate = Candidate(compact: string, series: nat, corrections: seq<Correction>)

  datatype Result = Result(
    cleaned: string, compact: Option<string>, normalized: Option<string>, valid: bool,
    corrections: seq<Correction>, partial: bool)

  datatype Config = Config(allowPartial: bool, partialMinimum: nat, partialMaximum: nat)

  // ----- characters

  predicate IsDigit(c: char) { '0' <= c <= '9' }

  predicate IsLetter(c: char) { 'A' <= c <= 'Z' }

  const LETTER_TO_DIGIT: map<char, char> := map['O' := '0', 'I' := '1', 'Z' := '2', 'S' := '5', 'G' := '6', 'B' := '8']

  const DIGIT_TO_LETTER: map<char, char> := map['0' := 'O', '1' := 'I', '2' := 'Z', '5' := 'S', '6' := 'G', '8' := 'B']

  // the last entry of the original table holds a letter that cleaning strips
  const KNOWN_PAIRS: set<(char, char)> := {
    ('C', 'D'), ('C', 'V'), ('D', 'A'), ('H', 'C'), ('K', 'T'), ('L', 'A'), ('L', 'B'),
    ('L', 'D'), ('M', 'A'), ('M', 'K'), ('N', 'G'), ('N', 'N'), ('Q', 'T'), ('R', 'M'), ('T', '\U{0110}')
  }

  function Upper(c: char): char {
    if 'a' <= c <= 'z' then ((c as int) - 32) as char else c
  }

  /** Upper-cased letters and digits only. */
  function Clean(raw: string): string {
    if raw == "" then ""
    else
      CleanCharacter(raw[0]) + Clean(raw[1..])
  }

  function CleanCharacter(c: char): string {
    if IsDigit(Upper(c)) || IsLetter(Upper(c)) then [Upper(c)] else []
  }

  // ----- the reference: layouts and readings

  /** A plate of seven to nine characters: two digits, a series that starts with a letter, and
      a serial of four or five digits. */
  ghost predicate Layout(c: string, series: nat) {
    && 1 <= series <= 2
    && 4 <= |c| - 2 - series <= 5
    && IsDigit(c[0]) && IsDigit(c[1]) && IsLetter(c[2])
    && (series == 2 ==> IsDigit(c[3]) || (IsLetter(c[3]) && (c[2], c[3]) in KNOWN_PAIRS))
    && forall i :: 2 + series <= i < |c| ==> IsDigit(c[i])
  }

  /** OCR may have confused `seen` with `meant`. */
  predicate Confusable(seen: char, meant: char) {
    || (seen in LETTER_TO_DIGIT && meant == LETTER_TO_DIGIT[seen])
    || (seen in DIGIT_TO_LETTER && meant == DIGIT_TO_LETTER[seen])
  }

  /** `c` reads `cleaned` as a plate: every position is kept or un-confused, and the second
      series character is always kept. */
  ghost predicate Reading(cleaned: string, series: nat, c: string) {
    && |c| == |cleaned| && Layout(c, series)
    && (series == 2 ==> c[3] == cleaned[3])
    && forall i :: 0 <= i < |c| ==> c[i] == cleaned[i] || Confusable(cleaned[i], c[i])
  }

  /** The positions below `n` where two texts differ, as corrections in ascending order. */
  function Differences(from: string, to: string, n: nat): (d: seq<Correction>)
    requires n <= |from| && n <= |to|
  {
    if n == 0 then []
    else
      Differences(from, to, n - 1)
      + if from[n - 1] == to[n - 1] then [] else [Correction(n - 1, from[n - 1], to[n - 1])]
  }

  ghost predicate Inside(corrections: seq<Correction>, n: nat) {
    forall k :: 0 <= k < |corrections| ==> corrections[k].position < n
  }

  ghost predicate Ascending(corrections: seq<Correction>) {
    forall k, m :: 0 <= k < m < |corrections| ==> corrections[k].position < corrections[m].position
  }

  function Apply(text: string, corrections: seq<Correction>): (corrected: string)
    requires Inside(corrections, |text|)
    ensures |corrected| == |text|
    decreases |corrections|
  {
    if corrections == [] then text
    else
      var last := corrections[|corrections| - 1];
      Apply(text, corrections[..|corrections| - 1])[last.position := last.to]
  }

  // ----- the corrector

  function Coerced(c: char, expectDigit: bool): Option<char> {
    if expectDigit then
      if IsDigit(c) then Some(c) else if c in LETTER_TO_DIGIT then Some(LETTER_TO_DIGIT[c]) else None
    else
      if IsLetter(c) then Some(c) else if c in DIGIT_TO_LETTER then Some(DIGIT_TO_LETTER[c]) else None
  }

  /** `_coerce_positions`: either some position cannot be coerced, or all of them are, each
      change recorded in order. */
  method CoercePositions(characters: array<char>, lo: nat, hi: nat, expectDigit: bool, ghost original: string, corrections: seq<Correction>)
    returns (ok: bool, recorded: seq<Correction>)
    requires lo <= hi <= characters.Length == |original|
    requires forall i :: lo <= i < characters.Length ==> characters[i] == original[i]
    requires corrections == Differences(original, characters[..], lo)
    modifies characters
    ensures ok <==> forall i :: lo <= i < hi ==> Coerced(original[i], expectDigit).Some?
    ensures forall i :: 0 <= i < characters.Length && !(lo <= i < hi) ==> characters[i] == old(characters[i])
    ensures ok ==> forall i :: lo <= i < hi ==> Coerced(original[i], expectDigit) == Some(characters[i])
    ensures ok ==> recorded == Differences(original, characters[..], hi)
  {
    recorded := corrections;
    for position := lo to hi
      invariant forall i :: 0 <= i < characters.Length && !(lo <= i < position) ==> characters[i] == old(characters[i])
      invariant forall i :: lo <= i < position ==> Coerced(original[i], expectDigit) == Some(characters[i])
      invariant recorded == Differences(original, characters[..], position)
    {
      var character := characters[position];
      ghost var before := characters[..];
      if !(if expectDigit then IsDigit(character) else IsLetter(character)) {
        var replacement := Coerced(character, expectDigit);
        if replacement.None? { return false, recorded; }
        characters[position] := replacement.value;
        recorded := recorded + [Correction(position, character, replacement.value)];
      }
      DifferencesOfPrefix(original, before, characters[..], position);
    }
    ok := true;
  }

  lemma {:induction false} DifferencesOfPrefix(from: string, to: string, other: string, n: nat)
    requires n <= |from| && n <= |to| && n <= |other|
    requires forall i :: 0 <= i < n ==> to[i] == other[i]
    ensures Differences(from, to, n) == Differences(from, other, n)
  {
    if n > 0 { DifferencesOfPrefix(from, to, other, n - 1); }
  }

  /** A reading together with its corrections. */
  ghost predicate IsCandidate(cleaned: string, k: Candidate) {
    && Reading(cleaned, k.series, k.compact)
    && k.corrections == Differences(cleaned, k.compact, |cleaned|)
  }

  lemma ReadingCoercesDigits(cleaned: string, series: nat, c: string, i: nat)
    requires Reading(cleaned, series, c) && i < |c| && !(series == 2 && i == 3) && i != 2
    ensures Coerced(cleaned[i], true) == Some(c[i])
  {
    assert IsDigit(c[i]);
  }

  lemma ReadingCoercesLetter(cleaned: string, series: nat, c: string)
    requires Reading(cleaned, series, c)
    ensures Coerced(cleaned[2], false) == Some(c[2])
  {
  }

  /** A layout admits at most one reading of a text. */
  lemma ReadingIsUnique(cleaned: string, series: nat, c: string, d: string)
    requires Reading(cleaned, series, c) && Reading(cleaned, series, d)
    ensures c == d
  {
    forall i | 0 <= i < |c| ensures c[i] == d[i] {
      if i == 2 {
        ReadingCoercesLetter(cleaned, series, c);
        ReadingCoercesLetter(cleaned, series, d);
      } else if !(series == 2 && i == 3) {
        ReadingCoercesDigits(cleaned, series, c, i);
        ReadingCoercesDigits(cleaned, series, d, i);
      }
    }
  }

  /** The positions a layout requires to be digits. */
  predicate DigitPosition(series: nat, i: nat) {
    i < 2 || 2 + series <= i
  }

  ghost predicate SeriesOk(letter: char, second: char) {
    IsDigit(second) || (IsLetter(second) && (letter, second) in KNOWN_PAIRS)
  }

  lemma CoercedIsReading(cleaned: string, series: nat, compact: string)
    requires 1 <= series <= 2 && 4 <= |cleaned| - 2 - series <= 5 && |compact| == |cleaned|
    requires forall i :: 0 <= i < |cleaned| && DigitPosition(series, i) ==> Coerced(cleaned[i], true) == Some(compact[i])
    requires Coerced(cleaned[2], false) == Some(compact[2])
    requires series == 2 ==> compact[3] == cleaned[3] && SeriesOk(compact[2], compact[3])
    ensures Reading(cleaned, series, compact)
  {
    assert forall i :: 0 <= i < |compact| && DigitPosition(series, i) ==> IsDigit(compact[i]);
  }

  lemma ReadingIsCoercible(cleaned: string, series: nat, c: string)
    requires Reading(cleaned, series, c)
    ensures forall i :: 0 <= i < |cleaned| && DigitPosition(series, i) ==> Coerced(cleaned[i], true).Some?
    ensures Coerced(cleaned[2], false).Some?
    ensures series == 2 ==> SeriesOk(Coerced(cleaned[2], false).value, cleaned[3])
  {
    ReadingCoercesLetter(cleaned, series, c);
    forall i | 0 <= i < |cleaned| && DigitPosition(series, i) ensures Coerced(cleaned[i], true).Some? {
      ReadingCoercesDigits(cleaned, series, c, i);
    }
  }

  lemma NoReading(cleaned: string, series: nat, c: string)
    requires 4 <= |cleaned|
    requires
      || (exists i :: 0 <= i < |cleaned| && DigitPosition(series, i) && Coerced(cleaned[i], true).None?)
      || Coerced(cleaned[2], false).None?
      || (series == 2 && !SeriesOk(Coerced(cleaned[2], false).value, cleaned[3]))
    ensures !Reading(cleaned, series, c)
  {
    if Reading(cleaned, series, c) {
      ReadingIsCoercible(cleaned, series, c);
    }
  }

  /** The loop body of `_structural_candidates`: finds the reading of a layout iff there is one. */
  method StructuralCandidate(cleaned: string, series: nat) returns (r: Option<Candidate>)
    requires 1 <= series <= 2 && 4 <= |cleaned| - 2 - series <= 5
    ensures r.Some? ==> IsCandidate(cleaned, r.value) && r.value.series == series
    ensures r.None? ==> forall c :: !Reading(cleaned, series, c)
  {
    r := None;
    var corrected := new char[|cleaned|](i requires 0 <= i < |cleaned| => cleaned[i]);
    var ok, corrections := CoercePositions(corrected, 0, 2, true, cleaned, []);
    if !ok {
      forall c ensures !Reading(cleaned, series, c) { NoReading(cleaned, series, c); }
      return;
    }
    ok, corrections := CoercePositions(corrected, 2, 3, false, cleaned, corrections);
    if !ok {
      forall c ensures !Reading(cleaned, series, c) { NoReading(cleaned, series, c); }
      return;
    }
    if series == 2 {
      var second := corrected[3];
      if (if IsLetter(second) then (corrected[2], corrected[3]) !in KNOWN_PAIRS else !IsDigit(second)) {
        forall c ensures !Reading(cleaned, series, c) { NoReading(cleaned, series, c); }
        return;
      }
      assert Differences(cleaned, corrected[..], 4) == Differences(cleaned, corrected[..], 3);
    }
    ok, corrections := CoercePositions(corrected, 2 + series, corrected.Length, true, cleaned, corrections);
    if !ok {
      forall c ensures !Reading(cleaned, series, c) { NoReading(cleaned, series, c); }
      return;
    }
    var compact := corrected[..];
    CoercedIsReading(cleaned, series, compact);
    r := Some(Candidate(compact, series, corrections));
  }

  method StructuralCandidates(cleaned: string) returns (candidates: seq<Candidate>)
    ensures forall k :: k in candidates ==> IsCandidate(cleaned, k)
    ensures forall series, c :: Reading(cleaned, series, c) ==>
      exists k :: k in candidates && k.series == series && k.compact == c
  {
    candidates := [];
    if !(7 <= |cleaned| <= 9) { return; }
    for series := 1 to 3
      invariant forall k :: k in candidates ==> IsCandidate(cleaned, k)
      invariant forall s: nat, c :: s < series && Reading(cleaned, s, c) ==>
        exists k :: k in candidates && k.series == s && k.compact == c
    {
      if 4 <= |cleaned| - 2 - series <= 5 {
        var candidate := StructuralCandidate(cleaned, series);
        if candidate.Some? {
          ghost var before := candidates;
          candidates := candidates + [candidate.value];
          forall s: nat, c | s < series + 1 && Reading(cleaned, s, c)
            ensures exists k :: k in candidates && k.series == s && k.compact == c
          {
            if s == series {
              ReadingIsUnique(cleaned, series, c, candidate.value.compact);
              assert candidate.value in candidates;
            } else {
              var k :| k in before && k.series == s && k.compact == c;
              assert k in candidates;
            }
          }
        }
      }
    }
  }

  // ----- the choice among candidates

  /** The sort key: corrections first, then five-digit serials, then shorter series. */
  predicate NotWorse(corrections: nat, series: nat, others: nat, otherSeries: nat, length: nat) {
    || corrections < others
    || (corrections == others &&
          (|| (length - 2 - series == 5 && length - 2 - otherSeries != 5)
           || ((length - 2 - series == 5 <==> length - 2 - otherSeries == 5) && series <= otherSeries)))
  }

  function Distance(from: string, to: string): nat
    requires |from| == |to|
  {
    |Differences(from, to, |from|)|
  }

  /** No reading of any layout is preferred to `k`; in particular none needs fewer corrections. */
  ghost predicate Best(cleaned: string, k: Candidate) {
    && IsCandidate(cleaned, k)
    && forall series, c :: Reading(cleaned, series, c) ==>
         NotWorse(|k.corrections|, k.series, Distance(cleaned, c), series, |cleaned|)
  }

  lemma BestIsUnique(cleaned: string, k: Candidate, m: Candidate)
    requires Best(cleaned, k) && Best(cleaned, m)
    ensures k == m
  {
    assert Distance(cleaned, k.compact) == |k.corrections| && Distance(cleaned, m.compact) == |m.corrections|;
    assert k.series == m.series;
    ReadingIsUnique(cleaned, k.series, k.compact, m.compact);
  }

  method Winner(cleaned: string, candidates: seq<Candidate>) returns (winner: Candidate)
    requires candidates != []
    requires forall k :: k in candidates ==> IsCandidate(cleaned, k)
    requires forall series, c :: Reading(cleaned, series, c) ==>
      exists k :: k in candidates && k.series == series && k.compact == c
    ensures Best(cleaned, winner)
  {
    winner := candidates[0];
    for n := 1 to |candidates|
      invariant winner in candidates
      invariant forall i :: 0 <= i < n ==>
        NotWorse(|winner.corrections|, winner.series, |candidates[i].corrections|, candidates[i].series, |cleaned|)
    {
      if !NotWorse(|winner.corrections|, winner.series, |candidates[n].corrections|, candidates[n].series, |cleaned|) {
        winner := candidates[n];
      }
    }
    forall series, c | Reading(cleaned, series, c)
      ensures NotWorse(|winner.corrections|, winner.series, Distance(cleaned, c), series, |cleaned|)
    {
      var k :| k in candidates && k.series == series && k.compact == c;
      assert Distance(cleaned, c) == |k.corrections|;
    }
  }

  // ----- the normalizer

  function Dotted(serial: string): string {
    if |serial| == 5 then serial[..3] + "." + serial[3..] else serial
  }

  function Formatted(compact: string, series: nat): string
    requires 2 + series <= |compact|
  {
    compact[..2 + series] + "-" + Dotted(compact[2 + series..])
  }

  ghost predicate HasReading(cleaned: string) {
    exists series, c :: Reading(cleaned, series, c)
  }

  predicate AcceptsPartial(config: Config, cleaned: string) {
    && config.allowPartial
    && config.partialMinimum <= |cleaned| <= config.partialMaximum
    && exists i :: 0 <= i < |cleaned| && IsDigit(cleaned[i])
  }

  function PartialText(cleaned: string): string {
    if forall i :: 0 <= i < |cleaned| ==> IsDigit(cleaned[i]) then Dotted(cleaned) else cleaned
  }

  /** What `normalize` promises of its result. */
  ghost predicate Normalizes(config: Config, raw: string, r: Result) {
    var cleaned := Clean(raw);
    if HasReading(cleaned) then
      exists k :: Best(cleaned, k)
        && r == Result(cleaned, Some(k.compact), Some(Formatted(k.compact, k.series)), true, k.corrections, false)
    else if AcceptsPartial(config, cleaned) then
      r == Result(cleaned, Some(cleaned), Some(PartialText(cleaned)), true, [], true)
    else
      r == Result(cleaned, None, None, false, [], false)
  }

  method Normalize(config: Config, raw: string) returns (r: Result)
    ensures Normalizes(config, raw, r)
    ensures r.valid && !r.partial <==> HasReading(Clean(raw))
  {
    var cleaned := Clean(raw);
    var candidates := StructuralCandidates(cleaned);
    if candidates == [] {
      assert !HasReading(cleaned);
      if AcceptsPartial(config, cleaned) {
        r := Result(cleaned, Some(cleaned), Some(PartialText(cleaned)), true, [], true);
      } else {
        r := Result(cleaned, None, None, false, [], false);
      }
    } else {
      var winner := Winner(cleaned, candidates);
      r := Result(cleaned, Some(winner.compact), Some(Formatted(winner.compact, winner.series)), true, winner.corrections, false);
    }
  }

  /** A text has one normalization result. */
  lemma ResultIsUnique(config: Config, raw: string, a: Result, b: Result)
    requires Normalizes(config, raw, a) && Normalizes(config, raw, b)
    ensures a == b
  {
    var cleaned := Clean(raw);
    if HasReading(cleaned) {
      var k :| Best(cleaned, k)
        && a == Result(cleaned, Some(k.compact), Some(Formatted(k.compact, k.series)), true, k.corrections, false);
      var m :| Best(cleaned, m)
        && b == Result(cleaned, Some(m.compact), Some(Formatted(m.compact, m.series)), true, m.corrections, false);
      BestIsUnique(cleaned, k, m);
    }
  }

  // ----- soundness of the corrections

  lemma {:induction false} DifferencesAscend(from: string, to: string, n: nat)
    requires n <= |from| && n <= |to|
    ensures Inside(Differences(from, to, n), n) && Ascending(Differences(from, to, n))
  {
    if n > 0 { DifferencesAscend(from, to, n - 1); }
  }

  lemma {:induction false} NoDifferenceIff(from: string, to: string, n: nat)
    requires n <= |from| && n <= |to|
    ensures Differences(from, to, n) == [] <==> forall i :: 0 <= i < n ==> from[i] == to[i]
  {
    if n > 0 { NoDifferenceIff(from, to, n - 1); }
  }

  lemma ApplyOneMore(text: string, corrections: seq<Correction>, next: Correction)
    requires Inside(corrections, |text|) && next.position < |text|
    ensures Inside(corrections + [next], |text|)
    ensures Apply(text, corrections + [next]) == Apply(text, corrections)[next.position := next.to]
  {
    assert (corrections + [next])[..|corrections|] == corrections;
  }

  lemma SpliceStep(from: string, to: string, n: nat)
    requires 0 < n <= |from| == |to|
    ensures (to[..n - 1] + from[n - 1..])[n - 1 := to[n - 1]] == to[..n] + from[n..]
  {
  }

  lemma {:induction false} ReplayDifferences(from: string, to: string, n: nat)
    requires n <= |from| == |to|
    ensures Inside(Differences(from, to, n), |from|)
    ensures Apply(from, Differences(from, to, n)) == to[..n] + from[n..]
  {
    if n > 0 {
      var d := Differences(from, to, n - 1);
      ReplayDifferences(from, to, n - 1);
      SpliceStep(from, to, n);
      if from[n - 1] != to[n - 1] {
        ApplyOneMore(from, d, Correction(n - 1, from[n - 1], to[n - 1]));
      } else {
        var same := to[..n - 1] + from[n - 1..];
        assert Differences(from, to, n) == d && same[n - 1 := to[n - 1]] == same;
      }
    }
  }

  lemma DifferencesAreSound(from: string, to: string)
    requires |from| == |to|
    ensures var d := Differences(from, to, |from|); Inside(d, |from|) && Ascending(d) && Apply(from, d) == to
  {
    DifferencesAscend(from, to, |from|);
    ReplayDifferences(from, to, |from|);
    assert to[..|from|] + from[|from|..] == to;
  }

  /** Corrections replay to the compact text, at distinct ascending positions, and no reading
      of any layout needs fewer of them. */
  lemma CorrectionsAreSound(config: Config, raw: string, r: Result)
    requires Normalizes(config, raw, r) && r.valid
    ensures Inside(r.corrections, |r.cleaned|)
    ensures Apply(r.cleaned, r.corrections) == r.compact.value
    ensures Ascending(r.corrections)
    ensures !r.partial ==> exists series :: Layout(r.compact.value, series)
    ensures forall series, c :: Reading(r.cleaned, series, c) ==> |r.corrections| <= Distance(r.cleaned, c)
  {
    if HasReading(Clean(raw)) {
      var k :| Best(r.cleaned, k)
        && r == Result(r.cleaned, Some(k.compact), Some(Formatted(k.compact, k.series)), true, k.corrections, false);
      DifferencesAreSound(r.cleaned, k.compact);
      assert Layout(r.compact.value, k.series);
    }
  }

  // ----- the projection law

  ghost predicate IsClean(text: string) {
    forall i :: 0 <= i < |text| ==> IsDigit(text[i]) || IsLetter(text[i])
  }

  lemma Associative(a: string, b: string, c: string)
    ensures a + (b + c) == (a + b) + c
  {
  }

  lemma {:induction false} CleanConcat(s: string, t: string)
    ensures Clean(s + t) == Clean(s) + Clean(t)
  {
    if s == "" {
      assert s + t == t;
    } else {
      CleanConcat(s[1..], t);
      assert (s + t)[0] == s[0] && (s + t)[1..] == s[1..] + t;
      Associative(CleanCharacter(s[0]), Clean(s[1..]), Clean(t));
    }
  }

  lemma {:induction false} CleanKeepsClean(s: string)
    requires IsClean(s)
    ensures Clean(s) == s
  {
    if s != "" {
      CleanKeepsClean(s[1..]);
      assert s == [s[0]] + s[1..];
    }
  }

  lemma {:induction false} CleanIsClean(raw: string)
    ensures IsClean(Clean(raw))
  {
    if raw != "" { CleanIsClean(raw[1..]); }
  }

  lemma CleanJoined(prefix: string, separator: string, suffix: string)
    requires Clean(separator) == ""
    ensures Clean(prefix + separator + suffix) == Clean(prefix) + Clean(suffix)
  {
    CleanConcat(prefix + separator, suffix);
    CleanConcat(prefix, separator);
  }

  lemma CleanDotted(serial: string)
    requires IsClean(serial)
    ensures Clean(Dotted(serial)) == serial
  {
    CleanKeepsClean(serial);
    if |serial| == 5 {
      CleanKeepsClean(serial[..3]);
      CleanKeepsClean(serial[3..]);
      CleanSeparators();
      CleanJoined(serial[..3], ".", serial[3..]);
      assert serial == serial[..3] + serial[3..];
    }
  }

  lemma CleanSeparators()
    ensures Clean("-") == "" && Clean(".") == ""
  {
    assert "-"[1..] == "" && "."[1..] == "";
  }

  lemma SlicesAreClean(text: string, n: nat)
    requires IsClean(text) && n <= |text|
    ensures IsClean(text[..n]) && IsClean(text[n..]) && text == text[..n] + text[n..]
  {
  }

  lemma CleanDashed(prefix: string, serial: string)
    requires IsClean(prefix) && IsClean(serial)
    ensures Clean(prefix + "-" + Dotted(serial)) == prefix + serial
  {
    CleanSeparators();
    CleanKeepsClean(prefix);
    CleanDotted(serial);
    CleanJoined(prefix, "-", Dotted(serial));
  }

  lemma CleanFormatted(compact: string, series: nat)
    requires IsClean(compact) && 2 + series <= |compact|
    ensures Clean(Formatted(compact, series)) == compact
  {
    SlicesAreClean(compact, 2 + series);
    CleanDashed(compact[..2 + series], compact[2 + series..]);
  }

  lemma ReadingIsClean(cleaned: string, series: nat, c: string)
    requires Reading(cleaned, series, c)
    ensures IsClean(c)
  {
  }

  /** A corrected text that also fits another layout is a reading of the original in it. */
  lemma ReadsInBoth(cleaned: string, series: nat, other: nat, c: string)
    requires Reading(cleaned, series, c) && Layout(c, other) && (other == 2 ==> c[3] == cleaned[3])
    ensures Reading(cleaned, other, c)
  {
  }

  lemma AtNoDistance(a: string, b: string)
    requires |a| == |b|
    ensures Distance(a, b) == 0 <==> a == b
  {
    NoDifferenceIff(a, b, |a|);
  }

  lemma BeatsItsRivals(cleaned: string, k: Candidate, series: nat)
    requires Best(cleaned, k) && Layout(k.compact, series)
    ensures NotWorse(0, k.series, 0, series, |k.compact|)
  {
    if series == 1 && k.series == 2 { ReadsInBoth(cleaned, 2, 1, k.compact); }
  }

  /** The winning plate is its own best reading, with no corrections: when one- and two-character
      series compete for eight characters, the same one wins again. */
  lemma WinnerWinsAgain(cleaned: string, k: Candidate)
    requires Best(cleaned, k)
    ensures Best(k.compact, Candidate(k.compact, k.series, []))
  {
    AtNoDistance(k.compact, k.compact);
    forall series, c | Reading(k.compact, series, c)
      ensures NotWorse(0, k.series, Distance(k.compact, c), series, |k.compact|)
    {
      AtNoDistance(k.compact, c);
      if c == k.compact { BeatsItsRivals(cleaned, k, series); }
    }
  }

  /** Normalizing a valid result's own text gives that text again, without corrections. */
  lemma Projection(config: Config, raw: string, r: Result, text: string, again: Result)
    requires Normalizes(config, raw, r) && r.valid
    requires text == r.normalized.value || text == r.compact.value
    requires Normalizes(config, text, again)
    ensures again.valid && again.normalized == r.normalized && again.compact == r.compact
    ensures again.corrections == [] && again.partial == r.partial
  {
    var cleaned := Clean(raw);
    CleanIsClean(raw);
    if HasReading(cleaned) {
      var k :| Best(cleaned, k)
        && r == Result(cleaned, Some(k.compact), Some(Formatted(k.compact, k.series)), true, k.corrections, false);
      ReadingIsClean(cleaned, k.series, k.compact);
      CleanFormatted(k.compact, k.series);
      CleanKeepsClean(k.compact);
      WinnerWinsAgain(cleaned, k);
      assert Reading(k.compact, k.series, k.compact);
      var m :| Best(k.compact, m)
        && again == Result(k.compact, Some(m.compact), Some(Formatted(m.compact, m.series)), true, m.corrections, false);
      BestIsUnique(k.compact, m, Candidate(k.compact, k.series, []));
    } else {
      CleanKeepsClean(cleaned);
      CleanDotted(cleaned);
    }
  }
}
