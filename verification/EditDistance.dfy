/** Levenshtein distance: what the three dynamic programs of the repository compute
    (application/voting.py, application/reid.py, application/dataset_evaluation.py),
    and why that number is the edit metric. */
module EditDistance {

  function Min(a: nat, b: nat): nat { if a <= b then a else b }

  function Max(a: nat, b: nat): nat { if a >= b then a else b }

  function Cost(x: char, y: char): nat { if x != y then 1 else 0 }

  function Front(s: string): string
    requires s != ""
  {
    s[..|s| - 1]
  }

  function Last(s: string): char
    requires s != ""
  {
    s[|s| - 1]
  }

  /** The textbook recursion on the last characters. */
  function Lev(a: string, b: string): nat
    decreases |a| + |b|
  {
    if a == "" then |b|
    else if b == "" then |a|
    else Min(Min(Lev(a, Front(b)) + 1, Lev(Front(a), b) + 1), Lev(Front(a), Front(b)) + Cost(Last(a), Last(b)))
  }

  // ----- the metric laws

  lemma {:induction false} Symmetric(a: string, b: string)
    ensures Lev(a, b) == Lev(b, a)
    decreases |a| + |b|
  {
    if a != "" && b != "" {
      Symmetric(a, Front(b));
      Symmetric(Front(a), b);
      Symmetric(Front(a), Front(b));
    }
  }

  lemma {:induction false} Bounds(a: string, b: string)
    ensures |a| - |b| <= Lev(a, b) && |b| - |a| <= Lev(a, b)
    ensures Lev(a, b) <= Max(|a|, |b|)
    decreases |a| + |b|
  {
    if a != "" && b != "" {
      Bounds(a, Front(b));
      Bounds(Front(a), b);
      Bounds(Front(a), Front(b));
    }
  }

  lemma {:induction false} ZeroIffEqual(a: string, b: string)
    ensures Lev(a, b) == 0 <==> a == b
    decreases |a| + |b|
  {
    if a != "" && b != "" {
      ZeroIffEqual(Front(a), Front(b));
      assert a == Front(a) + [Last(a)] && b == Front(b) + [Last(b)];
    }
  }

  lemma {:induction false} Triangle(a: string, b: string, c: string)
    ensures Lev(a, c) <= Lev(a, b) + Lev(b, c)
    decreases |a| + |b| + |c|
  {
    if a == "" || b == "" || c == "" {
      Bounds(a, b);
      Bounds(b, c);
      Bounds(a, c);
    } else {
      Triangle(Front(a), b, c);
      Triangle(a, Front(b), c);
      Triangle(a, b, Front(c));
      Triangle(a, Front(b), Front(c));
      Triangle(Front(a), Front(b), Front(c));
    }
  }

  // ----- the independent reference: shortest chains of single-character edits

  /** One insertion, deletion or replacement, at any position. */
  ghost predicate OneEdit(s: string, t: string) {
    || (exists i :: 0 <= i < |s| && t == s[..i] + s[i + 1..])
    || (exists i :: 0 <= i < |t| && s == t[..i] + t[i + 1..])
    || (|s| == |t| && exists i :: 0 <= i < |s| && t == s[i := t[i]])
  }

  /** A chain of strings, each one edit away from the one before it. */
  ghost predicate EditChain(chain: seq<string>, a: string, b: string) {
    && |chain| >= 1 && chain[0] == a && chain[|chain| - 1] == b
    && forall i :: 0 <= i < |chain| - 1 ==> OneEdit(chain[i], chain[i + 1])
  }

  /** Dropping one character costs at most one. */
  lemma {:induction false} DeletionCostsOne(s: string, i: nat)
    requires i < |s|
    ensures Lev(s, s[..i] + s[i + 1..]) <= 1
    decreases |s|
  {
    var t := s[..i] + s[i + 1..];
    if i == |s| - 1 {
      assert t == Front(s);
      ZeroIffEqual(t, t);
      if t != "" {
        assert Lev(s, t) <= Lev(Front(s), t) + 1;
      }
    } else {
      assert Front(t) == Front(s)[..i] + Front(s)[i + 1..];
      DeletionCostsOne(Front(s), i);
      assert Last(s) == Last(t);
    }
  }

  lemma {:induction false} ReplacementCostsOne(s: string, i: nat, x: char)
    requires i < |s|
    ensures Lev(s, s[i := x]) <= 1
    decreases |s|
  {
    var t := s[i := x];
    if i == |s| - 1 {
      assert Front(t) == Front(s);
      ZeroIffEqual(Front(s), Front(s));
    } else {
      assert Front(t) == Front(s)[i := x];
      ReplacementCostsOne(Front(s), i, x);
      assert Last(s) == Last(t);
    }
  }

  lemma OneEditCostsOne(s: string, t: string)
    requires OneEdit(s, t)
    ensures Lev(s, t) <= 1
  {
    if i :| 0 <= i < |s| && t == s[..i] + s[i + 1..] {
      DeletionCostsOne(s, i);
    } else if i :| 0 <= i < |t| && s == t[..i] + t[i + 1..] {
      DeletionCostsOne(t, i);
      Symmetric(s, t);
    } else {
      var i :| 0 <= i < |s| && t == s[i := t[i]];
      ReplacementCostsOne(s, i, t[i]);
    }
  }

  /** No chain of edits is shorter than the distance. */
  lemma {:induction false} ChainsAreNoShorter(chain: seq<string>, a: string, b: string)
    requires EditChain(chain, a, b)
    ensures Lev(a, b) <= |chain| - 1
    decreases |chain|
  {
    if |chain| == 1 {
      ZeroIffEqual(a, b);
    } else {
      var rest := chain[1..];
      assert OneEdit(chain[0], chain[1]);
      assert EditChain(rest, chain[1], b) by {
        forall i | 0 <= i < |rest| - 1 ensures OneEdit(rest[i], rest[i + 1]) {
          assert OneEdit(chain[i + 1], chain[i + 1 + 1]);
        }
      }
      ChainsAreNoShorter(rest, chain[1], b);
      OneEditCostsOne(a, chain[1]);
      Triangle(a, chain[1], b);
    }
  }

  lemma OneEditUnderSuffix(s: string, t: string, x: char)
    requires OneEdit(s, t)
    ensures OneEdit(s + [x], t + [x])
  {
    if i :| 0 <= i < |s| && t == s[..i] + s[i + 1..] {
      DroppedUnderSuffix(s, t, i, x);
    } else if i :| 0 <= i < |t| && s == t[..i] + t[i + 1..] {
      DroppedUnderSuffix(t, s, i, x);
    } else {
      var i :| 0 <= i < |s| && t == s[i := t[i]];
      assert t + [x] == (s + [x])[i := (t + [x])[i]];
    }
  }

  lemma DroppedUnderSuffix(s: string, t: string, i: nat, x: char)
    requires i < |s| && t == s[..i] + s[i + 1..]
    ensures OneEdit(s + [x], t + [x]) && OneEdit(t + [x], s + [x])
  {
    assert (s + [x])[..i] == s[..i] && (s + [x])[i + 1..] == s[i + 1..] + [x];
    assert t + [x] == (s + [x])[..i] + (s + [x])[i + 1..];
  }

  lemma ChainUnderSuffix(chain: seq<string>, a: string, b: string, x: char) returns (lifted: seq<string>)
    requires EditChain(chain, a, b)
    ensures EditChain(lifted, a + [x], b + [x]) && |lifted| == |chain|
  {
    lifted := seq(|chain|, i requires 0 <= i < |chain| => chain[i] + [x]);
    forall i | 0 <= i < |lifted| - 1 ensures OneEdit(lifted[i], lifted[i + 1]) {
      OneEditUnderSuffix(chain[i], chain[i + 1], x);
    }
  }

  lemma Extend(chain: seq<string>, a: string, b: string, c: string) returns (longer: seq<string>)
    requires EditChain(chain, a, b) && OneEdit(b, c)
    ensures EditChain(longer, a, c) && |longer| == |chain| + 1
  {
    longer := chain + [c];
    forall i | 0 <= i < |longer| - 1 ensures OneEdit(longer[i], longer[i + 1]) {
      if i < |chain| - 1 { assert OneEdit(chain[i], chain[i + 1]); }
    }
  }

  lemma Prepend(chain: seq<string>, a: string, b: string, c: string) returns (longer: seq<string>)
    requires EditChain(chain, b, c) && OneEdit(a, b)
    ensures EditChain(longer, a, c) && |longer| == |chain| + 1
  {
    longer := [a] + chain;
    forall i | 0 <= i < |longer| - 1 ensures OneEdit(longer[i], longer[i + 1]) {
      if i > 0 { assert OneEdit(chain[i - 1], chain[i - 1 + 1]); }
    }
  }

  lemma DroppingTheLast(a: string)
    requires a != ""
    ensures OneEdit(a, Front(a)) && OneEdit(Front(a), a)
  {
    assert Front(a) == a[..|a| - 1] + a[|a| - 1 + 1..];
  }

  lemma ReplacingTheLast(a: string, x: char, y: char)
    ensures OneEdit(a + [x], a + [y])
  {
    assert a + [y] == (a + [x])[|a| := (a + [y])[|a|]];
  }

  /** The distance is attained: a chain of exactly that many edits exists. */
  lemma {:induction false} ShortestChain(a: string, b: string) returns (chain: seq<string>)
    ensures EditChain(chain, a, b) && |chain| == Lev(a, b) + 1
    decreases |a| + |b|
  {
    if a == "" && b == "" {
      chain := [a];
    } else if b != "" && Lev(a, b) == Lev(a, Front(b)) + 1 {
      DroppingTheLast(b);
      chain := ShortestChain(a, Front(b));
      chain := Extend(chain, a, Front(b), b);
    } else if a != "" && Lev(a, b) == Lev(Front(a), b) + 1 {
      DroppingTheLast(a);
      chain := ShortestChain(Front(a), b);
      chain := Prepend(chain, a, Front(a), b);
    } else {
      assert a != "" && b != "";
      chain := ShortestChain(Front(a), Front(b));
      chain := ChainUnderSuffix(chain, Front(a), Front(b), Last(a));
      assert a == Front(a) + [Last(a)] && b == Front(b) + [Last(b)];
      if Last(a) != Last(b) {
        ReplacingTheLast(Front(b), Last(a), Last(b));
        chain := Extend(chain, a, Front(b) + [Last(a)], b);
      }
    }
  }

  /** `Lev` is the length of the shortest chain of single-character edits. */
  lemma DistanceIsShortestChain(a: string, b: string, k: nat)
    ensures Lev(a, b) <= k <==> exists chain :: EditChain(chain, a, b) && |chain| <= k + 1
  {
    if Lev(a, b) <= k {
      var chain := ShortestChain(a, b);
    }
    if chain :| EditChain(chain, a, b) && |chain| <= k + 1 {
      ChainsAreNoShorter(chain, a, b);
    }
  }

  // ----- the programs

  lemma {:induction false} LastColumn(a: string, b: string)
    requires a != "" && b != ""
    ensures Lev(a, b) == Min(Min(Lev(a, Front(b)) + 1, Lev(Front(a), b) + 1), Lev(Front(a), Front(b)) + Cost(Last(a), Last(b)))
  {
  }

  /** Entry `j` of row `i` of the table. */
  function Entry(left: string, i: nat, right: string, j: nat): nat
    requires i <= |left| && j <= |right|
  {
    Lev(left[..i], right[..j])
  }

  lemma Cell(left: string, i: nat, right: string, j: nat)
    requires i < |left| && j < |right|
    ensures Entry(left, i + 1, right, j + 1)
         == Min(Min(Entry(left, i + 1, right, j) + 1, Entry(left, i, right, j + 1) + 1),
                Entry(left, i, right, j) + Cost(left[i], right[j]))
  {
    assert Front(left[..i + 1]) == left[..i] && Front(right[..j + 1]) == right[..j];
    LastColumn(left[..i + 1], right[..j + 1]);
  }

  /** The part of row `i` that has been filled in so far. */
  ghost predicate RowPrefix(row: seq<nat>, left: string, i: nat, right: string)
    requires i <= |left| && |row| <= |right| + 1
  {
    forall j :: 0 <= j < |row| ==> row[j] == Entry(left, i, right, j)
  }

  lemma Appended(row: seq<nat>, cell: nat, left: string, i: nat, right: string)
    requires i <= |left| && |row| <= |right| && RowPrefix(row, left, i, right)
    requires cell == Entry(left, i, right, |row|)
    ensures RowPrefix(row + [cell], left, i, right)
  {
  }

  /** The two-row program without the swap, as reid.py runs it on compacted texts. */
  method TwoRowDistance(left: string, right: string) returns (distance: nat)
    ensures distance == Lev(left, right)
  {
    var previous: seq<nat> := [];
    for j := 0 to |right| + 1
      invariant |previous| == j && RowPrefix(previous, left, 0, right)
    {
      Appended(previous, j, left, 0, right);
      previous := previous + [j];
    }
    for i := 0 to |left|
      invariant |previous| == |right| + 1 && RowPrefix(previous, left, i, right)
    {
      var current: seq<nat> := [i + 1];
      assert RowPrefix(current, left, i + 1, right);
      for j := 0 to |right|
        invariant |current| == j + 1 && RowPrefix(current, left, i + 1, right)
      {
        var cell := Min(Min(current[j] + 1, previous[j + 1] + 1), previous[j] + Cost(left[i], right[j]));
        Cell(left, i, right, j);
        Appended(current, cell, left, i + 1, right);
        current := current + [cell];
      }
      previous := current;
    }
    assert left[..|left|] == left && right[..|right|] == right;
    distance := previous[|right|];
  }

  /** `edit_distance` and `_levenshtein`: the same rows, over the shorter text as columns. */
  method SwappingDistance(left: string, right: string) returns (distance: nat)
    ensures distance == Lev(left, right)
  {
    if |left| < |right| {
      Symmetric(left, right);
      distance := TwoRowDistance(right, left);
    } else {
      distance := TwoRowDistance(left, right);
    }
  }

  lemma Ratio(part: nat, whole: nat)
    requires part <= whole && 0 < whole
    ensures 0.0 <= part as real / whole as real <= 1.0
    ensures part as real / whole as real == 1.0 <==> part == whole
    ensures part as real / whole as real == 0.0 <==> part == 0
  {
    var q := part as real / whole as real;
    assert q * whole as real == part as real;
  }

  /** `_text_similarity` after both texts have been upper-cased and compacted. */
  method TextSimilarity(left: string, right: string) returns (similarity: real)
    ensures var size := Max(|left|, |right|);
      similarity == if size == 0 then 0.0 else 1.0 - Lev(left, right) as real / size as real
    ensures 0.0 <= similarity <= 1.0
    ensures similarity == 1.0 <==> left == right && left != ""
    ensures left != "" || right != "" ==>
      (similarity == 0.0 <==> Lev(left, right) == Max(|left|, |right|))
  {
    var size := Max(|left|, |right|);
    if size == 0 { return 0.0; }
    var distance := TwoRowDistance(left, right);
    Bounds(left, right);
    ZeroIffEqual(left, right);
    Ratio(distance, size);
    similarity := 1.0 - distance as real / size as real;
  }
}
