/** Strings in the order Python compares them, and the outbox file names whose order is the
    order of delivery (infrastructure/finalization_outbox.py, `_entry_path`). */
module EntryNames {

  /** Lexicographic order by code point: `a < b`. */
  predicate Less(a: string, b: string) {
    if b == "" then false
    else if a == "" then true
    else a[0] < b[0] || (a[0] == b[0] && Less(a[1..], b[1..]))
  }

  lemma {:induction false} LessIsStrict(a: string)
    ensures !Less(a, a)
  {
    if a != "" { LessIsStrict(a[1..]); }
  }

  lemma {:induction false} LessIsTotal(a: string, b: string)
    ensures Less(a, b) || a == b || Less(b, a)
    ensures !(Less(a, b) && Less(b, a))
  {
    if a != "" && b != "" {
      LessIsTotal(a[1..], b[1..]);
      if a[0] == b[0] && a[1..] == b[1..] { assert a == [a[0]] + a[1..] && b == [b[0]] + b[1..]; }
    }
  }

  lemma {:induction false} LessIsTransitive(a: string, b: string, c: string)
    requires Less(a, b) && Less(b, c)
    ensures Less(a, c)
  {
    if a != "" && a[0] == b[0] && b[0] == c[0] { LessIsTransitive(a[1..], b[1..], c[1..]); }
  }

  /** A common-width prefix decides, unless it is the same. */
  lemma {:induction false} PrefixDecides(a: string, b: string, x: string, y: string)
    requires |a| == |b|
    ensures Less(a + x, b + y) <==> Less(a, b) || (a == b && Less(x, y))
  {
    if a == "" {
      assert a + x == x && b + y == y;
    } else {
      assert (a + x)[1..] == a[1..] + x && (b + y)[1..] == b[1..] + y;
      assert a == [a[0]] + a[1..] && b == [b[0]] + b[1..];
      PrefixDecides(a[1..], b[1..], x, y);
    }
  }

  // ----- zero-padded numbers

  function Digit(n: nat): char
    requires n < 10
  {
    '0' + n as char
  }

  function Power(width: nat): nat {
    if width == 0 then 1 else 10 * Power(width - 1)
  }

  /** `n` in decimal, padded with zeros to `width` digits. */
  function Padded(n: nat, width: nat): (s: string)
    ensures |s| == width
  {
    if width == 0 then "" else Padded(n / 10, width - 1) + [Digit(n % 10)]
  }

  lemma {:induction false} PaddedOrder(n: nat, m: nat, width: nat)
    requires n < Power(width) && m < Power(width)
    ensures Less(Padded(n, width), Padded(m, width)) <==> n < m
    ensures Padded(n, width) == Padded(m, width) <==> n == m
  {
    if width > 0 {
      PaddedOrder(n / 10, m / 10, width - 1);
      var s, t := Padded(n / 10, width - 1), Padded(m / 10, width - 1);
      PrefixDecides(s, t, [Digit(n % 10)], [Digit(m % 10)]);
      assert (s + [Digit(n % 10)])[..width - 1] == s && (t + [Digit(m % 10)])[..width - 1] == t;
      assert (s + [Digit(n % 10)])[width - 1] == Digit(n % 10) && (t + [Digit(m % 10)])[width - 1] == Digit(m % 10);
    }
  }

  // ----- file names

  /** A point in time in UTC, as the calendar shows it. */
  datatype Instant = Instant(year: nat, month: nat, day: nat, hour: nat, minute: nat, second: nat, microsecond: nat)

  predicate Valid(t: Instant) {
    t.year < 10000 && t.month < 100 && t.day < 100 && t.hour < 100 && t.minute < 100 && t.second < 100 && t.microsecond < 1000000
  }

  /** Calendar order is chronological order. */
  predicate Before(s: Instant, t: Instant) {
    || s.year < t.year
    || (s.year == t.year && (
      || s.month < t.month
      || (s.month == t.month && (
        || s.day < t.day
        || (s.day == t.day && TimeBefore(s, t))))))
  }

  predicate TimeBefore(s: Instant, t: Instant) {
    || s.hour < t.hour
    || (s.hour == t.hour && (
      || s.minute < t.minute
      || (s.minute == t.minute && (
        || s.second < t.second
        || (s.second == t.second && s.microsecond < t.microsecond)))))
  }

  function Clock(t: Instant): string {
    Padded(t.hour, 2) + (Padded(t.minute, 2) + (Padded(t.second, 2) + (Padded(t.microsecond, 6) + "Z")))
  }

  function Date(t: Instant): string {
    Padded(t.year, 4) + (Padded(t.month, 2) + (Padded(t.day, 2) + "T"))
  }

  function Timestamp(t: Instant): (s: string)
    ensures |s| == 22
  {
    Date(t) + Clock(t)
  }

  function FileName(t: Instant, digest: string): string {
    "event-" + (Timestamp(t) + ("-" + (digest + ".json")))
  }

  lemma {:induction false} FieldDecides(n: nat, m: nat, width: nat, x: string, y: string)
    requires n < Power(width) && m < Power(width)
    ensures Less(Padded(n, width) + x, Padded(m, width) + y) <==> n < m || (n == m && Less(x, y))
    ensures Padded(n, width) + x == Padded(m, width) + y <==> n == m && x == y
  {
    PaddedOrder(n, m, width);
    PrefixDecides(Padded(n, width), Padded(m, width), x, y);
    if Padded(n, width) + x == Padded(m, width) + y {
      assert (Padded(n, width) + x)[..width] == Padded(n, width) && (Padded(m, width) + y)[..width] == Padded(m, width);
      assert (Padded(n, width) + x)[width..] == x && (Padded(m, width) + y)[width..] == y;
    }
  }

  lemma Powers()
    ensures Power(2) == 100 && Power(4) == 10000 && Power(6) == 1000000
  {
    assert Power(2) == 10 * Power(1);
    assert Power(4) == 100 * Power(2);
    assert Power(6) == 100 * Power(4);
  }

  lemma ClockOrder(s: Instant, t: Instant)
    requires Valid(s) && Valid(t)
    ensures Less(Clock(s), Clock(t)) <==> TimeBefore(s, t)
    ensures Clock(s) == Clock(t) <==> s.hour == t.hour && s.minute == t.minute && s.second == t.second && s.microsecond == t.microsecond
  {
    Powers();
    LessIsStrict("Z");
    var micro, micro' := Padded(s.microsecond, 6) + "Z", Padded(t.microsecond, 6) + "Z";
    var second, second' := Padded(s.second, 2) + micro, Padded(t.second, 2) + micro';
    var minute, minute' := Padded(s.minute, 2) + second, Padded(t.minute, 2) + second';
    FieldDecides(s.microsecond, t.microsecond, 6, "Z", "Z");
    FieldDecides(s.second, t.second, 2, micro, micro');
    FieldDecides(s.minute, t.minute, 2, second, second');
    FieldDecides(s.hour, t.hour, 2, minute, minute');
  }

  lemma DateOrder(s: Instant, t: Instant)
    requires Valid(s) && Valid(t)
    ensures Less(Date(s), Date(t)) <==>
      s.year < t.year || (s.year == t.year && (s.month < t.month || (s.month == t.month && s.day < t.day)))
    ensures Date(s) == Date(t) <==> s.year == t.year && s.month == t.month && s.day == t.day
  {
    Powers();
    LessIsStrict("T");
    var day, day' := Padded(s.day, 2) + "T", Padded(t.day, 2) + "T";
    var month, month' := Padded(s.month, 2) + day, Padded(t.month, 2) + day';
    FieldDecides(s.day, t.day, 2, "T", "T");
    FieldDecides(s.month, t.month, 2, day, day');
    FieldDecides(s.year, t.year, 4, month, month');
  }

  lemma TimestampOrder(s: Instant, t: Instant)
    requires Valid(s) && Valid(t)
    ensures Less(Timestamp(s), Timestamp(t)) <==> Before(s, t)
    ensures Timestamp(s) == Timestamp(t) <==> s == t
  {
    ClockOrder(s, t);
    DateOrder(s, t);
    PrefixDecides(Date(s), Date(t), Clock(s), Clock(t));
    assert Timestamp(s)[..9] == Date(s) && Timestamp(t)[..9] == Date(t);
    assert Timestamp(s)[9..] == Clock(s) && Timestamp(t)[9..] == Clock(t);
  }

  lemma SamePrefix(p: string, x: string, y: string)
    ensures Less(p + x, p + y) <==> Less(x, y)
  {
    LessIsStrict(p);
    PrefixDecides(p, p, x, y);
  }

  lemma SuffixOrder(digest: string, other: string)
    requires |digest| == |other|
    ensures Less("-" + (digest + ".json"), "-" + (other + ".json")) <==> Less(digest, other)
  {
    LessIsStrict(".json");
    PrefixDecides(digest, other, ".json", ".json");
    SamePrefix("-", digest + ".json", other + ".json");
  }

  lemma NamesInOrder(s: Instant, t: Instant, digest: string, other: string)
    requires Valid(s) && Valid(t) && |digest| == |other|
    ensures Less(FileName(s, digest), FileName(t, other)) <==> Before(s, t) || (s == t && Less(digest, other))
  {
    var x, y := "-" + (digest + ".json"), "-" + (other + ".json");
    TimestampOrder(s, t);
    SuffixOrder(digest, other);
    PrefixDecides(Timestamp(s), Timestamp(t), x, y);
    SamePrefix("event-", Timestamp(s) + x, Timestamp(t) + y);
  }

  /** File names sort chronologically and, at one instant, by digest; different events have
      different names. */
  lemma FileNameOrder(s: Instant, t: Instant, digest: string, other: string)
    requires Valid(s) && Valid(t) && |digest| == |other|
    ensures Less(FileName(s, digest), FileName(t, other)) <==> Before(s, t) || (s == t && Less(digest, other))
    ensures FileName(s, digest) == FileName(t, other) <==> s == t && digest == other
  {
    NamesInOrder(s, t, digest, other);
    NamesInOrder(t, s, other, digest);
    LessIsStrict(FileName(s, digest));
    LessIsTotal(digest, other);
  }
}
