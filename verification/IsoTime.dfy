/**
 The textual timestamps of the dispatchers and of the retention prune: Python's `isoformat()` of a UTC
 datetime, compared by the database as strings. The fraction is missing when the microseconds are zero,
 so the strings have two lengths.
 */
module IsoTime {
  /** One numeric field of fixed width and the character that follows it. */
  datatype Field = Field(value: nat, width: nat, after: char)

  datatype Instant = Instant(
    year: nat, month: nat, day: nat, hour: nat, minute: nat, second: nat, micros: nat)
  {
    /** What every `datetime` satisfies. */
    predicate Valid() {
      && 1 <= year <= 9999 && 1 <= month <= 12 && 1 <= day <= 31
      && hour < 24 && minute < 60 && second < 60 && micros < 1000000
    }

    function Values(): seq<nat> {
      [year, month, day, hour, minute, second, micros]
    }
  }

  // ---------- text ----------

  function Digit(n: nat): char {
    '0' + (n % 10) as char
  }

  function Digits(n: nat, width: nat): (s: string)
    ensures |s| == width
  {
    if width == 0 then "" else Digits(n / 10, width - 1) + [Digit(n)]
  }

  function Power(width: nat): (p: nat)
    ensures p >= 1
  {
    if width == 0 then 1 else 10 * Power(width - 1)
  }

  function Text(fields: seq<Field>): string {
    if fields == [] then ""
    else Digits(fields[0].value, fields[0].width) + [fields[0].after] + Text(fields[1..])
  }

  /** Date and time down to the second; the last separator opens the fraction or the offset. */
  function DateFields(t: Instant): seq<Field> {
    [Field(t.year, 4, '-'), Field(t.month, 2, '-'), Field(t.day, 2, 'T'), Field(t.hour, 2, ':'), Field(t.minute, 2, ':')]
  }

  /** The text of a UTC datetime. */
  function Iso(t: Instant): string {
    Text(DateFields(t)) + Digits(t.second, 2) + (if t.micros == 0 then "" else "." + Digits(t.micros, 6)) + "+00:00"
  }

  // ---------- two orders ----------

  /** String comparison, as the database does it: by the first character that differs, and a prefix comes first. */
  predicate Before(a: string, b: string) {
    b != [] && (a == [] || a[0] < b[0] || (a[0] == b[0] && Before(a[1..], b[1..])))
  }

  /** Calendar order: by the first field that differs. */
  predicate Earlier(a: seq<nat>, b: seq<nat>)
    requires |a| == |b|
  {
    a != [] && (a[0] < b[0] || (a[0] == b[0] && Earlier(a[1..], b[1..])))
  }

  lemma {:induction false} BeforeIrreflexive(a: string)
    ensures !Before(a, a)
  {
    if a != [] {
      BeforeIrreflexive(a[1..]);
    }
  }

  /** With heads of one length, the heads decide unless they are equal. */
  lemma {:induction false} BeforeByHead(a: string, b: string, x: string, y: string)
    requires |a| == |b|
    ensures Before(a + x, b + y) <==> Before(a, b) || (a == b && Before(x, y))
  {
    if a == [] {
      assert a + x == x && b + y == y;
    } else {
      assert (a + x)[1..] == a[1..] + x && (b + y)[1..] == b[1..] + y;
      BeforeByHead(a[1..], b[1..], x, y);
      assert a == [a[0]] + a[1..] && b == [b[0]] + b[1..];
    }
  }

  lemma BeforeOne(c: char, d: char)
    ensures Before([c], [d]) <==> c < d
  {
  }

  /** Numbers of one width are ordered as their digits are, and different numbers look different. */
  lemma {:induction false} DigitsOrdered(n: nat, m: nat, width: nat)
    requires n < Power(width) && m < Power(width)
    ensures Before(Digits(n, width), Digits(m, width)) <==> n < m
    ensures Digits(n, width) == Digits(m, width) <==> n == m
  {
    if width > 0 {
      DigitsOrdered(n / 10, m / 10, width - 1);
      BeforeByHead(Digits(n / 10, width - 1), Digits(m / 10, width - 1), [Digit(n)], [Digit(m)]);
      BeforeOne(Digit(n), Digit(m));
      LastDigit(n, m, width);
    }
  }

  lemma LastDigit(n: nat, m: nat, width: nat)
    requires width > 0
    ensures Digits(n, width) == Digits(m, width) <==>
            Digits(n / 10, width - 1) == Digits(m / 10, width - 1) && Digit(n) == Digit(m)
  {
    var s, t := Digits(n, width), Digits(m, width);
    assert s[..width - 1] == Digits(n / 10, width - 1) && t[..width - 1] == Digits(m / 10, width - 1);
    assert s[width - 1] == Digit(n) && t[width - 1] == Digit(m);
  }

  predicate Fits(fields: seq<Field>) {
    forall f | f in fields :: f.value < Power(f.width)
  }

  predicate SameShape(a: seq<Field>, b: seq<Field>) {
    |a| == |b| && forall i | 0 <= i < |a| :: a[i].width == b[i].width && a[i].after == b[i].after
  }

  function FieldValues(fields: seq<Field>): (values: seq<nat>)
    ensures |values| == |fields|
  {
    if fields == [] then [] else [fields[0].value] + FieldValues(fields[1..])
  }

  /** Fixed-width fields: the text is ordered as the field values are, and so is what follows equal fields. */
  lemma {:induction false} TextOrdered(a: seq<Field>, b: seq<Field>, x: string, y: string, u: seq<nat>, v: seq<nat>)
    requires Fits(a) && Fits(b) && SameShape(a, b) && |u| == |v|
    requires Before(x, y) <==> Earlier(u, v)
    ensures Before(Text(a) + x, Text(b) + y) <==> Earlier(FieldValues(a) + u, FieldValues(b) + v)
  {
    hide Digits;
    if a == [] {
      assert Text(a) + x == x && Text(b) + y == y;
      assert FieldValues(a) + u == u && FieldValues(b) + v == v;
    } else {
      var f, g := a[0], b[0];
      TextOrdered(a[1..], b[1..], x, y, u, v);
      FieldOrdered(f, g, Text(a[1..]) + x, Text(b[1..]) + y);
      FirstField(a, x, u);
      FirstField(b, y, v);
      FirstEarlier(f.value, g.value, FieldValues(a[1..]) + u, FieldValues(b[1..]) + v);
    }
  }

  lemma FirstField(a: seq<Field>, x: string, u: seq<nat>)
    requires a != []
    ensures Text(a) + x == Digits(a[0].value, a[0].width) + [a[0].after] + (Text(a[1..]) + x)
    ensures FieldValues(a) + u == [a[0].value] + (FieldValues(a[1..]) + u)
  {
  }

  lemma FirstEarlier(n: nat, m: nat, u: seq<nat>, v: seq<nat>)
    requires |u| == |v|
    ensures Earlier([n] + u, [m] + v) <==> n < m || (n == m && Earlier(u, v))
  {
    assert ([n] + u)[1..] == u && ([m] + v)[1..] == v;
  }

  lemma FieldOrdered(f: Field, g: Field, x: string, y: string)
    requires f.width == g.width && f.after == g.after && f.value < Power(f.width) && g.value < Power(g.width)
    ensures Before(Digits(f.value, f.width) + [f.after] + x, Digits(g.value, g.width) + [g.after] + y) <==>
            f.value < g.value || (f.value == g.value && Before(x, y))
  {
    var s, t := Digits(f.value, f.width), Digits(g.value, g.width);
    DigitsOrdered(f.value, g.value, f.width);
    assert s + [f.after] + x == s + ([f.after] + x) && t + [g.after] + y == t + ([g.after] + y);
    BeforeByHead(s, t, [f.after] + x, [g.after] + y);
    BeforeByHead([f.after], [g.after], x, y);
    BeforeOne(f.after, g.after);
  }

  // ---------- the fraction ----------

  function Fraction(micros: nat): string {
    (if micros == 0 then "" else "." + Digits(micros, 6)) + "+00:00"
  }

  /** A missing fraction comes before any fraction, because '+' comes before '.'. */
  lemma FractionOrdered(m: nat, n: nat)
    requires m < 1000000 && n < 1000000
    ensures Before(Fraction(m), Fraction(n)) <==> m < n
  {
    SixDigits();
    if m == 0 && n == 0 {
      assert Fraction(m) == "+00:00" && Fraction(n) == "+00:00";
      BeforeIrreflexive("+00:00");
    } else if m != 0 && n != 0 {
      DigitsOrdered(m, n, 6);
      BeforeByHead(Digits(m, 6), Digits(n, 6), "+00:00", "+00:00");
      BeforeIrreflexive("+00:00");
      assert Fraction(m)[1..] == Digits(m, 6) + "+00:00" && Fraction(n)[1..] == Digits(n, 6) + "+00:00";
    } else {
      assert m == 0 ==> Fraction(m)[0] == '+' && Fraction(n)[0] == '.';
      assert n == 0 ==> Fraction(n)[0] == '+' && Fraction(m)[0] == '.';
    }
  }

  lemma SixDigits()
    ensures Power(2) == 100 && Power(4) == 10000 && Power(6) == 1000000
  {
    assert Power(1) == 10 && Power(3) == 1000 && Power(5) == 100000;
  }

  /**
   Timestamps compare as strings exactly as the instants do, also when only one has a fraction. Hence the
   claim comparison `last_auto_run < boundary` and the prune comparison `started_at < cutoff` mean what
   they say.
   */
  lemma IsoOrderIsTimeOrder(a: Instant, b: Instant)
    requires a.Valid() && b.Valid()
    ensures Before(Iso(a), Iso(b)) <==> Earlier(a.Values(), b.Values())
  {
    hide Text, Before, Earlier, Digits, FieldValues;
    SixDigits();
    SecondsOrdered(a, b);
    var x, y := Digits(a.second, 2) + Fraction(a.micros), Digits(b.second, 2) + Fraction(b.micros);
    TextOrdered(DateFields(a), DateFields(b), x, y, [a.second, a.micros], [b.second, b.micros]);
    assert Iso(a) == Text(DateFields(a)) + x && Iso(b) == Text(DateFields(b)) + y;
    ValuesOf(a);
    ValuesOf(b);
  }

  lemma SecondsOrdered(a: Instant, b: Instant)
    requires a.Valid() && b.Valid()
    ensures Before(Digits(a.second, 2) + Fraction(a.micros), Digits(b.second, 2) + Fraction(b.micros)) <==>
            Earlier([a.second, a.micros], [b.second, b.micros])
  {
    SixDigits();
    DigitsOrdered(a.second, b.second, 2);
    FractionOrdered(a.micros, b.micros);
    BeforeByHead(Digits(a.second, 2), Digits(b.second, 2), Fraction(a.micros), Fraction(b.micros));
    assert [a.second, a.micros][1..] == [a.micros] && [b.second, b.micros][1..] == [b.micros];
    assert Earlier([a.micros], [b.micros]) <==> a.micros < b.micros;
  }

  lemma ValuesOf(t: Instant)
    ensures FieldValues(DateFields(t)) + [t.second, t.micros] == t.Values()
  {
    var f := DateFields(t);
    assert f[1..][1..] == f[2..] && f[2..][1..] == f[3..] && f[3..][1..] == f[4..] && f[4..][1..] == [];
    assert FieldValues(f[4..]) == [t.minute];
    assert FieldValues(f[3..]) == [t.hour, t.minute];
    assert FieldValues(f[2..]) == [t.day, t.hour, t.minute];
    assert FieldValues(f[1..]) == [t.month, t.day, t.hour, t.minute];
  }

  // ---------- the retention prune ----------

  /** The runs that started at the cutoff or later, in order. */
  function Survivors(started: seq<Instant>, cutoff: Instant): seq<Instant> {
    if started == [] then []
    else
      var last := started[|started| - 1];
      Survivors(started[..|started| - 1], cutoff) + (if Earlier(last.Values(), cutoff.Values()) then [] else [last])
  }

  function Join(x: nat, field: nat, room: nat): nat {
    x * room + field
  }

  /** A number that grows with the instant: its fields, with room for each. */
  function Rank(t: Instant): nat {
    var minutes := Join(Join(Join(Join(t.year, t.month, 13), t.day, 32), t.hour, 24), t.minute, 60);
    Join(Join(minutes, t.second, 60), t.micros, 1000000)
  }

  lemma FieldDecides(x: nat, y: nat, p: nat, q: nat, room: nat)
    requires p < room && q < room
    ensures Join(x, p, room) < Join(y, q, room) <==> x < y || (x == y && p < q)
    ensures Join(x, p, room) == Join(y, q, room) <==> x == y && p == q
  {
    if x < y {
      assert (x + 1) * room <= y * room;
    } else if y < x {
      assert (y + 1) * room <= x * room;
    }
  }

  /** The calendar order is the order of these numbers. */
  lemma EarlierIsRank(a: Instant, b: Instant)
    requires a.Valid() && b.Valid()
    ensures Earlier(a.Values(), b.Values()) <==> Rank(a) < Rank(b)
  {
    hide Join, Earlier;
    var a2, b2 := Join(a.year, a.month, 13), Join(b.year, b.month, 13);
    var a3, b3 := Join(a2, a.day, 32), Join(b2, b.day, 32);
    var a4, b4 := Join(a3, a.hour, 24), Join(b3, b.hour, 24);
    var a5, b5 := Join(a4, a.minute, 60), Join(b4, b.minute, 60);
    FieldDecides(a.year, b.year, a.month, b.month, 13);
    FieldDecides(a2, b2, a.day, b.day, 32);
    FieldDecides(a3, b3, a.hour, b.hour, 24);
    FieldDecides(a4, b4, a.minute, b.minute, 60);
    FieldDecides(a5, b5, a.second, b.second, 60);
    FieldDecides(Join(a5, a.second, 60), Join(b5, b.second, 60), a.micros, b.micros, 1000000);
    EarlierUnrolled(a, b);
  }

  lemma EarlierUnrolled(a: Instant, b: Instant)
    ensures Earlier(a.Values(), b.Values()) <==>
            a.year < b.year || (a.year == b.year && (a.month < b.month || (a.month == b.month && (a.day < b.day
            || (a.day == b.day && (a.hour < b.hour || (a.hour == b.hour && (a.minute < b.minute
            || (a.minute == b.minute && (a.second < b.second || (a.second == b.second && a.micros < b.micros)))))))))))
  {
    var x, y := a.Values(), b.Values();
    EarlierFrom(x, y, 0);
    EarlierFrom(x, y, 1);
    EarlierFrom(x, y, 2);
    EarlierFrom(x, y, 3);
    EarlierFrom(x, y, 4);
    EarlierFrom(x, y, 5);
    EarlierFrom(x, y, 6);
    hide Earlier;
  }

  lemma EarlierFrom(x: seq<nat>, y: seq<nat>, i: nat)
    requires |x| == |y| && i < |x|
    ensures Earlier(x[i..], y[i..]) <==> x[i] < y[i] || (x[i] == y[i] && Earlier(x[i + 1..], y[i + 1..]))
    ensures x[0..] == x && y[0..] == y && !Earlier(x[|x|..], y[|y|..])
  {
    assert x[i..][1..] == x[i + 1..] && y[i..][1..] == y[i + 1..];
  }

  /** The survivors are the runs whose number is not smaller than the cutoff's, each as often as it was there. */
  lemma {:induction false} SurvivorsByRank(started: seq<Instant>, cutoff: Instant)
    requires cutoff.Valid() && forall t | t in started :: t.Valid()
    ensures forall t :: multiset(Survivors(started, cutoff))[t] == if Rank(t) < Rank(cutoff) then 0 else multiset(started)[t]
  {
    hide Earlier, Rank, Join;
    if started != [] {
      var init, last := started[..|started| - 1], started[|started| - 1];
      assert started == init + [last];
      SurvivorsByRank(init, cutoff);
      EarlierIsRank(last, cutoff);
    }
  }

  /** The pruning query compares texts, and so deletes exactly the runs that started before the cutoff. */
  method Prune(started: seq<Instant>, cutoff: Instant) returns (kept: seq<Instant>, deleted: nat)
    requires cutoff.Valid() && forall t | t in started :: t.Valid()
    ensures kept == Survivors(started, cutoff) && deleted + |kept| == |started|
    ensures forall t :: multiset(kept)[t] == if Rank(t) < Rank(cutoff) then 0 else multiset(started)[t]
  {
    hide Iso, Before, Earlier, Rank, Join;
    SurvivorsByRank(started, cutoff);
    kept, deleted := [], 0;
    var n := 0;
    while n < |started|
      invariant n <= |started| && kept == Survivors(started[..n], cutoff) && deleted + |kept| == n
    {
      assert started[..n + 1][..n] == started[..n];
      IsoOrderIsTimeOrder(started[n], cutoff);
      if Before(Iso(started[n]), Iso(cutoff)) {
        deleted := deleted + 1;
      } else {
        kept := kept + [started[n]];
      }
      n := n + 1;
    }
    assert started[..|started|] == started;
  }
}
