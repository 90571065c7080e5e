/**
 * RFC3339Nano text, which trims trailing zeros of the fraction, compared as strings by `path`: exactly when
 * that order is the order of time.
 */
module Timestamps {
  import opened Paths

  // ---- fixed-width decimal fields ----

  function Digit(d: nat): char
    requires d < 10
  {
    (48 + d) as char
  }

  function Pow10(w: nat): nat {
    if w == 0 then 1 else 10 * Pow10(w - 1)
  }

  /** `n` in exactly `w` decimal digits. */
  function Digits(n: nat, w: nat): (s: string)
    ensures |s| == w && forall i :: 0 <= i < w ==> '0' <= s[i] <= '9'
    decreases w
  {
    if w == 0 then [] else Digits(n / 10, w - 1) + [Digit(n % 10)]
  }

  /** A field, its width, and the separator after it. */
  datatype Field = Field(value: nat, width: nat, sep: string)

  predicate Fits(fs: seq<Field>) {
    forall i :: 0 <= i < |fs| ==> fs[i].value < Pow10(fs[i].width)
  }

  predicate SameLayout(f: seq<Field>, g: seq<Field>) {
    |f| == |g| && forall i :: 0 <= i < |f| ==> f[i].width == g[i].width && f[i].sep == g[i].sep
  }

  function FieldsText(fs: seq<Field>): string {
    if fs == [] then [] else Digits(fs[0].value, fs[0].width) + fs[0].sep + FieldsText(fs[1..])
  }

  /** Earlier fields count for more. */
  predicate FieldsLess(f: seq<Field>, g: seq<Field>)
    requires |f| == |g|
  {
    f != [] && (f[0].value < g[0].value || (f[0].value == g[0].value && FieldsLess(f[1..], g[1..])))
  }

  predicate FieldsEqual(f: seq<Field>, g: seq<Field>)
    requires |f| == |g|
  {
    forall i :: 0 <= i < |f| ==> f[i].value == g[i].value
  }

  // ---- string order ----

  lemma {:induction false} LexAt(s: string, t: string, i: nat)
    requires i < |s| && i < |t| && s[..i] == t[..i] && s[i] != t[i]
    ensures LexLess(s, t) <==> s[i] < t[i]
  {
    if i > 0 {
      assert s[0] == s[..i][0] == t[..i][0] == t[0];
      assert s[1..][..i - 1] == s[..i][1..] && t[1..][..i - 1] == t[..i][1..];
      LexAt(s[1..], t[1..], i - 1);
    }
  }

  /** After parts of equal length, what follows decides only between equal parts. */
  lemma {:induction false} LexConcat(a: string, b: string, c: string, d: string)
    requires |a| == |b|
    ensures LexLess(a + c, b + d) <==> LexLess(a, b) || (a == b && LexLess(c, d))
  {
    if a == [] {
      assert a + c == c && b + d == d;
    } else {
      LexConcat(a[1..], b[1..], c, d);
      assert (a + c)[1..] == a[1..] + c && (b + d)[1..] == b[1..] + d;
      assert a == [a[0]] + a[1..] && b == [b[0]] + b[1..];
    }
  }

  lemma {:induction false} DigitsOrder(n: nat, m: nat, w: nat)
    requires n < Pow10(w) && m < Pow10(w)
    ensures LexLess(Digits(n, w), Digits(m, w)) <==> n < m
    ensures Digits(n, w) == Digits(m, w) <==> n == m
    decreases w
  {
    if w > 0 {
      DigitsOrder(n / 10, m / 10, w - 1);
      var a, b, x, y := Digits(n / 10, w - 1), Digits(m / 10, w - 1), Digit(n % 10), Digit(m % 10);
      LexConcat(a, b, [x], [y]);
      assert LexLess([x], [y]) <==> x < y;
      assert (a + [x])[..w - 1] == a && (b + [y])[..w - 1] == b;
      assert (a + [x])[w - 1] == x && (b + [y])[w - 1] == y;
    }
  }

  /** A number field, a separator and the rest, compared. */
  lemma FieldThenRest(a: string, b: string, sep: string, c: string, d: string)
    requires |a| == |b| && |c| == |d|
    ensures LexLess(a + sep + c, b + sep + d) <==> LexLess(a, b) || (a == b && LexLess(c, d))
    ensures a + sep + c == b + sep + d <==> a == b && c == d
  {
    hide LexLess;
    var s, t := a + sep + c, b + sep + d;
    assert s == a + (sep + c) && t == b + (sep + d);
    LexConcat(a, b, sep + c, sep + d);
    LexConcat(sep, sep, c, d);
    LexTotal(sep, sep);
    assert s[..|a|] == a && t[..|b|] == b && s[|a| + |sep|..] == c && t[|b| + |sep|..] == d;
  }

  lemma {:induction false} FieldsOrder(f: seq<Field>, g: seq<Field>)
    requires SameLayout(f, g) && Fits(f) && Fits(g)
    ensures |FieldsText(f)| == |FieldsText(g)|
    ensures LexLess(FieldsText(f), FieldsText(g)) <==> FieldsLess(f, g)
    ensures FieldsText(f) == FieldsText(g) <==> FieldsEqual(f, g)
  {
    if f != [] {
      hide LexLess, Digits, FieldsEqual, Pow10;
      FieldsOrder(f[1..], g[1..]);
      DigitsOrder(f[0].value, g[0].value, f[0].width);
      FieldThenRest(Digits(f[0].value, f[0].width), Digits(g[0].value, g[0].width), f[0].sep,
                    FieldsText(f[1..]), FieldsText(g[1..]));
      EqualFields(f, g);
    }
  }

  lemma EqualFields(f: seq<Field>, g: seq<Field>)
    requires |f| == |g| && f != []
    ensures FieldsEqual(f, g) <==> f[0].value == g[0].value && FieldsEqual(f[1..], g[1..])
  {
    assert forall i :: 0 < i < |f| ==> f[i] == f[1..][i - 1] && g[i] == g[1..][i - 1];
  }

  lemma {:induction false} FieldsAsymmetric(f: seq<Field>, g: seq<Field>)
    requires |f| == |g|
    ensures !(FieldsLess(f, g) && FieldsLess(g, f))
    ensures FieldsEqual(f, g) ==> !FieldsLess(f, g) && !FieldsLess(g, f)
  {
    if f != [] {
      hide FieldsEqual;
      EqualFields(f, g);
      FieldsAsymmetric(f[1..], g[1..]);
    }
  }

  // ---- the trimmed fraction ----

  function Trim(s: string): (t: string)
    ensures t <= s
    ensures t != [] ==> t[|t| - 1] != '0'
    ensures forall i :: |t| <= i < |s| ==> s[i] == '0'
  {
    if s == [] || s[|s| - 1] != '0' then s else Trim(s[..|s| - 1])
  }

  const NANO_DIGITS: nat := 9

  function Fraction(nanos: nat): string {
    Trim(Digits(nanos, NANO_DIGITS))
  }

  /** One wall-clock reading: the date and time fields, and nanoseconds below 10^9. */
  datatype Stamp = Stamp(fields: seq<Field>, nanos: nat)

  predicate ValidStamp(a: Stamp) {
    Fits(a.fields) && a.nanos < Pow10(NANO_DIGITS)
  }

  /** A zone suffix: "Z" for UTC, otherwise a signed offset. */
  predicate ValidZone(z: string) {
    z == "Z" || (|z| > 0 && (z[0] == '+' || z[0] == '-'))
  }

  function Dotted(frac: string): string {
    if frac == [] then [] else ['.'] + frac
  }

  /** `now.Format(time.RFC3339Nano)`. */
  function Text(a: Stamp, zone: string): string {
    FieldsText(a.fields) + (Dotted(Fraction(a.nanos)) + zone)
  }

  predicate Earlier(a: Stamp, b: Stamp)
    requires |a.fields| == |b.fields|
  {
    FieldsLess(a.fields, b.fields) || (FieldsEqual(a.fields, b.fields) && a.nanos < b.nanos)
  }

  /** Within one second, one trimmed fraction continues the other. */
  predicate Continues(a: Stamp, b: Stamp)
    requires |a.fields| == |b.fields|
  {
    && FieldsEqual(a.fields, b.fields)
    && (Fraction(a.nanos) < Fraction(b.nanos) || Fraction(b.nanos) < Fraction(a.nanos))
  }

  /** Two different digit strings, neither a prefix of the other, differ at a common position. */
  lemma {:induction false} Diverge(s: string, t: string) returns (i: nat)
    requires !(s <= t) && !(t <= s)
    ensures i < |s| && i < |t| && s[..i] == t[..i] && s[i] != t[i]
  {
    if s[0] != t[0] {
      i := 0;
    } else {
      assert s == [s[0]] + s[1..] && t == [t[0]] + t[1..];
      i := Diverge(s[1..], t[1..]);
      i := i + 1;
      assert s[..i] == [s[0]] + s[1..][..i - 1] && t[..i] == [t[0]] + t[1..][..i - 1];
    }
  }

  /** A fraction that another continues is the smaller number. */
  lemma PrefixIsSmaller(n: nat, m: nat)
    requires n < Pow10(NANO_DIGITS) && m < Pow10(NANO_DIGITS) && Fraction(n) < Fraction(m)
    ensures n < m
  {
    var dn, dm, f, g := Digits(n, NANO_DIGITS), Digits(m, NANO_DIGITS), Fraction(n), Fraction(m);
    hide Digits, Trim, LexLess, Pow10;
    var last := |g| - 1;
    assert dm[last] == g[last] && dn[last] == '0';
    var i := FirstDifference(dn, dm);
    assert forall k :: 0 <= k < |f| ==> dn[k] == f[k] && dm[k] == g[k] && f[k] == g[k];
    assert dn[i] == '0';
    LexAt(dn, dm, i);
    DigitsOrder(n, m, NANO_DIGITS);
  }

  lemma FirstDifference(s: string, t: string) returns (i: nat)
    requires |s| == |t| && s != t
    ensures i < |s| && s[..i] == t[..i] && s[i] != t[i]
  {
    assert t[..|s|] == t && s[..|t|] == s;
    i := Diverge(s, t);
  }

  /** Fractions that diverge are in the order of the digit where they do. */
  lemma DivergingOrder(n: nat, m: nat, i: nat)
    requires n < Pow10(NANO_DIGITS) && m < Pow10(NANO_DIGITS)
    requires var f, g := Fraction(n), Fraction(m); i < |f| && i < |g| && f[..i] == g[..i] && f[i] != g[i]
    ensures n < m <==> Fraction(n)[i] < Fraction(m)[i]
  {
    var dn, dm, f, g := Digits(n, NANO_DIGITS), Digits(m, NANO_DIGITS), Fraction(n), Fraction(m);
    assert dn[..i] == f[..i] && dm[..i] == g[..i];
    LexAt(dn, dm, i);
    DigitsOrder(n, m, NANO_DIGITS);
  }

  /** How the tails of two texts of one second compare. */
  lemma TailOrder(n: nat, m: nat, zone: string)
    requires n < Pow10(NANO_DIGITS) && m < Pow10(NANO_DIGITS) && ValidZone(zone)
    ensures var f, g := Fraction(n), Fraction(m);
            var lex := LexLess(Dotted(f) + zone, Dotted(g) + zone);
            (lex <==> n < m) <==> !(zone == "Z" && (f < g || g < f))
  {
    hide Fraction, LexLess, Dotted, Pow10;
    var f, g := Fraction(n), Fraction(m);
    FractionDigits(n);
    FractionDigits(m);
    if f == g {
      LexTotal(Dotted(f) + zone, Dotted(f) + zone);
      SameFraction(n, m);
    } else if f < g {
      PrefixIsSmaller(n, m);
      PrefixTail(f, g, zone);
    } else if g < f {
      PrefixIsSmaller(m, n);
      PrefixTail(g, f, zone);
      LexTotal(Dotted(f) + zone, Dotted(g) + zone);
      DifferentTails(g, f, zone);
    } else {
      var i := Diverge(f, g);
      DivergingOrder(n, m, i);
      DivergingTail(f, g, zone, i);
    }
  }

  lemma FractionDigits(n: nat)
    ensures forall i :: 0 <= i < |Fraction(n)| ==> '0' <= Fraction(n)[i] <= '9'
  {
    var d, f := Digits(n, NANO_DIGITS), Fraction(n);
    assert forall i :: 0 <= i < |f| ==> f[i] == d[i];
  }

  lemma DifferentTails(f: string, g: string, zone: string)
    requires f < g
    ensures Dotted(f) + zone != Dotted(g) + zone
  {
    assert |Dotted(f) + zone| < |Dotted(g) + zone|;
  }

  lemma DivergingTail(f: string, g: string, zone: string, i: nat)
    requires i < |f| && i < |g| && f[..i] == g[..i] && f[i] != g[i]
    ensures LexLess(Dotted(f) + zone, Dotted(g) + zone) <==> f[i] < g[i]
  {
    hide LexLess;
    var s, t := Dotted(f) + zone, Dotted(g) + zone;
    assert s[..i + 1] == ['.'] + f[..i] && t[..i + 1] == ['.'] + g[..i];
    LexAt(s, t, i + 1);
  }

  lemma SameFraction(n: nat, m: nat)
    requires n < Pow10(NANO_DIGITS) && m < Pow10(NANO_DIGITS) && Fraction(n) == Fraction(m)
    ensures n == m
  {
    var dn, dm := Digits(n, NANO_DIGITS), Digits(m, NANO_DIGITS);
    var f := Fraction(n);
    assert dn[..|f|] == f == dm[..|f|];
    assert dn == dm;
    DigitsOrder(n, m, NANO_DIGITS);
  }

  /** The shorter of two continuing fractions meets its zone where the longer has a point or a digit. */
  lemma PrefixTail(f: string, g: string, zone: string)
    requires f < g && ValidZone(zone) && forall i :: 0 <= i < |g| ==> '0' <= g[i] <= '9'
    ensures LexLess(Dotted(f) + zone, Dotted(g) + zone) <==> zone != "Z"
  {
    var s, t := Dotted(f) + zone, Dotted(g) + zone;
    var i := |Dotted(f)|;
    assert s[..i] == t[..i] by {
      if f != [] {
        assert s[..i] == ['.'] + f && t[..i] == ['.'] + g[..|f|];
      }
    }
    assert s[i] == zone[0];
    LexAt(s, t, i);
  }

  /**
   * Text order is time order exactly when it is not the case that the zone is UTC and, within one second, one
   * trimmed fraction continues the other.
   */
  lemma TextOrderIsTimeOrder(a: Stamp, b: Stamp, zone: string)
    requires ValidStamp(a) && ValidStamp(b) && SameLayout(a.fields, b.fields) && ValidZone(zone)
    ensures (LexLess(Text(a, zone), Text(b, zone)) <==> Earlier(a, b)) <==> !(zone == "Z" && Continues(a, b))
  {
    hide Dotted, Fraction, FieldsText, FieldsLess;
    FieldsOrder(a.fields, b.fields);
    LexConcat(FieldsText(a.fields), FieldsText(b.fields), Dotted(Fraction(a.nanos)) + zone,
              Dotted(Fraction(b.nanos)) + zone);
    TailOrder(a.nanos, b.nanos, zone);
    LexTotal(FieldsText(a.fields), FieldsText(b.fields));
  }

  /** In particular when both fractions print at the same width. */
  lemma SameWidthAgrees(a: Stamp, b: Stamp, zone: string)
    requires ValidStamp(a) && ValidStamp(b) && SameLayout(a.fields, b.fields) && ValidZone(zone)
    requires |Fraction(a.nanos)| == |Fraction(b.nanos)|
    ensures LexLess(Text(a, zone), Text(b, zone)) <==> Earlier(a, b)
  {
    hide Text, Fraction, Earlier;
    TextOrderIsTimeOrder(a, b, zone);
  }

  /**
   * What that means for a path: of two observations at one hop, stamped in one zone, the earlier is returned first
   * exactly outside that case, and in that case last.
   */
  lemma PathFollowsTime(out: seq<Observation>, x: nat, y: nat, a: Stamp, b: Stamp, zone: string)
    requires ValidStamp(a) && ValidStamp(b) && SameLayout(a.fields, b.fields) && ValidZone(zone)
    requires Sorted(out) && x < |out| && y < |out| && out[x].hop == out[y].hop
    requires out[x].timestamp == Text(a, zone) && out[y].timestamp == Text(b, zone) && Earlier(a, b)
    ensures x < y <==> !(zone == "Z" && Continues(a, b))
  {
    hide Text, Fraction, FieldsLess, LexLess;
    TextOrderIsTimeOrder(a, b, zone);
    TextOrderIsTimeOrder(b, a, zone);
    NotBothEarlier(a, b);
    LexTotal(out[x].timestamp, out[y].timestamp);
    assert x < y ==> !Less(out[y], out[x]);
    assert y < x ==> !Less(out[x], out[y]);
  }

  lemma NotBothEarlier(a: Stamp, b: Stamp)
    requires SameLayout(a.fields, b.fields) && Earlier(a, b)
    ensures !Earlier(b, a) && (Continues(a, b) <==> Continues(b, a))
  {
    hide Fraction;
    FieldsAsymmetric(a.fields, b.fields);
    assert FieldsEqual(a.fields, b.fields) <==> FieldsEqual(b.fields, a.fields);
  }

  lemma TrimZeroDigit(m: nat, w: nat)
    ensures Trim(Digits(10 * m, w + 1)) == Trim(Digits(m, w))
  {
    var s := Digits(10 * m, w + 1);
    assert 10 * m / 10 == m && 10 * m % 10 == 0;
    assert s == Digits(m, w) + ['0'];
    assert s[..|s| - 1] == Digits(m, w);
  }

  lemma Shift(n: nat, p: nat)
    ensures n * (10 * p) == 10 * (n * p)
  {
  }

  /** Trailing zero digits do not print. */
  lemma {:induction false} TrailingZeros(n: nat, w: nat, k: nat)
    ensures Trim(Digits(n * Pow10(k), w + k)) == Trim(Digits(n, w))
    decreases k
  {
    hide Trim, Digits;
    if k > 0 {
      TrailingZeros(n, w, k - 1);
      Shift(n, Pow10(k - 1));
      TrimZeroDigit(n * Pow10(k - 1), w + k - 1);
    }
  }

  /** A tenth of a second prints after twelve hundredths in UTC. */
  lemma TrimmedZerosMislead(fields: seq<Field>)
    requires Fits(fields)
    ensures var a, b := Stamp(fields, 1 * Pow10(8)), Stamp(fields, 12 * Pow10(7));
            Earlier(a, b) && !LexLess(Text(a, "Z"), Text(b, "Z"))
  {
    var a, b := Stamp(fields, 1 * Pow10(8)), Stamp(fields, 12 * Pow10(7));
    assert Pow10(9) == 10 * Pow10(8) && Pow10(8) == 10 * Pow10(7);
    assert Pow10(7) > 0 by { Positive(7); }
    TrailingZeros(1, 1, 8);
    TrailingZeros(12, 2, 7);
    ShortFractions();
    assert Fraction(a.nanos) == "1" && Fraction(b.nanos) == "12";
    TextOrderIsTimeOrder(a, b, "Z");
  }

  lemma {:induction false} Positive(w: nat)
    ensures Pow10(w) > 0
  {
    if w > 0 {
      Positive(w - 1);
    }
  }

  lemma ShortFractions()
    ensures Trim(Digits(1, 1)) == "1" && Trim(Digits(12, 2)) == "12"
  {
    assert Digits(1, 1) == "1";
    assert Digits(12, 2) == Digits(1, 1) + "2";
  }
}
