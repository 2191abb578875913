/**
  Decimal numbers as text: str and set_strvalue.  A locale is the pair of its radix
  and thousands characters.
*/
module BcdText {
  import opened Decimals
  import opened BcdValues
  import opened Bcds

  datatype Locale = Locale(radix: char, thousands: char)

  predicate IsDigit(c: char) {
    '0' <= c <= '9'
  }

  /** The two characters are distinct and no digits. */
  predicate Usable(l: Locale) {
    !IsDigit(l.radix) && !IsDigit(l.thousands) && l.radix != l.thousands
  }

  /** int2char */
  function DigitChar(d: Digit): (c: char)
    ensures IsDigit(c) && CharDigit(c) == d && c == "0123456789"[d]
  {
    (d + 0x30) as char
  }

  function CharDigit(c: char): Digit
    requires IsDigit(c)
  {
    c as int - 0x30
  }

  function Text(ds: seq<Digit>): string {
    seq(|ds|, i requires 0 <= i < |ds| => DigitChar(ds[i]))
  }

  /** str */
  function Str(x: Num, l: Locale): string
    requires Proper(x)
  {
    var k := |x.nibbles| - x.scale;
    (if x.sign then "" else "-") + Text(x.nibbles[..k]) +
    if x.scale > 0 then [l.radix] + Text(x.nibbles[k..]) else ""
  }

  // ----- reading ------------------------------------------------------------------------------

  /** The state of the scan: digits so far, index of the radix character (0: none), separators so far. */
  datatype Scanned = Bad | Scanned(nibbles: seq<Digit>, dot: nat, seps: nat)

  function ScanChar(st: Scanned, c: char, i: nat, l: Locale): Scanned {
    if st.Bad? then Bad
    else if st.dot == 0 && c == l.radix then st.(dot := i)
    else if c == l.thousands then st.(seps := st.seps + 1)
    else if !IsDigit(c) then Bad
    else st.(nibbles := st.nibbles + [CharDigit(c)])
  }

  /** The scan of the first n characters. */
  function Scan(t: string, n: nat, l: Locale): Scanned
    requires n <= |t|
  {
    if n == 0 then Scanned([], 0, 0) else ScanChar(Scan(t, n - 1, l), t[n - 1], n - 1, l)
  }

  /** The scale that is computed from the positions; out of range when the assertion on it fails. */
  function ScaleOf(st: Scanned): int
    requires st.Scanned?
  {
    if st.dot > 0 then |st.nibbles| - (st.dot - st.seps) else 0
  }

  function Body(s: string): string {
    if s != "" && (s[0] == '+' || s[0] == '-') then s[1..] else s
  }

  function SignOf(s: string): bool {
    !(s != "" && s[0] == '-')
  }

  /** Read a number; Invalid is the exception for a malformed text, Failed a failed assertion. */
  datatype Outcome = Ok | Invalid | Failed

  function OutcomeOf(s: string, l: Locale): Outcome {
    if s == "" then Ok
    else if Body(s) == "" then Invalid
    else
      match Scan(Body(s), |Body(s)|, l)
      case Bad => Invalid
      case Scanned(ds, dot, seps) =>
        if 0 <= ScaleOf(Scanned(ds, dot, seps)) < |ds| then Ok else Failed
  }

  /** What was scanned, before normalization. */
  function NumOf(s: string, l: Locale): Num
    requires OutcomeOf(s, l) == Ok
  {
    if s == "" then Num([], 0, true)
    else
      var st := Scan(Body(s), |Body(s)|, l);
      Num(st.nibbles, ScaleOf(st), SignOf(s))
  }

  lemma {:induction false} BadStays(t: string, n: nat, k: nat, l: Locale)
    requires n <= k <= |t| && Scan(t, n, l).Bad?
    ensures Scan(t, k, l).Bad?
  {
    if n < k { BadStays(t, n, k - 1, l); }
  }

  /** set_strvalue */
  method SetStrvalue(x: Bcd, s: string, l: Locale) returns (r: Outcome)
    modifies x
    ensures r == OutcomeOf(s, l)
    ensures r == Ok && s == "" ==> x.Contents() == Num([], 0, true)
    ensures r == Ok && s != "" && Normalized(NumOf(s, l)) ==> x.Contents() == NumOf(s, l)
    ensures r == Ok && s != "" ==>
              Normalized(x.Contents()) && Magnitude(x.Contents()) == Magnitude(NumOf(s, l)) && x.m_sign == SignOf(s)
  {
    hide Magnitude, Normalized;
    x.m_nibbles, x.m_sign, x.m_scale := [], true, 0;
    if s == "" { return Ok; }
    var t := s;
    if s[0] == '+' || s[0] == '-' {
      x.m_sign := s[0] == '+';
      t := s[1..];
    }
    if t == "" { return Invalid; }
    var dot, thN: nat := 0, 0;
    for i := 0 to |t|
      invariant x.m_sign == SignOf(s)
      invariant Scan(t, i, l) == Scanned(x.m_nibbles, dot, thN)
    {
      if dot == 0 && t[i] == l.radix {
        dot := i;
        continue;
      }
      if t[i] == l.thousands {
        thN := thN + 1;
        continue;
      }
      if !IsDigit(t[i]) {
        BadStays(t, i + 1, |t|, l);
        return Invalid;
      }
      x.m_nibbles := x.m_nibbles + [CharDigit(t[i])];
    }
    var scale := if dot > 0 then |x.m_nibbles| - (dot - thN) else 0;
    if !(0 <= scale < |x.m_nibbles|) { return Failed; }
    x.m_scale := scale;
    x.Normalize();
    if Normalized(NumOf(s, l)) { NormalizedUnique(x.Contents(), NumOf(s, l)); }
    return Ok;
  }

  // ----- what well-formed texts mean --------------------------------------------------------------

  /** The digits of a text of digits and thousands separators. */
  ghost predicate Spells(w: string, ds: seq<Digit>, l: Locale) {
    if w == "" then ds == []
    else
      var n := |w| - 1;
      if w[n] == l.thousands then Spells(w[..n], ds, l)
      else ds != [] && w[n] == "0123456789"[ds[|ds| - 1]] && Spells(w[..n], ds[..|ds| - 1], l)
  }

  /** Digits in any grouping, and where there is a scale the radix with digits behind it. */
  ghost predicate WritesDigits(t: string, whole: string, fraction: string, x: Num, l: Locale)
    requires Proper(x)
  {
    var k := |x.nibbles| - x.scale;
    && whole != "" && Spells(whole, x.nibbles[..k], l)
    && |fraction| == x.scale && (forall i :: 0 <= i < x.scale ==> fraction[i] == "0123456789"[x.nibbles[k + i]])
    && t == if x.scale > 0 then whole + [l.radix] + fraction else whole
  }

  /** A text writes a number: a minus before the digits if it is negative, a plus or nothing if it is not. */
  ghost predicate Writes(s: string, t: string, x: Num) {
    if x.sign then s == "+" + t || (s == t && t != "" && t[0] != '+' && t[0] != '-') else s == "-" + t
  }

  /** Scanning a prefix does not look further. */
  lemma {:induction false} ScanPrefix(a: string, b: string, n: nat, l: Locale)
    requires n <= |a|
    ensures Scan(a + b, n, l) == Scan(a, n, l)
  {
    if n > 0 { ScanPrefix(a, b, n - 1, l); }
  }

  /** One more digit, or one more separator. */
  lemma ScanOne(w: string, n: nat, st: Scanned, l: Locale)
    requires Usable(l) && n < |w| && Scan(w, n, l) == st && st.Scanned?
    ensures w[n] == l.thousands ==> Scan(w, n + 1, l) == st.(seps := st.seps + 1)
    ensures forall d: Digit :: w[n] == DigitChar(d) ==> Scan(w, n + 1, l) == st.(nibbles := st.nibbles + [d])
  {
  }

  lemma {:induction false} ScanWhole(w: string, ds: seq<Digit>, l: Locale)
    requires Usable(l) && Spells(w, ds, l)
    ensures |ds| <= |w| && Scan(w, |w|, l) == Scanned(ds, 0, |w| - |ds|)
  {
    hide Usable, ScanChar;
    if w != "" {
      var n := |w| - 1;
      assert w == w[..n] + [w[n]];
      ScanPrefix(w[..n], [w[n]], n, l);
      if w[n] == l.thousands {
        ScanWhole(w[..n], ds, l);
        ScanOne(w, n, Scanned(ds, 0, n - |ds|), l);
      } else {
        var k := |ds| - 1;
        ScanWhole(w[..n], ds[..k], l);
        ScanOne(w, n, Scanned(ds[..k], 0, n - k), l);
        assert ds == ds[..k] + [ds[k]];
      }
    }
  }

  /** Behind the radix the scan goes on in the same way. */
  lemma {:induction false} ScanFraction(a: string, w: string, st: Scanned, fs: seq<Digit>, l: Locale)
    requires Usable(l) && Spells(w, fs, l) && Scan(a, |a|, l) == st && st.Scanned? && st.dot > 0
    ensures |fs| <= |w|
    ensures Scan(a + w, |a + w|, l) == st.(nibbles := st.nibbles + fs, seps := st.seps + (|w| - |fs|))
  {
    hide Usable, ScanChar;
    if w == "" {
      assert a + w == a && st.nibbles + fs == st.nibbles;
    } else {
      var n := |w| - 1;
      var b := a + w[..n];
      assert a + w == b + [w[n]];
      ScanPrefix(b, [w[n]], |b|, l);
      if w[n] == l.thousands {
        ScanFraction(a, w[..n], st, fs, l);
        ScanOne(a + w, |b|, Scan(b, |b|, l), l);
      } else {
        var k := |fs| - 1;
        ScanFraction(a, w[..n], st, fs[..k], l);
        ScanOne(a + w, |b|, Scan(b, |b|, l), l);
        assert w[n] == DigitChar(fs[k]) && st.nibbles + fs == (st.nibbles + fs[..k]) + [fs[k]];
      }
    }
  }

  /** Scanning digits in any grouping, the radix, and more digits in any grouping. */
  lemma ScanBoth(whole: string, i: seq<Digit>, fraction: string, f: seq<Digit>, l: Locale)
    requires Usable(l) && Spells(whole, i, l) && whole != "" && Spells(fraction, f, l)
    ensures |i| <= |whole| && |f| <= |fraction|
    ensures var t := whole + [l.radix] + fraction;
            Scan(t, |t|, l) == Scanned(i + f, |whole|, |whole| - |i| + |fraction| - |f|)
  {
    hide Spells, IsDigit;
    ScanWhole(whole, i, l);
    var a := whole + [l.radix];
    ScanPrefix(whole, [l.radix], |whole|, l);
    assert Scan(a, |a|, l) == Scanned(i, |whole|, |whole| - |i|);
    ScanFraction(a, fraction, Scanned(i, |whole|, |whole| - |i|), f, l);
  }

  lemma WritesBody(s: string, t: string, x: Num)
    requires Writes(s, t, x) && t != ""
    ensures s != "" && Body(s) == t && SignOf(s) == x.sign
  {
    assert ("+" + t)[1..] == t && ("-" + t)[1..] == t;
  }

  lemma FractionText(fraction: string, ds: seq<Digit>)
    requires |fraction| == |ds| && forall i :: 0 <= i < |ds| ==> fraction[i] == "0123456789"[ds[i]]
    ensures fraction == Text(ds)
  {
    forall i | 0 <= i < |ds| ensures fraction[i] == Text(ds)[i] { assert DigitChar(ds[i]) == "0123456789"[ds[i]]; }
  }

  /** A written number is read as that number. */
  lemma WrittenIsRead(s: string, t: string, whole: string, fraction: string, x: Num, l: Locale)
    requires Usable(l) && Proper(x) && WritesDigits(t, whole, fraction, x, l) && Writes(s, t, x)
    ensures s != "" && OutcomeOf(s, l) == Ok && NumOf(s, l) == x
  {
    hide Spells, IsDigit, Scan, Text, Body, SignOf;
    var k := |x.nibbles| - x.scale;
    var i, f := x.nibbles[..k], x.nibbles[k..];
    assert x.nibbles == i + f;
    WritesBody(s, t, x);
    FractionText(fraction, f);
    ScanWhole(whole, i, l);
    TextSpells(f, l);
    ScanBoth(whole, i, fraction, f, l);
    assert x.scale == 0 ==> i == x.nibbles;
  }

  lemma {:induction false} TextSpells(ds: seq<Digit>, l: Locale)
    requires Usable(l)
    ensures Spells(Text(ds), ds, l)
  {
    if ds != [] {
      var n := |ds| - 1;
      assert Text(ds)[..n] == Text(ds[..n]);
      TextSpells(ds[..n], l);
    }
  }

  /** What str writes: the digits without grouping, and a minus before them if and only if the number is negative. */
  lemma StrWrites(x: Num, l: Locale)
    requires Usable(l) && Proper(x)
    ensures var k := |x.nibbles| - x.scale;
            var whole, fraction := Text(x.nibbles[..k]), Text(x.nibbles[k..]);
            var t := if x.scale > 0 then whole + [l.radix] + fraction else whole;
            && WritesDigits(t, whole, fraction, x, l) && (forall i :: 0 <= i < |whole| ==> IsDigit(whole[i]))
            && Str(x, l) == (if x.sign then t else "-" + t) && Writes(Str(x, l), t, x)
  {
    hide Spells;
    var k := |x.nibbles| - x.scale;
    var whole, fraction := Text(x.nibbles[..k]), Text(x.nibbles[k..]);
    TextSpells(x.nibbles[..k], l);
    assert whole[0] == DigitChar(x.nibbles[0]);
    forall i | 0 <= i < |whole| ensures IsDigit(whole[i]) { assert whole[i] == DigitChar(x.nibbles[i]); }
    forall i | 0 <= i < x.scale ensures fraction[i] == "0123456789"[x.nibbles[k + i]] {
      assert fraction[i] == DigitChar(x.nibbles[k + i]);
    }
  }

  /** The round trip: reading what str writes gives back every number, digit by digit and with its sign. */
  lemma StrIsRead(x: Num, l: Locale)
    requires Usable(l) && Proper(x)
    ensures OutcomeOf(Str(x, l), l) == Ok && Str(x, l) != "" && NumOf(Str(x, l), l) == x
  {
    hide Str, Writes, WritesDigits, Text;
    StrWrites(x, l);
    var k := |x.nibbles| - x.scale;
    var whole, fraction := Text(x.nibbles[..k]), Text(x.nibbles[k..]);
    var t := if x.scale > 0 then whole + [l.radix] + fraction else whole;
    WrittenIsRead(Str(x, l), t, whole, fraction, x, l);
  }

  /**
    Separators behind the radix: each of them moves the point one place to the left, and
    the assertion on the scale fails if there are no digits left before the point.
  */
  lemma SeparatorsMovePoint(s: string, whole: string, i: seq<Digit>, fraction: string, f: seq<Digit>, l: Locale)
    requires Usable(l) && Spells(whole, i, l) && Spells(fraction, f, l) && whole != ""
    requires s == whole + [l.radix] + fraction && s[0] != '+' && s[0] != '-'
    ensures |f| <= |fraction|
    ensures |fraction| - |f| < |i| ==> OutcomeOf(s, l) == Ok && NumOf(s, l) == Num(i + f, |fraction|, true)
    ensures |fraction| - |f| >= |i| ==> OutcomeOf(s, l) == Failed
  {
    hide Spells, Scan, IsDigit;
    ScanBoth(whole, i, fraction, f, l);
    assert Body(s) == s && SignOf(s);
    hide Body, SignOf;
    var st := Scanned(i + f, |whole|, |whole| - |i| + |fraction| - |f|);
    assert Scan(s, |s|, l) == st && ScaleOf(st) == |fraction|;
  }

  // ----- which texts are refused ------------------------------------------------------------------

  /** A character that is no digit and no separator, and not the radix, or behind another radix. */
  ghost predicate Misplaced(t: string, i: nat, l: Locale) {
    && i < |t| && !('0' <= t[i] <= '9') && t[i] != l.thousands
    && (t[i] == l.radix ==> exists j :: 0 < j < i && t[j] == l.radix)
  }

  /** The scan keeps the position of the first radix that is not at the beginning. */
  lemma {:induction false} ScanFinds(t: string, n: nat, l: Locale)
    requires n <= |t|
    ensures Scan(t, n, l).Bad? <==> exists i: nat :: i < n && Misplaced(t, i, l)
    ensures !Scan(t, n, l).Bad? ==> (Scan(t, n, l).dot > 0 <==> exists j :: 0 < j < n && t[j] == l.radix)
  {
    if n > 0 {
      ScanFinds(t, n - 1, l);
      if Scan(t, n, l).Bad? && !Scan(t, n - 1, l).Bad? { assert Misplaced(t, n - 1, l); }
    }
  }

  /** A text is refused as malformed if and only if nothing follows its sign, or some character is misplaced. */
  lemma RefusedIff(t: string, l: Locale)
    ensures OutcomeOf("+" + t, l) == Invalid <==> t == "" || exists i: nat :: Misplaced(t, i, l)
    ensures OutcomeOf("-" + t, l) == Invalid <==> t == "" || exists i: nat :: Misplaced(t, i, l)
    ensures t != "" && t[0] != '+' && t[0] != '-' ==>
              (OutcomeOf(t, l) == Invalid <==> exists i: nat :: Misplaced(t, i, l))
    ensures OutcomeOf("", l) == Ok
  {
    hide Scan, Misplaced, ScaleOf;
    assert ("+" + t)[1..] == t && ("-" + t)[1..] == t;
    ScanFinds(t, |t|, l);
    forall i: nat | Misplaced(t, i, l) ensures i < |t| { MisplacedInText(t, i, l); }
  }

  lemma MisplacedInText(t: string, i: nat, l: Locale)
    requires Misplaced(t, i, l)
    ensures i < |t|
  {
  }

  /** A text that begins with the radix loses its scale: the digits are read as an integer. */
  lemma LeadingRadixLosesScale(fs: seq<Digit>, l: Locale)
    requires Usable(l) && fs != [] && l.radix != '+' && l.radix != '-'
    ensures var s := [l.radix] + Text(fs);
            OutcomeOf(s, l) == Ok && NumOf(s, l) == Num(fs, 0, true)
  {
    var s := [l.radix] + Text(fs);
    assert s[1..] == Text(fs);
    ScanDigitsOnly(s, fs, |fs|, l);
    assert fs[..|fs|] == fs;
  }

  lemma {:induction false} ScanDigitsOnly(s: string, fs: seq<Digit>, k: nat, l: Locale)
    requires Usable(l) && s == [l.radix] + Text(fs) && k <= |fs|
    ensures Scan(s, k + 1, l) == Scanned(fs[..k], 0, 0)
  {
    if k == 0 {
      assert Scan(s, 0, l) == Scanned([], 0, 0);
    } else {
      ScanDigitsOnly(s, fs, k - 1, l);
      assert s[k] == DigitChar(fs[k - 1]);
      assert fs[..k] == fs[..k - 1] + [fs[k - 1]];
    }
  }
}
