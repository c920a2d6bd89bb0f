/**
  The pieces of Swift's String and Int behaviour that the app's formatting
  code relies on: decimal rendering (`"\(n)"`), parsing (`Int(String)`),
  `split(separator:)` and the `<` ordering of strings.
*/
module Text {
  import opened Wrappers

  predicate IsDigit(c: char) {
    '0' <= c <= '9'
  }

  predicate AllDigits(s: string) {
    forall i :: 0 <= i < |s| ==> IsDigit(s[i])
  }

  function DigitChar(d: nat): (c: char)
    requires d < 10
    ensures IsDigit(c)
  {
    (48 + d) as char
  }

  function DigitValue(c: char): (d: nat)
    requires IsDigit(c)
    ensures d < 10 && DigitChar(d) == c
  {
    c as int - 48
  }

  /** `"\(n)"` for a non-negative Int: the shortest decimal numeral. */
  function NatToString(n: nat): (s: string)
    ensures s != [] && AllDigits(s)
    ensures |s| > 1 ==> s[0] != '0'
  {
    if n < 10 then [DigitChar(n)] else NatToString(n / 10) + [DigitChar(n % 10)]
  }

  /** `"\(i)"` for any Int: a minus sign before the numeral of a negative value. */
  function IntToString(i: int): (s: string)
    ensures s != []
    ensures i >= 0 ==> AllDigits(s)
    ensures i < 0 ==> s[0] == '-' && AllDigits(s[1..])
  {
    if i < 0 then "-" + NatToString(-i) else NatToString(i)
  }

  /** The value of a string of decimal digits (leading zeros allowed). */
  function DigitsValue(s: string): nat
    requires AllDigits(s)
  {
    if s == [] then 0 else 10 * DigitsValue(s[..|s| - 1]) + DigitValue(s[|s| - 1])
  }

  lemma {:induction false} DigitsValueOfNatToString(n: nat)
    ensures DigitsValue(NatToString(n)) == n
  {
    if n >= 10 {
      var s := NatToString(n);
      assert s[..|s| - 1] == NatToString(n / 10);
      DigitsValueOfNatToString(n / 10);
    }
  }

  /** Leading zeros do not change the value of a numeral. */
  lemma {:induction false} DigitsValueLeadingZero(s: string)
    requires AllDigits(s)
    ensures AllDigits("0" + s) && DigitsValue("0" + s) == DigitsValue(s)
  {
    var z := "0" + s;
    if s != [] {
      assert z[..|z| - 1] == "0" + s[..|s| - 1];
      DigitsValueLeadingZero(s[..|s| - 1]);
    }
  }

  /** A number below 100 as exactly two digits, with a leading zero when needed. */
  function Pad2(n: nat): (s: string)
    requires n < 100
    ensures |s| == 2 && AllDigits(s)
  {
    [DigitChar(n / 10), DigitChar(n % 10)]
  }

  lemma DigitsValueOfPad2(n: nat)
    requires n < 100
    ensures DigitsValue(Pad2(n)) == n
  {
    var s := Pad2(n);
    assert DigitValue(s[0]) == n / 10 && DigitValue(s[1]) == n % 10;
    assert s[..1] == [DigitChar(n / 10)];
    assert s[..1][..0] == [];
    assert DigitsValue(s[..1]) == n / 10;
  }

  /** The range of Swift's 64-bit `Int`. */
  const IntMin: int := -0x8000_0000_0000_0000
  const IntMax: int := 0x7fff_ffff_ffff_ffff

  /**
    Swift's failable `Int(s)`: an optional sign followed by one or more ASCII
    digits, and a value that fits in 64 bits; anything else is nil.
  */
  function ParseInt(s: string): (r: Option<int>)
    ensures r.Some? ==> IntMin <= r.value <= IntMax
    ensures r.Some? ==> s != [] && (s[0] == '-' || s[0] == '+' || IsDigit(s[0]))
  {
    if s == [] then None
    else
      var body := if s[0] == '+' || s[0] == '-' then s[1..] else s;
      if body == [] || !AllDigits(body) then None
      else
        var magnitude: int := DigitsValue(body);
        var v: int := if s[0] == '-' then -magnitude else magnitude;
        if IntMin <= v <= IntMax then Some(v) else None
  }

  /** Rendering an Int and parsing it back gives the same Int. */
  lemma ParseIntOfIntToString(i: int)
    requires IntMin <= i <= IntMax
    ensures ParseInt(IntToString(i)) == Some(i)
  {
    var s := IntToString(i);
    if i < 0 {
      assert s[1..] == NatToString(-i);
      DigitsValueOfNatToString(-i);
    } else {
      DigitsValueOfNatToString(i);
    }
  }

  /** Length of the longest prefix of `s` that does not contain `sep`. */
  function RunLength(s: string, sep: char): (k: nat)
    ensures k <= |s|
    ensures forall i :: 0 <= i < k ==> s[i] != sep
    ensures k < |s| ==> s[k] == sep
    ensures k == |s| <==> sep !in s
  {
    if s == [] || s[0] == sep then 0 else 1 + RunLength(s[1..], sep)
  }

  /** Pieces that `Split` can produce: non-empty and free of the separator. */
  predicate Separable(pieces: seq<string>, sep: char) {
    forall i :: 0 <= i < |pieces| ==> pieces[i] != [] && sep !in pieces[i]
  }

  /**
    Swift's `s.split(separator: sep)` with its default
    `omittingEmptySubsequences: true`: the maximal runs of `s` free of `sep`,
    in order, without empty pieces.
  */
  function Split(s: string, sep: char): (pieces: seq<string>)
    ensures Separable(pieces, sep)
    decreases |s|
  {
    if s == [] then []
    else if s[0] == sep then Split(s[1..], sep)
    else
      var k := RunLength(s, sep);
      [s[..k]] + Split(s[k..], sep)
  }

  /** The pieces glued back together with one separator between neighbours. */
  function Join(pieces: seq<string>, sep: char): string {
    if |pieces| == 0 then ""
    else if |pieces| == 1 then pieces[0]
    else pieces[0] + [sep] + Join(pieces[1..], sep)
  }

  /** A separator splits the string into two independent halves. */
  lemma {:induction false} SplitAtSeparator(a: string, sep: char, b: string)
    ensures Split(a + [sep] + b, sep) == Split(a, sep) + Split(b, sep)
    decreases |a|
  {
    var s := a + [sep] + b;
    if a == [] {
      assert s[1..] == b;
    } else if a[0] == sep {
      assert s[1..] == a[1..] + [sep] + b;
      SplitAtSeparator(a[1..], sep, b);
    } else {
      var k := RunLength(a, sep);
      RunLengthBeforeSeparator(a, sep, b);
      assert s[..k] == a[..k];
      assert s[k..] == a[k..] + [sep] + b;
      SplitAtSeparator(a[k..], sep, b);
    }
  }

  /** The first separator of `a + [sep] + b` is the first one of `a`, or the one after it. */
  lemma RunLengthBeforeSeparator(a: string, sep: char, b: string)
    ensures RunLength(a + [sep] + b, sep) == RunLength(a, sep)
  {
    var s := a + [sep] + b;
    var k := RunLength(a, sep);
    var k' := RunLength(s, sep);
    assert s[|a|] == sep;
    assert k < |a| ==> s[k] == a[k];
    assert forall i :: 0 <= i < |a| ==> s[i] == a[i];
  }

  /** A single separable piece splits to itself. */
  lemma SplitOfPiece(p: string, sep: char)
    requires p != [] && sep !in p
    ensures Split(p, sep) == [p]
  {
    var k := RunLength(p, sep);
    assert k == |p|;
    assert p[..k] == p && p[k..] == [];
  }

  /** Splitting undoes joining, for pieces that splitting could produce. */
  lemma {:induction false} SplitJoin(pieces: seq<string>, sep: char)
    requires Separable(pieces, sep)
    ensures Split(Join(pieces, sep), sep) == pieces
  {
    if |pieces| == 1 {
      SplitOfPiece(pieces[0], sep);
    } else if |pieces| > 1 {
      SplitAtSeparator(pieces[0], sep, Join(pieces[1..], sep));
      SplitOfPiece(pieces[0], sep);
      SplitJoin(pieces[1..], sep);
    }
  }

  /** Leading, trailing and repeated separators produce no pieces. */
  lemma SplitIgnoresExtraSeparators(a: string, sep: char, b: string)
    ensures Split([sep] + a, sep) == Split(a, sep)
    ensures Split(a + [sep], sep) == Split(a, sep)
    ensures Split(a + [sep, sep] + b, sep) == Split(a + [sep] + b, sep)
  {
    assert ([sep] + a)[1..] == a;
    SplitAtSeparator(a, sep, []);
    assert a + [sep] + [] == a + [sep];
    SplitAtSeparator(a, sep, [sep] + b);
    assert a + [sep] + ([sep] + b) == a + [sep, sep] + b;
    SplitAtSeparator(a, sep, b);
    assert ([sep] + b)[1..] == b;
  }

  /** Swift's `<` on strings, taken as lexicographic order on characters. */
  predicate StrLess(a: string, b: string) {
    if b == [] then false
    else if a == [] then true
    else if a[0] != b[0] then a[0] < b[0]
    else StrLess(a[1..], b[1..])
  }

  lemma {:induction false} StrLessIrreflexive(a: string)
    ensures !StrLess(a, a)
  {
    if a != [] { StrLessIrreflexive(a[1..]); }
  }

  lemma {:induction false} StrLessTransitive(a: string, b: string, c: string)
    requires StrLess(a, b) && StrLess(b, c)
    ensures StrLess(a, c)
  {
    if a != [] && a[0] == b[0] && b[0] == c[0] {
      StrLessTransitive(a[1..], b[1..], c[1..]);
    }
  }

  /** Any two strings are ordered one way or the other, or are equal. */
  lemma {:induction false} StrLessTrichotomy(a: string, b: string)
    ensures StrLess(a, b) || a == b || StrLess(b, a)
  {
    if a != [] && b != [] && a[0] == b[0] {
      StrLessTrichotomy(a[1..], b[1..]);
      if a[1..] == b[1..] {
        assert a == [a[0]] + a[1..] && b == [b[0]] + b[1..];
      }
    }
  }

  lemma StrLessAsymmetric(a: string, b: string)
    requires StrLess(a, b)
    ensures !StrLess(b, a)
  {
    if StrLess(b, a) {
      StrLessTransitive(a, b, a);
      StrLessIrreflexive(a);
    }
  }

  /** "Not after" is transitive too, since any two strings are ordered or equal. */
  lemma StrLessNegativeTransitive(a: string, b: string, c: string)
    requires !StrLess(a, b) && !StrLess(b, c)
    ensures !StrLess(a, c)
  {
    StrLessTrichotomy(a, b);
    StrLessTrichotomy(b, c);
    if a != b && b != c {
      StrLessTransitive(c, b, a);
      StrLessAsymmetric(c, a);
    }
  }
}
