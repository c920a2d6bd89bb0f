/**
  `DateFormatting` and `CurrencyFormatting`: the Italian rendering of an ISO
  day ("2026-02-20" reads "20 Febbraio 2026") and of an amount in cents
  ("€12.50").
*/
module Formatting {
  import opened Wrappers
  import opened Text

  /** Month names indexed by month number; index 0 is unused. */
  const ItalianMonths: seq<string> := [
    "", "Gennaio", "Febbraio", "Marzo", "Aprile", "Maggio", "Giugno",
    "Luglio", "Agosto", "Settembre", "Ottobre", "Novembre", "Dicembre"
  ]

  /**
    The reading of the hyphen-separated pieces of a date: exactly three
    pieces whose last two parse as integers, the month in 1...12. The day is
    printed as parsed (not range-checked), the first piece as it is.
  */
  function ItalianPieces(components: seq<string>): (r: Option<string>)
    ensures r.Some? ==> |components| == 3
  {
    if |components| != 3 then None
    else
      match (ParseInt(components[2]), ParseInt(components[1]))
      case (Some(day), Some(month)) =>
        if 1 <= month <= 12 then Some(IntToString(day) + " " + ItalianMonths[month] + " " + components[0])
        else None
      case _ => None
  }

  /** `italianDate(from:)`: the Italian reading of the pieces, or the input unchanged. */
  function ItalianDate(dateString: string): (r: string)
    ensures r != dateString ==> |Split(dateString, '-')| == 3
  {
    match ItalianPieces(Split(dateString, '-'))
    case Some(formatted) => formatted
    case None => dateString
  }

  /** Three hyphen-free pieces joined by hyphens split back into those pieces. */
  lemma SplitDate(year: string, month: string, day: string)
    requires Separable([year, month, day], '-')
    ensures Split(year + "-" + month + "-" + day, '-') == [year, month, day]
  {
    var pieces := [year, month, day];
    SplitJoin(pieces, '-');
    assert pieces[1..] == [month, day] && pieces[1..][1..] == [day];
    assert Join([day], '-') == day;
    assert Join([month, day], '-') == month + ['-'] + day;
    assert Join(pieces, '-') == year + ['-'] + (month + ['-'] + day);
    assert year + "-" + month + "-" + day == year + ['-'] + (month + ['-'] + day);
  }

  /**
    On a string made of three hyphen-free pieces, the result is determined by
    the pieces: day and month parsed, the year piece copied.
  */
  lemma ItalianDateOfPieces(year: string, month: string, day: string)
    requires Separable([year, month, day], '-')
    ensures ItalianDate(year + "-" + month + "-" + day) ==
      if ParseInt(day).Some? && ParseInt(month).Some? && 1 <= ParseInt(month).value <= 12
      then IntToString(ParseInt(day).value) + " " + ItalianMonths[ParseInt(month).value] + " " + year
      else year + "-" + month + "-" + day
  {
    SplitDate(year, month, day);
  }

  /**
    The round trip with the ISO layout the server sends: a zero-padded month
    and day come out as the month's name and the day without its leading
    zero. Any two-digit day is accepted, the 31st of February included.
  */
  lemma ItalianDateOfIsoDay(year: string, month: nat, day: nat)
    requires year != [] && '-' !in year
    requires 1 <= month <= 12 && day < 100
    ensures ItalianDate(year + "-" + Pad2(month) + "-" + Pad2(day))
      == NatToString(day) + " " + ItalianMonths[month] + " " + year
  {
    DigitsValueOfPad2(month);
    DigitsValueOfPad2(day);
    assert ParseInt(Pad2(month)) == Some(month as int);
    assert ParseInt(Pad2(day)) == Some(day as int);
    ItalianDateOfPieces(year, Pad2(month), Pad2(day));
  }

  /** A month outside 1...12 leaves the input unchanged. */
  lemma ItalianDateRejectsMonth(year: string, month: nat, day: nat)
    requires year != [] && '-' !in year
    requires (month == 0 || 12 < month < 100) && day < 100
    ensures var s := year + "-" + Pad2(month) + "-" + Pad2(day); ItalianDate(s) == s
  {
    DigitsValueOfPad2(month);
    assert ParseInt(Pad2(month)) == Some(month as int);
    ItalianDateOfPieces(year, Pad2(month), Pad2(day));
  }

  /** Repeated hyphens are ignored by the split, so "2026--02-20" reads like "2026-02-20". */
  lemma ItalianDateIgnoresRepeatedHyphens(a: string, b: string)
    ensures ItalianDate(a + "-" + b) != a + "-" + b ==> ItalianDate(a + "--" + b) == ItalianDate(a + "-" + b)
  {
    SplitIgnoresExtraSeparators(a, '-', b);
    assert a + "--" + b == a + ['-', '-'] + b;
    assert a + "-" + b == a + ['-'] + b;
  }

  // ---------------------------------------------------------------- currency

  function Abs(i: int): nat {
    if i < 0 then -i else i
  }

  /**
    `euros(fromCents:)`: `String(format: "€%.2f", Double(cents) / 100)`,
    written out on integers: the whole euros, a point, the two-digit cents;
    a negative amount carries its sign after the euro sign.
  */
  function Euros(cents: int): (s: string)
    ensures |s| >= 5 && s[0] == '€'
  {
    var a := Abs(cents);
    "€" + (if cents < 0 then "-" else "") + NatToString(a / 100) + "." + Pad2(a % 100)
  }

  /** Reads back an amount printed by `Euros`; anything else is None. */
  function ParseEuros(s: string): (r: Option<int>)
  {
    if |s| < 5 || s[0] != '€' || s[|s| - 3] != '.' || !IsDigit(s[|s| - 2]) || !IsDigit(s[|s| - 1]) then None
    else
      var negative := s[1] == '-';
      var whole := if negative then s[2..|s| - 3] else s[1..|s| - 3];
      if whole == [] || !AllDigits(whole) then None
      else
        var magnitude := 100 * DigitsValue(whole) + DigitsValue(s[|s| - 2..]);
        Some(if negative then -magnitude else magnitude)
  }

  /** The printed amount determines the cents: reading it back gives them exactly. */
  lemma ParseEurosOfEuros(cents: int)
    ensures ParseEuros(Euros(cents)) == Some(cents)
  {
    var a := Abs(cents);
    var sign := if cents < 0 then "-" else "";
    var w := NatToString(a / 100);
    var s := Euros(cents);
    assert s == "€" + sign + w + "." + Pad2(a % 100);
    assert s[|s| - 3] == '.';
    assert s[|s| - 2..] == Pad2(a % 100);
    if cents < 0 {
      assert s[1] == '-';
      assert s[2..|s| - 3] == w;
    } else {
      assert s[1] == w[0];
      assert s[1..|s| - 3] == w;
    }
    DigitsValueOfNatToString(a / 100);
    DigitsValueOfPad2(a % 100);
  }

  /** Different amounts print differently. */
  lemma EurosInjective(c1: int, c2: int)
    requires Euros(c1) == Euros(c2)
    ensures c1 == c2
  {
    ParseEurosOfEuros(c1);
    ParseEurosOfEuros(c2);
  }

  lemma EurosExample()
    ensures Euros(1250) == "€12.50"
    ensures Euros(-5) == "€-0.05"
  {
    assert NatToString(12) == "12";
    assert Pad2(50) == "50";
    assert NatToString(0) == "0";
    assert Pad2(5) == "05";
  }
}
