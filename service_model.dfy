/** `Service`: a treatment on offer, its price in cents and its duration in minutes. */
module ServiceModel {
  import opened Wrappers
  import opened Text
  import opened Uuids
  import opened Formatting

  datatype Service = Service(
    id: Option<Uuid>,
    name: string,
    description: Option<string>,
    price: int,
    duration: int,
    active: bool)

  /** `formattedPrice`: the same "€%.2f" rendering of the price in cents as `euros(fromCents:)`. */
  function FormattedPrice(s: Service): string {
    Euros(s.price)
  }

  /** The printed price determines the price. */
  lemma FormattedPriceRoundTrip(s: Service)
    ensures ParseEuros(FormattedPrice(s)) == Some(s.price)
  {
    ParseEurosOfEuros(s.price);
  }

  /**
    `formattedDuration`: under an hour, "<d> min"; whole hours, "<h>h";
    otherwise "<h>h <m>min". Durations of an hour or more are positive, so
    Swift's truncating `/` and `%` agree with Dafny's here.
  */
  function FormattedDuration(duration: int): string {
    if duration >= 60 then
      var hours := duration / 60;
      var mins := duration % 60;
      if mins > 0 then IntToString(hours) + "h " + IntToString(mins) + "min" else IntToString(hours) + "h"
    else IntToString(duration) + " min"
  }

  /** "<h>h", in minutes. */
  function ParseHours(word: string): Option<int> {
    if |word| > 1 && word[|word| - 1] == 'h' then
      match ParseInt(word[..|word| - 1])
      case Some(h) => Some(60 * h)
      case None => None
    else None
  }

  /** "<m>min", in minutes. */
  function ParseMinutes(word: string): Option<int> {
    if |word| > 3 && word[|word| - 3..] == "min" then ParseInt(word[..|word| - 3]) else None
  }

  function ParseDurationWords(words: seq<string>): Option<int> {
    if |words| == 2 && words[1] == "min" then ParseInt(words[0])
    else if |words| == 1 then ParseHours(words[0])
    else if |words| == 2 then
      match (ParseHours(words[0]), ParseMinutes(words[1]))
      case (Some(h), Some(m)) => Some(h + m)
      case _ => None
    else None
  }

  /** Reads back a duration printed by `FormattedDuration`, in minutes. */
  function ParseDuration(text: string): Option<int> {
    ParseDurationWords(Split(text, ' '))
  }

  lemma NoSpaceInNumeral(i: int)
    ensures ' ' !in IntToString(i) && IntToString(i) != []
  {
  }

  lemma ParseHoursOf(a: string, hours: int)
    requires a != [] && ParseInt(a) == Some(hours)
    ensures ParseHours(a + "h") == Some(60 * hours)
  {
    assert (a + "h")[..|a|] == a;
  }

  lemma ParseMinutesOf(b: string, mins: int)
    requires b != [] && ParseInt(b) == Some(mins)
    ensures ParseMinutes(b + "min") == Some(mins)
  {
    var w := b + "min";
    assert w[..|b|] == b;
    assert w[|w| - 3..] == "min";
  }

  /** "<h>h" reads back as h hours. */
  lemma WholeHoursRoundTrip(hours: int)
    requires IntMin <= hours <= IntMax
    ensures ParseDuration(IntToString(hours) + "h") == Some(60 * hours)
  {
    var hw := IntToString(hours) + "h";
    NoSpaceInNumeral(hours);
    ParseIntOfIntToString(hours);
    ParseHoursOf(IntToString(hours), hours);
    assert ' ' !in hw;
    SplitOfPiece(hw, ' ');
  }

  /** Two space-free words joined by one space split back into those words. */
  lemma SplitTwoWords(w1: string, w2: string)
    requires w1 != [] && w2 != [] && ' ' !in w1 && ' ' !in w2
    ensures Split(w1 + " " + w2, ' ') == [w1, w2]
  {
    SplitAtSeparator(w1, ' ', w2);
    SplitOfPiece(w1, ' ');
    SplitOfPiece(w2, ' ');
    assert w1 + " " + w2 == w1 + [' '] + w2;
  }

  lemma HoursThenMinutes(hw: string, mw: string, h: int, m: int)
    requires ParseHours(hw) == Some(h) && ParseMinutes(mw) == Some(m)
    ensures ParseDurationWords([hw, mw]) == Some(h + m)
  {
    assert mw != "min";
  }

  /** Two words "<a>h" and "<b>min" joined by a space read back as the sum of what they read as. */
  lemma HoursAndMinutesWords(hw: string, mw: string, h: int, m: int)
    requires ' ' !in hw && ' ' !in mw
    requires ParseHours(hw) == Some(h) && ParseMinutes(mw) == Some(m)
    ensures ParseDuration(hw + " " + mw) == Some(h + m)
  {
    HoursThenMinutes(hw, mw, h, m);
    SplitTwoWords(hw, mw);
  }

  lemma NoSpaceAppended(a: string, suffix: string)
    requires ' ' !in a && forall i :: 0 <= i < |suffix| ==> suffix[i] != ' '
    ensures ' ' !in a + suffix
  {
  }

  lemma HoursMinutesText(a: string, b: string)
    ensures a + "h " + b + "min" == (a + "h") + " " + (b + "min")
  {
  }

  /** The words "<a>h" and "<b>min" for space-free numerals a and b: no space, and what each reads as. */
  lemma NumeralWords(a: string, b: string, hours: int, mins: int)
    requires a != [] && b != [] && ' ' !in a && ' ' !in b
    requires ParseInt(a) == Some(hours) && ParseInt(b) == Some(mins)
    ensures ParseHours(a + "h") == Some(60 * hours) && ParseMinutes(b + "min") == Some(mins)
    ensures ' ' !in a + "h" && ' ' !in b + "min"
  {
    ParseHoursOf(a, hours);
    ParseMinutesOf(b, mins);
    NoSpaceAppended(a, "h");
    NoSpaceAppended(b, "min");
  }

  /** "<a>h <b>min" reads back as the sum of what its two words read as. */
  lemma HoursAndMinutesOfWords(a: string, b: string, hours: int, mins: int)
    requires ParseHours(a + "h") == Some(60 * hours) && ParseMinutes(b + "min") == Some(mins)
    requires ' ' !in a + "h" && ' ' !in b + "min"
    ensures ParseDuration(a + "h " + b + "min") == Some(60 * hours + mins)
  {
    HoursAndMinutesWords(a + "h", b + "min", 60 * hours, mins);
    HoursMinutesText(a, b);
  }

  /** "<h>h <m>min" reads back as h hours and m minutes. */
  lemma HoursAndMinutesRoundTrip(hours: int, mins: int)
    requires IntMin <= hours <= IntMax && IntMin <= mins <= IntMax
    ensures ParseDuration(IntToString(hours) + "h " + IntToString(mins) + "min") == Some(60 * hours + mins)
  {
    NoSpaceInNumeral(hours);
    NoSpaceInNumeral(mins);
    ParseIntOfIntToString(hours);
    ParseIntOfIntToString(mins);
    NumeralWords(IntToString(hours), IntToString(mins), hours, mins);
    HoursAndMinutesOfWords(IntToString(hours), IntToString(mins), hours, mins);
  }

  /** "<d> min" reads back as d minutes. */
  lemma MinutesRoundTrip(duration: int)
    requires IntMin <= duration <= IntMax
    ensures ParseDuration(IntToString(duration) + " min") == Some(duration)
  {
    var dw := IntToString(duration);
    NoSpaceInNumeral(duration);
    ParseIntOfIntToString(duration);
    SplitTwoWords(dw, "min");
    assert dw + " " + "min" == dw + " min";
  }

  /** The layout `FormattedDuration` picks, with hours and minutes recombining to the duration. */
  lemma FormattedDurationCases(duration: int)
    ensures duration >= 60 ==>
      var hours := duration / 60;
      var mins := duration % 60;
      0 < hours <= duration && 0 <= mins < 60 && 60 * hours + mins == duration
      && FormattedDuration(duration) ==
        (if mins > 0 then IntToString(hours) + "h " + IntToString(mins) + "min" else IntToString(hours) + "h")
    ensures duration < 60 ==> FormattedDuration(duration) == IntToString(duration) + " min"
  {
  }

  /**
    The three layouts are told apart and read back: every duration an `Int`
    can hold is recovered from its text, hours and minutes recombining as
    hours * 60 + minutes.
  */
  lemma FormattedDurationRoundTrip(duration: int)
    requires IntMin <= duration <= IntMax
    ensures ParseDuration(FormattedDuration(duration)) == Some(duration)
  {
    FormattedDurationCases(duration);
    if duration >= 60 {
      var hours := duration / 60;
      var mins := duration % 60;
      if mins > 0 {
        HoursAndMinutesRoundTrip(hours, mins);
      } else {
        WholeHoursRoundTrip(hours);
      }
    } else {
      MinutesRoundTrip(duration);
    }
  }
}
