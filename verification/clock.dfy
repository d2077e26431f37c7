/** The `m:ss` duration label of the video cards (`formatDuration`, written
    identically in `src/components/VideoCard.tsx` and
    `src/components/RelatedVideos.tsx`): whole minutes, a colon, and the
    remaining seconds padded to two digits. There is no hours field.
    Durations are whole, non-negative seconds. */
module DurationLabel {
  import opened Wrappers
  import opened Text

  /** `formatDuration(seconds)`. */
  function FormatDuration(seconds: nat): string
  {
    NatToString(seconds / 60) + ":" + PadStart2(NatToString(seconds % 60))
  }

  /** The text before and after the first `:`, if there is one. */
  function SplitColon(t: string): (r: Option<(string, string)>)
    ensures r.Some? ==> t == r.value.0 + ":" + r.value.1 && ':' !in r.value.0
    ensures r.None? ==> ':' !in t
  {
    if |t| == 0 then None
    else if t[0] == ':' then Some(([], t[1..]))
    else match SplitColon(t[1..])
      case None => None
      case Some(p) => Some(([t[0]] + p.0, p.1))
  }

  /** Reading an `m:ss` label back: minutes times 60 plus seconds, for a
      digit run, a colon and two digits below 60. A label that reads back
      has its only colon third from the end. */
  function ParseClock(t: string): (r: Option<nat>)
    ensures r.Some? ==> |t| >= 4 && t[|t| - 3] == ':' && ':' !in t[..|t| - 3]
  {
    match SplitColon(t)
    case None => None
    case Some(p) => ClockFields(p.0, p.1)
  }

  /** The value of the minutes and seconds fields around the colon. */
  function ClockFields(mins: string, secs: string): (r: Option<nat>)
    ensures r.Some? ==> |mins| > 0 && |secs| == 2
  {
    if |mins| > 0 && AllDigits(mins) && |secs| == 2 && AllDigits(secs) && ParseNat(secs) < 60
    then Some(ParseNat(mins) * 60 + ParseNat(secs))
    else None
  }

  /** The seconds field: two digits whose value is the remainder. */
  lemma SecondsField(r: nat)
    requires r < 60
    ensures var p := PadStart2(NatToString(r));
            |p| == 2 && AllDigits(p) && ParseNat(p) == r
  {
    var s := NatToString(r);
    if r < 10 {
      assert s == [DigitChar(r)];
      var p := PadStart2(s);
      assert p == "0" + s;
      assert p[..1] == "0";
    } else {
      assert NatToString(r / 10) == [DigitChar(r / 10)];
      assert |s| == 2;
    }
  }

  /** No digit is a colon. */
  lemma DigitsHaveNoColon(s: string)
    requires AllDigits(s)
    ensures ':' !in s
  {
    forall i | 0 <= i < |s| ensures s[i] != ':' {
      assert IsDigit(s[i]);
    }
  }

  /** Round trip: every label reads back as the duration it was made from,
      so distinct durations get distinct labels. */
  lemma ParseFormat(seconds: nat)
    ensures ParseClock(FormatDuration(seconds)) == Some(seconds)
  {
    var q := seconds / 60;
    var r := seconds % 60;
    var m := NatToString(q);
    var p := PadStart2(NatToString(r));
    SecondsField(r);
    ReadLabel(m, p);
    assert q * 60 + r == seconds;
  }

  /** A label built from a digit run and a two-digit field below 60 reads
      back as their value. */
  lemma ReadLabel(m: string, p: string)
    requires |m| > 0 && AllDigits(m)
    requires |p| == 2 && AllDigits(p) && ParseNat(p) < 60
    ensures ParseClock(m + ":" + p) == Some(ParseNat(m) * 60 + ParseNat(p))
  {
    DigitsHaveNoColon(m);
    SplitAtFirstColon(m, p);
    FieldsValue(m, p);
  }

  /** The fields of a well-formed label give minutes times 60 plus seconds. */
  lemma FieldsValue(m: string, p: string)
    requires |m| > 0 && AllDigits(m)
    requires |p| == 2 && AllDigits(p) && ParseNat(p) < 60
    ensures ClockFields(m, p) == Some(ParseNat(m) * 60 + ParseNat(p))
  {
  }

  /** A text splits at its first colon. */
  lemma {:induction false} SplitAtFirstColon(a: string, b: string)
    requires ':' !in a
    ensures SplitColon(a + ":" + b) == Some((a, b))
  {
    var t := a + ":" + b;
    if |a| == 0 {
      assert t == [':'] + b;
      assert t[1..] == b;
    } else {
      assert t[0] == a[0] && t[1..] == a[1..] + ":" + b;
      SplitAtFirstColon(a[1..], b);
      assert [a[0]] + a[1..] == a;
    }
  }

  /** Labels are distinct for distinct durations. */
  lemma FormatInjective(s1: nat, s2: nat)
    requires FormatDuration(s1) == FormatDuration(s2)
    ensures s1 == s2
  {
    ParseFormat(s1);
    ParseFormat(s2);
  }

  /** One hour, two minutes and three seconds show as 62 minutes. */
  lemma ExampleNoHours()
    ensures FormatDuration(3723) == "62:03"
  {
    assert NatToString(62) == "62" && NatToString(3) == "3";
    assert PadStart2("3") == "03";
  }
}
