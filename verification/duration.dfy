/** The two ISO 8601 duration readers of the upstream-video routes. Both
    implement the "format with designators" of ISO 8601:2004 section
    4.4.3.2 for the designators D, H, M and S only, by an unanchored regular
    expression match:

    - `convertISO8601ToSeconds` (search route) matches
      `P(?:(\d+)D)?T(?:(\d+)H)?(?:(\d+)M)?(?:(\d+(?:\.\d+)?)S)?`;
    - `convertDuration` (category feed) matches the same without the day
      group, so it needs a literal `PT`.

    The regular expressions are modelled by their matching semantics: the
    match starts at the leftmost index where the head (`P…T`) matches; each
    optional group matches exactly when a maximal run of digits there is
    followed by its designator letter (otherwise the group is skipped and
    matching continues at the same index); the seconds group also admits a
    fraction. The parsers read the remaining text as a suffix, so every
    function takes the text still to be matched. */
module Iso8601Duration {
  import opened Wrappers
  import opened Text

  // ------------------------------------------------------------ digit runs

  /** Length of the maximal run of decimal digits at the front of `t`. */
  function DigitRun(t: string): (n: nat)
    ensures n <= |t|
    ensures AllDigits(t[..n])
    ensures n == |t| || !IsDigit(t[n])
  {
    if |t| > 0 && IsDigit(t[0]) then 1 + DigitRun(t[1..]) else 0
  }

  /** A run of digits followed by a non-digit is exactly that long. */
  lemma {:induction false} DigitRunOf(digits: string, y: char, rest: string)
    requires AllDigits(digits) && !IsDigit(y)
    ensures DigitRun(digits + [y] + rest) == |digits|
  {
    if |digits| > 0 {
      assert (digits + [y] + rest)[1..] == digits[1..] + [y] + rest;
      DigitRunOf(digits[1..], y, rest);
    }
  }

  /** A value read by a group, and the text after it. */
  datatype Parsed = Parsed(value: nat, rest: string)

  /** The value of a group that may be skipped: 0 when skipped (`parseInt(m || '0')`). */
  function ValueOr0(p: Option<Parsed>): nat
  {
    if p.Some? then p.value.value else 0
  }

  /** The text after a group, or `t` itself when the group is skipped. */
  function RestOr(p: Option<Parsed>, t: string): string
  {
    if p.Some? then p.value.rest else t
  }

  // ------------------------------------------------------------ groups

  /** `(?:(\d+)X)?` at the front of `t`, where `X` is the designator `d`:
      present exactly when a non-empty maximal digit run is immediately
      followed by `d`; its value is the run read as a decimal number. */
  function Designated(t: string, d: char): (r: Option<Parsed>)
    requires !IsDigit(d)
    ensures r.Some? <==> 0 < DigitRun(t) < |t| && t[DigitRun(t)] == d
    ensures r.Some? ==> r.value.value == ParseNat(t[..DigitRun(t)])
                        && r.value.rest == t[DigitRun(t) + 1..]
  {
    var n := DigitRun(t);
    if 0 < n < |t| && t[n] == d then Some(Parsed(ParseNat(t[..n]), t[n + 1..])) else None
  }

  /** A fraction has a non-zero digit. */
  predicate HasNonZeroDigit(frac: string)
  {
    exists i :: 0 <= i < |frac| && frac[i] != '0'
  }

  /** `Math.ceil(parseFloat(w + "." + frac))` on the integers: the whole
      part, plus one exactly when the fraction is not all zeros. */
  function CeilSeconds(whole: string, frac: string): nat
    requires AllDigits(whole) && AllDigits(frac)
  {
    ParseNat(whole) + (if HasNonZeroDigit(frac) then 1 else 0)
  }

  /** `(?:(\d+(?:\.\d+)?)S)?` at the front of `t`: a maximal digit run, then
      either `S` directly or a point, a non-empty maximal digit run and `S`.
      Its value is the number rounded up to whole seconds. */
  function SecondsGroup(t: string): (r: Option<Parsed>)
  {
    var w := DigitRun(t);
    if w == 0 || w == |t| then None
    else if t[w] == 'S' then Some(Parsed(ParseNat(t[..w]), t[w + 1..]))
    else if t[w] == '.' then FractionGroup(t[..w], t[w + 1..])
    else None
  }

  /** The `\.\d+S` that completes a seconds group whose whole part was
      `whole`, at the front of `u` (the text after the point). */
  function FractionGroup(whole: string, u: string): (r: Option<Parsed>)
    requires AllDigits(whole)
  {
    var f := DigitRun(u);
    if 0 < f < |u| && u[f] == 'S' then Some(Parsed(CeilSeconds(whole, u[..f]), u[f + 1..])) else None
  }

  /** `(?:(\d+)H)?(?:(\d+)M)?(?:(\d+(?:\.\d+)?)S)?` at the front of `t`, as
      seconds: each group is tried in turn where the previous one ended, or
      where it would have started had it been skipped. */
  function TimeSeconds(t: string): nat
  {
    var h := Designated(t, 'H');
    var m := Designated(RestOr(h, t), 'M');
    var s := SecondsGroup(RestOr(m, RestOr(h, t)));
    ValueOr0(h) * 3600 + ValueOr0(m) * 60 + ValueOr0(s)
  }

  // ------------------------------------------------------------ heads

  /** `P(?:(\d+)D)?T` at the front of `t`: the days (0 when the group is
      skipped) and the text after `T`. The group is tried first; without it
      `T` must follow `P` directly. */
  function IsoHead(t: string): Option<Parsed>
  {
    if |t| > 0 && t[0] == 'P' then
      var d := Designated(t[1..], 'D');
      if d.Some? && |d.value.rest| > 0 && d.value.rest[0] == 'T' then Some(Parsed(d.value.value, d.value.rest[1..]))
      else if |t| > 1 && t[1] == 'T' then Some(Parsed(0, t[2..]))
      else None
    else None
  }

  /** `PT` at the front of `t`: the text after it. */
  function PtHead(t: string): Option<string>
  {
    if |t| > 1 && t[0] == 'P' && t[1] == 'T' then Some(t[2..]) else None
  }

  /** Where an unanchored match begins and what its head read. */
  datatype Match = Match(start: nat, days: nat, time: string)

  /** The leftmost index at which `IsoHead` matches, if any. */
  function FindIsoHead(s: string): (r: Option<Match>)
    ensures r.Some? ==> r.value.start <= |s| && IsoHead(s[r.value.start..]) == Some(Parsed(r.value.days, r.value.time))
    ensures r.Some? ==> forall j :: 0 <= j < r.value.start ==> IsoHead(s[j..]).None?
    ensures r.None? ==> forall j :: 0 <= j <= |s| ==> IsoHead(s[j..]).None?
  {
    if |s| == 0 then None
    else match IsoHead(s)
      case Some(p) =>
        assert s[0..] == s;
        Some(Match(0, p.value, p.rest))
      case None =>
        assert s[0..] == s;
        var r := FindIsoHead(s[1..]);
        assert forall j :: 1 <= j <= |s| ==> s[j..] == s[1..][j - 1..];
        if r.Some? then Some(Match(r.value.start + 1, r.value.days, r.value.time)) else None
  }

  /** The leftmost index at which `PtHead` matches, if any. */
  function FindPtHead(s: string): (r: Option<Match>)
    ensures r.Some? ==> r.value.start <= |s| && r.value.days == 0 && PtHead(s[r.value.start..]) == Some(r.value.time)
    ensures r.Some? ==> forall j :: 0 <= j < r.value.start ==> PtHead(s[j..]).None?
    ensures r.None? ==> forall j :: 0 <= j <= |s| ==> PtHead(s[j..]).None?
  {
    if |s| == 0 then None
    else match PtHead(s)
      case Some(time) =>
        assert s[0..] == s;
        Some(Match(0, 0, time))
      case None =>
        assert s[0..] == s;
        var r := FindPtHead(s[1..]);
        assert forall j :: 1 <= j <= |s| ==> s[j..] == s[1..][j - 1..];
        if r.Some? then Some(Match(r.value.start + 1, 0, r.value.time)) else None
  }

  // ------------------------------------------------------------ the parsers

  /** `convertISO8601ToSeconds` (src/app/api/search/route.ts): days, hours,
      minutes and rounded-up seconds of the leftmost match, or 0 when there
      is none. */
  function ConvertIso8601ToSeconds(s: string): (r: nat)
    ensures FindIsoHead(s).None? ==> r == 0
  {
    match FindIsoHead(s)
    case None => 0
    case Some(m) => m.days * 86400 + TimeSeconds(m.time)
  }

  /** `convertDuration` (src/app/api/youtube/route.ts): hours, minutes and
      rounded-up seconds after the leftmost `PT`, or 0 when there is none. */
  function ConvertDuration(s: string): (r: nat)
    ensures FindPtHead(s).None? ==> r == 0
  {
    match FindPtHead(s)
    case None => 0
    case Some(m) => TimeSeconds(m.time)
  }

  // ------------------------------------------------------------ the writer

  /** Seconds as written: the whole part and the digits after the point
      (empty for none). */
  datatype SecondsField = SecondsField(whole: nat, fraction: string)

  /** A duration with each designator present or absent. */
  datatype Duration = Duration(
    days: Option<nat>, hours: Option<nat>, minutes: Option<nat>, seconds: Option<SecondsField>)

  predicate ValidDuration(d: Duration)
  {
    d.seconds.Some? ==> AllDigits(d.seconds.value.fraction)
  }

  /** `n` followed by designator `x`, in front of `after`; just `after`
      when the field is absent. The writer builds its text from the end, so
      that a reader of the text meets it in the order the parser does. */
  function FieldThen(n: Option<nat>, x: char, after: string): string
  {
    if n.Some? then NatToString(n.value) + [x] + after else after
  }

  /** The seconds field in front of `after`. */
  function SecondsThen(s: Option<SecondsField>, after: string): string
  {
    if s.None? then after
    else if s.value.fraction == "" then NatToString(s.value.whole) + ['S'] + after
    else NatToString(s.value.whole) + ['.'] + (s.value.fraction + ['S'] + after)
  }

  /** The time fields (after `T`) in front of `after`. */
  function TimeThen(d: Duration, after: string): string
  {
    FieldThen(d.hours, 'H', FieldThen(d.minutes, 'M', SecondsThen(d.seconds, after)))
  }

  /** The whole duration in front of `after`. */
  function FormatThen(d: Duration, after: string): string
  {
    ['P'] + FieldThen(d.days, 'D', ['T'] + TimeThen(d, after))
  }

  /** The duration written in the designator format, as the upstream API
      writes `contentDetails.duration` (the `T` is always written). */
  function Format(d: Duration): string
  {
    FormatThen(d, "")
  }

  /** The seconds a written seconds field denotes, rounded up. */
  function SecondsValue(s: Option<SecondsField>): nat
    requires s.Some? ==> AllDigits(s.value.fraction)
  {
    if s.None? then 0 else s.value.whole + (if HasNonZeroDigit(s.value.fraction) then 1 else 0)
  }

  /** The length a duration denotes, fractional seconds rounded up. */
  function TotalSeconds(d: Duration): nat
    requires ValidDuration(d)
  {
    d.days.GetOr(0) * 86400 + d.hours.GetOr(0) * 3600 + d.minutes.GetOr(0) * 60 + SecondsValue(d.seconds)
  }

  /** Text that cannot extend a preceding digit run. */
  predicate NoDigitStart(t: string)
  {
    |t| == 0 || !IsDigit(t[0])
  }

  // ------------------------------------------------------------ writer lemmas

  /** Appending to the text is appending to what follows the last field. */
  lemma FormatAppend(d: Duration, rest: string)
    ensures Format(d) + rest == FormatThen(d, rest)
  {
    var sec := SecondsThen(d.seconds, "");
    assert sec + rest == SecondsThen(d.seconds, rest) by {
      SecondsAppend(d.seconds, rest);
    }
    assert TimeThen(d, "") + rest == TimeThen(d, rest) by {
      FieldAppend(d.minutes, 'M', sec, rest);
      FieldAppend(d.hours, 'H', FieldThen(d.minutes, 'M', sec), rest);
    }
    assert (['T'] + TimeThen(d, "")) + rest == ['T'] + TimeThen(d, rest);
    FieldAppend(d.days, 'D', ['T'] + TimeThen(d, ""), rest);
  }

  lemma SecondsAppend(f: Option<SecondsField>, rest: string)
    ensures SecondsThen(f, "") + rest == SecondsThen(f, rest)
  {
    if f.Some? {
      var w := NatToString(f.value.whole);
      if f.value.fraction == "" {
        assert SecondsThen(f, "") + rest == w + ['S'] + rest;
      } else {
        var x := f.value.fraction;
        assert SecondsThen(f, "") + rest == w + ['.'] + (x + ['S'] + rest);
      }
    }
  }

  lemma FieldAppend(n: Option<nat>, x: char, a: string, b: string)
    ensures FieldThen(n, x, a) + b == FieldThen(n, x, a + b)
  {
  }

  /** A sequence of digits holds no letter `P`. */
  lemma NoPInDigits(s: string)
    requires AllDigits(s)
    ensures 'P' !in s
  {
  }

  /** `P` occurs in the time part only if it occurs in what follows it. */
  lemma NoPInTime(d: Duration, after: string)
    requires ValidDuration(d) && 'P' !in after
    ensures 'P' !in TimeThen(d, after)
  {
    if d.seconds.Some? {
      NoPInDigits(NatToString(d.seconds.value.whole));
      NoPInDigits(d.seconds.value.fraction);
    }
    if d.minutes.Some? {
      NoPInDigits(NatToString(d.minutes.value));
    }
    if d.hours.Some? {
      NoPInDigits(NatToString(d.hours.value));
    }
  }

  // ------------------------------------------------------------ group lemmas

  /** The three pieces of `a + [y] + b`. */
  lemma SplitAt(a: string, y: char, b: string)
    ensures |a + [y] + b| == |a| + 1 + |b|
    ensures (a + [y] + b)[..|a|] == a && (a + [y] + b)[|a|] == y && (a + [y] + b)[|a| + 1..] == b
  {
    var t := a + [y] + b;
    assert t[..|a|] == a;
    assert t[|a| + 1..] == b;
  }

  /** A number followed by its own designator is read as that number. */
  lemma DesignatedPresent(n: nat, d: char, rest: string)
    requires !IsDigit(d)
    ensures Designated(NatToString(n) + [d] + rest, d) == Some(Parsed(n, rest))
  {
    DigitRunOf(NatToString(n), d, rest);
    SplitAt(NatToString(n), d, rest);
  }

  /** A number followed by another designator leaves the group skipped. */
  lemma DesignatedOther(n: nat, y: char, rest: string, d: char)
    requires !IsDigit(d) && !IsDigit(y) && y != d
    ensures Designated(NatToString(n) + [y] + rest, d) == None
  {
    DigitRunOf(NatToString(n), y, rest);
    SplitAt(NatToString(n), y, rest);
  }

  /** A whole number of seconds is read back as itself. */
  lemma SecondsWhole(n: nat, rest: string)
    ensures SecondsGroup(NatToString(n) + ['S'] + rest) == Some(Parsed(n, rest))
  {
    DigitRunOf(NatToString(n), 'S', rest);
    SplitAt(NatToString(n), 'S', rest);
  }

  /** Digits, a point, digits and `S` are read as the number rounded up. */
  lemma SecondsDigitsFraction(w: string, frac: string, rest: string)
    requires AllDigits(w) && w != "" && AllDigits(frac) && frac != ""
    ensures SecondsGroup(w + ['.'] + (frac + ['S'] + rest)) == Some(Parsed(CeilSeconds(w, frac), rest))
  {
    var tail := frac + ['S'] + rest;
    DigitRunOf(w, '.', tail);
    SplitAt(w, '.', tail);
    FractionGroupReads(w, frac, rest);
  }

  /** After the point, a digit run and `S` complete the group; the value is
      the whole part plus one exactly when a fraction digit is non-zero. */
  lemma FractionGroupReads(whole: string, frac: string, rest: string)
    requires AllDigits(whole) && AllDigits(frac) && frac != ""
    ensures FractionGroup(whole, frac + ['S'] + rest) == Some(Parsed(CeilSeconds(whole, frac), rest))
  {
    DigitRunOf(frac, 'S', rest);
    SplitAt(frac, 'S', rest);
  }

  /** The seconds group reads a written seconds field, whatever follows it. */
  lemma SecondsPresent(f: SecondsField, rest: string)
    requires AllDigits(f.fraction)
    ensures SecondsGroup(SecondsThen(Some(f), rest)) == Some(Parsed(SecondsValue(Some(f)), rest))
  {
    if f.fraction == "" {
      SecondsWhole(f.whole, rest);
    } else {
      SecondsDigitsFraction(NatToString(f.whole), f.fraction, rest);
    }
  }

  /** The written seconds field (or, without one, text that starts with no
      digit) is not mistaken for an hours or minutes group. */
  lemma SecondsSkipsDesignator(f: Option<SecondsField>, rest: string, x: char)
    requires x == 'H' || x == 'M'
    requires f.Some? || NoDigitStart(rest)
    ensures Designated(SecondsThen(f, rest), x) == None
  {
    if f.Some? {
      if f.value.fraction == "" {
        DesignatedOther(f.value.whole, 'S', rest, x);
      } else {
        DesignatedOther(f.value.whole, '.', f.value.fraction + ['S'] + rest, x);
      }
    }
  }

  /** What follows the minutes field: the seconds group reads it. */
  lemma MinutesAndSecondsRoundTrip(d: Duration, rest: string)
    requires ValidDuration(d)
    requires d.seconds.Some? || NoDigitStart(rest)
    ensures var ms := FieldThen(d.minutes, 'M', SecondsThen(d.seconds, rest));
            var m := Designated(ms, 'M');
            ValueOr0(m) == d.minutes.GetOr(0)
            && ValueOr0(SecondsGroup(RestOr(m, ms))) == SecondsValue(d.seconds)
  {
    var sec := SecondsThen(d.seconds, rest);
    if d.seconds.Some? {
      SecondsPresent(d.seconds.value, rest);
    }
    if d.minutes.Some? {
      DesignatedPresent(d.minutes.value, 'M', sec);
    } else {
      SecondsSkipsDesignator(d.seconds, rest, 'M');
    }
  }

  /** The written time part is read back as the seconds it denotes. */
  lemma TimeRoundTrip(d: Duration, rest: string)
    requires ValidDuration(d)
    requires d.seconds.Some? || NoDigitStart(rest)
    ensures TimeSeconds(TimeThen(d, rest))
         == d.hours.GetOr(0) * 3600 + d.minutes.GetOr(0) * 60 + SecondsValue(d.seconds)
  {
    var sec := SecondsThen(d.seconds, rest);
    var ms := FieldThen(d.minutes, 'M', sec);
    MinutesAndSecondsRoundTrip(d, rest);
    if d.hours.Some? {
      DesignatedPresent(d.hours.value, 'H', ms);
    } else if d.minutes.Some? {
      DesignatedOther(d.minutes.value, 'M', sec, 'H');
    } else {
      SecondsSkipsDesignator(d.seconds, rest, 'H');
    }
  }

  // ------------------------------------------------------------ head lemmas

  /** A written duration matches the head at its first character. */
  lemma IsoHeadOfFormat(d: Duration, rest: string)
    ensures IsoHead(FormatThen(d, rest)) == Some(Parsed(d.days.GetOr(0), TimeThen(d, rest)))
  {
    var time := TimeThen(d, rest);
    var t := FormatThen(d, rest);
    assert t[1..] == FieldThen(d.days, 'D', ['T'] + time);
    if d.days.Some? {
      DesignatedPresent(d.days.value, 'D', ['T'] + time);
      assert (['T'] + time)[1..] == time;
    } else {
      assert t[2..] == time;
    }
  }

  /** Text before the match that holds no `P` cannot start a match: the
      leftmost match is found after it, with the same content. */
  lemma {:induction false} FindIsoHeadAfter(prefix: string, s: string)
    requires 'P' !in prefix
    ensures FindIsoHead(prefix + s)
         == (if FindIsoHead(s).None? then None
             else Some(Match(FindIsoHead(s).value.start + |prefix|, FindIsoHead(s).value.days, FindIsoHead(s).value.time)))
  {
    if |prefix| == 0 {
      assert prefix + s == s;
    } else {
      var ps := prefix + s;
      assert ps[0] == prefix[0] && IsoHead(ps).None?;
      assert ps[1..] == prefix[1..] + s;
      FindIsoHeadAfter(prefix[1..], s);
    }
  }

  /** The same for `FindPtHead`. */
  lemma {:induction false} FindPtHeadAfter(prefix: string, s: string)
    requires 'P' !in prefix
    ensures FindPtHead(prefix + s)
         == (if FindPtHead(s).None? then None
             else Some(Match(FindPtHead(s).value.start + |prefix|, 0, FindPtHead(s).value.time)))
  {
    if |prefix| == 0 {
      assert prefix + s == s;
    } else {
      var ps := prefix + s;
      assert ps[0] == prefix[0] && PtHead(ps).None?;
      assert ps[1..] == prefix[1..] + s;
      FindPtHeadAfter(prefix[1..], s);
    }
  }

  /** Text without a `P` holds no `PT`. */
  lemma {:induction false} NoPNoPtHead(s: string)
    requires 'P' !in s
    ensures FindPtHead(s).None?
  {
    if |s| > 0 {
      assert 'P' !in s[1..];
      NoPNoPtHead(s[1..]);
    }
  }

  // ------------------------------------------------------------ properties

  /** Round trip of the search-route parser: a written duration, after any
      text without a `P` and before any text that does not extend its last
      field, is read as days*86400 + hours*3600 + minutes*60 + ceil(seconds). */
  lemma ConvertIso8601RoundTrip(prefix: string, d: Duration, rest: string)
    requires ValidDuration(d) && 'P' !in prefix
    requires d.seconds.Some? || NoDigitStart(rest)
    ensures ConvertIso8601ToSeconds(prefix + Format(d) + rest) == TotalSeconds(d)
  {
    var s := FormatThen(d, rest);
    assert prefix + Format(d) + rest == prefix + s by {
      FormatAppend(d, rest);
    }
    assert FindIsoHead(prefix + s) == Some(Match(|prefix|, d.days.GetOr(0), TimeThen(d, rest))) by {
      IsoHeadOfFormat(d, rest);
      assert s[0..] == s;
      assert FindIsoHead(s) == Some(Match(0, d.days.GetOr(0), TimeThen(d, rest)));
      FindIsoHeadAfter(prefix, s);
    }
    TimeRoundTrip(d, rest);
  }

  /** Round trip of the category-feed parser on durations without days. */
  lemma ConvertDurationRoundTrip(prefix: string, d: Duration, rest: string)
    requires ValidDuration(d) && d.days.None? && 'P' !in prefix
    requires d.seconds.Some? || NoDigitStart(rest)
    ensures ConvertDuration(prefix + Format(d) + rest) == TotalSeconds(d)
  {
    var s := FormatThen(d, rest);
    assert prefix + Format(d) + rest == prefix + s by {
      FormatAppend(d, rest);
    }
    assert FindPtHead(prefix + s) == Some(Match(|prefix|, 0, TimeThen(d, rest))) by {
      assert s[2..] == TimeThen(d, rest);
      assert s[0..] == s;
      assert FindPtHead(s) == Some(Match(0, 0, TimeThen(d, rest)));
      FindPtHeadAfter(prefix, s);
    }
    TimeRoundTrip(d, rest);
  }

  /** The category-feed parser needs a literal `PT`, so a written duration
      with a day field reads as 0 there. */
  lemma ConvertDurationIgnoresDays(d: Duration)
    requires ValidDuration(d) && d.days.Some?
    ensures ConvertDuration(Format(d)) == 0
  {
    var s := Format(d);
    var w := NatToString(d.days.value);
    var x := w + ['D'] + (['T'] + TimeThen(d, ""));
    assert s == ['P'] + x;
    NoPInDigits(w);
    NoPInTime(d, "");
    assert 'P' !in x;
    assert s[1] == w[0];
    assert s[1..] == x;
    NoPNoPtHead(x);
  }

  /** Without a `D` in the text the two heads match at the same places and
      read the same (zero) days. */
  lemma HeadsAgree(t: string)
    requires 'D' !in t
    ensures IsoHead(t) == (if PtHead(t).Some? then Some(Parsed(0, PtHead(t).value)) else None)
  {
    if |t| > 0 && t[0] == 'P' {
      var n := DigitRun(t[1..]);
      if 0 < n < |t| - 1 {
        assert t[1..][n] == t[n + 1];
      }
    }
  }

  lemma {:induction false} FindHeadsAgree(s: string)
    requires 'D' !in s
    ensures FindIsoHead(s) == FindPtHead(s)
  {
    if |s| > 0 {
      HeadsAgree(s);
      FindHeadsAgree(s[1..]);
    }
  }

  /** On any text without a `D` the two parsers return the same number of
      seconds. */
  lemma ParsersAgreeWithoutDays(s: string)
    requires 'D' !in s
    ensures ConvertDuration(s) == ConvertIso8601ToSeconds(s)
  {
    FindHeadsAgree(s);
  }

  // ------------------------------------------------------------ examples

  /** `PT1H2M3S` is 3723 seconds. */
  lemma ExampleHoursMinutesSeconds()
    ensures ConvertIso8601ToSeconds("PT1H2M3S") == 3723
  {
    var a := Duration(None, Some(1), Some(2), Some(SecondsField(3, "")));
    assert "" + Format(a) + "" == "PT1H2M3S" by {
      assert NatToString(1) == "1" && NatToString(2) == "2" && NatToString(3) == "3";
      assert TimeThen(a, "") == "1H2M3S";
    }
    ConvertIso8601RoundTrip("", a, "");
  }

  /** `P1DT1H` is one day and one hour. */
  lemma ExampleDaysHours()
    ensures ConvertIso8601ToSeconds("P1DT1H") == 90000
  {
    var b := Duration(Some(1), Some(1), None, None);
    assert "" + Format(b) + "" == "P1DT1H" by {
      assert NatToString(1) == "1";
      assert TimeThen(b, "") == "1H";
    }
    ConvertIso8601RoundTrip("", b, "");
  }

  /** `PT3M45.5S` rounds the seconds up: 226. */
  lemma ExampleFractionRoundsUp()
    ensures ConvertIso8601ToSeconds("PT3M45.5S") == 226
  {
    var c := Duration(None, None, Some(3), Some(SecondsField(45, "5")));
    assert "" + Format(c) + "" == "PT3M45.5S" by {
      assert NatToString(3) == "3" && NatToString(45) == "45";
      assert TimeThen(c, "") == "3M45.5S";
    }
    assert HasNonZeroDigit("5") by { assert "5"[0] != '0'; }
    ConvertIso8601RoundTrip("", c, "");
  }

  /** `PT45.0S`: a zero fraction adds nothing. */
  lemma ExampleZeroFraction()
    ensures ConvertIso8601ToSeconds("PT45.0S") == 45
  {
    var e := Duration(None, None, None, Some(SecondsField(45, "0")));
    assert "" + Format(e) + "" == "PT45.0S" by {
      assert NatToString(45) == "45";
      assert TimeThen(e, "") == "45.0S";
    }
    ConvertIso8601RoundTrip("", e, "");
  }

  /** The category-feed parser reads `PT4M13S` as 253 seconds. */
  lemma ExampleFeedMinutesSeconds()
    ensures ConvertDuration("PT4M13S") == 253
  {
    var a := Duration(None, None, Some(4), Some(SecondsField(13, "")));
    assert "" + Format(a) + "" == "PT4M13S" by {
      assert NatToString(4) == "4" && NatToString(13) == "13";
      assert TimeThen(a, "") == "4M13S";
    }
    ConvertDurationRoundTrip("", a, "");
  }

  /** The category-feed parser reads `P1DT2H` as 0: it needs `PT`. */
  lemma ExampleFeedDays()
    ensures ConvertDuration("P1DT2H") == 0
  {
    var b := Duration(Some(1), Some(2), None, None);
    assert Format(b) == "P1DT2H" by {
      assert NatToString(1) == "1" && NatToString(2) == "2";
      assert TimeThen(b, "") == "2H";
    }
    ConvertDurationIgnoresDays(b);
  }

  /** Without a `P…T` head the reader yields 0: `P1D` and the empty text. */
  lemma ExampleNoHead()
    ensures ConvertIso8601ToSeconds("P1D") == 0
    ensures ConvertIso8601ToSeconds("") == 0
  {
    assert DigitRun("1D") == 1 by { assert "1D"[1..] == "D"; }
    assert "1D"[..1] == "1" && "1D"[2..] == "" && ParseNat("1") == 1;
    assert Designated("1D", 'D') == Some(Parsed(1, ""));
    assert IsoHead("P1D").None?;
    assert "P1D"[1..] == "1D" && "1D"[1..] == "D";
    assert IsoHead("1D").None? && IsoHead("D").None?;
  }

  /** The match is not anchored at the end: in `PT5M3` the trailing `3`
      has no designator and is ignored, giving 300. */
  lemma ExampleTrailingDigits()
    ensures ConvertIso8601ToSeconds("PT5M3") == 300
  {
    assert "PT5M3"[2..] == "5M3";
    assert IsoHead("PT5M3") == Some(Parsed(0, "5M3"));
    assert FindIsoHead("PT5M3") == Some(Match(0, 0, "5M3"));
    assert DigitRun("5M3") == 1 by { assert "5M3"[1..] == "M3"; }
    assert Designated("5M3", 'H').None?;
    assert Designated("5M3", 'M') == Some(Parsed(5, "3")) by { assert "5M3"[..1] == "5"; }
    assert DigitRun("3") == 1 by { assert "3"[1..] == ""; }
    assert SecondsGroup("3").None?;
  }
}
