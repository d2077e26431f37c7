/** The three "time ago" labels of the site: the video card's
    (`src/components/VideoCard.tsx`), the related-videos list's
    (`src/components/RelatedVideos.tsx`) and the comment list's
    (`src/components/CommentSection.tsx`).

    Each takes the elapsed time already floored to whole days (or minutes),
    as `Math.floor` of the millisecond difference gives it; `None` stands
    for a date that does not parse. The clock reading is left out. Each
    label is computed in two steps: the bucket (unit and count), then its
    text. */
module TimeAgo {
  import opened Wrappers
  import opened Text

  datatype Unit = Day | Week | Month | Year

  /** The days a unit stands for in the day-based labels. */
  function UnitDays(u: Unit): nat
  {
    match u
    case Day => 1
    case Week => 7
    case Month => 30
    case Year => 365
  }

  function UnitName(u: Unit): string
  {
    match u
    case Day => "day"
    case Week => "week"
    case Month => "month"
    case Year => "year"
  }

  /** A day-based label before it is written out. */
  datatype Age = Recently | Today | Ago(count: int, unit: Unit)

  /** The video card's buckets: today, days below a week, weeks below 30
      days, months below 365 days, years beyond. A negative difference (a
      date in the future) falls in the day bucket. The count of a unit is
      the number of whole units elapsed. */
  function CardAge(days: Option<int>): (a: Age)
    ensures days.None? <==> a == Recently
    ensures days == Some(0) <==> a == Today
    ensures a.Ago? ==> days.Some? && days.value != 0
    ensures a.Ago? && days.value < 0 ==> a == Ago(days.value, Day)
    ensures a.Ago? && days.value > 0 ==>
              && 1 <= a.count
              && a.count * UnitDays(a.unit) <= days.value < (a.count + 1) * UnitDays(a.unit)
              && (a.unit == Day <==> days.value < 7)
              && (a.unit == Week <==> 7 <= days.value < 30)
              && (a.unit == Month <==> 30 <= days.value < 365)
              && (a.unit == Year <==> 365 <= days.value)
  {
    match days
    case None => Recently
    case Some(d) =>
      if d == 0 then Today
      else if d < 7 then Ago(d, Day)
      else if d < 30 then Ago(d / 7, Week)
      else if d < 365 then Ago(d / 30, Month)
      else Ago(d / 365, Year)
  }

  /** The related-videos buckets: as the card's, but with no year bucket,
      so months keep counting past a year. */
  function RelatedAge(days: Option<int>): (a: Age)
    ensures days.None? <==> a == Recently
    ensures days == Some(0) <==> a == Today
    ensures a.Ago? ==> a.unit != Year
    ensures a.Ago? && days.value > 0 ==>
              && 1 <= a.count
              && a.count * UnitDays(a.unit) <= days.value < (a.count + 1) * UnitDays(a.unit)
              && (a.unit == Month <==> 30 <= days.value)
  {
    match days
    case None => Recently
    case Some(d) =>
      if d == 0 then Today
      else if d < 7 then Ago(d, Day)
      else if d < 30 then Ago(d / 7, Week)
      else Ago(d / 30, Month)
  }

  /** Weeks and months stay within their ranges: 1 to 4 weeks, 1 to 12
      months on the card. */
  lemma CardCountRanges(days: int)
    ensures CardAge(Some(days)).Ago? && CardAge(Some(days)).unit == Week ==> 1 <= CardAge(Some(days)).count <= 4
    ensures CardAge(Some(days)).Ago? && CardAge(Some(days)).unit == Month ==> 1 <= CardAge(Some(days)).count <= 12
  {
  }

  /** The two lists agree on every date less than a year old. */
  lemma RelatedAgreesWithCard(days: Option<int>)
    requires days.None? || days.value < 365
    ensures RelatedAge(days) == CardAge(days)
  {
  }

  /** A bucket written out; singular for a count of one. `today` is the
      word for the current day, which the two lists capitalise
      differently. */
  function AgeText(a: Age, today: string): string
  {
    match a
    case Recently => "recently"
    case Today => today
    case Ago(n, u) =>
      if n == 1 then "1 " + UnitName(u) + " ago"
      else IntToString(n) + " " + UnitName(u) + "s ago"
  }

  /** `formatTimeAgo` of the video card. */
  function CardTimeAgo(days: Option<int>): string
  {
    AgeText(CardAge(days), "today")
  }

  /** `formatTimeAgo` of the related-videos list. */
  function RelatedTimeAgo(days: Option<int>): string
  {
    AgeText(RelatedAge(days), "Today")
  }

  /** The labels of the two lists differ only in the capital of `Today`
      below a year. */
  lemma RelatedTextAgreesWithCard(days: Option<int>)
    requires days.None? || days.value < 365
    ensures days != Some(0) ==> RelatedTimeAgo(days) == CardTimeAgo(days)
    ensures days == Some(0) ==> CardTimeAgo(days) == "today" && RelatedTimeAgo(days) == "Today"
  {
    RelatedAgreesWithCard(days);
  }

  /** Examples: 400 days is a year on the card and 13 months in the list;
      three days in the future reads as negative days. */
  lemma DayExamples()
    ensures CardTimeAgo(Some(400)) == "1 year ago"
    ensures RelatedTimeAgo(Some(400)) == "13 months ago"
    ensures CardTimeAgo(Some(1)) == "1 day ago"
    ensures CardTimeAgo(Some(14)) == "2 weeks ago"
    ensures CardTimeAgo(Some(-3)) == "-3 days ago"
    ensures CardTimeAgo(None) == "recently"
  {
    assert CardAge(Some(400)) == Ago(1, Year);
    assert RelatedTimeAgo(Some(400)) == "13 months ago" by {
      assert RelatedAge(Some(400)) == Ago(13, Month);
      assert NatToString(13) == "13";
    }
    assert CardTimeAgo(Some(14)) == "2 weeks ago" by {
      assert CardAge(Some(14)) == Ago(2, Week);
      assert NatToString(2) == "2";
    }
    assert CardTimeAgo(Some(-3)) == "-3 days ago" by {
      assert CardAge(Some(-3)) == Ago(-3, Day);
      assert NatToString(3) == "3";
    }
  }

  // ------------------------------------------------------------ comments

  /** A comment's age before it is written out. */
  datatype Elapsed = Unknown | JustNow | MinutesAgo(m: nat) | HoursAgo(h: nat) | DaysAgo(d: nat)

  const MinutesPerHour: nat := 60
  const MinutesPerDay: nat := 1440

  /** The comment list's buckets from the minutes elapsed: under a minute
      (including any date in the future), minutes below an hour, whole
      hours below a day, whole days beyond. */
  function CommentAge(minutes: Option<int>): (e: Elapsed)
    ensures minutes.None? <==> e == Unknown
    ensures minutes.Some? && minutes.value < 1 <==> e == JustNow
    ensures e.MinutesAgo? ==> minutes == Some(e.m) && 1 <= e.m < MinutesPerHour
    ensures e.HoursAgo? ==>
              && 1 <= e.h <= 23
              && e.h * MinutesPerHour <= minutes.value < (e.h + 1) * MinutesPerHour
              && minutes.value < MinutesPerDay
    ensures e.DaysAgo? ==>
              && 1 <= e.d
              && e.d * MinutesPerDay <= minutes.value < (e.d + 1) * MinutesPerDay
    ensures minutes.Some? && minutes.value >= MinutesPerDay ==> e.DaysAgo?
    ensures minutes.Some? && MinutesPerHour <= minutes.value < MinutesPerDay ==> e.HoursAgo?
  {
    match minutes
    case None => Unknown
    case Some(m) =>
      if m < 1 then JustNow
      else if m < 60 then MinutesAgo(m)
      else if m < 1440 then HoursAgo(m / 60)
      else DaysAgo(m / 1440)
  }

  /** A comment's age written out. */
  function ElapsedText(e: Elapsed): string
  {
    match e
    case Unknown => "recently"
    case JustNow => "Just now"
    case MinutesAgo(m) => NatToString(m) + "m ago"
    case HoursAgo(h) => NatToString(h) + "h ago"
    case DaysAgo(d) => NatToString(d) + "d ago"
  }

  /** `formatTimeAgo` of the comment list. */
  function CommentTimeAgo(minutes: Option<int>): string
  {
    ElapsedText(CommentAge(minutes))
  }

  /** Examples at the bucket edges. */
  lemma CommentExamples()
    ensures CommentTimeAgo(Some(-5)) == "Just now"
    ensures CommentTimeAgo(Some(59)) == "59m ago"
    ensures CommentTimeAgo(Some(60)) == "1h ago"
    ensures CommentTimeAgo(Some(1439)) == "23h ago"
    ensures CommentTimeAgo(Some(1440)) == "1d ago"
  {
    assert NatToString(59) == "59";
    assert NatToString(23) == "23";
    assert NatToString(1) == "1";
  }
}
