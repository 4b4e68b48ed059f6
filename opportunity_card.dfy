/**
 * The decision rules of an opportunity card: the colour and badge variant of
 * its match score, and the text of its deadline.
 */
module OpportunityCard {
  import opened Optional
  import Text

  // ---------------------------------------------------------------------------
  // Score bands: 85 and above, 70 up to 85, below 70
  // ---------------------------------------------------------------------------

  /** `getScoreColor`: always one of the three status colours. */
  function ScoreColor(score: real): (color: string)
    ensures color == "success" || color == "warning" || color == "destructive"
  {
    if score >= 85.0 then "success"
    else if score >= 70.0 then "warning"
    else "destructive"
  }

  /** `getScoreBadgeVariant`: always one of the three badge variants. */
  function ScoreBadgeVariant(score: real): (variant: string)
    ensures variant == "default" || variant == "secondary" || variant == "destructive"
  {
    if score >= 85.0 then "default"
    else if score >= 70.0 then "secondary"
    else "destructive"
  }

  /** The colour's band, worst first: destructive 0, warning 1, success 2. */
  function ColorRank(color: string): nat
  {
    if color == "success" then 2 else if color == "warning" then 1 else 0
  }

  /** The badge variant's band, worst first: destructive 0, secondary 1, default 2. */
  function VariantRank(variant: string): nat
  {
    if variant == "default" then 2 else if variant == "secondary" then 1 else 0
  }

  /** The colour is fixed by the two thresholds, in both directions. */
  lemma ScoreColorBands(score: real)
    ensures ScoreColor(score) == "success" <==> score >= 85.0
    ensures ScoreColor(score) == "warning" <==> 70.0 <= score < 85.0
    ensures ScoreColor(score) == "destructive" <==> score < 70.0
  {
  }

  /** The badge variant is fixed by the same two thresholds, in both directions. */
  lemma ScoreBadgeVariantBands(score: real)
    ensures ScoreBadgeVariant(score) == "default" <==> score >= 85.0
    ensures ScoreBadgeVariant(score) == "secondary" <==> 70.0 <= score < 85.0
    ensures ScoreBadgeVariant(score) == "destructive" <==> score < 70.0
  {
  }

  /** The two classifiers cut the scores into the same bands. */
  lemma ScoreBandsAgree(score: real)
    ensures ColorRank(ScoreColor(score)) == VariantRank(ScoreBadgeVariant(score))
  {
  }

  /** A higher score never lands in a worse band, for either classifier. */
  lemma ScoreBandsMonotone(lo: real, hi: real)
    requires lo <= hi
    ensures ColorRank(ScoreColor(lo)) <= ColorRank(ScoreColor(hi))
    ensures VariantRank(ScoreBadgeVariant(lo)) <= VariantRank(ScoreBadgeVariant(hi))
  {
  }

  // ---------------------------------------------------------------------------
  // Deadline labels
  // ---------------------------------------------------------------------------

  /** `1000 * 60 * 60 * 24` milliseconds make a day. */
  const MsPerDay: int := 1000 * 60 * 60 * 24

  /**
   * `Math.ceil((deadline - now) / MsPerDay)` for two instants in milliseconds:
   * the least whole number of days that reaches the deadline.
   */
  function DiffDays(deadlineMs: int, nowMs: int): (days: int)
    ensures (days - 1) * MsPerDay < deadlineMs - nowMs <= days * MsPerDay
  {
    -((nowMs - deadlineMs) / MsPerDay)
  }

  /**
   * `formatDeadline`, given the day difference and the deadline as
   * `toLocaleDateString` shows it. An unparsable deadline makes the day
   * difference NaN (`None`): every comparison with NaN is false, so it falls
   * through to the locale text.
   */
  function FormatDeadline(diffDays: Option<int>, localeDate: string): (text: string)
    // The date itself is shown exactly when the day difference is unknown or beyond a week.
    ensures diffDays.None? || diffDays.value > 7 ==> text == localeDate
    ensures diffDays.Some? && diffDays.value <= 7 ==>
              text == "Expired" || text == "Due Today" || text == "Due Tomorrow"
              || (|text| == 11 && Text.IsDigit(text[0]) && text[1..] == " days left")
  {
    match diffDays
    case None => localeDate
    case Some(d) =>
      if d < 0 then "Expired"
      else if d == 0 then "Due Today"
      else if d == 1 then "Due Tomorrow"
      else if d <= 7 then Text.Decimal(d) + " days left"
      else localeDate
  }

  /**
   * The text, stated directly in terms of the time left until the deadline:
   * a full day or more past it is expired, the day up to it is due today, the
   * day before that is due tomorrow, up to a week shows the days left, and
   * anything later shows the date.
   */
  lemma DeadlineLabelByTime(deadlineMs: int, nowMs: int, localeDate: string)
    ensures var left := deadlineMs - nowMs;
            var text := FormatDeadline(Some(DiffDays(deadlineMs, nowMs)), localeDate);
            && (left <= -MsPerDay ==> text == "Expired")
            && (-MsPerDay < left <= 0 ==> text == "Due Today")
            && (0 < left <= MsPerDay ==> text == "Due Tomorrow")
            && (MsPerDay < left <= 7 * MsPerDay ==>
                  exists d :: 2 <= d <= 7 && (d - 1) * MsPerDay < left <= d * MsPerDay
                              && text == Text.Decimal(d) + " days left")
            && (7 * MsPerDay < left ==> text == localeDate)
  {
    var d := DiffDays(deadlineMs, nowMs);
    var left := deadlineMs - nowMs;
    if MsPerDay < left <= 7 * MsPerDay {
      assert 2 <= d <= 7;
    }
  }

  /** Reading the day count back out of a "days left" text gives the day difference. */
  lemma DaysLeftLabelReadsBack(d: int, localeDate: string)
    requires 2 <= d <= 7
    ensures var text := FormatDeadline(Some(d), localeDate);
            |text| == 11 && Text.ParseDecimal(text[..1]) == d && text[1..] == " days left"
  {
    Text.ParseDecimalRoundTrip(d);
    var text := FormatDeadline(Some(d), localeDate);
    assert text[..1] == Text.Decimal(d);
  }
}
