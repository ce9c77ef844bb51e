/**
 * `renderDuration` of the interaction skill: the time a run took, spoken in its largest
 * non-zero unit together with the next smaller one. Durations are whole seconds; the
 * `java.time.Duration` accessors truncate toward zero, as Kotlin's `/` and `%` do.
 */
module ElapsedTime {
  import opened Text

  /** Division of a non-negative number leaves a quotient whose multiple is within one divisor. */
  lemma DivBounds(a: nat, b: int)
    requires b > 0
    ensures 0 <= a / b && (a / b) * b <= a < (a / b) * b + b
  {
    assert a == (a / b) * b + a % b;
  }

  /** Kotlin's `/` on integers, which rounds toward zero. */
  function Quot(a: int, b: int): (q: int)
    requires b > 0
    ensures a >= 0 ==> 0 <= q && q * b <= a < q * b + b
    ensures a < 0 ==> q <= 0 && q * b - b < a <= q * b
  {
    if a >= 0 then
      DivBounds(a, b);
      a / b
    else
      DivBounds(-a, b);
      -((-a) / b)
  }

  /** Kotlin's `%` on integers, whose sign follows the dividend. */
  function Rem(a: int, b: int): (r: int)
    requires b > 0
    ensures Quot(a, b) * b + r == a
    ensures a >= 0 ==> 0 <= r < b
    ensures a < 0 ==> -b < r <= 0
  {
    if a >= 0 then a % b else -((-a) % b)
  }

  const SecondsPerMinute := 60
  const SecondsPerHour := 3600
  const SecondsPerDay := 86400

  /** The two numbers (or one) that are spoken, and their units. */
  datatype ElapsedText =
    | DaysHours(days: int, hours: int)
    | HoursMinutes(hours: int, minutes: int)
    | MinutesSeconds(minutes: int, seconds: int)
    | SecondsOnly(seconds: int)

  function Spoken(t: ElapsedText): string {
    match t
    case DaysHours(d, h) => IntToDecimal(d) + " days " + IntToDecimal(h) + " hours"
    case HoursMinutes(h, m) => IntToDecimal(h) + " hours " + IntToDecimal(m) + " minutes"
    case MinutesSeconds(m, s) => IntToDecimal(m) + " minutes " + IntToDecimal(s) + " seconds"
    case SecondsOnly(s) => IntToDecimal(s) + " seconds"
  }

  /** The number of seconds the spoken pair stands for, and the size of its smaller unit. */
  function Value(t: ElapsedText): int {
    match t
    case DaysHours(d, h) => d * SecondsPerDay + h * SecondsPerHour
    case HoursMinutes(h, m) => h * SecondsPerHour + m * SecondsPerMinute
    case MinutesSeconds(m, s) => m * SecondsPerMinute + s
    case SecondsOnly(s) => s
  }

  function Grain(t: ElapsedText): nat {
    match t
    case DaysHours(_, _) => SecondsPerHour
    case HoursMinutes(_, _) => SecondsPerMinute
    case _ => 1
  }

  /** The spoken pair is the duration cut down to the smaller unit: nothing lost but the rest. */
  predicate Truncates(t: ElapsedText, elapsed: int) {
    Value(t) <= elapsed < Value(t) + Grain(t)
  }

  /** The unit chosen is the largest one of which at least one whole unit has elapsed. */
  predicate LargestUnit(t: ElapsedText, elapsed: int) {
    (t.DaysHours? <==> elapsed >= SecondsPerDay) &&
    (t.HoursMinutes? <==> SecondsPerHour <= elapsed < SecondsPerDay) &&
    (t.MinutesSeconds? <==> SecondsPerMinute <= elapsed < SecondsPerHour) &&
    (t.SecondsOnly? <==> elapsed < SecondsPerMinute)
  }

  /**
   * The if-chain of `renderDuration` as written. In the hours branch the minutes are taken
   * `% 24`, not `% 60`.
   */
  function SplitDuration(elapsed: int): (t: ElapsedText)
    ensures LargestUnit(t, elapsed)
    ensures t.SecondsOnly? ==> t.seconds == elapsed
    ensures t.DaysHours? ==> t.days == elapsed / SecondsPerDay && 0 <= t.hours < 24
    ensures t.HoursMinutes? ==> 1 <= t.hours < 24 && 0 <= t.minutes < 24
    ensures t.MinutesSeconds? ==> 1 <= t.minutes < 60 && 0 <= t.seconds < 60
  {
    var days := Quot(elapsed, SecondsPerDay);
    var hours := Quot(elapsed, SecondsPerHour);
    var minutes := Quot(elapsed, SecondsPerMinute);
    if days > 0 then DaysHours(days, Rem(hours, 24))
    else if hours > 0 then HoursMinutes(hours, Rem(minutes, 24))
    else if minutes > 0 then MinutesSeconds(minutes, Rem(elapsed, 60))
    else SecondsOnly(elapsed)
  }

  /**
   * The text spoken after "Time elapsed: ", by the range the duration falls in: whole days
   * and the hours of the day, whole hours and the minutes taken `% 24`, whole minutes and the
   * seconds of the minute, or the seconds alone (a negative duration included).
   */
  function RenderDuration(elapsed: int): (r: string)
    ensures elapsed >= SecondsPerDay ==>
      r == Spoken(DaysHours(elapsed / SecondsPerDay, elapsed / SecondsPerHour % 24))
    ensures SecondsPerHour <= elapsed < SecondsPerDay ==>
      r == Spoken(HoursMinutes(elapsed / SecondsPerHour, elapsed / SecondsPerMinute % 24))
    ensures SecondsPerMinute <= elapsed < SecondsPerHour ==>
      r == Spoken(MinutesSeconds(elapsed / SecondsPerMinute, elapsed % SecondsPerMinute))
    ensures elapsed < SecondsPerMinute ==> r == Spoken(SecondsOnly(elapsed))
  {
    Spoken(SplitDuration(elapsed))
  }

  /** The hours branch as evidently intended: minutes of the hour, `% 60`. */
  function SplitDurationIntended(elapsed: int): (t: ElapsedText)
    ensures LargestUnit(t, elapsed)
    ensures elapsed >= 0 ==> Truncates(t, elapsed)
  {
    var days := Quot(elapsed, SecondsPerDay);
    var hours := Quot(elapsed, SecondsPerHour);
    var minutes := Quot(elapsed, SecondsPerMinute);
    if days > 0 then
      assert hours == days * 24 + Rem(hours, 24);
      DaysHours(days, Rem(hours, 24))
    else if hours > 0 then
      assert minutes == hours * 60 + Rem(minutes, 60);
      HoursMinutes(hours, Rem(minutes, 60))
    else if minutes > 0 then MinutesSeconds(minutes, Rem(elapsed, 60))
    else SecondsOnly(elapsed)
  }

  /** The as-written rendering keeps every branch but the hours one exact. */
  lemma SplitDurationExactOutsideHours(elapsed: int)
    requires elapsed >= 0
    requires !SplitDuration(elapsed).HoursMinutes?
    ensures SplitDuration(elapsed) == SplitDurationIntended(elapsed)
    ensures Truncates(SplitDuration(elapsed), elapsed)
  {
  }

  /** One and a half hours is spoken as "1 hours 18 minutes": 90 minutes taken modulo 24. */
  lemma HoursBranchDropsMinutes()
    ensures SplitDuration(5400) == HoursMinutes(1, 18)
    ensures RenderDuration(5400) == "1 hours 18 minutes"
    ensures !Truncates(SplitDuration(5400), 5400)
    ensures SplitDurationIntended(5400) == HoursMinutes(1, 30)
  {
    assert NatToDecimal(18) == "18";
  }
}
