/**
 * The "time ago" labels. Three screens carry their own copy of the same
 * cascade over `now - timestamp` in milliseconds: whole days, else whole
 * hours, else whole minutes, else "Just now". The copies differ only in how
 * they spell the minute unit. The clock reading is the `now` parameter.
 */
module TimeAgo {
  import opened Text

  const MillisPerMinute: int := 60000
  const MillisPerHour: int := 3600000
  const MillisPerDay: int := 86400000

  /** Kotlin's `Long` division, which truncates toward zero. */
  function Quot(a: int, b: int): (q: int)
    requires b > 0
    ensures a >= 0 ==> q == a / b
    ensures a < 0 ==> q <= 0
  {
    if a >= 0 then a / b else -((-a) / b)
  }

  /** Whole seconds, then whole minutes, hours and days, are whole multiples of the next unit. */
  lemma Cascade(diff: int)
    requires diff >= 0
    ensures diff / 1000 / 60 == diff / MillisPerMinute
    ensures diff / MillisPerMinute / 60 == diff / MillisPerHour
    ensures diff / MillisPerHour / 24 == diff / MillisPerDay
  {
  }

  /** The whole number of `unit`s in `diff`, bracketed by multiples of `unit`. */
  lemma Bracket(diff: int, unit: int)
    requires diff >= 0 && unit > 0
    ensures (diff / unit) * unit <= diff < (diff / unit + 1) * unit
  {
    assert diff == unit * (diff / unit) + diff % unit;
  }

  datatype TimeUnit = Day | Hour | Minute

  /** What a label says: nothing measurable, or a whole count of one unit. */
  datatype Elapsed = JustNow | Ago(count: nat, unit: TimeUnit)

  /** The length of one `unit` in milliseconds. */
  function Millis(unit: TimeUnit): int {
    match unit
    case Day => MillisPerDay
    case Hour => MillisPerHour
    case Minute => MillisPerMinute
  }

  /** The cascade on `diff = now - timestamp`, with truncating division.
      "Just now" covers every diff under a minute, negative ones included;
      otherwise the label counts whole units of the largest unit that fits. */
  function ElapsedOf(diff: int): (e: Elapsed)
    ensures e == JustNow <==> diff < MillisPerMinute
    ensures e.Ago? ==> e.count >= 1 && e.count * Millis(e.unit) <= diff < (e.count + 1) * Millis(e.unit)
    ensures e.Ago? && e.unit == Hour ==> diff < MillisPerDay
    ensures e.Ago? && e.unit == Minute ==> diff < MillisPerHour
    ensures e.Ago? && e.unit == Day ==> diff >= MillisPerDay
  {
    var seconds := Quot(diff, 1000);
    var minutes := Quot(seconds, 60);
    var hours := Quot(minutes, 60);
    var days := Quot(hours, 24);
    if diff >= 0 then
      Cascade(diff);
      Bracket(diff, MillisPerDay);
      Bracket(diff, MillisPerHour);
      Bracket(diff, MillisPerMinute);
      if days > 0 then Ago(days, Day)
      else if hours > 0 then Ago(hours, Hour)
      else if minutes > 0 then Ago(minutes, Minute)
      else JustNow
    else
      assert days <= 0 && hours <= 0 && minutes <= 0;
      JustNow
  }

  /** The two spellings of the minute unit. */
  datatype MinuteSpelling = Min | MinuteWord

  function UnitWord(unit: TimeUnit, spelling: MinuteSpelling): (w: string)
    ensures |w| >= 3 && w[|w| - 1] != 's'
  {
    match unit
    case Day => "day"
    case Hour => "hour"
    case Minute => if spelling == Min then "min" else "minute"
  }

  /** "<count> <unit>[s] ago". */
  function AgoText(count: nat, word: string): (s: string)
    ensures |s| >= |word| + 6 && IsDigit(s[0]) && s[|s| - 4..] == " ago"
  {
    NatToString(count) + " " + word + PluralS(count > 1) + " ago"
  }

  /** The count reads back from the leading digits, the unit follows a
      space, and the plural "s" sits between the unit and " ago" exactly
      when the count is above 1. */
  lemma AgoTextShape(count: nat, word: string)
    ensures var s := AgoText(count, word);
      var k := |NatToString(count)|;
      |s| >= k + |word| + 5
      && (forall i :: 0 <= i < k ==> IsDigit(s[i])) && ParseDigits(s[..k]) == count
      && s[k] == ' ' && s[k + 1..k + 1 + |word|] == word
      && s[|s| - 4..] == " ago"
      && (s[k + 1 + |word|] == 's' <==> count > 1)
  {
    var digits := NatToString(count);
    var s := AgoText(count, word);
    assert s[..|digits|] == digits;
    NatToStringRoundTrip(count);
  }

  /** `getTimeAgo(timestamp)` read at clock value `now`. */
  function TimeAgoText(now: int, timestamp: int, spelling: MinuteSpelling): (s: string)
    ensures s == "Just now" <==> now - timestamp < MillisPerMinute
  {
    match ElapsedOf(now - timestamp)
    case JustNow => "Just now"
    case Ago(count, unit) =>
      var s := AgoText(count, UnitWord(unit, spelling));
      assert s[0] != "Just now"[0];
      s
  }

  /** A label for a minute or more is the count and unit of `ElapsedOf`,
      laid out as `AgoText`; the character before " ago" is the plural "s"
      exactly when the count is above 1. */
  lemma TimeAgoShape(now: int, timestamp: int, spelling: MinuteSpelling)
    requires now - timestamp >= MillisPerMinute
    ensures var e := ElapsedOf(now - timestamp);
      var s := TimeAgoText(now, timestamp, spelling);
      s == AgoText(e.count, UnitWord(e.unit, spelling))
      && |s| >= 5 && (s[|s| - 5] == 's' <==> e.count > 1)
  {
    var e := ElapsedOf(now - timestamp);
    var w := UnitWord(e.unit, spelling);
    var s := AgoText(e.count, w);
    var k := |NatToString(e.count)|;
    AgoTextShape(e.count, w);
    assert |s| == k + 1 + |w| + |PluralS(e.count > 1)| + 4;
    if e.count > 1 {
      assert s[|s| - 5] == s[k + 1 + |w|];
    } else {
      assert s[|s| - 5] == s[k + 1..k + 1 + |w|][|w| - 1];
    }
  }

  /** The list and activity-log screens abbreviate the minute unit. */
  lemma AbbreviatedMinutes(now: int, timestamp: int)
    requires MillisPerMinute <= now - timestamp < MillisPerHour
    ensures var s := TimeAgoText(now, timestamp, Min);
      var k := |NatToString(ElapsedOf(now - timestamp).count)|;
      s[k + 1..k + 4] == "min" && (s[k + 4] == 's' <==> now - timestamp >= 2 * MillisPerMinute)
  {
    AgoTextShape(ElapsedOf(now - timestamp).count, "min");
  }

  /** The map's info window spells the minute unit out. */
  lemma FullMinutes(now: int, timestamp: int)
    requires MillisPerMinute <= now - timestamp < MillisPerHour
    ensures var s := TimeAgoText(now, timestamp, MinuteWord);
      var k := |NatToString(ElapsedOf(now - timestamp).count)|;
      s[k + 1..k + 7] == "minute" && (s[k + 7] == 's' <==> now - timestamp >= 2 * MillisPerMinute)
  {
    AgoTextShape(ElapsedOf(now - timestamp).count, "minute");
  }
}
