/**
 * Pickup scheduling on the payment screen. A moment is an integer count of
 * minutes of local time, so the calendar day is `t / 1440` and the hour of
 * the day `(t % 1440) / 60`; the clock's current time `now` is a parameter.
 */
module Pickup {

  const STORE_OPENING_HOUR: int := 10
  const STORE_CLOSING_HOUR: int := 20
  const MINUTES_PER_DAY: int := 1440
  const LEAD_MINUTES: int := 30
  const MAX_ADVANCE_DAYS: int := 7

  function Day(t: int): int { t / MINUTES_PER_DAY }
  function MinuteOfDay(t: int): int { t % MINUTES_PER_DAY }
  function Hour(t: int): int { MinuteOfDay(t) / 60 }
  function MinuteOfHour(t: int): int { t % 60 }

  /** The store is open from 10:00 up to, not including, 20:00. */
  predicate InStoreHours(t: int) {
    STORE_OPENING_HOUR <= Hour(t) < STORE_CLOSING_HOUR
  }

  /**
   * The guard chain of the pickup check, in its order: not in the past,
   * inside store hours, at least 30 minutes ahead when it is today, and no
   * more than 7 days ahead.
   */
  predicate IsValidPickupDateTime(d: int, now: int) {
    if d < now then false
    else if Hour(d) < STORE_OPENING_HOUR || Hour(d) >= STORE_CLOSING_HOUR then false
    else if Day(d) == Day(now) && d < now + LEAD_MINUTES then false
    else if d > now + MAX_ADVANCE_DAYS * MINUTES_PER_DAY then false
    else true
  }

  /**
   * The four guards amount to: inside store hours, and between 30 minutes
   * and 7 days from now. The 30-minute lead, which the code asks only for
   * today, holds on later days as well, since the store opens at 10:00.
   */
  lemma ValidPickupWindow(d: int, now: int)
    ensures IsValidPickupDateTime(d, now) <==>
      InStoreHours(d) && now + LEAD_MINUTES <= d <= now + MAX_ADVANCE_DAYS * MINUTES_PER_DAY
  {
    if IsValidPickupDateTime(d, now) && Day(d) != Day(now) {
      assert Day(now) < Day(d);
      assert now < (Day(now) + 1) * MINUTES_PER_DAY;
      assert (Day(now) + 1) * MINUTES_PER_DAY <= Day(d) * MINUTES_PER_DAY;
      assert d == Day(d) * MINUTES_PER_DAY + MinuteOfDay(d);
    }
  }

  /** Ten minutes ahead at noon is refused; forty-five minutes ahead is accepted. */
  lemma LeadTimeExample()
    ensures !IsValidPickupDateTime(20000 * MINUTES_PER_DAY + 12 * 60 + 10, 20000 * MINUTES_PER_DAY + 12 * 60)
    ensures IsValidPickupDateTime(20000 * MINUTES_PER_DAY + 12 * 60 + 45, 20000 * MINUTES_PER_DAY + 12 * 60)
  {
  }

  /**
   * What the default pickup time is meant to be: the earliest quarter hour
   * that lies at least 30 minutes after `now` and inside store hours.
   */
  ghost predicate IsDefaultPickupTime(t: int, now: int) {
    t % 15 == 0 && t >= now + LEAD_MINUTES && InStoreHours(t)
    && forall u :: u % 15 == 0 && u >= now + LEAD_MINUTES && InStoreHours(u) ==> t <= u
  }

  /** There is only one default pickup time for a given moment. */
  lemma DefaultPickupTimeUnique(t: int, t': int, now: int)
    requires IsDefaultPickupTime(t, now) && IsDefaultPickupTime(t', now)
    ensures t == t'
  {
  }

  /** A multiple of 15 less than 15 past `from` is the least multiple of 15 not before `from`. */
  lemma QuarterCeiling(from: int, c: int, u: int)
    requires c % 15 == 0 && from <= c < from + 15
    requires u % 15 == 0 && u >= from
    ensures c <= u
  {
    var k, j := c / 15, u / 15;
    assert c == 15 * k && u == 15 * j;
  }

  /** `c` is the least quarter hour not before `from`. */
  ghost predicate LeastQuarterFrom(c: int, from: int) {
    c % 15 == 0 && from <= c < from + 15
  }

  /**
   * Rounding the minutes of the hour up to a quarter and adding the lead
   * time lands on the least quarter hour not before `now` plus the lead.
   */
  lemma RoundedUpQuarter(now: int)
    ensures LeastQuarterFrom(now - MinuteOfHour(now) + (MinuteOfHour(now) + 14) / 15 * 15 + LEAD_MINUTES, now + LEAD_MINUTES)
  {
    var k, m := now / 60, now % 60;
    var q := (m + 14) / 15;
    assert now == 60 * k + m;
    assert 15 * q - 14 <= m <= 15 * q;
    assert now - m + q * 15 + LEAD_MINUTES == 15 * (4 * k + q + 2);
  }

  /** 10:00 on day `day`: a quarter hour inside store hours. */
  lemma OpeningTime(day: int)
    ensures var t := day * MINUTES_PER_DAY + STORE_OPENING_HOUR * 60;
      t % 15 == 0 && Day(t) == day && MinuteOfDay(t) == STORE_OPENING_HOUR * 60 && InStoreHours(t)
  {
    var t := day * MINUTES_PER_DAY + STORE_OPENING_HOUR * 60;
    ComposeMoment(day, STORE_OPENING_HOUR * 60);
    assert t == 15 * (96 * day + 40);
  }

  /** No time in store hours lies between a time before opening and 10:00 of its day. */
  lemma NothingBeforeOpening(c: int, u: int)
    requires Hour(c) < STORE_OPENING_HOUR && c <= u && InStoreHours(u)
    ensures Day(c) * MINUTES_PER_DAY + STORE_OPENING_HOUR * 60 <= u
  {
    assert c == Day(c) * MINUTES_PER_DAY + MinuteOfDay(c);
    assert u == Day(u) * MINUTES_PER_DAY + MinuteOfDay(u);
  }

  /** No time in store hours lies between a time after closing and 10:00 of the next day. */
  lemma NothingAfterClosing(c: int, u: int)
    requires Hour(c) >= STORE_CLOSING_HOUR && c <= u && InStoreHours(u)
    ensures (Day(c) + 1) * MINUTES_PER_DAY + STORE_OPENING_HOUR * 60 <= u
  {
    assert c == Day(c) * MINUTES_PER_DAY + MinuteOfDay(c);
    assert u == Day(u) * MINUTES_PER_DAY + MinuteOfDay(u);
    assert Day(c) < Day(u);
  }

  /** When the rounded-up time falls inside store hours, it is the default. */
  lemma InHoursIsDefault(now: int, c: int)
    requires LeastQuarterFrom(c, now + LEAD_MINUTES) && InStoreHours(c)
    ensures IsDefaultPickupTime(c, now)
  {
    forall u | u % 15 == 0 && u >= now + LEAD_MINUTES && InStoreHours(u)
      ensures c <= u
    {
      QuarterCeiling(now + LEAD_MINUTES, c, u);
    }
  }

  /** When the rounded-up time falls before opening, 10:00 that day is the default. */
  lemma BeforeOpeningIsDefault(now: int, c: int)
    requires LeastQuarterFrom(c, now + LEAD_MINUTES) && Hour(c) < STORE_OPENING_HOUR
    ensures IsDefaultPickupTime(Day(c) * MINUTES_PER_DAY + STORE_OPENING_HOUR * 60, now)
  {
    OpeningTime(Day(c));
    assert c == Day(c) * MINUTES_PER_DAY + MinuteOfDay(c);
    forall u | u % 15 == 0 && u >= now + LEAD_MINUTES && InStoreHours(u)
      ensures Day(c) * MINUTES_PER_DAY + STORE_OPENING_HOUR * 60 <= u
    {
      QuarterCeiling(now + LEAD_MINUTES, c, u);
      NothingBeforeOpening(c, u);
    }
  }

  /** When the rounded-up time falls at or after closing, 10:00 the next day is the default. */
  lemma AfterClosingIsDefault(now: int, c: int)
    requires LeastQuarterFrom(c, now + LEAD_MINUTES) && Hour(c) >= STORE_CLOSING_HOUR
    ensures IsDefaultPickupTime((Day(c) + 1) * MINUTES_PER_DAY + STORE_OPENING_HOUR * 60, now)
  {
    OpeningTime(Day(c) + 1);
    assert c < (Day(c) + 1) * MINUTES_PER_DAY;
    forall u | u % 15 == 0 && u >= now + LEAD_MINUTES && InStoreHours(u)
      ensures (Day(c) + 1) * MINUTES_PER_DAY + STORE_OPENING_HOUR * 60 <= u
    {
      QuarterCeiling(now + LEAD_MINUTES, c, u);
      NothingAfterClosing(c, u);
    }
  }

  /** The default pickup time passes the pickup check: it is no later than 10:00 tomorrow. */
  lemma DefaultIsValid(t: int, now: int)
    requires IsDefaultPickupTime(t, now)
    ensures IsValidPickupDateTime(t, now)
  {
    var tomorrow := (Day(now) + 1) * MINUTES_PER_DAY + STORE_OPENING_HOUR * 60;
    OpeningTime(Day(now) + 1);
    assert now < (Day(now) + 1) * MINUTES_PER_DAY;
    assert t <= tomorrow;
    ValidPickupWindow(t, now);
  }

  /**
   * The default pickup time, step by step as the screen computes it: round
   * the minutes up to a quarter hour (60 carries into the next hour), add
   * the 30-minute preparation time, then move a time before opening to
   * 10:00 that day and a time at or after closing to 10:00 the next day.
   */
  method DefaultPickupTime(now: int) returns (t: int)
    ensures IsDefaultPickupTime(t, now)
    ensures IsValidPickupDateTime(t, now)
  {
    var minutes := MinuteOfHour(now);
    var roundedMinutes := (minutes + 14) / 15 * 15;
    RoundedUpQuarter(now);
    t := now - minutes + roundedMinutes;
    t := t + LEAD_MINUTES;
    ghost var c := t;
    if Hour(t) < STORE_OPENING_HOUR {
      BeforeOpeningIsDefault(now, c);
      t := Day(t) * MINUTES_PER_DAY + STORE_OPENING_HOUR * 60;
    } else if Hour(t) >= STORE_CLOSING_HOUR {
      AfterClosingIsDefault(now, c);
      t := (Day(t) + 1) * MINUTES_PER_DAY + STORE_OPENING_HOUR * 60;
    } else {
      InHoursIsDefault(now, c);
    }
    DefaultIsValid(t, now);
  }

  /** A day and a minute of that day make one moment, and can be read back from it. */
  lemma ComposeMoment(day: int, m: int)
    requires 0 <= m < MINUTES_PER_DAY
    ensures var t := day * MINUTES_PER_DAY + m;
      Day(t) == day && MinuteOfDay(t) == m && Hour(t) == m / 60 && MinuteOfHour(t) == m % 60
  {
    var t := day * MINUTES_PER_DAY + m;
    assert t == (24 * day + m / 60) * 60 + m % 60;
  }

  /** Picking a date keeps the time of day: the day of `selected`, the clock time of `current`. */
  function WithDateOf(current: int, selected: int): (r: int)
    ensures Day(r) == Day(selected) && MinuteOfDay(r) == MinuteOfDay(current)
  {
    ComposeMoment(Day(selected), MinuteOfDay(current));
    Day(selected) * MINUTES_PER_DAY + MinuteOfDay(current)
  }

  /** Picking a time keeps the date: the day of `current`, the hour and minute of `selected`. */
  function WithTimeOf(current: int, selected: int): (r: int)
    ensures Day(r) == Day(current)
    ensures Hour(r) == Hour(selected) && MinuteOfHour(r) == MinuteOfHour(selected)
  {
    var m := Hour(selected) * 60 + MinuteOfHour(selected);
    ComposeMoment(Day(current), m);
    assert m / 60 == Hour(selected) && m % 60 == MinuteOfHour(selected);
    Day(current) * MINUTES_PER_DAY + m
  }

  /** 10:00 on the day of `selected`, the fallback when a picked date does not fit the kept time. */
  function OpeningOn(selected: int): (r: int)
    ensures Day(r) == Day(selected) && Hour(r) == STORE_OPENING_HOUR && MinuteOfHour(r) == 0
  {
    ComposeMoment(Day(selected), STORE_OPENING_HOUR * 60);
    Day(selected) * MINUTES_PER_DAY + STORE_OPENING_HOUR * 60
  }
}
