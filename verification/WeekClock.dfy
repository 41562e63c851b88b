/** Days from 04:00 to 04:00 and weeks from Monday to Monday (UTC+8). */
module WeekClock {

  /** Integer division and remainder of the source: towards zero. */
  function TruncDiv(a: int, b: int): int
    requires b > 0
  {
    if a >= 0 then a / b else -((-a) / b)
  }

  function TruncMod(a: int, b: int): int
    requires b > 0
  {
    a - b * TruncDiv(a, b)
  }

  /** Days begin at 04:00 (UTC+8). */
  function DayId(now: int): int {
    TruncDiv(now + 4 * 60 * 60, 86400)
  }

  /** The shifted day on which the current week began. */
  function WeekIdAt(now: int): int {
    var shiftedDay := TruncDiv(now + 14400, 86400);
    shiftedDay - TruncMod(shiftedDay + 3, 7)
  }

  function WeekBegin(week: int): int {
    week * 86400 - 14400
  }

  function WeekEnd(week: int): int {
    WeekBegin(week) + 7 * 24 * 60 * 60
  }

  lemma DayBounds(now: int)
    requires now >= -14400
    ensures DayId(now) * 86400 <= now + 14400 < (DayId(now) + 1) * 86400 && DayId(now) >= 0
  {}

  lemma WeekdayBounds(d: int)
    requires d >= -3
    ensures 0 <= TruncMod(d + 3, 7) < 7 && (d - TruncMod(d + 3, 7) + 3) % 7 == 0
  {}

  /** The weekday remainder before the first Monday the clock knows is not positive. */
  lemma EarlyWeekday(d: int)
    requires d < -3
    ensures -7 < TruncMod(d + 3, 7) <= 0
  {}

  /** The current week contains now for every time from three shifted days before the epoch on;
      earlier it does so only at the very start of a week. */
  lemma WeekContainsNow(now: int)
    ensures WeekBegin(WeekIdAt(now)) <= now < WeekEnd(WeekIdAt(now))
            <==> (now >= -273600 || (now + 273600) % 604800 == 0)
  {
    var d := TruncDiv(now + 14400, 86400);
    if now >= -14400 {
      DayBounds(now);
      WeekdayBounds(d);
    } else {
      assert (d - 1) * 86400 < now + 14400 <= d * 86400;
      if d >= -3 {
        assert TruncMod(d + 3, 7) == d + 3;
        if d == -3 && now < -273600 { NoBoundary(now + 273600); }
      } else {
        EarlyWeekday(d);
        var w := WeekIdAt(now);
        assert w >= d;
        EarlyBoundary(now, d);
      }
    }
  }

  lemma NoBoundary(x: int)
    requires -604800 < x < 0
    ensures x % 604800 != 0
  {}

  /** Before that, now begins its week exactly when it is a whole number of weeks away. */
  lemma EarlyBoundary(now: int, d: int)
    requires d < -3 && (d - 1) * 86400 < now + 14400 <= d * 86400 && WeekIdAt(now) == d - TruncMod(d + 3, 7)
    ensures WeekBegin(WeekIdAt(now)) <= now <==> (now + 273600) % 604800 == 0
  {
    EarlyWeekday(d);
    var q := TruncDiv(d + 3, 7);
    assert d + 3 == 7 * q + TruncMod(d + 3, 7);
    if WeekBegin(WeekIdAt(now)) <= now {
      assert now + 14400 == d * 86400 && TruncMod(d + 3, 7) == 0;
      assert now + 273600 == 604800 * q;
      MultipleOfWeek(q);
    }
    if (now + 273600) % 604800 == 0 {
      var m := (now + 273600) / 604800;
      assert now + 14400 == 86400 * (7 * m - 3);
      assert d == 7 * m - 3;
      assert TruncMod(d + 3, 7) == 0;
    }
  }

  lemma MultipleOfWeek(q: int)
    ensures (604800 * q) % 604800 == 0
  {}

  /** Weeks tile the time line: throughout a week the id is the same, and at its end it is seven more. */
  lemma WeeksTile(now: int, t: int)
    requires now >= 0 && WeekBegin(WeekIdAt(now)) <= t <= WeekEnd(WeekIdAt(now)) && t >= 0
    ensures WeekIdAt(t) == if t < WeekEnd(WeekIdAt(now)) then WeekIdAt(now) else WeekIdAt(now) + 7
  {
    hide DayId, TruncMod;
    var w, d := WeekIdAt(now), DayId(t);
    DayBounds(now);
    DayBounds(t);
    WeekdayBounds(DayId(now));
    WeekdayBounds(d);
    WeekIdIs(now);
    WeekIdIs(t);
    assert w <= d <= w + 7;
    NextMultiple(w + 3, WeekIdAt(t) + 3);
  }

  lemma WeekIdIs(now: int)
    ensures WeekIdAt(now) == DayId(now) - TruncMod(DayId(now) + 3, 7)
  {}

  lemma NextMultiple(a: int, b: int)
    requires a % 7 == 0 && b % 7 == 0 && a - 6 <= b <= a + 7
    ensures b == a || b == a + 7
  {
    assert a == 7 * (a / 7) && b == 7 * (b / 7);
  }

  /** The week depends on the day alone, so a change of week is also a change of day. */
  lemma WeekOfDay(a: int, b: int)
    requires DayId(a) == DayId(b)
    ensures WeekIdAt(a) == WeekIdAt(b)
  {}
}
