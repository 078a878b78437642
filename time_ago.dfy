/**
 * `formatTimeAgo`: the relative-time label shown under each message.
 * Parsing the ISO timestamp is not modelled: the caller passes the parsed time
 * in epoch milliseconds, or `None` when the date is invalid, and the current
 * time `now` in epoch milliseconds.
 */
module TimeAgo {
  import opened Wrappers
  import opened Text

  /** "N unit ago" with the plural 's' exactly when N is more than one. */
  function Label(count: nat, unit: string): string {
    Show(count) + " " + unit + (if count > 1 then "s" else "") + " ago"
  }

  const MsPerSecond := 1000
  const MsPerMinute := 60 * MsPerSecond
  const MsPerHour := 60 * MsPerMinute
  const MsPerDay := 24 * MsPerHour
  const MsPerMonth := 30 * MsPerDay
  const MsPerYear := 365 * MsPerDay

  /** The bucketing of the source: successive floor divisions of the elapsed seconds.
      The result is stated against the elapsed milliseconds directly: each bucket is a
      range of elapsed time and its count one floor division of it. */
  function FormatTimeAgo(date: Option<int>, now: int): (r: string)
    ensures date.None? ==> r == ""
    ensures date.Some? ==>
      var e := now - date.value;
      (e < 5 * MsPerSecond ==> r == "just now") &&
      (5 * MsPerSecond <= e < MsPerMinute ==> r == Show(e / MsPerSecond) + " secs ago") &&
      (MsPerMinute <= e < MsPerHour ==> r == Label(e / MsPerMinute, "min")) &&
      (MsPerHour <= e < MsPerDay ==> r == Label(e / MsPerHour, "hour")) &&
      (MsPerDay <= e < MsPerMonth ==> r == Label(e / MsPerDay, "day")) &&
      (MsPerMonth <= e < 12 * MsPerMonth ==> r == Label(e / MsPerMonth, "month")) &&
      (12 * MsPerMonth <= e ==> r == Label(e / MsPerYear, "year"))
  {
    if date.None? then ""
    else
      var e := now - date.value;
      var seconds := e / 1000;
      if seconds < 5 then "just now"
      else if seconds < 60 then Show(seconds) + " secs ago"
      else
        var minutes := seconds / 60;
        DivDiv(e, 1000, 60);
        if minutes < 60 then Label(minutes, "min")
        else
          var hours := minutes / 60;
          DivDiv(e, 60000, 60);
          if hours < 24 then Label(hours, "hour")
          else
            var days := hours / 24;
            DivDiv(e, 3600000, 24);
            if days < 30 then Label(days, "day")
            else
              var months := days / 30;
              DivDiv(e, 86400000, 30);
              if months < 12 then Label(months, "month")
              else
                var years := days / 365;
                DivDiv(e, 86400000, 365);
                Label(years, "year")
  }

  /** Two floor divisions in a row are one floor division by the product, and the
      thresholds carry over: `a / b < c` iff `a < b * c`. */
  lemma DivDiv(a: int, b: int, c: int)
    requires b > 0 && c > 0
    ensures (a / b) / c == a / (b * c)
    ensures a / b < c <==> a < b * c
  {
    var q, r := a / b, a % b;
    var q2, r2 := q / c, q % c;
    assert q == c * q2 + r2;
    var rest := b * r2 + r;
    assert a == (b * c) * q2 + rest by {
      Distribute(b, c * q2, r2);
      assert b * (c * q2) == (b * c) * q2;
    }
    assert 0 <= rest < b * c by {
      MulMonotone(b, r2, c - 1);
      Distribute(b, c - 1, 1);
    }
    DivUnique(a, b * c, q2, rest);
    if q >= c {
      MulMonotone(b, c, q);
      assert a >= b * c;
    } else {
      MulMonotone(b, q, c - 1);
      Distribute(b, c - 1, 1);
      assert a < b * c;
    }
  }

  lemma Distribute(a: int, x: int, y: int)
    ensures a * (x + y) == a * x + a * y
  {
  }

  lemma MulMonotone(d: int, x: int, y: int)
    requires d >= 0 && x <= y
    ensures d * x <= d * y
  {
    Distribute(d, x, y - x);
  }

  /** Euclidean division is determined by any quotient and in-range remainder. */
  lemma DivUnique(a: int, d: int, q: int, r: int)
    requires d > 0 && a == d * q + r && 0 <= r < d
    ensures a / d == q && a % d == r
  {
    var q0, r0 := a / d, a % d;
    assert d * q0 + r0 == d * q + r;
    if q0 < q {
      Distribute(d, q0, q - q0);
      MulMonotone(d, 1, q - q0);
      assert false;
    } else if q0 > q {
      Distribute(d, q, q0 - q);
      MulMonotone(d, 1, q0 - q);
      assert false;
    }
  }

  /** Anything under five seconds, including a time in the future, is "just now",
      and nothing else is. */
  lemma JustNowIff(date: int, now: int)
    ensures FormatTimeAgo(Some(date), now) == "just now" <==> now - date < 5000
  {
    var r := FormatTimeAgo(Some(date), now);
    if now - date >= 5000 {
      assert r[|r| - 4..] == " ago";
    }
  }

  /** Between 360 and 364 days the month bucket is passed over and the year count is
      still zero: the label reads "0 year ago". */
  lemma ZeroYearQuirk(date: int, now: int)
    requires 360 * MsPerDay <= now - date < 365 * MsPerDay
    ensures FormatTimeAgo(Some(date), now) == "0 year ago"
  {
    var e := now - date;
    assert MsPerYear == 31536000000 && 12 * MsPerMonth == 31104000000;
    assert 12 * MsPerMonth <= e < MsPerYear;
    DivUnique(e, 31536000000, 0, e);
    YearBucket(date, now);
    ZeroYearLabel();
  }

  lemma YearBucket(date: int, now: int)
    requires 12 * MsPerMonth <= now - date
    ensures FormatTimeAgo(Some(date), now) == Label((now - date) / MsPerYear, "year")
  {
  }

  lemma ZeroYearLabel()
    ensures Label(0, "year") == "0 year ago"
  {
    assert Show(0) == "0";
  }
}
