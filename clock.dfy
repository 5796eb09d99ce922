/** The days/hours/minutes/seconds split of a number of seconds that the
    dashboard counter and both market countdowns compute the same way:
    `floor(diff / 86400)`, `floor((diff % 86400) / 3600)`,
    `floor((diff % 3600) / 60)` and `diff % 60`. */
module Clock {
  import opened Base

  const SECONDS_PER_DAY: nat := 86400
  const SECONDS_PER_HOUR: nat := 3600
  const SECONDS_PER_MINUTE: nat := 60

  datatype Duration = Duration(days: nat, hours: nat, minutes: nat, seconds: nat)

  /** Every unit below a day is under its carry limit. */
  predicate Normal(d: Duration) {
    d.hours < 24 && d.minutes < 60 && d.seconds < 60
  }

  function TotalSeconds(d: Duration): nat {
    d.days * SECONDS_PER_DAY + d.hours * SECONDS_PER_HOUR + d.minutes * SECONDS_PER_MINUTE + d.seconds
  }

  /** The split as the source computes it, for a non-negative difference:
      the units add back up to the difference and none overflows. */
  function Decompose(diff: nat): (d: Duration)
    ensures Normal(d)
    ensures TotalSeconds(d) == diff
  {
    var d := Duration(diff / 86400, (diff % 86400) / 3600, (diff % 3600) / 60, diff % 60);
    DecomposeSums(diff);
    d
  }

  /** `parseInt(date) - now`, the seconds left until a date held as
      decimal text: NaN when the date does not parse. */
  function Diff(date: string, now: int): Parsed {
    match ParseInt(date)
    case NaN => NaN
    case Num(t) => Num(t - now)
  }

  /** The hour remainder of the day remainder is the hour remainder, and
      the minute remainder of that is the minute remainder. */
  lemma DecomposeSums(diff: nat)
    ensures (diff / 86400) * 86400 + ((diff % 86400) / 3600) * 3600 + ((diff % 3600) / 60) * 60 + diff % 60 == diff
    ensures (diff % 86400) / 3600 < 24
  {
    var days, r := diff / 86400, diff % 86400;
    assert diff == days * 86400 + r;
    var hours, r' := r / 3600, r % 3600;
    assert r == hours * 3600 + r';
    assert diff == (days * 24 + hours) * 3600 + r';
    assert diff % 3600 == r' by {
      DivModOf(days * 24 + hours, 3600, r');
    }
    var minutes, s := r' / 60, r' % 60;
    assert r' == minutes * 60 + s;
    assert diff == ((days * 24 + hours) * 60 + minutes) * 60 + s;
    assert diff % 60 == s by {
      DivModOf((days * 24 + hours) * 60 + minutes, 60, s);
    }
  }

  /** The split is the only normal duration with the given total. */
  lemma DecomposeUnique(diff: nat, d: Duration)
    requires Normal(d) && TotalSeconds(d) == diff
    ensures d == Decompose(diff)
  {
    var below := d.hours * 3600 + d.minutes * 60 + d.seconds;
    assert below < 86400;
    DivModOf(d.days, 86400, below);
    var belowHour := d.minutes * 60 + d.seconds;
    DivModOf(d.hours, 3600, belowHour);
    DivModOf(d.days * 24 + d.hours, 3600, belowHour);
    assert diff == (d.days * 24 + d.hours) * 3600 + belowHour;
    DivModOf(d.minutes, 60, d.seconds);
    DivModOf((d.days * 24 + d.hours) * 60 + d.minutes, 60, d.seconds);
    assert diff == ((d.days * 24 + d.hours) * 60 + d.minutes) * 60 + d.seconds;
  }
}
