/** The dashboard's helpers (frontend/app/dashboard/page.tsx): the label
    tables for an option's `chainGasId` and timeframe, the expiry badge and
    the remaining-time counter. Dates are Unix seconds held as decimal
    text; the current time, `Math.floor(Date.now() / 1000)`, is the
    parameter `now`. */
module Dashboard {
  import opened Base
  import opened Clock
  import GasHedgerIndexer

  /** `getOptionName`: the four product labels, "Unknown" otherwise. */
  function GetOptionName(chainGasId: string): (name: string)
    ensures name == "Unknown" <==> chainGasId !in {"0", "1", "2", "3"}
  {
    if chainGasId == "0" then "Blob ETH"
    else if chainGasId == "1" then "Gas ETH"
    else if chainGasId == "2" then "Base Gas"
    else if chainGasId == "3" then "Arb Gas"
    else "Unknown"
  }

  /** `getMarketId`: the market whose icon is shown, `eth-gas` for an
      unknown id. */
  function GetMarketId(chainGasId: string): (market: string)
    ensures chainGasId !in {"0", "2", "3"} <==> market == "eth-gas"
  {
    if chainGasId == "0" then "eth-blob"
    else if chainGasId == "1" then "eth-gas"
    else if chainGasId == "2" then "base-gas"
    else if chainGasId == "3" then "arb-gas"
    else "eth-gas"
  }

  /** `getTimeframeDisplay`: the contract codes '0', '1' and '2' become
      '1D', '7D' and '30D'; any other text is shown as it is. */
  function GetTimeframeDisplay(timeframe: string): (display: string)
    ensures timeframe !in {"0", "1", "2"} ==> display == timeframe
    ensures timeframe in {"0", "1", "2"} ==> display in {"1D", "7D", "30D"}
  {
    if timeframe == "0" then "1D"
    else if timeframe == "1" then "7D"
    else if timeframe == "2" then "30D"
    else timeframe
  }

  /** The badge `getExpirationStatus` returns: its text and its colour
      class. */
  datatype Status = Status(text: string, color: string)

  const SECONDS_PER_WEEK: nat := 604800

  /** `Math.ceil(diff / 86400)` for a positive difference. */
  function CeilDays(diff: nat): nat {
    (diff + 86399) / 86400
  }

  /** `${days} days left`, where a NaN count renders as "NaN". */
  function DaysLeftText(days: Parsed): string {
    match days
    case NaN => "NaN days left"
    case Num(k) => IntToString(k) + " days left"
  }

  /** `getExpirationStatus`: past dates are red, less than a day is orange,
      less than a week yellow and anything else green, the last two showing
      the days left rounded up. An unreadable date fails every comparison
      and lands in the green branch with a NaN count. */
  function GetExpirationStatus(expirationDate: string, now: int): Status {
    match Diff(expirationDate, now)
    case NaN => Status(DaysLeftText(NaN), "text-green-400")
    case Num(diff) =>
      if diff < 0 then Status("Expired", "text-red-400")
      else if diff < SECONDS_PER_DAY then Status("Expires today", "text-orange-400")
      else if diff < SECONDS_PER_WEEK then Status(DaysLeftText(Num(CeilDays(diff))), "text-yellow-400")
      else Status(DaysLeftText(Num(CeilDays(diff))), "text-green-400")
  }

  /** What `handleCounter` returns: the split of the time left, or all four
      fields NaN when the date does not parse (`Math.max(0, NaN)` is NaN). */
  datatype Counter = Remaining(d: Duration) | NaNCounter

  /** `handleCounter`: the time left, clamped at zero, split into days,
      hours, minutes and seconds. */
  function HandleCounter(expirationDate: string, now: int): Counter {
    match Diff(expirationDate, now)
    case NaN => NaNCounter
    case Num(diff) => Remaining(Decompose(if diff < 0 then 0 else diff))
  }

  // ---------------------------------------------------------------------
  // Properties
  // ---------------------------------------------------------------------

  /** The counter's units add back up to the time left, clamped at zero,
      and none of them overflows into the next. */
  lemma CounterSums(date: string, t: int, now: int)
    requires ParseInt(date) == Num(t)
    ensures HandleCounter(date, now).Remaining?
    ensures var d := HandleCounter(date, now).d;
      Normal(d) && TotalSeconds(d) == if t < now then 0 else t - now
  {
    assert Diff(date, now) == Num(t - now);
  }

  /** An expiry in the past, or right now, shows all zeros. */
  lemma CounterPastIsZero(date: string, t: int, now: int)
    requires ParseInt(date) == Num(t) && t <= now
    ensures HandleCounter(date, now) == Remaining(Duration(0, 0, 0, 0))
  {
    CounterSums(date, t, now);
    DecomposeUnique(0, Duration(0, 0, 0, 0));
  }

  /** An unreadable date gives the NaN counter and the green NaN badge. */
  lemma UnreadableDate(s: string, now: int)
    requires s == [] || (!IsJsSpace(s[0]) && !IsDigit(s[0]) && s[0] != '-' && s[0] != '+')
    ensures HandleCounter(s, now) == NaNCounter
    ensures GetExpirationStatus(s, now) == Status("NaN days left", "text-green-400")
  {
    ParseIntNaN(s);
  }

  /** The colour classifies the time left into the four ranges, each
      colour exactly on its range. */
  lemma StatusColors(date: string, t: int, now: int)
    requires ParseInt(date) == Num(t)
    ensures var c := GetExpirationStatus(date, now).color;
      && (c == "text-red-400" <==> t - now < 0)
      && (c == "text-orange-400" <==> 0 <= t - now < 86400)
      && (c == "text-yellow-400" <==> 86400 <= t - now < 604800)
      && (c == "text-green-400" <==> 604800 <= t - now)
  {
    assert Diff(date, now) == Num(t - now);
  }

  /** The two short badges have fixed texts; the other two show the
      rounded-up days. */
  lemma StatusTexts(date: string, t: int, now: int)
    requires ParseInt(date) == Num(t)
    ensures var diff := t - now;
      var text := GetExpirationStatus(date, now).text;
      && (diff < 0 ==> text == "Expired")
      && (0 <= diff < 86400 ==> text == "Expires today")
      && (86400 <= diff ==> text == IntToString(CeilDays(diff)) + " days left")
  {
    assert Diff(date, now) == Num(t - now);
  }

  /** The rounded-up day count is the least whole number of days covering
      the difference. */
  lemma CeilDaysBounds(diff: nat)
    requires diff > 0
    ensures var k := CeilDays(diff);
      k >= 1 && (k - 1) * 86400 < diff <= k * 86400
  {
    var q, r := diff / 86400, diff % 86400;
    assert diff == q * 86400 + r;
    if r == 0 {
      DivModOf(q, 86400, 86399);
      assert diff + 86399 == q * 86400 + 86399;
    } else {
      DivModOf(q + 1, 86400, r - 1);
      assert diff + 86399 == (q + 1) * 86400 + (r - 1);
    }
  }

  /** Yellow badges count one to seven days, green ones seven or more. */
  lemma DaysShownRange(diff: nat)
    requires 86400 <= diff
    ensures diff < 604800 ==> 1 <= CeilDays(diff) <= 7
    ensures 604800 <= diff ==> 7 <= CeilDays(diff)
  {
    CeilDaysBounds(diff);
  }

  /** The count in a badge reads back as a number. */
  lemma DaysTextReadsBack(k: int)
    ensures ParseInt(DaysLeftText(Num(k))) == Num(k)
  {
    ParseIntRoundTrip(k, " days left");
  }

  /** The badge and the counter agree: the badge's days are the counter's
      days, plus one when a part day is left over. */
  lemma BadgeMatchesCounter(date: string, t: int, now: int)
    requires ParseInt(date) == Num(t) && t - now >= 86400
    ensures HandleCounter(date, now).Remaining?
    ensures var days := HandleCounter(date, now).d.days;
      var diff := t - now;
      CeilDays(diff) == if diff % 86400 == 0 then days else days + 1
  {
    var diff := t - now;
    assert Diff(date, now) == Num(diff);
    CeilDaysBounds(diff);
    var q, r := diff / 86400, diff % 86400;
    assert diff == q * 86400 + r;
    if r == 0 {
      DivModOf(q, 86400, 86399);
      assert diff + 86399 == q * 86400 + 86399;
    } else {
      DivModOf(q + 1, 86400, r - 1);
      assert diff + 86399 == (q + 1) * 86400 + (r - 1);
    }
  }

  /** The timeframes the options indexer stores are already display tags,
      so they pass through unchanged, and a code rendered as text shows
      the tag the indexer would have stored for it. */
  lemma TimeframeDisplayOfStored(code: int)
    ensures GetTimeframeDisplay(GasHedgerIndexer.GetTimeframeString(code)) == GasHedgerIndexer.GetTimeframeString(code)
    ensures 0 <= code <= 2 ==> GetTimeframeDisplay(IntToString(code)) == GasHedgerIndexer.GetTimeframeString(code)
  {
    if 0 <= code <= 2 {
      assert IntToString(code) == [DigitChar(code)];
    }
  }
}
