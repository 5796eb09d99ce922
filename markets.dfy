/** The markets page (frontend/app/markets/page.tsx): the market-to-chain
    table, the deadline and expiration countdowns, the order-book filter
    and sort, and the two handlers that change the page's state: the sort
    toggle and the units input. The current time is the parameter `now`,
    in seconds. */
module Markets {
  import opened Base
  import opened Clock
  import opened Queries
  import Dashboard
  import opened JsArray

  /** `getChainId`: the chain id the options API is queried with, '1' for
      an unknown market. */
  function GetChainId(marketId: string): (chainId: string)
    ensures marketId !in {"eth-blob", "base-gas", "arb-gas"} <==> chainId == "1"
  {
    if marketId == "eth-blob" then "0"
    else if marketId == "eth-gas" then "1"
    else if marketId == "base-gas" then "8453"
    else if marketId == "arb-gas" then "42161"
    else "1"
  }

  // ---------------------------------------------------------------------
  // Countdowns
  // ---------------------------------------------------------------------

  /** The units of a split from the largest non-zero one down, each with
      its suffix: `1d 2h 3m 4s`, `2h 3m 4s`, `3m 4s` or `4s`. */
  function RenderCountdown(d: Duration): string {
    if d.days > 0 then
      NatToString(d.days) + ("d " + NatToString(d.hours) + "h " + NatToString(d.minutes) + "m " + NatToString(d.seconds) + "s")
    else if d.hours > 0 then
      NatToString(d.hours) + ("h " + NatToString(d.minutes) + "m " + NatToString(d.seconds) + "s")
    else if d.minutes > 0 then
      NatToString(d.minutes) + ("m " + NatToString(d.seconds) + "s")
    else
      NatToString(d.seconds) + "s"
  }

  /** `getDeadlineCountdown` and `getExpirationCountdown`, which are the
      same code: "Expired" once the date is reached, otherwise the time
      left from its largest non-zero unit. An unreadable date passes the
      expiry test (NaN <= 0 is false) and every unit is NaN, so only the
      seconds are shown. */
  function GetCountdown(date: string, now: int): string {
    match Diff(date, now)
    case NaN => "NaNs"
    case Num(diff) => CountdownText(diff)
  }

  /** The countdown for a readable date `diff` seconds away. */
  function CountdownText(diff: int): string {
    if diff <= 0 then "Expired" else RenderCountdown(Decompose(diff))
  }

  /** The unit a countdown starts with. */
  function LeadingUnit(d: Duration): nat {
    if d.days > 0 then d.days
    else if d.hours > 0 then d.hours
    else if d.minutes > 0 then d.minutes
    else d.seconds
  }

  // ---------------------------------------------------------------------
  // The order book
  // ---------------------------------------------------------------------

  /** The call/put selector: 'all' keeps both kinds. */
  predicate MatchesType(selectedOptionType: string, isCall: bool) {
    || selectedOptionType == "all"
    || (selectedOptionType == "call" && isCall)
    || (selectedOptionType == "put" && !isCall)
  }

  /** The `filteredOptions` predicate: not expired, active, and of the
      selected kind. */
  predicate Keep(o: OptionRow, selectedOptionType: string, now: int) {
    !IsOptionExpired(o.expirationDate, now) && IsOptionActive(o) && MatchesType(selectedOptionType, o.isCall)
  }

  /** `filteredOptions`. */
  function FilterOptions(options: seq<OptionRow>, selectedOptionType: string, now: int): seq<OptionRow> {
    FilterBy((o: OptionRow) => Keep(o, selectedOptionType, now), options)
  }

  datatype Direction = Asc | Desc

  /** The columns the table can be sorted by. */
  const SortFields: set<string> := {"premium", "strikePrice", "capPerUnit", "expirationDate", "deadlineDate"}

  /** The value a column sorts by: the date columns by their parsed
      seconds, the price columns by their wei amount. */
  function SortKey(field: string, o: OptionRow): Parsed {
    if field == "premium" then ParseInt(o.premium)
    else if field == "strikePrice" then ParseInt(o.strikePrice)
    else if field == "capPerUnit" then ParseInt(o.capPerUnit)
    else if field == "expirationDate" then ParseInt(o.expirationDate.GetOr(""))
    else ParseInt(o.deadlineDate)
  }

  /** JavaScript's `>` on two parsed numbers: false whenever one is NaN. */
  predicate Greater(a: Parsed, b: Parsed) {
    a.Num? && b.Num? && a.n > b.n
  }

  /** The sort comparator: 0 without a sort column; otherwise 1 when `a`
      belongs after `b` in the chosen direction and -1 in every other case,
      ties included. */
  function Compare(field: string, dir: Direction, a: OptionRow, b: OptionRow): (c: int)
    ensures c in {-1, 0, 1}
    ensures c == 0 <==> field !in SortFields
  {
    if field !in SortFields then 0
    else if dir == Asc then (if Greater(SortKey(field, a), SortKey(field, b)) then 1 else -1)
    else (if Greater(SortKey(field, b), SortKey(field, a)) then 1 else -1)
  }

  /** `[...filteredOptions].sort(comparator)`. */
  function SortOptions(field: string, dir: Direction, options: seq<OptionRow>): seq<OptionRow> {
    SortBy((a: OptionRow, b: OptionRow) => Compare(field, dir, a, b), options)
  }

  /** The rows the order book shows. */
  function SortedOptions(options: seq<OptionRow>, selectedOptionType: string, field: string, dir: Direction, now: int): seq<OptionRow> {
    SortOptions(field, dir, FilterOptions(options, selectedOptionType, now))
  }

  // ---------------------------------------------------------------------
  // Page state
  // ---------------------------------------------------------------------

  /** The sort column and direction and the per-option unit inputs. */
  datatype PageState = PageState(sortField: string, sortDirection: Direction, inputValues: map<string, string>)

  function Flip(dir: Direction): Direction {
    if dir == Asc then Desc else Asc
  }

  /** `handleSort`: clicking the current column flips the direction,
      clicking another selects it in ascending order. */
  function NextSort(s: PageState, field: string): PageState {
    if s.sortField == field then s.(sortDirection := Flip(s.sortDirection))
    else s.(sortField := field, sortDirection := Asc)
  }

  /** `Math.min(parseInt(value) || 0, maxUnits)`: unreadable input and zero
      count as zero, and the count is capped at the units left. */
  function ClampedUnits(value: string, maxUnits: int): int {
    var n := match ParseInt(value) case NaN => 0 case Num(k) => k;
    if n < maxUnits then n else maxUnits
  }

  /** `handleInputChange`: the option's input holds the clamped count as
      text; every other input is kept. */
  function NextInput(s: PageState, optionId: string, value: string, maxUnits: int): PageState {
    s.(inputValues := s.inputValues[optionId := IntToString(ClampedUnits(value, maxUnits))])
  }

  class MarketsPage {
    var sortField: string
    var sortDirection: Direction
    var inputValues: map<string, string>

    function View(): PageState
      reads this
    {
      PageState(sortField, sortDirection, inputValues)
    }

    /** The page opens unsorted, ascending, with no inputs. */
    constructor ()
      ensures View() == PageState("", Asc, map[])
    {
      sortField := "";
      sortDirection := Asc;
      inputValues := map[];
    }

    method HandleSort(field: string)
      modifies this
      ensures View() == NextSort(old(View()), field)
    {
      if sortField == field {
        sortDirection := if sortDirection == Asc then Desc else Asc;
      } else {
        sortField := field;
        sortDirection := Asc;
      }
    }

    method HandleInputChange(optionId: string, value: string, maxUnits: int)
      modifies this
      ensures View() == NextInput(old(View()), optionId, value, maxUnits)
    {
      var numValue := match ParseInt(value) case NaN => 0 case Num(k) => k;
      var clampedValue := if numValue < maxUnits then numValue else maxUnits;
      inputValues := inputValues[optionId := IntToString(clampedValue)];
    }
  }

  // ---------------------------------------------------------------------
  // Properties
  // ---------------------------------------------------------------------

  /** Of the four markets only the blob market's chain has no name. */
  lemma ChainOfMarketNamed(marketId: string)
    ensures GetChainName(GetChainId(marketId)) == "Unknown" <==> marketId == "eth-blob"
  {
  }

  /** A countdown is "Expired" exactly when the date is not in the
      future. */
  lemma CountdownExpired(date: string, t: int, now: int)
    requires ParseInt(date) == Num(t)
    ensures GetCountdown(date, now) == "Expired" <==> t <= now
  {
    if t > now {
      CountdownRunning(date, t, now);
    }
  }

  lemma CountdownRunning(date: string, t: int, now: int)
    requires ParseInt(date) == Num(t) && t > now
    ensures GetCountdown(date, now) != "Expired"
  {
    var d := Decompose(t - now);
    CountdownIsRendered(date, t, now);
    RenderedStartsWithDigit(d);
    assert "Expired"[0] == 'E';
  }

  /** A rendered countdown starts with a digit. */
  lemma RenderedStartsWithDigit(d: Duration)
    ensures RenderCountdown(d) != [] && IsDigit(RenderCountdown(d)[0])
  {
    var lead := LeadingUnit(d);
    NatToStringDigits(lead);
    assert RenderCountdown(d)[0] == NatToString(lead)[0];
  }

  /** A running countdown starts with its largest non-zero unit, which
      reads back as a positive number, and its units add up to the time
      left. */
  lemma CountdownLeads(date: string, t: int, now: int)
    requires ParseInt(date) == Num(t) && t > now
    ensures var d := Decompose(t - now);
      && GetCountdown(date, now) == RenderCountdown(d)
      && TotalSeconds(d) == t - now
      && LeadingUnit(d) > 0
      && ParseInt(GetCountdown(date, now)) == Num(LeadingUnit(d))
  {
    var d := Decompose(t - now);
    CountdownIsRendered(date, t, now);
    RenderedLeads(d);
  }

  /** A running countdown is the rendering of the time left. */
  lemma CountdownIsRendered(date: string, t: int, now: int)
    requires ParseInt(date) == Num(t) && t > now
    ensures GetCountdown(date, now) == RenderCountdown(Decompose(t - now))
  {
    assert Diff(date, now) == Num(t - now);
  }

  lemma RenderedLeads(d: Duration)
    requires TotalSeconds(d) > 0
    ensures LeadingUnit(d) > 0
    ensures ParseInt(RenderCountdown(d)) == Num(LeadingUnit(d))
  {
    var lead := LeadingUnit(d);
    var rest := RenderCountdown(d)[|NatToString(lead)|..];
    assert RenderCountdown(d) == IntToString(lead) + rest;
    assert rest[0] in {'d', 'h', 'm', 's'};
    ParseIntRoundTrip(lead, rest);
  }

  /** The market countdown and the dashboard counter split the time left
      the same way. */
  lemma CountdownMatchesCounter(date: string, t: int, now: int)
    requires ParseInt(date) == Num(t) && t > now
    ensures Dashboard.HandleCounter(date, now) == Dashboard.Remaining(Decompose(t - now))
    ensures GetCountdown(date, now) == RenderCountdown(Decompose(t - now))
  {
    assert Diff(date, now) == Num(t - now);
  }

  /** The order book keeps exactly the rows that are not expired, active
      and of the selected kind. */
  lemma FilterMembers(options: seq<OptionRow>, selectedOptionType: string, now: int, o: OptionRow)
    ensures o in FilterOptions(options, selectedOptionType, now)
        <==> o in options && !IsOptionExpired(o.expirationDate, now) && IsOptionActive(o)
             && MatchesType(selectedOptionType, o.isCall)
  {
    FilterByMembers((o: OptionRow) => Keep(o, selectedOptionType, now), options, o);
  }

  /** Filtering keeps the rows in their order: filtering a concatenation
      is concatenating the filtered parts. */
  lemma FilterConcat(xs: seq<OptionRow>, ys: seq<OptionRow>, selectedOptionType: string, now: int)
    ensures FilterOptions(xs + ys, selectedOptionType, now)
         == FilterOptions(xs, selectedOptionType, now) + FilterOptions(ys, selectedOptionType, now)
  {
    FilterByConcat((o: OptionRow) => Keep(o, selectedOptionType, now), xs, ys);
  }

  /** With no sort column every comparison is 0 and the list is shown in
      the order the API returned it. */
  lemma UnsortedKeepsOrder(field: string, dir: Direction, options: seq<OptionRow>)
    requires field !in SortFields
    ensures SortOptions(field, dir, options) == options
  {
    SortByNeutral((a: OptionRow, b: OptionRow) => Compare(field, dir, a, b), options);
  }

  /** Sorting neither drops nor duplicates a row. */
  lemma SortPermutes(field: string, dir: Direction, options: seq<OptionRow>)
    ensures multiset(SortOptions(field, dir, options)) == multiset(options)
  {
    SortByPermutes((a: OptionRow, b: OptionRow) => Compare(field, dir, a, b), options);
  }

  /** The position a row takes in the chosen direction, for a readable
      key. */
  function Rank(field: string, dir: Direction, o: OptionRow): int {
    match SortKey(field, o)
    case NaN => 0
    case Num(n) => if dir == Asc then n else -n
  }

  predicate AllKeyed(field: string, options: seq<OptionRow>) {
    forall i :: 0 <= i < |options| ==> SortKey(field, options[i]).Num?
  }

  /** On readable keys the comparator puts `a` after `b` exactly when `a`
      ranks higher. */
  lemma CompareByRank(field: string, dir: Direction, a: OptionRow, b: OptionRow)
    requires field in SortFields && SortKey(field, a).Num? && SortKey(field, b).Num?
    ensures Compare(field, dir, a, b) > 0 <==> Rank(field, dir, a) > Rank(field, dir, b)
  {
  }

  /** When every row has a readable key, the shown list is ordered by that
      key in the chosen direction: ascending keys for `Asc`, descending for
      `Desc`. */
  lemma SortOrders(field: string, dir: Direction, options: seq<OptionRow>)
    requires field in SortFields && AllKeyed(field, options)
    ensures var r := SortOptions(field, dir, options);
      forall i, j :: 0 <= i < j < |r| ==> Rank(field, dir, r[i]) <= Rank(field, dir, r[j])
  {
    var cmp := (a: OptionRow, b: OptionRow) => Compare(field, dir, a, b);
    var rank := (o: OptionRow) => Rank(field, dir, o);
    var dom := set i | 0 <= i < |options| :: options[i];
    forall a, b | a in dom && b in dom
      ensures cmp(a, b) > 0 <==> rank(a) > rank(b)
    {
      CompareByRank(field, dir, a, b);
    }
    SortByRanked(cmp, rank, dom, options);
    SortByPermutes(cmp, options);
  }

  /** Clicking a column twice restores its direction; clicking another
      column sorts it ascending. */
  lemma SortToggles(s: PageState, field: string, other: string)
    requires other != field
    ensures NextSort(NextSort(s, field), field).sortDirection
         == if s.sortField == field then s.sortDirection else Desc
    ensures NextSort(NextSort(s, field), other) == s.(sortField := other, sortDirection := Asc)
    ensures NextSort(s, field).sortField == field && NextSort(s, field).inputValues == s.inputValues
  {
  }

  /** The stored input reads back as the clamped count, which never
      exceeds the units left and equals the typed count when that is
      within bounds. */
  lemma InputClamped(s: PageState, optionId: string, value: string, maxUnits: int)
    ensures var c := ClampedUnits(value, maxUnits);
      && ParseInt(NextInput(s, optionId, value, maxUnits).inputValues[optionId]) == Num(c)
      && c <= maxUnits
      && (forall k :: ParseInt(value) == Num(k) && k <= maxUnits ==> c == k)
      && (ParseInt(value).NaN? ==> c == if 0 < maxUnits then 0 else maxUnits)
  {
    ParseIntRendered(ClampedUnits(value, maxUnits));
  }

  /** A typed count is kept as typed when it is within bounds. */
  lemma InputOfRendered(k: int, maxUnits: int)
    ensures ClampedUnits(IntToString(k), maxUnits) == if k < maxUnits then k else maxUnits
  {
    ParseIntRendered(k);
  }
}
