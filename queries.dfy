/** The shared frontend helpers (frontend/lib/queries.ts): label tables and
    the two predicates that decide whether an option row fetched from the
    subgraph is expired and whether it is still tradable. The current time
    is a parameter, in seconds. */
module Queries {
  import opened Base
  import GasHedgerIndexer

  /** An option as the subgraph's GraphQL API returns it: numbers as
      decimal text, nullable fields as `Option`. */
  datatype OptionRow = OptionRow(
    id: string,
    isCall: bool,
    premium: string,
    strikePrice: string,
    capPerUnit: string,
    expirationDate: Option<string>,
    deadlineDate: string,
    unitsLeft: Option<string>,
    isActive: Option<bool>,
    isDeleted: Option<bool>,
    isErrored: Option<bool>)

  /** `getChainName`: the three known chain ids, "Unknown" otherwise. */
  function GetChainName(chainGasId: string): (name: string)
    ensures name == "Unknown" <==> chainGasId !in {"1", "8453", "42161"}
  {
    if chainGasId == "1" then "Ethereum"
    else if chainGasId == "8453" then "Base"
    else if chainGasId == "42161" then "Arbitrum"
    else "Unknown"
  }

  /** The timeframe tags `getTimeframeDisplay` knows. */
  const TimeframeTags: set<string> := {"1D", "7D", "30D", "Daily", "Weekly", "Monthly"}

  /** `getTimeframeDisplay`: six tags get a readable name, any other text
      is shown as it is. */
  function GetTimeframeDisplay(timeframe: string): (display: string)
    ensures timeframe in TimeframeTags ==> display in {"1 Day", "7 Days", "30 Days"}
    ensures timeframe !in TimeframeTags ==> display == timeframe
  {
    if timeframe == "1D" || timeframe == "Daily" then "1 Day"
    else if timeframe == "7D" || timeframe == "Weekly" then "7 Days"
    else if timeframe == "30D" || timeframe == "Monthly" then "30 Days"
    else timeframe
  }

  /** `isOptionExpired`: a missing or empty date never expires; otherwise
      the parsed date must be strictly before now, and an unparsable date
      is not expired. */
  function IsOptionExpired(expirationDate: Option<string>, now: int): bool {
    if expirationDate.None? || expirationDate.value == "" then false
    else
      match ParseInt(expirationDate.value)
      case NaN => false
      case Num(t) => t < now
  }

  /** `isOptionActive`: the active flag wins outright; failing that, a
      deleted or errored option is inactive, and otherwise an option is
      active when it has units left, a missing count reading as zero. */
  function IsOptionActive(o: OptionRow): bool {
    if o.isActive == Some(true) then true
    else if o.isDeleted == Some(true) || o.isErrored == Some(true) then false
    else
      var units := if o.unitsLeft.None? || o.unitsLeft.value == "" then "0" else o.unitsLeft.value;
      match ParseInt(units)
      case NaN => false
      case Num(n) => n > 0
  }

  // ---------------------------------------------------------------------
  // Properties
  // ---------------------------------------------------------------------

  /** A rendered date is expired exactly when it lies strictly before now;
      the expiry instant itself is not expired. */
  lemma ExpiredIffBefore(t: int, now: int)
    ensures IsOptionExpired(Some(IntToString(t)), now) <==> t < now
    ensures !IsOptionExpired(Some(IntToString(now)), now)
  {
    ParseIntRendered(t);
    ParseIntRendered(now);
  }

  /** Missing, empty and unreadable dates are never expired. */
  lemma NoDateNeverExpires(now: int, text: string)
    requires text == [] || (!IsJsSpace(text[0]) && !IsDigit(text[0]) && text[0] != '-' && text[0] != '+')
    ensures !IsOptionExpired(None, now)
    ensures !IsOptionExpired(Some(text), now)
  {
    ParseIntNaN(text);
  }

  /** An option flagged active is active whatever its other flags say. */
  lemma ActiveFlagWins(o: OptionRow)
    requires o.isActive == Some(true)
    ensures IsOptionActive(o)
  {
  }

  /** Without the active flag, a deleted or errored option is inactive. */
  lemma DeletedOrErroredInactive(o: OptionRow)
    requires o.isActive != Some(true)
    requires o.isDeleted == Some(true) || o.isErrored == Some(true)
    ensures !IsOptionActive(o)
  {
  }

  /** Otherwise the units left decide: a rendered count is active exactly
      when positive, and a missing count means inactive. */
  lemma UnitsLeftDecide(o: OptionRow, n: int)
    requires o.isActive != Some(true) && o.isDeleted != Some(true) && o.isErrored != Some(true)
    ensures o.unitsLeft == Some(IntToString(n)) ==> (IsOptionActive(o) <==> n > 0)
    ensures o.unitsLeft.None? ==> !IsOptionActive(o)
  {
    ParseIntRendered(n);
    ParseIntZero();
  }

  /** Every timeframe the options indexer stores is displayed by name: the
      contract codes 0 and 2 as one and thirty days, every other code as
      seven days. */
  lemma StoredTimeframeDisplay(code: int)
    ensures GetTimeframeDisplay(GasHedgerIndexer.GetTimeframeString(code))
         == if code == 0 then "1 Day" else if code == 2 then "30 Days" else "7 Days"
  {
  }
}
