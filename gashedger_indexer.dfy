/** The options ledger subgraph (subgraphs/gashedger/src/GasHedgerIndexer.ts):
    event handlers that keep `Option`, `User` and `OptionUnitsMapping`
    entities in step with the option contract.

    The store is three maps from entity id to entity. Option ids are the
    decimal rendering of the token id, user ids the hex text of an address,
    and a mapping id is `<user>-<option>`. The pure transitions below are
    the specification; the `Ledger` class at the end runs the handlers on
    mutable tables and is proved to compute exactly those transitions. */
module GasHedgerIndexer {
  import opened Base

  type Bytes = seq<bv8>

  /** The `Option` entity. `unitsLeft` and `premiumCollected` are nullable
      in the schema; every option this subgraph creates sets both. */
  datatype OptionEntity = OptionEntity(
    writer: string,
    isCall: bool,
    premium: nat,
    strikePrice: nat,
    expirationDate: nat,
    units: nat,
    unitsLeft: Option<int>,
    capPerUnit: nat,
    countervalue: nat,
    deadlineDate: nat,
    premiumCollected: Option<int>,
    chainGasId: int,
    timeframe: string,
    isActive: bool,
    isPaused: bool,
    hasToPay: bool,
    isDeleted: bool,
    isErrored: bool,
    responseValue: Option<Bytes>)

  /** The `OptionUnitsMapping` entity: how many units of an option a user
      holds and whether they claimed. An unset flag reads as false. */
  datatype UnitsMapping = UnitsMapping(user: string, option: string, units: int, claimed: bool, errorClaim: bool)

  /** A mapping entity as `new OptionUnitsMapping(id)` leaves it. */
  const FreshMapping: UnitsMapping := UnitsMapping("", "", 0, false, false)

  datatype LedgerState = LedgerState(
    options: map<string, OptionEntity>,
    users: map<string, seq<string>>,
    mappings: map<string, UnitsMapping>)

  const EmptyLedger: LedgerState := LedgerState(map[], map[], map[])

  /** The parameters of the contract events the handlers read; addresses
      are given as their hex text. */
  datatype OptionCreatedEvent = OptionCreatedEvent(
    optionId: nat, writer: string, isCall: bool, premium: nat, strikePrice: nat,
    expirationDate: nat, units: nat, capPerUnit: nat, buyDeadline: nat,
    chainGasId: int, timeframe: int)

  datatype TransferSingleEvent = TransferSingleEvent(from: string, to: string, id: nat, value: nat)

  datatype OptionBoughtEvent = OptionBoughtEvent(optionId: nat, units: nat, totalPrice: nat)

  /** `OptionClaimed` and `erroredClaimed` carry the same parameters. */
  datatype ClaimEvent = ClaimEvent(claimer: string, optionId: nat)

  /** `Response`: the oracle's answer. `None` models the falsy case of the
      handler's `if (event.params.response)` test. A `Bytes` event
      parameter is never null and is truthy even when empty, so a real
      event always carries `Some`; the answer is then stored before the
      `!option.responseValue` test, and the `isErrored` branch of `Respond`
      is taken only for `None`, which no real event produces. */
  datatype ResponseEvent = ResponseEvent(optionId: nat, response: Option<Bytes>, hasToPay: bool)

  function OptionKey(optionId: nat): string {
    NatToString(optionId)
  }

  function MappingId(user: string, option: string): string {
    user + "-" + option
  }

  /** `getTimeframeString`: contract codes 0, 1, 2 are "1D", "7D", "30D";
      every other code is "7D". */
  function GetTimeframeString(timeframe: int): (r: string)
    ensures r == "1D" <==> timeframe == 0
    ensures r == "30D" <==> timeframe == 2
    ensures r == "7D" <==> timeframe != 0 && timeframe != 2
  {
    if timeframe == 0 then "1D"
    else if timeframe == 1 then "7D"
    else if timeframe == 2 then "30D"
    else "7D"
  }

  // ---------------------------------------------------------------------
  // Transitions
  // ---------------------------------------------------------------------

  /** The option entity `handleOptionCreated` writes. */
  function NewOption(e: OptionCreatedEvent): OptionEntity {
    OptionEntity(
      e.writer, e.isCall, e.premium, e.strikePrice, e.expirationDate,
      e.units, Some(e.units), e.capPerUnit, e.capPerUnit * e.units, e.buyDeadline,
      Some(0), e.chainGasId, GetTimeframeString(e.timeframe),
      true, false, false, false, false, None)
  }

  /** `handleOptionCreated`: write-once. */
  function CreateOption(s: LedgerState, e: OptionCreatedEvent): LedgerState {
    var id := OptionKey(e.optionId);
    if id in s.options then s
    else s.(options := s.options[id := NewOption(e)])
  }

  /** `handleOptionBought`: a known option with both counters set collects
      the price and gives up the units. */
  function BuyOption(s: LedgerState, e: OptionBoughtEvent): LedgerState {
    var id := OptionKey(e.optionId);
    if id !in s.options then s
    else
      var o := s.options[id];
      if o.premiumCollected.Some? && o.unitsLeft.Some? then
        s.(options := s.options[id := o.(
          premiumCollected := Some(o.premiumCollected.value + e.totalPrice),
          unitsLeft := Some(o.unitsLeft.value - e.units))])
      else s
  }

  /** `handleOptionClaimed`: marks the claimer's mapping claimed. */
  function ClaimOption(s: LedgerState, e: ClaimEvent): LedgerState {
    var id := MappingId(e.claimer, OptionKey(e.optionId));
    if id !in s.mappings then s
    else s.(mappings := s.mappings[id := s.mappings[id].(claimed := true)])
  }

  /** `handleErroredClaimed`: marks the claimer's mapping as a failed
      claim. */
  function ErroredClaim(s: LedgerState, e: ClaimEvent): LedgerState {
    var id := MappingId(e.claimer, OptionKey(e.optionId));
    if id !in s.mappings then s
    else s.(mappings := s.mappings[id := s.mappings[id].(errorClaim := true)])
  }

  /** `handleResponse`: a truthy response is stored with the payout flag;
      an option left without a response is marked errored. */
  function Respond(s: LedgerState, e: ResponseEvent): LedgerState {
    var id := OptionKey(e.optionId);
    if id !in s.options then s
    else
      var o := s.options[id];
      var answered := if e.response.Some? then o.(responseValue := e.response, hasToPay := e.hasToPay) else o;
      var checked := if answered.responseValue.None? then answered.(isErrored := true) else answered;
      s.(options := s.options[id := checked])
  }

  /** `handleOptionDeleted`: sets the deleted flag. */
  function DeleteOption(s: LedgerState, optionId: nat): LedgerState {
    var id := OptionKey(optionId);
    if id !in s.options then s
    else s.(options := s.options[id := s.options[id].(isDeleted := true)])
  }

  /** Position of the first occurrence of `x` (`Array.prototype.indexOf`). */
  function IndexOf(xs: seq<string>, x: string): (k: nat)
    requires x in xs
    ensures k < |xs| && xs[k] == x && x !in xs[..k]
  {
    if xs[0] == x then 0
    else
      assert xs == [xs[0]] + xs[1..];
      var k := IndexOf(xs[1..], x);
      assert xs[..k + 1] == [xs[0]] + xs[1..][..k];
      k + 1
  }

  /** `splice(indexOf(x), 1)`: drops the first occurrence of `x`. */
  function RemoveFirst(xs: seq<string>, x: string): seq<string>
    requires x in xs
  {
    var k := IndexOf(xs, x);
    xs[..k] + xs[k + 1..]
  }

  /** The sender's half of `handleTransferSingle`, with the list update the
      handler means to make: the token id leaves the sender's list and the
      sender's units drop by the amount. */
  function TransferOut(s: LedgerState, from: string, option: string, value: nat): LedgerState {
    if from !in s.users then s
    else
      var users := if option in s.users[from] then s.users[from := RemoveFirst(s.users[from], option)] else s.users;
      var mid := MappingId(from, option);
      var mappings := if mid in s.mappings then s.mappings[mid := s.mappings[mid].(units := s.mappings[mid].units - value)] else s.mappings;
      s.(users := users, mappings := mappings)
  }

  /** The mapping `<user>-<option>` loaded or created, then assigned the
      user, the option and the amount. */
  function SetUnits(mappings: map<string, UnitsMapping>, user: string, option: string, value: nat): map<string, UnitsMapping> {
    var mid := MappingId(user, option);
    var m := if mid in mappings then mappings[mid] else FreshMapping;
    mappings[mid := m.(user := user, option := option, units := value)]
  }

  /** The receiver's half: a new user is created holding just this option
      and the amount; an existing user gets the option appended and, when
      the option exists, its units set to the amount. */
  function TransferIn(s: LedgerState, to: string, option: string, value: nat): LedgerState {
    if to !in s.users then
      s.(users := s.users[to := [option]], mappings := SetUnits(s.mappings, to, option, value))
    else
      var users := s.users[to := s.users[to] + [option]];
      if option in s.options then s.(users := users, mappings := SetUnits(s.mappings, to, option, value))
      else s.(users := users)
  }

  /** `handleTransferSingle` as intended: the sender's half, then the
      receiver's. */
  function Transfer(s: LedgerState, e: TransferSingleEvent): LedgerState {
    TransferIn(TransferOut(s, e.from, OptionKey(e.id), e.value), e.to, OptionKey(e.id), e.value)
  }

  /** `handleTransferSingle` as written. The handler splices and pushes the
      array that the generated `options` getter returns, which is a fresh
      copy of the stored list, so neither edit reaches the store; only
      assigning a whole new list (a new receiver) does. */
  function TransferAsWritten(s: LedgerState, e: TransferSingleEvent): LedgerState {
    var option := OptionKey(e.id);
    var out := if e.from !in s.users then s
      else
        var mid := MappingId(e.from, option);
        if mid in s.mappings then s.(mappings := s.mappings[mid := s.mappings[mid].(units := s.mappings[mid].units - e.value)])
        else s;
    if e.to !in out.users then
      out.(users := out.users[e.to := [option]], mappings := SetUnits(out.mappings, e.to, option, e.value))
    else if option in out.options then out.(mappings := SetUnits(out.mappings, e.to, option, e.value))
    else out
  }

  // ---------------------------------------------------------------------
  // Properties
  // ---------------------------------------------------------------------

  /** Creating an option that already exists changes nothing. */
  lemma CreateWriteOnce(s: LedgerState, e: OptionCreatedEvent)
    requires OptionKey(e.optionId) in s.options
    ensures CreateOption(s, e) == s
  {
  }

  /** A new option starts with all its units unsold, nothing collected, a
      countervalue of cap times units, active and with every other flag
      down; nothing else in the store changes. */
  lemma CreatedOption(s: LedgerState, e: OptionCreatedEvent)
    requires OptionKey(e.optionId) !in s.options
    ensures var r := CreateOption(s, e);
      var o := r.options[OptionKey(e.optionId)];
      && o.unitsLeft == Some(e.units) && o.units == e.units
      && o.premiumCollected == Some(0)
      && o.countervalue == e.capPerUnit * e.units
      && o.isActive && !o.isPaused && !o.hasToPay && !o.isDeleted && !o.isErrored
      && o.responseValue.None?
      && o.timeframe in {"1D", "7D", "30D"}
      && r.options.Keys == s.options.Keys + {OptionKey(e.optionId)}
      && (forall k :: k in s.options ==> r.options[k] == s.options[k])
      && r.users == s.users && r.mappings == s.mappings
  {
  }

  /** A purchase moves only the two counters of the bought option. */
  lemma BuyMovesCounters(s: LedgerState, e: OptionBoughtEvent)
    requires OptionKey(e.optionId) in s.options
    requires s.options[OptionKey(e.optionId)].premiumCollected.Some?
    requires s.options[OptionKey(e.optionId)].unitsLeft.Some?
    ensures var o := s.options[OptionKey(e.optionId)];
      var o' := BuyOption(s, e).options[OptionKey(e.optionId)];
      && o'.premiumCollected == Some(o.premiumCollected.value + e.totalPrice)
      && o'.unitsLeft == Some(o.unitsLeft.value - e.units)
      && o' == o.(premiumCollected := o'.premiumCollected, unitsLeft := o'.unitsLeft)
      && BuyOption(s, e).options.Keys == s.options.Keys
      && (forall k :: k in s.options && k != OptionKey(e.optionId) ==> BuyOption(s, e).options[k] == s.options[k])
  {
  }

  /** A purchase of an unknown option, or of one whose counters are unset,
      is ignored. */
  lemma BuyUnknownIgnored(s: LedgerState, e: OptionBoughtEvent)
    requires OptionKey(e.optionId) !in s.options
      || s.options[OptionKey(e.optionId)].premiumCollected.None?
      || s.options[OptionKey(e.optionId)].unitsLeft.None?
    ensures BuyOption(s, e) == s
  {
  }

  /** Purchases accumulate: two of them collect both prices and give up
      both unit counts. */
  lemma BuysAccumulate(s: LedgerState, e1: OptionBoughtEvent, e2: OptionBoughtEvent)
    requires e1.optionId == e2.optionId && OptionKey(e1.optionId) in s.options
    requires s.options[OptionKey(e1.optionId)].premiumCollected.Some?
    requires s.options[OptionKey(e1.optionId)].unitsLeft.Some?
    ensures var o := s.options[OptionKey(e1.optionId)];
      var o' := BuyOption(BuyOption(s, e1), e2).options[OptionKey(e1.optionId)];
      && o'.premiumCollected == Some(o.premiumCollected.value + e1.totalPrice + e2.totalPrice)
      && o'.unitsLeft == Some(o.unitsLeft.value - e1.units - e2.units)
  {
    BuyMovesCounters(s, e1);
    BuyMovesCounters(BuyOption(s, e1), e2);
  }

  /** Claiming sets only the claimed flag of an existing mapping, and a
      repeated claim changes nothing more. */
  lemma ClaimSetsFlag(s: LedgerState, e: ClaimEvent)
    ensures var id := MappingId(e.claimer, OptionKey(e.optionId));
      && (id in s.mappings ==> ClaimOption(s, e).mappings == s.mappings[id := s.mappings[id].(claimed := true)])
      && (id !in s.mappings ==> ClaimOption(s, e) == s)
      && ClaimOption(s, e).options == s.options && ClaimOption(s, e).users == s.users
    ensures ClaimOption(ClaimOption(s, e), e) == ClaimOption(s, e)
  {
  }

  /** The failed-claim flag behaves the same way. */
  lemma ErroredClaimSetsFlag(s: LedgerState, e: ClaimEvent)
    ensures var id := MappingId(e.claimer, OptionKey(e.optionId));
      && (id in s.mappings ==> ErroredClaim(s, e).mappings == s.mappings[id := s.mappings[id].(errorClaim := true)])
      && (id !in s.mappings ==> ErroredClaim(s, e) == s)
      && ErroredClaim(s, e).options == s.options && ErroredClaim(s, e).users == s.users
    ensures ErroredClaim(ErroredClaim(s, e), e) == ErroredClaim(s, e)
  {
  }

  /** Deleting sets only the deleted flag, and is idempotent. */
  lemma DeleteSetsFlag(s: LedgerState, optionId: nat)
    ensures var id := OptionKey(optionId);
      && (id in s.options ==> DeleteOption(s, optionId).options == s.options[id := s.options[id].(isDeleted := true)])
      && (id !in s.options ==> DeleteOption(s, optionId) == s)
      && DeleteOption(s, optionId).users == s.users && DeleteOption(s, optionId).mappings == s.mappings
    ensures DeleteOption(DeleteOption(s, optionId), optionId) == DeleteOption(s, optionId)
  {
  }

  /** A response stores the answer and the payout flag; afterwards the
      option is errored exactly when it was already errored or still has
      no answer. */
  lemma RespondOutcome(s: LedgerState, e: ResponseEvent)
    requires OptionKey(e.optionId) in s.options
    ensures var o := s.options[OptionKey(e.optionId)];
      var o' := Respond(s, e).options[OptionKey(e.optionId)];
      && (e.response.Some? ==> o'.responseValue == e.response && o'.hasToPay == e.hasToPay)
      && (e.response.None? ==> o'.responseValue == o.responseValue && o'.hasToPay == o.hasToPay)
      && (o'.isErrored <==> o.isErrored || o'.responseValue.None?)
      && o' == o.(responseValue := o'.responseValue, hasToPay := o'.hasToPay, isErrored := o'.isErrored)
  {
  }

  lemma {:induction false} MultisetSplit(xs: seq<string>, k: nat)
    requires k < |xs|
    ensures multiset(xs) == multiset(xs[..k] + xs[k + 1..]) + multiset{xs[k]}
  {
    assert xs == xs[..k] + [xs[k]] + xs[k + 1..];
  }

  /** Dropping the first occurrence removes exactly one copy of the element
      and keeps the order of the rest. */
  lemma RemoveFirstCounts(xs: seq<string>, x: string)
    requires x in xs
    ensures var k := IndexOf(xs, x);
      && xs[k] == x && x !in xs[..k]
      && RemoveFirst(xs, x) == xs[..k] + xs[k + 1..]
    ensures multiset(RemoveFirst(xs, x)) == multiset(xs) - multiset{x}
    ensures Count(RemoveFirst(xs, x), x) == Count(xs, x) - 1
    ensures |RemoveFirst(xs, x)| == |xs| - 1
  {
    MultisetSplit(xs, IndexOf(xs, x));
  }

  /** On a transfer the sender's list loses the first copy of the option id
      and keeps the rest in order, and its units drop by the amount; no
      other user's list and no other mapping changes. */
  lemma TransferOutEffect(s: LedgerState, from: string, option: string, value: nat)
    requires from in s.users
    ensures var r := TransferOut(s, from, option, value);
      && (option in s.users[from] ==>
            && r.users[from] == RemoveFirst(s.users[from], option)
            && multiset(r.users[from]) == multiset(s.users[from]) - multiset{option})
      && (option !in s.users[from] ==> r.users[from] == s.users[from])
      && (MappingId(from, option) in s.mappings ==>
            r.mappings[MappingId(from, option)]
              == s.mappings[MappingId(from, option)].(units := s.mappings[MappingId(from, option)].units - value))
      && r.options == s.options
    ensures var r := TransferOut(s, from, option, value);
      && r.users.Keys == s.users.Keys && r.mappings.Keys == s.mappings.Keys
      && (forall u :: u in s.users && u != from ==> r.users[u] == s.users[u])
      && (forall m :: m in s.mappings && m != MappingId(from, option) ==> r.mappings[m] == s.mappings[m])
  {
    if option in s.users[from] {
      RemoveFirstCounts(s.users[from], option);
    }
  }

  /** A receiver seen for the first time holds just this option, with the
      transferred amount. */
  lemma TransferInNewUser(s: LedgerState, to: string, option: string, value: nat)
    requires to !in s.users
    ensures var r := TransferIn(s, to, option, value);
      && r.users[to] == [option]
      && r.mappings[MappingId(to, option)].units == value
      && r.mappings[MappingId(to, option)].user == to
      && r.mappings[MappingId(to, option)].option == option
  {
  }

  /** A known receiver gets the option appended; its units for the option
      are set to the amount, not added to, and only if the option exists. */
  lemma TransferInKnownUser(s: LedgerState, to: string, option: string, value: nat)
    requires to in s.users
    ensures var r := TransferIn(s, to, option, value);
      && r.users[to] == s.users[to] + [option]
      && (option in s.options ==> r.mappings[MappingId(to, option)].units == value)
      && (option !in s.options ==> r.mappings == s.mappings)
  {
  }

  /** The finding: as written, a transfer from a known holder leaves the
      token id in the sender's list. */
  lemma TransferAsWrittenKeepsSenderList(s: LedgerState, e: TransferSingleEvent)
    requires e.from in s.users && e.from != e.to
    ensures TransferAsWritten(s, e).users[e.from] == s.users[e.from]
  {
  }

  /** A concrete transfer where the source and the intended behaviour
      differ: user "0xa" holds option "1" and sends it to user "0xb". */
  lemma TransferAsWrittenCounterexample()
    ensures var s := LedgerState(map[], map["0xa" := ["1"], "0xb" := []], map[]);
      var e := TransferSingleEvent("0xa", "0xb", 1, 1);
      && TransferAsWritten(s, e).users["0xa"] == ["1"]
      && TransferAsWritten(s, e).users["0xb"] == []
      && Transfer(s, e).users["0xa"] == []
      && Transfer(s, e).users["0xb"] == ["1"]
  {
    var s := LedgerState(map[], map["0xa" := ["1"], "0xb" := []], map[]);
    var e := TransferSingleEvent("0xa", "0xb", 1, 1);
    assert OptionKey(1) == "1";
    assert IndexOf(["1"], "1") == 0;
  }

  /** The intended transfer moves one copy of the option id from a known
      sender to a distinct known receiver. */
  lemma TransferMovesOne(s: LedgerState, e: TransferSingleEvent)
    requires e.from in s.users && e.to in s.users && e.from != e.to
    requires OptionKey(e.id) in s.users[e.from]
    ensures var r := Transfer(s, e);
      var option := OptionKey(e.id);
      && Count(r.users[e.from], option) == Count(s.users[e.from], option) - 1
      && Count(r.users[e.to], option) == Count(s.users[e.to], option) + 1
  {
    var option := OptionKey(e.id);
    var mid := TransferOut(s, e.from, option, e.value);
    TransferOutEffect(s, e.from, option, e.value);
    TransferInKnownUser(mid, e.to, option, e.value);
  }

  // ---------------------------------------------------------------------
  // The handlers as the subgraph runs them
  // ---------------------------------------------------------------------

  /** The entity tables the handlers load, update and save. */
  class Ledger {
    var options: map<string, OptionEntity>
    var users: map<string, seq<string>>
    var mappings: map<string, UnitsMapping>

    function State(): LedgerState
      reads this
    {
      LedgerState(options, users, mappings)
    }

    constructor ()
      ensures State() == EmptyLedger
    {
      options, users, mappings := map[], map[], map[];
    }

    method HandleOptionCreated(e: OptionCreatedEvent)
      modifies this
      ensures State() == CreateOption(old(State()), e)
    {
      var id := OptionKey(e.optionId);
      if id !in options {
        options := options[id := NewOption(e)];
      }
    }

    method HandleOptionBought(e: OptionBoughtEvent)
      modifies this
      ensures State() == BuyOption(old(State()), e)
    {
      var id := OptionKey(e.optionId);
      if id in options {
        var option := options[id];
        if option.premiumCollected.Some? && option.unitsLeft.Some? {
          option := option.(premiumCollected := Some(option.premiumCollected.value + e.totalPrice));
          option := option.(unitsLeft := Some(option.unitsLeft.value - e.units));
        }
        options := options[id := option];
      }
    }

    method HandleOptionClaimed(e: ClaimEvent)
      modifies this
      ensures State() == ClaimOption(old(State()), e)
    {
      var mappingId := MappingId(e.claimer, OptionKey(e.optionId));
      if mappingId in mappings {
        mappings := mappings[mappingId := mappings[mappingId].(claimed := true)];
      }
    }

    method HandleErroredClaimed(e: ClaimEvent)
      modifies this
      ensures State() == ErroredClaim(old(State()), e)
    {
      var mappingId := MappingId(e.claimer, OptionKey(e.optionId));
      if mappingId in mappings {
        mappings := mappings[mappingId := mappings[mappingId].(errorClaim := true)];
      }
    }

    method HandleResponse(e: ResponseEvent)
      modifies this
      ensures State() == Respond(old(State()), e)
    {
      var id := OptionKey(e.optionId);
      if id in options {
        var option := options[id];
        if e.response.Some? {
          option := option.(responseValue := e.response, hasToPay := e.hasToPay);
        }
        if option.responseValue.None? {
          option := option.(isErrored := true);
        }
        options := options[id := option];
      }
    }

    method HandleOptionDeleted(optionId: nat)
      modifies this
      ensures State() == DeleteOption(old(State()), optionId)
    {
      var id := OptionKey(optionId);
      if id in options {
        options := options[id := options[id].(isDeleted := true)];
      }
    }

    /** `handleTransferSingle`, with the list edits stored back. */
    method HandleTransferSingle(e: TransferSingleEvent)
      modifies this
      ensures State() == Transfer(old(State()), e)
    {
      var optionId := OptionKey(e.id);
      if e.from in users {
        var held := users[e.from];
        if optionId in held {
          var index := IndexOf(held, optionId);
          users := users[e.from := held[..index] + held[index + 1..]];
        }
        var oldMappingId := MappingId(e.from, optionId);
        if oldMappingId in mappings {
          var oldMapping := mappings[oldMappingId];
          mappings := mappings[oldMappingId := oldMapping.(units := oldMapping.units - e.value)];
        }
      }
      assert State() == TransferOut(old(State()), e.from, optionId, e.value);
      if e.to !in users {
        users := users[e.to := [optionId]];
        StoreUnits(e.to, optionId, e.value);
      } else {
        users := users[e.to := users[e.to] + [optionId]];
        if optionId in options {
          StoreUnits(e.to, optionId, e.value);
        }
      }
    }

    /** Load or create the mapping `<user>-<option>` and set its fields. */
    method StoreUnits(user: string, option: string, value: nat)
      modifies this
      ensures mappings == SetUnits(old(mappings), user, option, value)
      ensures options == old(options) && users == old(users)
    {
      var mappingId := MappingId(user, option);
      var mapping := FreshMapping;
      if mappingId in mappings {
        mapping := mappings[mappingId];
      }
      mapping := mapping.(user := user, option := option, units := value);
      mappings := mappings[mappingId := mapping];
    }
  }
}
