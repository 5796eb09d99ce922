/** The settlement query the oracle runs (functions.query.js): given a data
    source URL and a window selector it answers one integer, the selected
    gas average of the aggregator subgraph, or, for the blobscan statistics
    endpoint, the mean of the blob gas prices it fetches.

    The query keeps no state. The two HTTP replies it reads are inputs,
    each a function from the request URL to the decoded JSON reply; a
    thrown error is an `Err`. */
module SettlementQuery {
  import opened Base
  import GasPriceIndexer

  /** The source identifier that selects the blob-fee path. */
  const BLOBSCAN_URL: string := "https://api.blobscan.com/stats/blocks"

  /** Fixed-point scale of the blob path: gwei to wei. */
  const WEI_PER_GWEI: real := 1000000000.0

  /** The four errors the query throws. */
  datatype QueryError =
    | FailedToGetGasData
    | InvalidTimeframe
    | InvalidGasAverage
    | InvalidBlobFeeData

  /** The `feeAggregator` object of the GraphQL reply; an absent field reads
      as `undefined`. */
  datatype AggregatorFields = AggregatorFields(
    gasAverageDaily: Option<string>,
    gasAverageWeekly: Option<string>,
    gasAverageMonthly: Option<string>,
    lastUpdated: Option<string>)

  /** The JSON body of a GraphQL reply: whether it carries an `errors`
      member, and the aggregator object when `data.feeAggregator` is set. */
  datatype GraphBody = GraphBody(errors: bool, feeAggregator: Option<AggregatorFields>)

  /** A GraphQL reply; `data` is absent when the body could not be read. */
  datatype GraphReply = GraphReply(data: Option<GraphBody>)

  /** The JSON body of the blobscan reply; prices are in gwei. */
  datatype BlobBody = BlobBody(avgBlobGasPrices: Option<seq<real>>)

  datatype BlobReply = BlobReply(data: Option<BlobBody>)

  /** The window selector: `parseInt` of the second argument when it is
      given and non-empty, 2 (weekly) otherwise. */
  function Timeframe(arg: Option<string>): (t: Parsed) {
    if arg.None? || arg.value == "" then Num(2) else ParseInt(arg.value)
  }

  /** `getGasAverages`: a reply with an `errors` member gives null, so does
      one without data; otherwise the aggregator object, if any. */
  function GetGasAverages(reply: GraphReply): (r: Option<AggregatorFields>)
    ensures r.Some? ==> reply.data.Some? && !reply.data.value.errors
  {
    if reply.data.None? then None
    else if reply.data.value.errors then None
    else reply.data.value.feeAggregator
  }

  /** `parseInt` of a reply field; a missing field parses to NaN. */
  function FieldValue(field: Option<string>): Parsed {
    if field.None? then NaN else ParseInt(field.value)
  }

  /** Selector 1, 2 and 3 read the daily, weekly and monthly average;
      any other selector is an error. */
  function SelectAverage(fields: AggregatorFields, timeframe: Parsed): Result<Parsed, QueryError> {
    if timeframe == Num(1) then Ok(FieldValue(fields.gasAverageDaily))
    else if timeframe == Num(2) then Ok(FieldValue(fields.gasAverageWeekly))
    else if timeframe == Num(3) then Ok(FieldValue(fields.gasAverageMonthly))
    else Err(InvalidTimeframe)
  }

  /** `if (!avgFee || avgFee <= 0) throw`: NaN, zero and negative averages
      are rejected. */
  function CheckAverage(avgFee: Parsed): Result<int, QueryError> {
    if !Truthy(avgFee) || avgFee.n <= 0 then Err(InvalidGasAverage) else Ok(avgFee.n)
  }

  /** The `timeFrame` tag of the blob request: `1d`, `7d` or `30d`, and
      `1d` for any other selector. */
  function BlobTag(timeframe: Parsed): (tag: string)
    ensures tag == "7d" <==> timeframe == Num(2)
    ensures tag == "30d" <==> timeframe == Num(3)
    ensures tag == "1d" <==> timeframe != Num(2) && timeframe != Num(3)
  {
    if timeframe == Num(1) then "1d"
    else if timeframe == Num(2) then "7d"
    else if timeframe == Num(3) then "30d"
    else "1d"
  }

  function BlobRequestUrl(url: string, timeframe: Parsed): string {
    url + "?timeFrame=" + BlobTag(timeframe)
  }

  function Sum(xs: seq<real>): real {
    if xs == [] then 0.0 else Sum(xs[..|xs| - 1]) + xs[|xs| - 1]
  }

  /** The mean price scaled to wei and truncated, computed on exact reals. */
  function BlobFeeInWei(prices: seq<real>): int
    requires prices != []
  {
    ((Sum(prices) / |prices| as real) * WEI_PER_GWEI).Floor
  }

  /** `fetchBlobFee`: a reply without data, without a price list or with an
      empty one is an error; otherwise the scaled mean. */
  function FetchBlobFee(url: string, timeframe: Parsed, blob: string -> BlobReply): Result<int, QueryError> {
    var reply := blob(BlobRequestUrl(url, timeframe));
    if reply.data.None? || reply.data.value.avgBlobGasPrices.None? || reply.data.value.avgBlobGasPrices.value == [] then
      Err(InvalidBlobFeeData)
    else
      Ok(BlobFeeInWei(reply.data.value.avgBlobGasPrices.value))
  }

  /** `main`: the blobscan URL goes to the blob path; any other URL is a
      subgraph whose aggregator must be readable before the selector is
      even looked at, and whose selected average must be positive. */
  function Main(url: string, arg: Option<string>, graph: string -> GraphReply, blob: string -> BlobReply): Result<int, QueryError> {
    var timeframe := Timeframe(arg);
    if url == BLOBSCAN_URL then FetchBlobFee(url, timeframe, blob)
    else
      match GetGasAverages(graph(url))
      case None => Err(FailedToGetGasData)
      case Some(fields) =>
        match SelectAverage(fields, timeframe)
        case Err(e) => Err(e)
        case Ok(avgFee) => CheckAverage(avgFee)
  }

  // ---------------------------------------------------------------------
  // Properties
  // ---------------------------------------------------------------------

  /** Passing the selector `k` as text selects `k`. */
  lemma TimeframeOfRendered(k: int)
    ensures Timeframe(Some(IntToString(k))) == Num(k)
  {
    ParseIntRendered(k);
  }

  /** Leaving out the selector is the same as asking for the weekly
      average. */
  lemma DefaultIsWeekly(url: string, graph: string -> GraphReply, blob: string -> BlobReply)
    ensures Main(url, None, graph, blob) == Main(url, Some("2"), graph, blob)
    ensures Timeframe(None) == Num(2)
  {
    TimeframeOfRendered(2);
    assert IntToString(2) == "2";
  }

  /** A check passes exactly the positive numbers, unchanged. */
  lemma CheckAverageAccepts(avgFee: Parsed, v: int)
    ensures CheckAverage(avgFee) == Ok(v) <==> avgFee == Num(v) && v > 0
    ensures CheckAverage(avgFee).Err? ==> CheckAverage(avgFee).error == InvalidGasAverage
  {
  }

  /** On the subgraph path, with the aggregator readable, selectors 1, 2
      and 3 answer the checked daily, weekly and monthly average. */
  lemma MainSelects(url: string, arg: Option<string>, graph: string -> GraphReply, blob: string -> BlobReply, fields: AggregatorFields)
    requires url != BLOBSCAN_URL && GetGasAverages(graph(url)) == Some(fields)
    ensures Timeframe(arg) == Num(1) ==> Main(url, arg, graph, blob) == CheckAverage(FieldValue(fields.gasAverageDaily))
    ensures Timeframe(arg) == Num(2) ==> Main(url, arg, graph, blob) == CheckAverage(FieldValue(fields.gasAverageWeekly))
    ensures Timeframe(arg) == Num(3) ==> Main(url, arg, graph, blob) == CheckAverage(FieldValue(fields.gasAverageMonthly))
  {
  }

  /** Any other selector is an error on the subgraph path, once the
      aggregator has been read. */
  lemma MainRejectsSelector(url: string, arg: Option<string>, graph: string -> GraphReply, blob: string -> BlobReply)
    requires url != BLOBSCAN_URL && GetGasAverages(graph(url)).Some?
    requires Timeframe(arg) != Num(1) && Timeframe(arg) != Num(2) && Timeframe(arg) != Num(3)
    ensures Main(url, arg, graph, blob) == Err(InvalidTimeframe)
  {
  }

  /** A reply with errors, or with no aggregator, fails the query whatever
      the selector. */
  lemma MainNeedsGasData(url: string, arg: Option<string>, graph: string -> GraphReply, blob: string -> BlobReply)
    requires url != BLOBSCAN_URL
    ensures GetGasAverages(graph(url)).None? <==> Main(url, arg, graph, blob) == Err(FailedToGetGasData)
    ensures graph(url).data.Some? && graph(url).data.value.errors ==> Main(url, arg, graph, blob) == Err(FailedToGetGasData)
  {
  }

  /** The subgraph path never answers zero or a negative number: what it
      answers is a positive average read from the selected field. */
  lemma MainAnswersPositive(url: string, arg: Option<string>, graph: string -> GraphReply, blob: string -> BlobReply, v: int)
    requires url != BLOBSCAN_URL && Main(url, arg, graph, blob) == Ok(v)
    ensures v > 0
    ensures GetGasAverages(graph(url)).Some?
    ensures SelectAverage(GetGasAverages(graph(url)).value, Timeframe(arg)) == Ok(Num(v))
  {
  }

  /** The blobscan URL bypasses the subgraph: its answer does not depend on
      the GraphQL reply at all. */
  lemma BlobPathIgnoresGraph(arg: Option<string>, graph1: string -> GraphReply, graph2: string -> GraphReply, blob: string -> BlobReply)
    ensures Main(BLOBSCAN_URL, arg, graph1, blob) == Main(BLOBSCAN_URL, arg, graph2, blob)
    ensures Main(BLOBSCAN_URL, arg, graph1, blob) == FetchBlobFee(BLOBSCAN_URL, Timeframe(arg), blob)
  {
  }

  /** The blob path fails only on a missing or empty price list, never on
      the selector. */
  lemma BlobPathErrors(url: string, timeframe: Parsed, blob: string -> BlobReply)
    ensures var reply := blob(url + "?timeFrame=" + BlobTag(timeframe));
      FetchBlobFee(url, timeframe, blob).Err?
      <==> reply.data.None? || reply.data.value.avgBlobGasPrices.None? || reply.data.value.avgBlobGasPrices.value == []
    ensures FetchBlobFee(url, timeframe, blob).Err? ==> FetchBlobFee(url, timeframe, blob).error == InvalidBlobFeeData
  {
  }

  lemma {:induction false} SumBounds(xs: seq<real>, lo: real, hi: real)
    requires forall i :: 0 <= i < |xs| ==> lo <= xs[i] <= hi
    ensures |xs| as real * lo <= Sum(xs) <= |xs| as real * hi
  {
    if xs != [] {
      SumBounds(xs[..|xs| - 1], lo, hi);
    }
  }

  /** The blob answer lies within the scaled range of the prices: at most
      the largest price in wei and above the smallest price in wei less
      one. */
  lemma BlobFeeWithinBounds(prices: seq<real>, lo: real, hi: real)
    requires prices != []
    requires forall i :: 0 <= i < |prices| ==> lo <= prices[i] <= hi
    ensures lo * WEI_PER_GWEI - 1.0 < BlobFeeInWei(prices) as real <= hi * WEI_PER_GWEI
  {
    var n := |prices| as real;
    SumBounds(prices, lo, hi);
    var mean := Sum(prices) / n;
    assert lo <= mean <= hi by {
      assert n * lo <= Sum(prices) <= n * hi;
    }
    assert lo * WEI_PER_GWEI <= mean * WEI_PER_GWEI <= hi * WEI_PER_GWEI;
  }

  /** The worked example: prices of 10, 20 and 30 gwei give 20 gwei in
      wei. */
  lemma BlobFeeExample()
    ensures BlobFeeInWei([10.0, 20.0, 30.0]) == 20000000000
  {
    assert Sum([10.0, 20.0, 30.0]) == 60.0 by {
      assert [10.0, 20.0, 30.0][..2] == [10.0, 20.0];
      assert [10.0, 20.0][..1] == [10.0];
      assert [10.0][..0] == [];
    }
  }

  // ---------------------------------------------------------------------
  // The query over the aggregator the indexer maintains
  // ---------------------------------------------------------------------

  /** The GraphQL reply that renders an aggregator entity: every BigInt
      field as its decimal text. */
  function ReplyFor(a: GasPriceIndexer.Aggregator): GraphReply {
    GraphReply(Some(GraphBody(false, Some(AggregatorFields(
      Some(IntToString(a.averageDaily)),
      Some(IntToString(a.averageWeekly)),
      Some(IntToString(a.averageMonthly)),
      Some(IntToString(a.lastUpdated)))))))
  }

  function PeriodOfSelector(k: int): GasPriceIndexer.Period
    requires 1 <= k <= 3
  {
    if k == 1 then GasPriceIndexer.Daily
    else if k == 2 then GasPriceIndexer.Weekly
    else GasPriceIndexer.Monthly
  }

  /** A field rendered from a number reads back as that number. */
  lemma FieldOfRendered(v: int)
    ensures FieldValue(Some(IntToString(v))) == Num(v)
  {
    ParseIntRendered(v);
  }

  /** The field selector `k` reads from a rendered aggregator is the
      stored average of the matching period. */
  lemma SelectFromRendered(a: GasPriceIndexer.Aggregator, k: int)
    requires 1 <= k <= 3
    ensures GetGasAverages(ReplyFor(a)).Some?
    ensures SelectAverage(GetGasAverages(ReplyFor(a)).value, Num(k))
         == Ok(Num(GasPriceIndexer.Average(a, PeriodOfSelector(k))))
  {
    var fields := GetGasAverages(ReplyFor(a)).value;
    assert fields.gasAverageDaily == Some(IntToString(a.averageDaily));
    assert fields.gasAverageWeekly == Some(IntToString(a.averageWeekly));
    assert fields.gasAverageMonthly == Some(IntToString(a.averageMonthly));
    if k == 1 {
      FieldOfRendered(a.averageDaily);
      assert SelectAverage(fields, Num(k)) == Ok(FieldValue(fields.gasAverageDaily));
    } else if k == 2 {
      FieldOfRendered(a.averageWeekly);
      assert SelectAverage(fields, Num(k)) == Ok(FieldValue(fields.gasAverageWeekly));
    } else {
      FieldOfRendered(a.averageMonthly);
      assert SelectAverage(fields, Num(k)) == Ok(FieldValue(fields.gasAverageMonthly));
    }
  }

  /** Read through the subgraph, selector `k` answers the window average the
      indexer stored for that period when it is positive; a zero average,
      which is what an empty window holds, is an error rather than an
      answer of zero. */
  lemma MainReadsAggregator(url: string, arg: Option<string>, graph: string -> GraphReply, blob: string -> BlobReply,
                            a: GasPriceIndexer.Aggregator, k: int)
    requires url != BLOBSCAN_URL && graph(url) == ReplyFor(a)
    requires 1 <= k <= 3 && Timeframe(arg) == Num(k)
    ensures var avg := GasPriceIndexer.Average(a, PeriodOfSelector(k));
      Main(url, arg, graph, blob) == if avg > 0 then Ok(avg) else Err(InvalidGasAverage)
  {
    SelectFromRendered(a, k);
    assert Main(url, arg, graph, blob) == CheckAverage(Num(GasPriceIndexer.Average(a, PeriodOfSelector(k))));
  }
}
