/** The price chart's data preparation (frontend/components/TradingViewChart.tsx):
    raw gas-price points are grouped into hourly candles, and whatever the
    chart is about to draw is sorted by time with repeated times dropped. */
module Chart {
  import opened Base
  import opened JsArray

  const SECONDS_PER_HOUR: int := 3600

  /** A chart point or candle: a Unix time in whole seconds and its prices
      and volume, which are fractional numbers (gwei values and their
      sums). */
  datatype GasPriceData = GasPriceData(time: int, open: real, high: real, low: real, close: real, volume: real)

  function Time(p: GasPriceData): int {
    p.time
  }

  /** The comparator `(a, b) => a.time - b.time`. */
  function ByTime(a: GasPriceData, b: GasPriceData): int {
    a.time - b.time
  }

  /** `[...data].sort((a, b) => a.time - b.time)`. */
  function SortByTime(data: seq<GasPriceData>): seq<GasPriceData> {
    SortBy(ByTime, data)
  }

  function Times(s: seq<GasPriceData>): seq<int> {
    if s == [] then [] else Times(s[..|s| - 1]) + [s[|s| - 1].time]
  }

  /** `Math.floor(time / 3600) * 3600`: the start of the hour. */
  function HourOf(t: int): (h: int)
    ensures h <= t < h + SECONDS_PER_HOUR && h % SECONDS_PER_HOUR == 0
  {
    (t / SECONDS_PER_HOUR) * SECONDS_PER_HOUR
  }

  /** The hours of the points, in the order they first appear: the keys of
      the bucket map in insertion order. */
  function Hours(s: seq<GasPriceData>): seq<int> {
    if s == [] then []
    else
      var hs := Hours(s[..|s| - 1]);
      var h := HourOf(s[|s| - 1].time);
      if h in hs then hs else hs + [h]
  }

  /** The points of hour `h`, in the order they come. */
  function Bucket(s: seq<GasPriceData>, h: int): seq<GasPriceData> {
    if s == [] then []
    else Bucket(s[..|s| - 1], h) + (if HourOf(s[|s| - 1].time) == h then [s[|s| - 1]] else [])
  }

  /** `Math.max(...points.map(p => p.high))`. */
  function MaxHigh(points: seq<GasPriceData>): (m: real)
    requires points != []
    ensures forall i :: 0 <= i < |points| ==> points[i].high <= m
    ensures exists i :: 0 <= i < |points| && points[i].high == m
  {
    if |points| == 1 then points[0].high
    else
      var m := MaxHigh(points[..|points| - 1]);
      if m < points[|points| - 1].high then points[|points| - 1].high else m
  }

  /** `Math.min(...points.map(p => p.low))`. */
  function MinLow(points: seq<GasPriceData>): (m: real)
    requires points != []
    ensures forall i :: 0 <= i < |points| ==> m <= points[i].low
    ensures exists i :: 0 <= i < |points| && points[i].low == m
  {
    if |points| == 1 then points[0].low
    else
      var m := MinLow(points[..|points| - 1]);
      if points[|points| - 1].low < m then points[|points| - 1].low else m
  }

  /** `points.reduce((sum, p) => sum + p.volume, 0)`. */
  function SumVolume(points: seq<GasPriceData>): real {
    if points == [] then 0.0 else SumVolume(points[..|points| - 1]) + points[|points| - 1].volume
  }

  /** The candle of one hour: opened by its first point, closed by its
      last, spanning the highest high and the lowest low, with the summed
      volume. */
  function Candle(h: int, points: seq<GasPriceData>): GasPriceData
    requires points != []
  {
    GasPriceData(h, points[0].open, MaxHigh(points), MinLow(points), points[|points| - 1].close, SumVolume(points))
  }

  /** One candle per listed hour, skipping an hour without points. */
  function CandlesFor(hs: seq<int>, s: seq<GasPriceData>): seq<GasPriceData> {
    if hs == [] then []
    else
      var h := hs[|hs| - 1];
      var points := Bucket(s, h);
      CandlesFor(hs[..|hs| - 1], s) + (if points == [] then [] else [Candle(h, points)])
  }

  /** What `groupToHourlyCandles` returns. */
  function HourlyCandles(data: seq<GasPriceData>): seq<GasPriceData> {
    if data == [] then []
    else
      var sorted := SortByTime(data);
      SortByTime(CandlesFor(Hours(sorted), sorted))
  }

  /** `groupToHourlyCandles`: sort the points by time, bucket them by hour
      in a map, turn every non-empty bucket into a candle and sort the
      candles by time. */
  method GroupToHourlyCandles(data: seq<GasPriceData>) returns (candles: seq<GasPriceData>)
    ensures candles == HourlyCandles(data)
  {
    if |data| == 0 {
      return [];
    }
    var sorted := SortByTime(data);
    var hours, buckets := BucketByHour(sorted);
    var hourly := BuildCandles(hours, buckets, sorted);
    candles := SortByTime(hourly);
  }

  /** The bucketing loop of `groupToHourlyCandles`: the map from hour to
      its points, and its keys in insertion order. */
  method BucketByHour(sorted: seq<GasPriceData>) returns (hours: seq<int>, buckets: map<int, seq<GasPriceData>>)
    ensures hours == Hours(sorted)
    ensures forall h :: h in buckets <==> h in hours
    ensures forall h :: h in buckets ==> buckets[h] == Bucket(sorted, h)
  {
    hours := [];
    buckets := map[];
    var i := 0;
    while i < |sorted|
      invariant 0 <= i <= |sorted|
      invariant hours == Hours(sorted[..i])
      invariant forall h :: h in buckets <==> h in hours
      invariant forall h :: h in buckets ==> buckets[h] == Bucket(sorted[..i], h)
    {
      var point := sorted[i];
      var hourTimestamp := (point.time / SECONDS_PER_HOUR) * SECONDS_PER_HOUR;
      assert sorted[..i + 1] == sorted[..i] + [point];
      HoursStep(sorted[..i], point);
      BucketsStep(sorted[..i], point);
      if hourTimestamp !in buckets {
        BucketOutsideHours(sorted[..i], hourTimestamp);
        hours := hours + [hourTimestamp];
        buckets := buckets[hourTimestamp := []];
      }
      buckets := buckets[hourTimestamp := buckets[hourTimestamp] + [point]];
      i := i + 1;
    }
    assert sorted[..i] == sorted;
  }

  /** The candle loop of `groupToHourlyCandles`: one candle per key of the
      bucket map, in key order, skipping an empty bucket. */
  method BuildCandles(hours: seq<int>, buckets: map<int, seq<GasPriceData>>, sorted: seq<GasPriceData>)
    returns (hourly: seq<GasPriceData>)
    requires forall h :: h in buckets <==> h in hours
    requires forall h :: h in buckets ==> buckets[h] == Bucket(sorted, h)
    ensures hourly == CandlesFor(hours, sorted)
  {
    hourly := [];
    var j := 0;
    while j < |hours|
      invariant 0 <= j <= |hours|
      invariant hourly == CandlesFor(hours[..j], sorted)
    {
      CandleLoopStep(hours, buckets, sorted, j);
      var hourTimestamp := hours[j];
      var points := buckets[hourTimestamp];
      if |points| != 0 {
        hourly := hourly + [Candle(hourTimestamp, points)];
      }
      j := j + 1;
    }
    assert hours[..j] == hours;
  }

  /** One more point adds its hour to the list unless it is there already. */
  lemma HoursStep(s: seq<GasPriceData>, p: GasPriceData)
    ensures Hours(s + [p]) == if HourOf(p.time) in Hours(s) then Hours(s) else Hours(s) + [HourOf(p.time)]
  {
    assert (s + [p])[..|s|] == s;
  }

  /** One more point joins the bucket of its hour and no other. */
  lemma BucketsStep(s: seq<GasPriceData>, p: GasPriceData)
    ensures forall h :: Bucket(s + [p], h) == Bucket(s, h) + (if HourOf(p.time) == h then [p] else [])
  {
    assert (s + [p])[..|s|] == s;
  }

  /** One turn of the candle loop: the next key's bucket becomes a candle
      unless it is empty. */
  lemma CandleLoopStep(hours: seq<int>, buckets: map<int, seq<GasPriceData>>, sorted: seq<GasPriceData>, j: int)
    requires 0 <= j < |hours|
    requires forall h :: h in buckets <==> h in hours
    requires forall h :: h in buckets ==> buckets[h] == Bucket(sorted, h)
    ensures hours[j] in buckets
    ensures var points := buckets[hours[j]];
      CandlesFor(hours[..j + 1], sorted)
      == CandlesFor(hours[..j], sorted) + (if |points| != 0 then [Candle(hours[j], points)] else [])
  {
    var h := hours[j];
    assert h in buckets;
    assert hours[..j + 1] == hours[..j] + [h];
    CandlesStep(hours[..j], h, sorted);
  }

  /** One more hour adds its candle when its bucket is not empty. */
  lemma CandlesStep(hs: seq<int>, h: int, s: seq<GasPriceData>)
    ensures CandlesFor(hs + [h], s)
         == CandlesFor(hs, s) + (if Bucket(s, h) == [] then [] else [Candle(h, Bucket(s, h))])
  {
    assert (hs + [h])[..|hs|] == hs;
  }

  /** The pass before drawing: `.filter((item, index, array) => index === 0
      || item.time !== array[index - 1].time)`, each item compared with its
      predecessor in the array. */
  function DedupByTime(s: seq<GasPriceData>): seq<GasPriceData> {
    if |s| <= 1 then s
    else DedupByTime(s[..|s| - 1]) + (if s[|s| - 1].time != s[|s| - 2].time then [s[|s| - 1]] else [])
  }

  /** Sort by time, then drop repeated times. */
  function DedupPass(data: seq<GasPriceData>): seq<GasPriceData> {
    DedupByTime(SortByTime(data))
  }

  // ---------------------------------------------------------------------
  // Sorting by time
  // ---------------------------------------------------------------------

  predicate TimeOrdered(s: seq<GasPriceData>) {
    forall i, j :: 0 <= i < j < |s| ==> s[i].time <= s[j].time
  }

  predicate StrictlyIncreasing(s: seq<GasPriceData>) {
    forall i, j :: 0 <= i < j < |s| ==> s[i].time < s[j].time
  }

  function Elements(s: seq<GasPriceData>): set<GasPriceData> {
    set i | 0 <= i < |s| :: s[i]
  }

  lemma ByTimeConsistent(dom: set<GasPriceData>)
    ensures RankConsistent(ByTime, Time, dom)
  {
  }

  /** The time sort orders the points and keeps every one of them. */
  lemma SortByTimeSpec(data: seq<GasPriceData>)
    ensures TimeOrdered(SortByTime(data))
    ensures multiset(SortByTime(data)) == multiset(data)
    ensures |SortByTime(data)| == |data|
  {
    ByTimeConsistent(Elements(data));
    SortByRanked(ByTime, Time, Elements(data), data);
    SortByPermutes(ByTime, data);
    assert |multiset(SortByTime(data))| == |multiset(data)|;
  }

  /** Points already in time order are left in place. */
  lemma SortByTimeOrdered(s: seq<GasPriceData>)
    requires TimeOrdered(s)
    ensures SortByTime(s) == s
  {
    ByTimeConsistent(Elements(s));
    SortByOrderedInput(ByTime, Time, Elements(s), s);
  }

  // ---------------------------------------------------------------------
  // Buckets
  // ---------------------------------------------------------------------

  lemma {:induction false} TimesMembers(s: seq<GasPriceData>, t: int)
    ensures |Times(s)| == |s|
    ensures t in Times(s) <==> exists k :: 0 <= k < |s| && s[k].time == t
  {
    if s != [] {
      var init := s[..|s| - 1];
      TimesMembers(init, t);
      if t in Times(init) {
        var k :| 0 <= k < |init| && init[k].time == t;
        assert s[k].time == t;
      }
      if exists k :: 0 <= k < |s| && s[k].time == t {
        var k :| 0 <= k < |s| && s[k].time == t;
        if k < |init| {
          assert init[k].time == t;
        }
      }
    }
  }

  /** An hour is listed exactly when some point falls in it; the list has
      no more hours than there are points. */
  lemma {:induction false} HoursMembers(s: seq<GasPriceData>, h: int)
    ensures h in Hours(s) <==> exists k :: 0 <= k < |s| && HourOf(s[k].time) == h
    ensures |Hours(s)| <= |s|
  {
    if s != [] {
      var init := s[..|s| - 1];
      HoursMembers(init, h);
      if h in Hours(init) {
        var k :| 0 <= k < |init| && HourOf(init[k].time) == h;
        assert s[k] == init[k];
      }
      if exists k :: 0 <= k < |s| && HourOf(s[k].time) == h {
        var k :| 0 <= k < |s| && HourOf(s[k].time) == h;
        if k < |init| {
          assert init[k] == s[k];
        }
      }
    }
  }

  /** A bucket holds exactly the points of its hour. */
  lemma {:induction false} BucketMembers(s: seq<GasPriceData>, h: int, p: GasPriceData)
    ensures p in Bucket(s, h) <==> p in s && HourOf(p.time) == h
  {
    if s != [] {
      BucketMembers(s[..|s| - 1], h, p);
      assert s == s[..|s| - 1] + [s[|s| - 1]];
    }
  }

  /** An hour with no point has an empty bucket. */
  lemma {:induction false} BucketOutsideHours(s: seq<GasPriceData>, h: int)
    requires h !in Hours(s)
    ensures Bucket(s, h) == []
  {
    if s != [] {
      var init := s[..|s| - 1];
      assert h !in Hours(init);
      BucketOutsideHours(init, h);
    }
  }

  /** A listed hour has a non-empty bucket. */
  lemma {:induction false} BucketOfListedHour(s: seq<GasPriceData>, h: int)
    requires h in Hours(s)
    ensures Bucket(s, h) != []
  {
    HoursMembers(s, h);
    var k :| 0 <= k < |s| && HourOf(s[k].time) == h;
    BucketMembers(s, h, s[k]);
  }

  /** A bucket of time-ordered points is itself in time order. */
  lemma {:induction false} BucketOrdered(s: seq<GasPriceData>, h: int)
    requires TimeOrdered(s)
    ensures TimeOrdered(Bucket(s, h))
  {
    if s != [] {
      var init := s[..|s| - 1];
      BucketOrdered(init, h);
      var b := Bucket(init, h);
      forall i | 0 <= i < |b|
        ensures b[i].time <= s[|s| - 1].time
      {
        BucketMembers(init, h, b[i]);
        var k :| 0 <= k < |init| && init[k] == b[i];
        assert s[k] == b[i];
      }
    }
  }

  /** For time-ordered points the hours come out strictly increasing. */
  lemma {:induction false} HoursIncreasing(s: seq<GasPriceData>)
    requires TimeOrdered(s)
    ensures forall i, j :: 0 <= i < j < |Hours(s)| ==> Hours(s)[i] < Hours(s)[j]
  {
    if s != [] {
      var init := s[..|s| - 1];
      var hs := Hours(init);
      var h := HourOf(s[|s| - 1].time);
      HoursIncreasing(init);
      forall i | 0 <= i < |hs|
        ensures hs[i] <= h
      {
        HoursMembers(init, hs[i]);
        var k :| 0 <= k < |init| && HourOf(init[k].time) == hs[i];
        assert s[k].time <= s[|s| - 1].time;
        HourMonotone(s[k].time, s[|s| - 1].time);
      }
    }
  }

  lemma HourMonotone(a: int, b: int)
    requires a <= b
    ensures HourOf(a) <= HourOf(b)
  {
    assert (a / SECONDS_PER_HOUR) * SECONDS_PER_HOUR < (b / SECONDS_PER_HOUR + 1) * SECONDS_PER_HOUR;
  }

  // ---------------------------------------------------------------------
  // Candles
  // ---------------------------------------------------------------------

  /** The candles of a list of hours carry those hours, in order, and
      there is at most one per hour. */
  lemma {:induction false} CandlesForTimes(hs: seq<int>, s: seq<GasPriceData>)
    requires forall i, j :: 0 <= i < j < |hs| ==> hs[i] < hs[j]
    ensures StrictlyIncreasing(CandlesFor(hs, s))
    ensures forall i :: 0 <= i < |CandlesFor(hs, s)| ==> CandlesFor(hs, s)[i].time in hs
    ensures |CandlesFor(hs, s)| <= |hs|
  {
    if hs != [] {
      var init, h := hs[..|hs| - 1], hs[|hs| - 1];
      CandlesForTimes(init, s);
      var c := CandlesFor(init, s);
      var tail := if Bucket(s, h) == [] then [] else [Candle(h, Bucket(s, h))];
      assert CandlesFor(hs, s) == c + tail;
      forall i | 0 <= i < |c|
        ensures c[i].time < h && c[i].time in hs
      {
        var k :| 0 <= k < |init| && init[k] == c[i].time;
        assert hs[k] == c[i].time;
      }
      AppendLater(c, tail, h);
    }
  }

  /** Appending an item later than all the others keeps the times
      strictly increasing. */
  lemma AppendLater(c: seq<GasPriceData>, tail: seq<GasPriceData>, h: int)
    requires StrictlyIncreasing(c)
    requires forall i :: 0 <= i < |c| ==> c[i].time < h
    requires tail == [] || (|tail| == 1 && tail[0].time == h)
    ensures StrictlyIncreasing(c + tail)
  {
    if tail != [] {
      forall i, j | 0 <= i < j < |c + tail|
        ensures (c + tail)[i].time < (c + tail)[j].time
      {
        if j == |c| {
          assert (c + tail)[j] == tail[0];
          assert (c + tail)[i] == c[i];
        }
      }
    } else {
      assert c + tail == c;
    }
  }

  /** Each candle is the candle of its own hour's bucket. */
  lemma {:induction false} CandlesForContents(hs: seq<int>, s: seq<GasPriceData>, i: int)
    requires 0 <= i < |CandlesFor(hs, s)|
    ensures var c := CandlesFor(hs, s)[i];
      Bucket(s, c.time) != [] && c == Candle(c.time, Bucket(s, c.time))
  {
    var init := hs[..|hs| - 1];
    if i < |CandlesFor(init, s)| {
      CandlesForContents(init, s, i);
    }
  }

  /** Every listed hour with points gets a candle. */
  lemma {:induction false} CandlesForCover(hs: seq<int>, s: seq<GasPriceData>, h: int)
    requires h in hs && Bucket(s, h) != []
    ensures exists i :: 0 <= i < |CandlesFor(hs, s)| && CandlesFor(hs, s)[i].time == h
  {
    var init := hs[..|hs| - 1];
    if h in init {
      CandlesForCover(init, s, h);
      var i :| 0 <= i < |CandlesFor(init, s)| && CandlesFor(init, s)[i].time == h;
      assert CandlesFor(hs, s)[i] == CandlesFor(init, s)[i];
    } else {
      assert h == hs[|hs| - 1];
      assert CandlesFor(hs, s)[|CandlesFor(hs, s)| - 1].time == h;
    }
  }

  /** The final time sort leaves the candles as the bucket pass built
      them. */
  lemma CandlesUnsorted(data: seq<GasPriceData>)
    requires data != []
    ensures var sorted := SortByTime(data);
      HourlyCandles(data) == CandlesFor(Hours(sorted), sorted)
      && StrictlyIncreasing(HourlyCandles(data))
  {
    var sorted := SortByTime(data);
    SortByTimeSpec(data);
    HoursIncreasing(sorted);
    CandlesForTimes(Hours(sorted), sorted);
    SortByTimeOrdered(CandlesFor(Hours(sorted), sorted));
  }

  /** No points, no candles; otherwise the candles are in strictly
      increasing time, each at the start of an hour, and there are no more
      candles than points. */
  lemma CandleTimes(data: seq<GasPriceData>)
    ensures data == [] ==> HourlyCandles(data) == []
    ensures StrictlyIncreasing(HourlyCandles(data))
    ensures forall i :: 0 <= i < |HourlyCandles(data)| ==> HourlyCandles(data)[i].time % SECONDS_PER_HOUR == 0
    ensures |HourlyCandles(data)| <= |data|
  {
    if data != [] {
      var sorted := SortByTime(data);
      CandlesUnsorted(data);
      SortByTimeSpec(data);
      HoursIncreasing(sorted);
      CandlesForTimes(Hours(sorted), sorted);
      HoursMembers(sorted, 0);
      forall i | 0 <= i < |HourlyCandles(data)|
        ensures HourlyCandles(data)[i].time % SECONDS_PER_HOUR == 0
      {
        var h := HourlyCandles(data)[i].time;
        HoursMembers(sorted, h);
      }
    }
  }

  /** There is a candle for exactly the hours that hold a point. */
  lemma CandleForEveryHour(data: seq<GasPriceData>, h: int)
    ensures h in Times(HourlyCandles(data)) <==> exists k :: 0 <= k < |data| && HourOf(data[k].time) == h
  {
    var r := HourlyCandles(data);
    TimesMembers(r, h);
    if exists k :: 0 <= k < |data| && HourOf(data[k].time) == h {
      var k :| 0 <= k < |data| && HourOf(data[k].time) == h;
      HourHasCandle(data, k);
    }
    if exists i :: 0 <= i < |r| && r[i].time == h {
      var i :| 0 <= i < |r| && r[i].time == h;
      CandleHasPoint(data, i);
    }
  }

  /** The hour of every point gets a candle. */
  lemma HourHasCandle(data: seq<GasPriceData>, k: int)
    requires 0 <= k < |data|
    ensures var r := HourlyCandles(data);
      exists i :: 0 <= i < |r| && r[i].time == HourOf(data[k].time)
  {
    var sorted := SortByTime(data);
    var h := HourOf(data[k].time);
    CandlesUnsorted(data);
    SortByTimeSpec(data);
    assert data[k] in multiset(sorted);
    var m :| 0 <= m < |sorted| && sorted[m] == data[k];
    HoursMembers(sorted, h);
    BucketOfListedHour(sorted, h);
    CandlesForCover(Hours(sorted), sorted, h);
  }

  /** Every candle's hour holds a point. */
  lemma CandleHasPoint(data: seq<GasPriceData>, i: int)
    requires 0 <= i < |HourlyCandles(data)|
    ensures exists k :: 0 <= k < |data| && HourOf(data[k].time) == HourlyCandles(data)[i].time
  {
    var sorted := SortByTime(data);
    CandlesUnsorted(data);
    SortByTimeSpec(data);
    var c := HourlyCandles(data)[i];
    CandlesForContents(Hours(sorted), sorted, i);
    var b := Bucket(sorted, c.time);
    BucketMembers(sorted, c.time, b[0]);
    assert b[0] in multiset(data);
    var k :| 0 <= k < |data| && data[k] == b[0];
  }

  /** A candle opens with the earliest point of its hour and closes with
      the latest, spans the highest high and lowest low of the hour, and
      carries the hour's total volume; its points are exactly the input
      points of that hour. */
  lemma CandleContents(data: seq<GasPriceData>, i: int, p: GasPriceData)
    requires 0 <= i < |HourlyCandles(data)|
    ensures var c := HourlyCandles(data)[i];
      var points := Bucket(SortByTime(data), c.time);
      && points != []
      && (p in points <==> p in data && HourOf(p.time) == c.time)
      && TimeOrdered(points)
      && c.open == points[0].open && c.close == points[|points| - 1].close
      && c.high == MaxHigh(points) && c.low == MinLow(points) && c.volume == SumVolume(points)
  {
    var sorted := SortByTime(data);
    CandlesUnsorted(data);
    SortByTimeSpec(data);
    var c := HourlyCandles(data)[i];
    CandlesForContents(Hours(sorted), sorted, i);
    BucketMembers(sorted, c.time, p);
    assert p in sorted <==> p in multiset(data);
    BucketOrdered(sorted, c.time);
  }

  /** Volumes add up across a split of the points. */
  lemma {:induction false} SumVolumeConcat(a: seq<GasPriceData>, b: seq<GasPriceData>)
    ensures SumVolume(a + b) == SumVolume(a) + SumVolume(b)
  {
    if b != [] {
      SumVolumeConcat(a, b[..|b| - 1]);
      assert (a + b)[..|a + b| - 1] == a + b[..|b| - 1];
    } else {
      assert a + b == a;
    }
  }

  // ---------------------------------------------------------------------
  // The dedup pass
  // ---------------------------------------------------------------------

  lemma {:induction false} DedupLast(s: seq<GasPriceData>)
    requires s != []
    ensures DedupByTime(s) != [] && DedupByTime(s)[|DedupByTime(s)| - 1].time == s[|s| - 1].time
    ensures DedupByTime(s)[0] == s[0]
  {
    if |s| > 1 {
      DedupLast(s[..|s| - 1]);
    }
  }

  /** Deduplicating time-ordered points leaves strictly increasing
      times. */
  lemma {:induction false} DedupIncreasing(s: seq<GasPriceData>)
    requires TimeOrdered(s)
    ensures StrictlyIncreasing(DedupByTime(s))
  {
    if |s| > 1 {
      var init := s[..|s| - 1];
      DedupIncreasing(init);
      DedupLast(init);
      var d := DedupByTime(init);
      var last := s[|s| - 1];
      if last.time != s[|s| - 2].time {
        DedupNotAfter(init, last.time);
        assert DedupByTime(s) == d + [last];
        AppendLater(d, [last], last.time);
      } else {
        assert DedupByTime(s) == d + [];
        assert d + [] == d;
      }
    }
  }

  /** Deduplicated time-ordered items are no later than the last input. */
  lemma DedupNotAfter(s: seq<GasPriceData>, t: int)
    requires TimeOrdered(s) && s != [] && s[|s| - 1].time < t
    ensures forall i :: 0 <= i < |DedupByTime(s)| ==> DedupByTime(s)[i].time < t
  {
    var d := DedupByTime(s);
    forall i | 0 <= i < |d|
      ensures d[i].time < t
    {
      DedupMembers(s, d[i]);
      var k :| 0 <= k < |s| && s[k] == d[i];
      assert s[k].time <= s[|s| - 1].time;
    }
  }

  /** Every kept item comes from the input. */
  lemma {:induction false} DedupMembers(s: seq<GasPriceData>, x: GasPriceData)
    requires x in DedupByTime(s)
    ensures x in s
  {
    if |s| > 1 {
      var init := s[..|s| - 1];
      if x in DedupByTime(init) {
        DedupMembers(init, x);
      }
    }
  }

  /** No time is lost: every time of the input is still present. */
  lemma {:induction false} DedupKeepsTimes(s: seq<GasPriceData>, t: int)
    ensures t in Times(DedupByTime(s)) <==> t in Times(s)
  {
    if |s| > 1 {
      var init := s[..|s| - 1];
      DedupKeepsTimes(init, t);
      DedupLast(init);
      var d := DedupByTime(init);
      var last := if s[|s| - 1].time != s[|s| - 2].time then [s[|s| - 1]] else [];
      TimesConcat(d, last);
      TimesConcat(init, [s[|s| - 1]]);
      assert init + [s[|s| - 1]] == s;
      TimesMembers(init, s[|s| - 2].time);
      assert init[|init| - 1] == s[|s| - 2];
    }
  }

  lemma {:induction false} TimesConcat(a: seq<GasPriceData>, b: seq<GasPriceData>)
    ensures Times(a + b) == Times(a) + Times(b)
  {
    if b != [] {
      TimesConcat(a, b[..|b| - 1]);
      assert (a + b)[..|a + b| - 1] == a + b[..|b| - 1];
    } else {
      assert a + b == a;
    }
  }

  /** An item is kept exactly when it starts a run of equal times. */
  lemma {:induction false} DedupKeepsFirst(s: seq<GasPriceData>, k: int)
    requires 0 <= k < |s|
    requires k == 0 || s[k - 1].time != s[k].time
    ensures s[k] in DedupByTime(s)
  {
    if |s| > 1 {
      var init := s[..|s| - 1];
      if k < |s| - 1 {
        DedupKeepsFirst(init, k);
      }
    }
  }

  /** The chart's pass on the data: strictly increasing times, no time of
      the input lost, nothing invented, and the first point of each time
      kept. */
  lemma DedupPassSpec(data: seq<GasPriceData>, t: int)
    ensures StrictlyIncreasing(DedupPass(data))
    ensures t in Times(DedupPass(data)) <==> exists k :: 0 <= k < |data| && data[k].time == t
    ensures forall x :: x in DedupPass(data) ==> x in data
  {
    var sorted := SortByTime(data);
    SortByTimeSpec(data);
    DedupIncreasing(sorted);
    DedupKeepsTimes(sorted, t);
    TimesMembers(sorted, t);
    TimesMembers(data, t);
    if exists k :: 0 <= k < |data| && data[k].time == t {
      var k :| 0 <= k < |data| && data[k].time == t;
      assert data[k] in multiset(sorted);
      var m :| 0 <= m < |sorted| && sorted[m] == data[k];
    }
    if exists m :: 0 <= m < |sorted| && sorted[m].time == t {
      var m :| 0 <= m < |sorted| && sorted[m].time == t;
      assert sorted[m] in multiset(data);
      var k :| 0 <= k < |data| && data[k] == sorted[m];
    }
    forall x | x in DedupPass(data)
      ensures x in data
    {
      DedupMembers(sorted, x);
      assert x in multiset(data);
    }
  }

  /** Strictly increasing points go through the pass unchanged; in
      particular the hourly candles do. */
  lemma {:induction false} DedupIncreasingIdentity(s: seq<GasPriceData>)
    requires StrictlyIncreasing(s)
    ensures DedupByTime(s) == s
  {
    if |s| > 1 {
      DedupIncreasingIdentity(s[..|s| - 1]);
      assert s[|s| - 2].time < s[|s| - 1].time;
      assert s[..|s| - 1] + [s[|s| - 1]] == s;
    }
  }

  lemma DedupOfCandles(data: seq<GasPriceData>)
    ensures DedupPass(HourlyCandles(data)) == HourlyCandles(data)
  {
    CandleTimes(data);
    SortByTimeOrdered(HourlyCandles(data));
    DedupIncreasingIdentity(HourlyCandles(data));
  }
}
