/** The rolling gas-fee window aggregator of the Arbitrum gas-average
    subgraph (subgraphs/arb-gas-avg/src/gas-price-indexer.ts).

    Every 150th block that carries a base fee becomes a `Block` entity and
    three `GasPriceSnapshot` entities; the singleton `FeeAggregator` (id
    "init") keeps three id lists (daily, weekly, monthly), appends the new
    id to each, re-filters each list against its window and recomputes the
    three truncating integer means.

    The entity store is a map from entity id to record. The pure part
    (`Prune`, `MeanFee`, `UpdateAggregator`, `Ingest`) is the specification;
    the classes at the end are the handler as the source runs it, proved to
    compute exactly `Ingest`. */
module GasPriceIndexer {
  import opened Base

  const DAY: int := 24 * 60 * 60
  const WEEK: int := 7 * 24 * 60 * 60
  const MONTH: int := 30 * 24 * 60 * 60

  /** Only blocks whose number is a multiple of this are sampled. */
  const INDEXING_FREQUENCY: nat := 150

  /** The id of the singleton aggregator entity. */
  const AGGREGATOR_ID: string := "init"

  /** The fields of an incoming block that the handler reads;
      `baseFeePerGas` is absent on blocks without a fee market. */
  datatype ChainBlock = ChainBlock(number: nat, timestamp: int, baseFeePerGas: Option<nat>)

  /** The `Block` entity. */
  datatype BlockRecord = BlockRecord(baseFee: nat, blockId: nat, timestamp: int)

  /** The `GasPriceSnapshot` entity. */
  datatype Snapshot = Snapshot(blockId: string, baseFee: nat, timestamp: int, period: string)

  datatype Period = Daily | Weekly | Monthly

  function PeriodName(p: Period): string {
    match p
    case Daily => "daily"
    case Weekly => "weekly"
    case Monthly => "monthly"
  }

  /** The suffix that turns a block id into a snapshot id. */
  function SnapshotSuffix(p: Period): string {
    match p
    case Daily => "-daily"
    case Weekly => "-weekly"
    case Monthly => "-monthly"
  }

  function SnapshotId(blockId: string, p: Period): string {
    blockId + SnapshotSuffix(p)
  }

  /** The `FeeAggregator` entity as a value. */
  datatype Aggregator = Aggregator(
    daily: seq<string>, weekly: seq<string>, monthly: seq<string>,
    averageDaily: int, averageWeekly: int, averageMonthly: int,
    lastUpdated: int)

  /** The aggregator as the handler creates it on first use. */
  const InitialAggregator: Aggregator := Aggregator([], [], [], 0, 0, 0, 0)

  type BlockStore = map<string, BlockRecord>

  /** Everything the handler reads and writes: the `Block` and
      `GasPriceSnapshot` tables and the singleton aggregator, if created. */
  datatype IndexerState = IndexerState(
    blocks: BlockStore,
    snapshots: map<string, Snapshot>,
    aggregator: Option<Aggregator>)

  const EmptyState: IndexerState := IndexerState(map[], map[], None)

  // ---------------------------------------------------------------------
  // Window membership and means
  // ---------------------------------------------------------------------

  /** A listed id stays in a window when its block is stored and is not
      older than the threshold (the comparison is inclusive). */
  predicate InWindow(blocks: BlockStore, id: string, threshold: int) {
    id in blocks && blocks[id].timestamp >= threshold
  }

  /** The ids of `ids` that are in the window, in their original order. */
  function Prune(ids: seq<string>, blocks: BlockStore, threshold: int): (r: seq<string>)
    ensures |r| <= |ids|
  {
    if ids == [] then []
    else
      var last := ids[|ids| - 1];
      Prune(ids[..|ids| - 1], blocks, threshold) + (if InWindow(blocks, last, threshold) then [last] else [])
  }

  /** Sum of the base fees of the stored blocks among `ids`. */
  function SumFees(blocks: BlockStore, ids: seq<string>): nat {
    if ids == [] then 0
    else
      var last := ids[|ids| - 1];
      SumFees(blocks, ids[..|ids| - 1]) + (if last in blocks then blocks[last].baseFee else 0)
  }

  /** Number of ids among `ids` whose block is stored. */
  function CountStored(blocks: BlockStore, ids: seq<string>): (n: nat)
    ensures n <= |ids|
  {
    if ids == [] then 0
    else CountStored(blocks, ids[..|ids| - 1]) + (if ids[|ids| - 1] in blocks then 1 else 0)
  }

  /** Truncating mean of the stored fees; zero for an empty list or one
      with no stored block. */
  function MeanFee(blocks: BlockStore, ids: seq<string>): (avg: nat)
    ensures ids == [] ==> avg == 0
  {
    if |ids| == 0 then 0
    else
      var n := CountStored(blocks, ids);
      if n > 0 then SumFees(blocks, ids) / n else 0
  }

  function Window(p: Period): int {
    match p
    case Daily => DAY
    case Weekly => WEEK
    case Monthly => MONTH
  }

  function Members(a: Aggregator, p: Period): seq<string> {
    match p
    case Daily => a.daily
    case Weekly => a.weekly
    case Monthly => a.monthly
  }

  function Average(a: Aggregator, p: Period): int {
    match p
    case Daily => a.averageDaily
    case Weekly => a.averageWeekly
    case Monthly => a.averageMonthly
  }

  /** The aggregator after sampling `id` at `timestamp`: the id is appended
      to every list, every list is re-filtered against its own window, all
      three means are recomputed and `lastUpdated` is the new timestamp.
      `blocks` already holds the new block. */
  function UpdateAggregator(a: Aggregator, blocks: BlockStore, timestamp: int, id: string): (r: Aggregator)
    ensures r.lastUpdated == timestamp
    ensures forall p :: Average(r, p) == MeanFee(blocks, Members(r, p))
  {
    var daily := Prune(a.daily + [id], blocks, timestamp - DAY);
    var weekly := Prune(a.weekly + [id], blocks, timestamp - WEEK);
    var monthly := Prune(a.monthly + [id], blocks, timestamp - MONTH);
    Aggregator(daily, weekly, monthly,
      MeanFee(blocks, daily), MeanFee(blocks, weekly), MeanFee(blocks, monthly),
      timestamp)
  }

  /** The three snapshots written for a new sample. */
  function SnapshotsFor(blockId: string, baseFee: nat, timestamp: int): map<string, Snapshot> {
    map[SnapshotId(blockId, Daily) := Snapshot(blockId, baseFee, timestamp, PeriodName(Daily)),
        SnapshotId(blockId, Weekly) := Snapshot(blockId, baseFee, timestamp, PeriodName(Weekly)),
        SnapshotId(blockId, Monthly) := Snapshot(blockId, baseFee, timestamp, PeriodName(Monthly))]
  }

  /** Whether the handler samples a block at all: cadence and base fee. */
  predicate Sampled(b: ChainBlock) {
    b.number % INDEXING_FREQUENCY == 0 && b.baseFeePerGas.Some?
  }

  /** The whole effect of `handleBlock` on the store. */
  function Ingest(s: IndexerState, b: ChainBlock): (r: IndexerState)
    ensures !Sampled(b) ==> r == s
  {
    if b.number % INDEXING_FREQUENCY != 0 then s
    else if b.baseFeePerGas.None? then s
    else
      var id := NatToString(b.number);
      if id in s.blocks then s
      else
        var fee := b.baseFeePerGas.value;
        var blocks := s.blocks[id := BlockRecord(fee, b.number, b.timestamp)];
        IndexerState(
          blocks,
          s.snapshots + SnapshotsFor(id, fee, b.timestamp),
          Some(UpdateAggregator(s.aggregator.GetOr(InitialAggregator), blocks, b.timestamp, id)))
  }

  // ---------------------------------------------------------------------
  // The invariant the handler keeps
  // ---------------------------------------------------------------------

  /** Every stored block sits under the decimal rendering of its number,
      which the cadence filter admitted. */
  ghost predicate BlocksKeyed(blocks: BlockStore) {
    forall id :: id in blocks ==>
      id == NatToString(blocks[id].blockId) && blocks[id].blockId % INDEXING_FREQUENCY == 0
  }

  /** Every stored block has its three snapshots, carrying its fee and time. */
  ghost predicate SnapshotsComplete(blocks: BlockStore, snapshots: map<string, Snapshot>) {
    forall id, p :: id in blocks ==>
      SnapshotId(id, p) in snapshots
      && snapshots[SnapshotId(id, p)] == Snapshot(id, blocks[id].baseFee, blocks[id].timestamp, PeriodName(p))
  }

  /** The window lists of an aggregator: stored, duplicate-free, in their
      window relative to `lastUpdated`, nested daily within weekly within
      monthly, and each average the mean of its list. */
  ghost predicate AggregatorConsistent(blocks: BlockStore, a: Aggregator) {
    && (forall p :: NoDuplicates(Members(a, p)))
    && (forall p, id :: id in Members(a, p) ==> InWindow(blocks, id, a.lastUpdated - Window(p)))
    && (forall id :: id in a.daily ==> id in a.weekly)
    && (forall id :: id in a.weekly ==> id in a.monthly)
    && (forall p :: Average(a, p) == MeanFee(blocks, Members(a, p)))
  }

  ghost predicate WellFormed(s: IndexerState) {
    && BlocksKeyed(s.blocks)
    && SnapshotsComplete(s.blocks, s.snapshots)
    && (s.aggregator.None? ==> s.blocks == map[])
    && (s.aggregator.Some? ==> AggregatorConsistent(s.blocks, s.aggregator.value))
  }

  // ---------------------------------------------------------------------
  // Lemmas
  // ---------------------------------------------------------------------

  /** Window filtering keeps exactly the ids in the window. */
  lemma {:induction false} PruneMembers(ids: seq<string>, blocks: BlockStore, threshold: int, x: string)
    ensures x in Prune(ids, blocks, threshold) <==> x in ids && InWindow(blocks, x, threshold)
  {
    if ids != [] {
      PruneMembers(ids[..|ids| - 1], blocks, threshold, x);
      assert ids == ids[..|ids| - 1] + [ids[|ids| - 1]];
    }
  }

  /** Window filtering distributes over concatenation, so it keeps the
      relative order of the ids it retains. */
  lemma {:induction false} PruneConcat(a: seq<string>, b: seq<string>, blocks: BlockStore, threshold: int)
    ensures Prune(a + b, blocks, threshold) == Prune(a, blocks, threshold) + Prune(b, blocks, threshold)
  {
    if b != [] {
      var b' := b[..|b| - 1];
      assert (a + b)[..|a + b| - 1] == a + b';
      PruneConcat(a, b', blocks, threshold);
    } else {
      assert a + b == a;
    }
  }

  lemma {:induction false} PruneNoDuplicates(ids: seq<string>, blocks: BlockStore, threshold: int)
    requires NoDuplicates(ids)
    ensures NoDuplicates(Prune(ids, blocks, threshold))
  {
    if ids != [] {
      var init := ids[..|ids| - 1];
      var last := ids[|ids| - 1];
      PruneNoDuplicates(init, blocks, threshold);
      PruneMembers(init, blocks, threshold, last);
      assert last !in init;
    }
  }

  /** A window list after the update is the old list plus the new id,
      filtered to the ids whose stored time is within the window. */
  lemma UpdatedMembers(a: Aggregator, blocks: BlockStore, timestamp: int, id: string, p: Period, x: string)
    ensures x in Members(UpdateAggregator(a, blocks, timestamp, id), p)
        <==> (x in Members(a, p) || x == id) && InWindow(blocks, x, timestamp - Window(p))
  {
    PruneMembers(Members(a, p) + [id], blocks, timestamp - Window(p), x);
  }

  /** The window lists keep the order of the old lists: each is the pruned
      old list followed by the new id (when it is itself in the window). */
  lemma UpdatedOrder(a: Aggregator, blocks: BlockStore, timestamp: int, id: string, p: Period)
    ensures Members(UpdateAggregator(a, blocks, timestamp, id), p)
         == Prune(Members(a, p), blocks, timestamp - Window(p))
          + (if InWindow(blocks, id, timestamp - Window(p)) then [id] else [])
  {
    PruneConcat(Members(a, p), [id], blocks, timestamp - Window(p));
  }

  lemma {:induction false} SumFeesBounds(blocks: BlockStore, ids: seq<string>, lo: nat, hi: nat)
    requires forall i :: 0 <= i < |ids| ==> ids[i] in blocks && lo <= blocks[ids[i]].baseFee <= hi
    ensures CountStored(blocks, ids) == |ids|
    ensures |ids| * lo <= SumFees(blocks, ids) <= |ids| * hi
  {
    if ids != [] {
      var init, last := ids[..|ids| - 1], ids[|ids| - 1];
      forall i | 0 <= i < |init|
        ensures init[i] in blocks && lo <= blocks[init[i]].baseFee <= hi
      {
        assert init[i] == ids[i];
      }
      SumFeesBounds(blocks, init, lo, hi);
      assert SumFees(blocks, ids) == SumFees(blocks, init) + blocks[last].baseFee;
      MulSucc(|init|, lo);
      MulSucc(|init|, hi);
    }
  }

  lemma DivBetween(sum: nat, n: nat, lo: nat, hi: nat)
    requires n > 0 && n * lo <= sum <= n * hi
    ensures lo <= sum / n <= hi
  {
    var q, r := sum / n, sum % n;
    assert sum == q * n + r && 0 <= r < n;
    assert (q - lo + 1) * n == q * n - lo * n + n;
    PositiveFactor(q - lo + 1, n);
    assert (hi + 1 - q) * n == hi * n + n - q * n;
    PositiveFactor(hi + 1 - q, n);
  }

  /** A window's mean lies between the smallest and the largest fee of its
      members. */
  lemma MeanWithinBounds(blocks: BlockStore, ids: seq<string>, lo: nat, hi: nat)
    requires ids != []
    requires forall i :: 0 <= i < |ids| ==> ids[i] in blocks && lo <= blocks[ids[i]].baseFee <= hi
    ensures lo <= MeanFee(blocks, ids) <= hi
  {
    SumFeesBounds(blocks, ids, lo, hi);
    DivBetween(SumFees(blocks, ids), |ids|, lo, hi);
  }

  /** When every member is stored, the mean is the floor of the fee sum
      over the member count. */
  lemma {:induction false} MeanOfStored(blocks: BlockStore, ids: seq<string>)
    requires forall i :: 0 <= i < |ids| ==> ids[i] in blocks
    ensures CountStored(blocks, ids) == |ids|
    ensures ids != [] ==> MeanFee(blocks, ids) == SumFees(blocks, ids) / |ids|
  {
    if ids != [] {
      MeanOfStored(blocks, ids[..|ids| - 1]);
    }
  }

  /** Snapshot ids of different blocks or different periods never collide. */
  lemma SnapshotIdInjective(id1: string, p1: Period, id2: string, p2: Period)
    requires AllDigits(id1) && AllDigits(id2)
    requires SnapshotId(id1, p1) == SnapshotId(id2, p2)
    ensures id1 == id2 && p1 == p2
  {
    DigitPrefixSplit(id1, SnapshotSuffix(p1), id2, SnapshotSuffix(p2));
  }

  /** A new sample writes exactly three snapshots, keyed `<id>-daily`,
      `<id>-weekly` and `<id>-monthly`, all with the sample's fee and time. */
  lemma SnapshotFanOut(blockId: string, baseFee: nat, timestamp: int)
    ensures |SnapshotsFor(blockId, baseFee, timestamp)| == 3
    ensures SnapshotsFor(blockId, baseFee, timestamp).Keys
         == {blockId + "-daily", blockId + "-weekly", blockId + "-monthly"}
    ensures forall k :: k in SnapshotsFor(blockId, baseFee, timestamp) ==>
      SnapshotsFor(blockId, baseFee, timestamp)[k].blockId == blockId
      && SnapshotsFor(blockId, baseFee, timestamp)[k].baseFee == baseFee
      && SnapshotsFor(blockId, baseFee, timestamp)[k].timestamp == timestamp
  {
    var m := SnapshotsFor(blockId, baseFee, timestamp);
    var d, w, mo := blockId + "-daily", blockId + "-weekly", blockId + "-monthly";
    assert |d| != |w| && |w| != |mo| && |d| != |mo|;
    assert m.Keys == {d, w, mo};
    assert |{d, w, mo}| == 3;
  }

  /** Appending a fresh id and pruning keeps a list duplicate-free. */
  lemma UpdateNoDuplicates(a: Aggregator, blocks: BlockStore, timestamp: int, id: string, p: Period)
    requires NoDuplicates(Members(a, p)) && id !in Members(a, p)
    ensures NoDuplicates(Members(UpdateAggregator(a, blocks, timestamp, id), p))
  {
    assert NoDuplicates(Members(a, p) + [id]);
    PruneNoDuplicates(Members(a, p) + [id], blocks, timestamp - Window(p));
  }

  /** The update keeps daily within weekly within monthly, whatever order
      the timestamps arrive in, because the windows are nested. */
  lemma UpdateNested(a: Aggregator, blocks: BlockStore, timestamp: int, id: string, x: string)
    requires x in a.daily ==> x in a.weekly
    requires x in a.weekly ==> x in a.monthly
    ensures x in UpdateAggregator(a, blocks, timestamp, id).daily ==> x in UpdateAggregator(a, blocks, timestamp, id).weekly
    ensures x in UpdateAggregator(a, blocks, timestamp, id).weekly ==> x in UpdateAggregator(a, blocks, timestamp, id).monthly
  {
    UpdatedMembers(a, blocks, timestamp, id, Daily, x);
    UpdatedMembers(a, blocks, timestamp, id, Weekly, x);
    UpdatedMembers(a, blocks, timestamp, id, Monthly, x);
  }

  /** The aggregator update keeps the window invariant. */
  lemma UpdatePreservesConsistency(a: Aggregator, blocks: BlockStore, timestamp: int, id: string)
    requires forall p :: NoDuplicates(Members(a, p)) && id !in Members(a, p)
    requires forall x :: x in a.daily ==> x in a.weekly
    requires forall x :: x in a.weekly ==> x in a.monthly
    ensures AggregatorConsistent(blocks, UpdateAggregator(a, blocks, timestamp, id))
  {
    var r := UpdateAggregator(a, blocks, timestamp, id);
    forall p
      ensures NoDuplicates(Members(r, p))
    {
      UpdateNoDuplicates(a, blocks, timestamp, id, p);
    }
    forall p, x | x in Members(r, p)
      ensures InWindow(blocks, x, r.lastUpdated - Window(p))
    {
      UpdatedMembers(a, blocks, timestamp, id, p, x);
    }
    forall x
      ensures x in r.daily ==> x in r.weekly
      ensures x in r.weekly ==> x in r.monthly
    {
      UpdateNested(a, blocks, timestamp, id, x);
    }
  }

  /** A block is skipped, leaving the store as it was, when its number is
      off the sampling cadence, when it has no base fee, or when its id is
      already stored; otherwise exactly its id is added to the block table. */
  lemma IngestSkips(s: IndexerState, b: ChainBlock)
    ensures b.number % INDEXING_FREQUENCY != 0 ==> Ingest(s, b) == s
    ensures b.baseFeePerGas.None? ==> Ingest(s, b) == s
    ensures NatToString(b.number) in s.blocks ==> Ingest(s, b) == s
    ensures Sampled(b) && NatToString(b.number) !in s.blocks ==>
      Ingest(s, b).blocks.Keys == s.blocks.Keys + {NatToString(b.number)}
  {
  }

  /** The shape of a state change: a sample adds one block, its three
      snapshots, and an updated aggregator. */
  lemma IngestSample(s: IndexerState, b: ChainBlock)
    requires Sampled(b) && NatToString(b.number) !in s.blocks
    ensures var id := NatToString(b.number);
      var blocks := s.blocks[id := BlockRecord(b.baseFeePerGas.value, b.number, b.timestamp)];
      Ingest(s, b) == IndexerState(
        blocks,
        s.snapshots + SnapshotsFor(id, b.baseFeePerGas.value, b.timestamp),
        Some(UpdateAggregator(s.aggregator.GetOr(InitialAggregator), blocks, b.timestamp, id)))
  {
  }

  lemma BlocksKeyedDigits(blocks: BlockStore, k: string)
    requires BlocksKeyed(blocks) && k in blocks
    ensures AllDigits(k)
  {
    NatToStringDigits(blocks[k].blockId);
  }

  /** A new block keyed by its number keeps the table keyed. */
  lemma AddBlockKeyed(blocks: BlockStore, rec: BlockRecord)
    requires BlocksKeyed(blocks) && rec.blockId % INDEXING_FREQUENCY == 0
    ensures BlocksKeyed(blocks[NatToString(rec.blockId) := rec])
  {
  }

  /** The snapshots of an existing block are not overwritten by those of a
      new block, because snapshot ids are injective. */
  lemma SnapshotIdsDisjoint(k: string, p: Period, id: string)
    requires AllDigits(k) && AllDigits(id) && k != id
    ensures SnapshotId(k, p) !in SnapshotsFor(id, 0, 0)
  {
    forall q
      ensures SnapshotId(k, p) != SnapshotId(id, q)
    {
      if SnapshotId(k, p) == SnapshotId(id, q) {
        SnapshotIdInjective(k, p, id, q);
      }
    }
  }

  /** Adding a block together with its three snapshots keeps every stored
      block's snapshots in place. */
  lemma AddSnapshotsComplete(blocks: BlockStore, snapshots: map<string, Snapshot>, id: string, rec: BlockRecord)
    requires BlocksKeyed(blocks) && SnapshotsComplete(blocks, snapshots)
    requires AllDigits(id) && id !in blocks
    ensures SnapshotsComplete(blocks[id := rec], snapshots + SnapshotsFor(id, rec.baseFee, rec.timestamp))
  {
    var blocks' := blocks[id := rec];
    var snapshots' := snapshots + SnapshotsFor(id, rec.baseFee, rec.timestamp);
    forall k, p | k in blocks'
      ensures SnapshotId(k, p) in snapshots'
      ensures snapshots'[SnapshotId(k, p)] == Snapshot(k, blocks'[k].baseFee, blocks'[k].timestamp, PeriodName(p))
    {
      if k != id {
        BlocksKeyedDigits(blocks, k);
        SnapshotIdsDisjoint(k, p, id);
      }
    }
  }

  /** A consistent aggregator lists only stored blocks, so an id that is not
      stored yet is in none of its lists. */
  lemma FreshNotListed(blocks: BlockStore, a: Aggregator, id: string, p: Period)
    requires AggregatorConsistent(blocks, a) && id !in blocks
    ensures id !in Members(a, p)
  {
    assert !InWindow(blocks, id, a.lastUpdated - Window(p));
  }

  /** What the update needs from the aggregator it starts from, which the
      invariant supplies for a stored aggregator and which holds trivially
      for a freshly created one. */
  lemma ReadyForUpdate(s: IndexerState, id: string)
    requires WellFormed(s) && id !in s.blocks
    ensures var a := s.aggregator.GetOr(InitialAggregator);
      && (forall p :: NoDuplicates(Members(a, p)) && id !in Members(a, p))
      && (forall x :: x in a.daily ==> x in a.weekly)
      && (forall x :: x in a.weekly ==> x in a.monthly)
  {
    if s.aggregator.Some? {
      forall p
        ensures id !in Members(s.aggregator.value, p)
      {
        FreshNotListed(s.blocks, s.aggregator.value, id, p);
      }
    }
  }

  /** Ingesting a block keeps the store well formed. */
  lemma IngestPreservesWellFormed(s: IndexerState, b: ChainBlock)
    requires WellFormed(s)
    ensures WellFormed(Ingest(s, b))
  {
    var id := NatToString(b.number);
    if Sampled(b) && id !in s.blocks {
      var rec := BlockRecord(b.baseFeePerGas.value, b.number, b.timestamp);
      var a := s.aggregator.GetOr(InitialAggregator);
      IngestSample(s, b);
      AddBlockKeyed(s.blocks, rec);
      NatToStringDigits(b.number);
      AddSnapshotsComplete(s.blocks, s.snapshots, id, rec);
      ReadyForUpdate(s, id);
      UpdatePreservesConsistency(a, s.blocks[id := rec], b.timestamp, id);
    }
  }

  /** Redelivering a block changes nothing: ingestion is idempotent. */
  lemma IngestIdempotent(s: IndexerState, b: ChainBlock)
    ensures Ingest(Ingest(s, b), b) == Ingest(s, b)
  {
    if Sampled(b) && NatToString(b.number) !in s.blocks {
      IngestSample(s, b);
    }
  }

  /** After a sample every window holds the new id, so no average is the
      empty-window zero, and each average lies between the smallest and the
      largest fee in its window. */
  lemma UpdateWindowsNonEmpty(a: Aggregator, blocks: BlockStore, timestamp: int, id: string, p: Period, lo: nat, hi: nat)
    requires id in blocks && blocks[id].timestamp == timestamp
    requires forall x :: x in Members(UpdateAggregator(a, blocks, timestamp, id), p) ==>
      x in blocks && lo <= blocks[x].baseFee <= hi
    ensures id in Members(UpdateAggregator(a, blocks, timestamp, id), p)
    ensures lo <= Average(UpdateAggregator(a, blocks, timestamp, id), p) <= hi
  {
    var ids := Members(UpdateAggregator(a, blocks, timestamp, id), p);
    UpdatedMembers(a, blocks, timestamp, id, p, id);
    assert forall i :: 0 <= i < |ids| ==> ids[i] in ids;
    MeanWithinBounds(blocks, ids, lo, hi);
  }

  // ---------------------------------------------------------------------
  // The handler as the source runs it
  // ---------------------------------------------------------------------

  /** `filterBlocksByTimeRange`: rebuilds the list, keeping the ids whose
      stored block is no older than `currentTimestamp - timeRange`. */
  method FilterBlocksByTimeRange(blockIds: seq<string>, blocks: BlockStore, currentTimestamp: int, timeRange: int)
    returns (filteredBlocks: seq<string>)
    ensures filteredBlocks == Prune(blockIds, blocks, currentTimestamp - timeRange)
  {
    var thresholdTimestamp := currentTimestamp - timeRange;
    filteredBlocks := [];
    var i := 0;
    while i < |blockIds|
      invariant 0 <= i <= |blockIds|
      invariant filteredBlocks == Prune(blockIds[..i], blocks, thresholdTimestamp)
    {
      var blockId := blockIds[i];
      assert blockIds[..i + 1][..i] == blockIds[..i];
      if blockId in blocks && blocks[blockId].timestamp >= thresholdTimestamp {
        filteredBlocks := filteredBlocks + [blockId];
      }
      i := i + 1;
    }
    assert blockIds[..i] == blockIds;
  }

  /** `calculateAverage`: sums the fees of the stored blocks and divides by
      how many there were, truncating. */
  method CalculateAverage(blockIds: seq<string>, blocks: BlockStore) returns (avg: nat)
    ensures avg == MeanFee(blocks, blockIds)
  {
    if |blockIds| == 0 {
      return 0;
    }
    var totalBaseFee: nat := 0;
    var validBlocks: nat := 0;
    var i := 0;
    while i < |blockIds|
      invariant 0 <= i <= |blockIds|
      invariant totalBaseFee == SumFees(blocks, blockIds[..i])
      invariant validBlocks == CountStored(blocks, blockIds[..i])
    {
      var blockId := blockIds[i];
      SumStep(blocks, blockIds, i);
      if blockId in blocks {
        totalBaseFee := totalBaseFee + blocks[blockId].baseFee;
        validBlocks := validBlocks + 1;
      }
      i := i + 1;
    }
    assert blockIds[..i] == blockIds;
    MeanOfTotals(blocks, blockIds);
    if validBlocks > 0 {
      return totalBaseFee / validBlocks;
    }
    return 0;
  }

  /** One turn of the averaging loop: the next id adds its fee and its
      count when its block is stored. */
  lemma SumStep(blocks: BlockStore, ids: seq<string>, i: int)
    requires 0 <= i < |ids|
    ensures SumFees(blocks, ids[..i + 1]) == SumFees(blocks, ids[..i]) + (if ids[i] in blocks then blocks[ids[i]].baseFee else 0)
    ensures CountStored(blocks, ids[..i + 1]) == CountStored(blocks, ids[..i]) + (if ids[i] in blocks then 1 else 0)
  {
    assert ids[..i + 1][..i] == ids[..i];
  }

  /** The mean of a non-empty list in terms of the loop's two totals. */
  lemma MeanOfTotals(blocks: BlockStore, ids: seq<string>)
    requires ids != []
    ensures var n := CountStored(blocks, ids);
      MeanFee(blocks, ids) == if n > 0 then SumFees(blocks, ids) / n else 0
  {
  }

  /** The `FeeAggregator` entity, whose lists and averages the handler
      overwrites in place. */
  class FeeAggregator {
    var daily: seq<string>
    var weekly: seq<string>
    var monthly: seq<string>
    var gasAverageDaily: int
    var gasAverageWeekly: int
    var gasAverageMonthly: int
    var lastUpdated: int

    function View(): Aggregator
      reads this
    {
      Aggregator(daily, weekly, monthly, gasAverageDaily, gasAverageWeekly, gasAverageMonthly, lastUpdated)
    }

    /** A new aggregator: empty lists, zero averages, never updated. */
    constructor ()
      ensures View() == InitialAggregator
    {
      daily, weekly, monthly := [], [], [];
      gasAverageDaily, gasAverageWeekly, gasAverageMonthly := 0, 0, 0;
      lastUpdated := 0;
    }

    /** The body of `updateFeeAggregator` once the entity is loaded: append
        the id to every list, re-filter and re-average each window, stamp
        the time. */
    method Refresh(blocks: BlockStore, timestamp: int, blockId: string)
      modifies this
      ensures View() == UpdateAggregator(old(View()), blocks, timestamp, blockId)
    {
      var newDaily := FilterBlocksByTimeRange(daily + [blockId], blocks, timestamp, DAY);
      var newWeekly := FilterBlocksByTimeRange(weekly + [blockId], blocks, timestamp, WEEK);
      var newMonthly := FilterBlocksByTimeRange(monthly + [blockId], blocks, timestamp, MONTH);
      daily, weekly, monthly := newDaily, newWeekly, newMonthly;
      gasAverageDaily := CalculateAverage(daily, blocks);
      gasAverageWeekly := CalculateAverage(weekly, blocks);
      gasAverageMonthly := CalculateAverage(monthly, blocks);
      lastUpdated := timestamp;
    }
  }

  /** The subgraph's store as far as this handler sees it. */
  class GasPriceIndexer {
    var blocks: BlockStore
    var snapshots: map<string, Snapshot>
    var aggregator: FeeAggregator?

    function View(): IndexerState
      reads this, aggregator
    {
      IndexerState(blocks, snapshots, if aggregator == null then None else Some(aggregator.View()))
    }

    ghost predicate Valid()
      reads this, aggregator
    {
      WellFormed(View())
    }

    constructor ()
      ensures Valid() && View() == EmptyState
    {
      blocks, snapshots, aggregator := map[], map[], null;
    }

    /** `handleBlock`. */
    method HandleBlock(block: ChainBlock)
      requires Valid()
      modifies this, aggregator
      ensures Valid()
      ensures View() == Ingest(old(View()), block)
      ensures old(aggregator) != null ==> aggregator == old(aggregator)
    {
      if block.number % INDEXING_FREQUENCY != 0 {
        return;
      }
      var blockNumber := block.number;
      var timestamp := block.timestamp;
      if block.baseFeePerGas.None? {
        return;
      }
      var baseFeePerGas := block.baseFeePerGas.value;
      var blockId := NatToString(blockNumber);
      if blockId !in blocks {
        ghost var before := View();
        blocks := blocks[blockId := BlockRecord(baseFeePerGas, blockNumber, timestamp)];
        CreateGasPriceSnapshot(blockId, baseFeePerGas, timestamp);
        UpdateFeeAggregator(timestamp, blockId);
        IngestPreservesWellFormed(before, block);
      }
    }

    /** `createGasPriceSnapshot`: writes the three period snapshots. */
    method CreateGasPriceSnapshot(blockId: string, baseFee: nat, timestamp: int)
      modifies this
      ensures snapshots == old(snapshots) + SnapshotsFor(blockId, baseFee, timestamp)
      ensures blocks == old(blocks) && aggregator == old(aggregator)
    {
      snapshots := snapshots[blockId + "-daily" := Snapshot(blockId, baseFee, timestamp, "daily")];
      snapshots := snapshots[blockId + "-weekly" := Snapshot(blockId, baseFee, timestamp, "weekly")];
      snapshots := snapshots[blockId + "-monthly" := Snapshot(blockId, baseFee, timestamp, "monthly")];
    }

    /** `updateFeeAggregator`: loads or creates the aggregator, appends the
      id, re-filters and re-averages every window, stamps the time. */
    method UpdateFeeAggregator(timestamp: int, blockId: string)
      modifies this, aggregator
      ensures blocks == old(blocks) && snapshots == old(snapshots)
      ensures aggregator != null
      ensures old(aggregator) != null ==> aggregator == old(aggregator)
      ensures aggregator.View() == UpdateAggregator(
        if old(aggregator) == null then InitialAggregator else old(aggregator.View()),
        blocks, timestamp, blockId)
    {
      if aggregator == null {
        var feeAggregator := new FeeAggregator();
        feeAggregator.Refresh(blocks, timestamp, blockId);
        aggregator := feeAggregator;
      } else {
        aggregator.Refresh(blocks, timestamp, blockId);
      }
    }
  }
}
