/** The packing engine: stable priority order, the greedy placement loop with
    its weight, volume and dimension checks, and the final statistics. */
module Packing {
  import opened Geometry
  import opened Cargo
  import opened StableSort
  import opened Placement

  // ---------------------------------------------------------------------------
  // Priority order
  // ---------------------------------------------------------------------------

  /** The sort key (-priority, -weight): higher priority first, then heavier first. */
  function PriorityKeys(items: seq<CargoItem>): seq<SortKey>
  {
    seq(|items|, i requires 0 <= i < |items| => SortKey(-items[i].priority, -items[i].weight))
  }

  /** The items in the order the engine considers them. */
  function SortByPriority(items: seq<CargoItem>): (sorted: seq<CargoItem>)
    ensures |sorted| == |items|
  {
    Pick(items, SortIndices(PriorityKeys(items), |items|))
  }

  /** Sorting rearranges the requests: each occurs in the order as often as in the input. */
  lemma SortByPriorityPermutes(items: seq<CargoItem>)
    ensures multiset(SortByPriority(items)) == multiset(items)
  {
    SortIndicesPicksAll(PriorityKeys(items), items, |items|);
    assert items[..|items|] == items;
  }

  /** The order is a permutation of the input, by priority descending, then by
      weight descending, and items equal in both keep their input order. */
  lemma SortByPriorityIsStable(items: seq<CargoItem>) returns (idx: seq<nat>)
    ensures |idx| == |items|
    ensures forall i :: i in idx <==> 0 <= i < |items|
    ensures forall a, b :: 0 <= a < b < |idx| ==> idx[a] != idx[b]
    ensures forall n :: 0 <= n < |idx| ==> idx[n] < |items| && SortByPriority(items)[n] == items[idx[n]]
    ensures forall a, b :: 0 <= a < b < |idx| ==>
      var x, y := items[idx[a]], items[idx[b]];
      x.priority > y.priority ||
      (x.priority == y.priority && x.weight > y.weight) ||
      (x.priority == y.priority && x.weight == y.weight && idx[a] < idx[b])
  {
    var keys := PriorityKeys(items);
    idx := SortIndices(keys, |items|);
    SortIndicesMembers(keys, |items|);
    SortIndicesOrdered(keys, |items|);
    SortIndicesIsPermutation(keys, |items|);
    forall a, b | 0 <= a < b < |idx|
      ensures var x, y := items[idx[a]], items[idx[b]];
        x.priority > y.priority ||
        (x.priority == y.priority && x.weight > y.weight) ||
        (x.priority == y.priority && x.weight == y.weight && idx[a] < idx[b])
    {
      assert Before(keys, idx[a], idx[b]);
    }
  }

  // ---------------------------------------------------------------------------
  // The greedy loop, one item at a time
  // ---------------------------------------------------------------------------

  /** The loop's variables: the packed and unpacked lists, the running weight and
      volume, and the four quadrant weights. */
  datatype PackState = PackState(
    packed: seq<PlacedItem>,
    unpacked: seq<CargoItem>,
    currentWeight: real,
    currentVolume: real,
    quadrants: QuadrantWeights)

  const Start := PackState([], [], 0.0, 0.0, NoWeight)

  /** The checks made before the search: the item keeps within the weight and
      volume budgets and within each bay dimension (no rotation). */
  predicate Admissible(st: PackState, item: CargoItem, bay: Bay)
  {
    st.currentWeight + item.weight <= bay.maxWeight &&
    st.currentVolume + Volume(item) <= MaxVolume(bay) &&
    item.length <= bay.maxLength &&
    item.width <= bay.maxWidth &&
    item.height <= bay.maxHeight
  }

  /** One iteration of the loop. */
  function PackOne(st: PackState, item: CargoItem, bay: Bay): PackState
  {
    if !Admissible(st, item, bay) then st.(unpacked := st.unpacked + [item])
    else
      match SearchResult(st.packed, item, bay, st.quadrants)
      case None => st.(unpacked := st.unpacked + [item])
      case Some(pos) => Commit(st, PlacedItem(item, pos), bay)
  }

  /** The loop run over all of `items`, in their order. */
  function PackAll(items: seq<CargoItem>, bay: Bay): PackState
  {
    if items == [] then Start
    else PackOne(PackAll(items[..|items| - 1], bay), items[|items| - 1], bay)
  }

  // ---------------------------------------------------------------------------
  // Reference definitions over the packed list
  // ---------------------------------------------------------------------------

  function SumWeights(packed: seq<PlacedItem>): real
  {
    if packed == [] then 0.0
    else SumWeights(packed[..|packed| - 1]) + packed[|packed| - 1].item.weight
  }

  function SumVolumes(packed: seq<PlacedItem>): real
  {
    if packed == [] then 0.0
    else SumVolumes(packed[..|packed| - 1]) + Volume(packed[|packed| - 1].item)
  }

  /** The weight of the packed items, quadrant by quadrant, each item counted in
      the quadrant of its centre. */
  function Tally(packed: seq<PlacedItem>, bay: Bay): QuadrantWeights
  {
    if packed == [] then NoWeight
    else
      var p := packed[|packed| - 1];
      AddWeight(Tally(packed[..|packed| - 1], bay), QuadrantOf(p.position, bay), p.item.weight)
  }

  lemma {:induction false} TallyTotal(packed: seq<PlacedItem>, bay: Bay)
    ensures TotalWeight(Tally(packed, bay)) == SumWeights(packed)
  {
    if packed != [] {
      TallyTotal(packed[..|packed| - 1], bay);
    }
  }

  /** The items of the packed list, without their positions. */
  function Items(packed: seq<PlacedItem>): (r: seq<CargoItem>)
    ensures |r| == |packed|
  {
    if packed == [] then []
    else Items(packed[..|packed| - 1]) + [packed[|packed| - 1].item]
  }

  /** No two packed boxes overlap. */
  predicate Disjoint(packed: seq<PlacedItem>)
  {
    forall a, b :: 0 <= a < b < |packed| ==> !BoxesOverlap(BoxOf(packed[a]), BoxOf(packed[b]))
  }

  lemma DisjointBothWays(packed: seq<PlacedItem>)
    requires Disjoint(packed)
    ensures forall a, b :: 0 <= a < |packed| && 0 <= b < |packed| && a != b ==>
      !BoxesOverlap(BoxOf(packed[a]), BoxOf(packed[b]))
  {
    forall a, b | 0 <= a < |packed| && 0 <= b < |packed| && b < a
      ensures !BoxesOverlap(BoxOf(packed[a]), BoxOf(packed[b]))
    {
      OverlapSymmetric(BoxOf(packed[a]), BoxOf(packed[b]));
    }
  }

  predicate FitsBay(item: CargoItem, bay: Bay)
  {
    item.length <= bay.maxLength && item.width <= bay.maxWidth && item.height <= bay.maxHeight
  }

  /** The running totals agree with the packed list. */
  predicate TotalsAgree(st: PackState)
  {
    st.currentWeight == SumWeights(st.packed) &&
    st.currentVolume == SumVolumes(st.packed) &&
    TotalWeight(st.quadrants) == st.currentWeight
  }

  /** Once something is packed the totals are within the limits, and the bay
      has positive dimensions. */
  predicate WithinLimits(st: PackState, bay: Bay)
  {
    st.packed != [] ==>
      st.currentWeight <= bay.maxWeight && st.currentVolume <= MaxVolume(bay) &&
      bay.maxLength > 0.0 && bay.maxWidth > 0.0 && bay.maxHeight > 0.0
  }

  /** Every packed box is inside the bay, every packed item passed the dimension
      checks, and no two packed boxes overlap. */
  predicate SafeLayout(packed: seq<PlacedItem>, bay: Bay)
  {
    (forall n :: 0 <= n < |packed| ==> InsideBay(BoxOf(packed[n]), bay) && FitsBay(packed[n].item, bay)) &&
    Disjoint(packed)
  }

  /** What holds after every iteration of the loop. */
  predicate PackInvariant(st: PackState, bay: Bay)
  {
    TotalsAgree(st) && WithinLimits(st, bay) && SafeLayout(st.packed, bay)
  }

  /** The state after committing p. */
  function Commit(st: PackState, p: PlacedItem, bay: Bay): PackState
  {
    PackState(st.packed + [p], st.unpacked,
      st.currentWeight + p.item.weight, st.currentVolume + Volume(p.item),
      AddWeight(st.quadrants, QuadrantOf(p.position, bay), p.item.weight))
  }

  lemma CommitKeepsTotals(st: PackState, p: PlacedItem, bay: Bay)
    requires TotalsAgree(st)
    ensures TotalsAgree(Commit(st, p, bay))
  {
    var st' := Commit(st, p, bay);
    assert st'.currentWeight == SumWeights(st'.packed) by { SumWeightsAppend(st.packed, p); }
    assert st'.currentVolume == SumVolumes(st'.packed) by { SumVolumesAppend(st.packed, p); }
  }

  lemma SumWeightsAppend(packed: seq<PlacedItem>, p: PlacedItem)
    ensures SumWeights(packed + [p]) == SumWeights(packed) + p.item.weight
  {
    assert (packed + [p])[..|packed|] == packed;
  }

  lemma SumVolumesAppend(packed: seq<PlacedItem>, p: PlacedItem)
    ensures SumVolumes(packed + [p]) == SumVolumes(packed) + Volume(p.item)
  {
    assert (packed + [p])[..|packed|] == packed;
  }

  lemma TallyAppend(packed: seq<PlacedItem>, p: PlacedItem, bay: Bay)
    ensures Tally(packed + [p], bay) == AddWeight(Tally(packed, bay), QuadrantOf(p.position, bay), p.item.weight)
  {
    assert (packed + [p])[..|packed|] == packed;
  }

  lemma CommitKeepsLayoutSafe(packed: seq<PlacedItem>, p: PlacedItem, bay: Bay)
    requires SafeLayout(packed, bay)
    requires InsideBay(BoxOf(p), bay) && FitsBay(p.item, bay)
    requires forall m :: 0 <= m < |packed| ==> !BoxesOverlap(BoxOf(p), BoxOf(packed[m]))
    ensures SafeLayout(packed + [p], bay)
  {
    var packed' := packed + [p];
    forall a, b | 0 <= a < b < |packed'|
      ensures !BoxesOverlap(BoxOf(packed'[a]), BoxOf(packed'[b]))
    {
      if b == |packed| {
        OverlapSymmetric(BoxOf(packed'[a]), BoxOf(p));
      }
    }
  }

  /** One iteration keeps the invariant. */
  lemma PackOneKeepsInvariant(st: PackState, item: CargoItem, bay: Bay)
    requires PackInvariant(st, bay)
    ensures PackInvariant(PackOne(st, item, bay), bay)
  {
    var r := SearchResult(st.packed, item, bay, st.quadrants);
    if Admissible(st, item, bay) && r.Some? {
      var p := PlacedItem(item, r.value);
      SearchResultPlacesSafely(st.packed, item, bay, st.quadrants);
      CommitKeepsTotals(st, p, bay);
      CommitKeepsLayoutSafe(st.packed, p, bay);
      assert PackOne(st, item, bay) == Commit(st, p, bay);
    }
  }

  /** The invariant holds after the whole loop. */
  lemma {:induction false} PackAllKeepsInvariant(items: seq<CargoItem>, bay: Bay)
    ensures PackInvariant(PackAll(items, bay), bay)
  {
    if items != [] {
      PackAllKeepsInvariant(items[..|items| - 1], bay);
      PackOneKeepsInvariant(PackAll(items[..|items| - 1], bay), items[|items| - 1], bay);
    }
  }

  /** The elements of s whose mask entry is b, in order. */
  function Select(s: seq<CargoItem>, mask: seq<bool>, b: bool): seq<CargoItem>
    requires |mask| == |s|
  {
    if s == [] then []
    else
      Select(s[..|s| - 1], mask[..|s| - 1], b) + (if mask[|s| - 1] == b then [s[|s| - 1]] else [])
  }

  /** The two selections of s together hold every element of s, as often as s does. */
  lemma {:induction false} SelectMultiset(s: seq<CargoItem>, mask: seq<bool>)
    requires |mask| == |s|
    ensures multiset(Select(s, mask, true)) + multiset(Select(s, mask, false)) == multiset(s)
  {
    if s != [] {
      var n := |s| - 1;
      SelectMultiset(s[..n], mask[..n]);
      assert s == s[..n] + [s[n]];
    }
  }

  /** Whether one iteration keeps the item: it passes the checks and the search
      finds a position. */
  predicate Kept(st: PackState, item: CargoItem, bay: Bay)
  {
    Admissible(st, item, bay) && SearchResult(st.packed, item, bay, st.quadrants).Some?
  }

  /** The loop's keep/drop decision for each item, in order. */
  function KeptMask(items: seq<CargoItem>, bay: Bay): (mask: seq<bool>)
    ensures |mask| == |items|
  {
    if items == [] then []
    else
      var init := items[..|items| - 1];
      KeptMask(init, bay) + [Kept(PackAll(init, bay), items[|items| - 1], bay)]
  }

  /** The packed items are the kept ones, in the order the loop met them. */
  lemma {:induction false} PackedAreKept(items: seq<CargoItem>, bay: Bay)
    ensures Items(PackAll(items, bay).packed) == Select(items, KeptMask(items, bay), true)
  {
    if items != [] {
      var init := items[..|items| - 1];
      PackedAreKept(init, bay);
      PackOneSplits(PackAll(init, bay), items[|items| - 1], bay);
      assert KeptMask(items, bay)[..|items| - 1] == KeptMask(init, bay);
    }
  }

  /** The unpacked items are the dropped ones, in the order the loop met them. */
  lemma {:induction false} UnpackedAreDropped(items: seq<CargoItem>, bay: Bay)
    ensures PackAll(items, bay).unpacked == Select(items, KeptMask(items, bay), false)
  {
    if items != [] {
      var init := items[..|items| - 1];
      UnpackedAreDropped(init, bay);
      PackOneSplits(PackAll(init, bay), items[|items| - 1], bay);
      assert KeptMask(items, bay)[..|items| - 1] == KeptMask(init, bay);
    }
  }

  /** An item is kept only if it passed the dimension checks. */
  lemma {:induction false} KeptItemsFit(items: seq<CargoItem>, bay: Bay)
    ensures forall n :: 0 <= n < |items| && KeptMask(items, bay)[n] ==> FitsBay(items[n], bay)
  {
    if items != [] {
      var last := |items| - 1;
      var init := items[..last];
      var mask := KeptMask(items, bay);
      KeptItemsFit(init, bay);
      assert mask == KeptMask(init, bay) + [Kept(PackAll(init, bay), items[last], bay)];
      forall n | 0 <= n < |items| && mask[n]
        ensures FitsBay(items[n], bay)
      {
        if n < last {
          assert mask[n] == KeptMask(init, bay)[n] && items[n] == init[n];
        } else {
          KeptFits(PackAll(init, bay), items[last], bay);
        }
      }
    }
  }

  /** A kept item passed the dimension checks. */
  lemma KeptFits(st: PackState, item: CargoItem, bay: Bay)
    requires Kept(st, item, bay)
    ensures FitsBay(item, bay)
  {
  }

  /** One iteration either keeps the item, appending it to the packed list, or
      drops it, appending it to the unpacked list. */
  lemma PackOneSplits(st: PackState, item: CargoItem, bay: Bay)
    ensures var st' := PackOne(st, item, bay);
      if Kept(st, item, bay) then
        Items(st'.packed) == Items(st.packed) + [item] && st'.unpacked == st.unpacked
      else
        st'.packed == st.packed && st'.unpacked == st.unpacked + [item]
  {
    var r := SearchResult(st.packed, item, bay, st.quadrants);
    if Kept(st, item, bay) {
      PackOneCommits(st, item, bay, r.value);
      ItemsAppend(st.packed, PlacedItem(item, r.value));
    } else {
      PackOneSkips(st, item, bay);
    }
  }

  lemma ItemsAppend(packed: seq<PlacedItem>, p: PlacedItem)
    ensures Items(packed + [p]) == Items(packed) + [p.item]
  {
    assert (packed + [p])[..|packed|] == packed;
  }

  // ---------------------------------------------------------------------------
  // Statistics
  // ---------------------------------------------------------------------------

  datatype Error = DivisionByZero

  datatype Result<T> = Ok(value: T) | Err(error: Error)

  datatype Stats = Stats(
    totalWeight: real,
    maxWeight: real,
    weightUtilization: real,
    totalVolume: real,
    maxVolume: real,
    volumeUtilization: real,
    itemsPacked: nat,
    itemsUnpacked: nat,
    centreOfGravity: Point,
    balanceScore: real,
    leftWeight: real,
    rightWeight: real)

  /** The result of one optimisation, with an echo of the bay it used. */
  datatype PackingResult = PackingResult(
    packed: seq<PlacedItem>,
    unpacked: seq<CargoItem>,
    stats: Stats,
    bay: Bay)

  /** The weighted sums of the packed centres: sum of position * weight, per axis. */
  function Moment(packed: seq<PlacedItem>): Point
  {
    if packed == [] then Point(0.0, 0.0, 0.0)
    else
      var m := Moment(packed[..|packed| - 1]);
      var p := packed[|packed| - 1];
      Point(m.x + p.position.x * p.item.weight,
            m.y + p.position.y * p.item.weight,
            m.z + p.position.z * p.item.weight)
  }

  function Abs(r: real): real { if r < 0.0 then -r else r }

  /** 100 minus the distance of the centre of gravity from the axis's midpoint,
      as a percentage of half the axis; dividing by a zero half-axis fails. */
  function AxisBalance(cog: real, extent: real): Result<real>
  {
    var half := extent / 2.0;
    if half == 0.0 then Err(DivisionByZero)
    else Ok(100.0 - Abs(cog - half) / half * 100.0)
  }

  function Utilization(used: real, capacity: real): real
  {
    if capacity > 0.0 then used / capacity * 100.0 else 0.0
  }

  /** The weighted mean of the packed centres. */
  function CentreOfGravity(packed: seq<PlacedItem>, totalWeight: real): Point
    requires totalWeight != 0.0
  {
    var m := Moment(packed);
    Point(m.x / totalWeight, m.y / totalWeight, m.z / totalWeight)
  }

  /** The mean of the length and width balances of a centre of gravity. */
  function BalanceScore(cog: Point, bay: Bay): Result<real>
  {
    match (AxisBalance(cog.x, bay.maxLength), AxisBalance(cog.y, bay.maxWidth))
    case (Ok(balanceX), Ok(balanceY)) => Ok((balanceX + balanceY) / 2.0)
    case _ => Err(DivisionByZero)
  }

  /** The final statistics. With nothing packed the centre of gravity is the
      origin and the balance score 100; otherwise the sums are divided by the
      packed weight, which fails when that weight is zero. */
  function ComputeStats(st: PackState, bay: Bay): Result<Stats>
  {
    var maxVolume := MaxVolume(bay);
    var weightUtilization := Utilization(st.currentWeight, bay.maxWeight);
    var volumeUtilization := Utilization(st.currentVolume, maxVolume);
    if st.packed == [] then
      Ok(Stats(st.currentWeight, bay.maxWeight, weightUtilization,
               st.currentVolume, maxVolume, volumeUtilization,
               0, |st.unpacked|, Point(0.0, 0.0, 0.0), 100.0, 0.0, 0.0))
    else if st.currentWeight == 0.0 then Err(DivisionByZero)
    else
      var cog := CentreOfGravity(st.packed, st.currentWeight);
      match BalanceScore(cog, bay)
      case Err(e) => Err(e)
      case Ok(score) =>
        var qw := st.quadrants;
        Ok(Stats(st.currentWeight, bay.maxWeight, weightUtilization,
                 st.currentVolume, maxVolume, volumeUtilization,
                 |st.packed|, |st.unpacked|, cog, score,
                 qw.frontLeft + qw.rearLeft, qw.frontRight + qw.rearRight))
  }

  /** The whole engine as a function of its inputs. */
  function Optimize(requests: seq<CargoItem>, bay: Bay): Result<PackingResult>
  {
    var st := PackAll(SortByPriority(requests), bay);
    match ComputeStats(st, bay)
    case Err(e) => Err(e)
    case Ok(stats) => Ok(PackingResult(st.packed, st.unpacked, stats, bay))
  }

  /** With nothing packed (in any state the loop reaches): no weight or volume,
      centre of gravity at the origin, balance 100, no weight on either side,
      and no weight or volume utilisation. */
  lemma StatsOfEmptyLoad(st: PackState, bay: Bay)
    requires PackInvariant(st, bay) && st.packed == []
    ensures ComputeStats(st, bay).Ok?
    ensures var s := ComputeStats(st, bay).value;
      s.totalWeight == 0.0 && s.totalVolume == 0.0 &&
      s.centreOfGravity == Point(0.0, 0.0, 0.0) && s.balanceScore == 100.0 &&
      s.leftWeight == 0.0 && s.rightWeight == 0.0 &&
      s.weightUtilization == 0.0 && s.volumeUtilization == 0.0 && s.itemsPacked == 0
  {
  }

  /** An empty request list gives an empty plan with the statistics of an empty load. */
  lemma EmptyRequestsPlan(requests: seq<CargoItem>, bay: Bay)
    requires |requests| == 0
    ensures Optimize(requests, bay).Ok?
    ensures var plan := Optimize(requests, bay).value;
      plan.packed == [] && plan.unpacked == [] && plan.bay == bay &&
      plan.stats.totalWeight == 0.0 && plan.stats.totalVolume == 0.0 &&
      plan.stats.centreOfGravity == Point(0.0, 0.0, 0.0) && plan.stats.balanceScore == 100.0 &&
      plan.stats.leftWeight == 0.0 && plan.stats.rightWeight == 0.0 &&
      plan.stats.weightUtilization == 0.0 && plan.stats.volumeUtilization == 0.0 &&
      plan.stats.itemsPacked == 0 && plan.stats.itemsUnpacked == 0
  {
    assert |SortByPriority(requests)| == 0;
    StatsOfEmptyLoad(Start, bay);
  }

  /** Weight utilisation is zero whenever the weight limit is not positive. */
  lemma NoWeightUtilizationWithoutLimit(st: PackState, bay: Bay)
    requires bay.maxWeight <= 0.0
    ensures ComputeStats(st, bay).Ok? ==> ComputeStats(st, bay).value.weightUtilization == 0.0
  {
  }

  /** For a state that satisfies the loop invariant the statistics fail exactly
      when items were packed whose weights sum to zero (the bay's half-length and
      half-width are never zero once something is packed); otherwise the left and
      right weights add up to the packed weight and the balance score is at most 100. */
  lemma StatsOfInvariantState(st: PackState, bay: Bay)
    requires PackInvariant(st, bay)
    ensures ComputeStats(st, bay).Err? <==> (st.packed != [] && SumWeights(st.packed) == 0.0)
    ensures ComputeStats(st, bay).Ok? ==>
        var s := ComputeStats(st, bay).value;
        s.totalWeight == SumWeights(st.packed) &&
        s.leftWeight + s.rightWeight == SumWeights(st.packed) &&
        s.balanceScore <= 100.0 &&
        s.itemsPacked == |st.packed| && s.itemsUnpacked == |st.unpacked|
  {
    if st.packed != [] && st.currentWeight != 0.0 {
      BalanceScoreAtMost100(CentreOfGravity(st.packed, st.currentWeight), bay);
    }
  }

  /** In a bay of positive length and width the balance score is defined and at most 100. */
  lemma BalanceScoreAtMost100(cog: Point, bay: Bay)
    requires bay.maxLength > 0.0 && bay.maxWidth > 0.0
    ensures BalanceScore(cog, bay).Ok? && BalanceScore(cog, bay).value <= 100.0
  {
    AxisBalanceAtMost100(cog.x, bay.maxLength);
    AxisBalanceAtMost100(cog.y, bay.maxWidth);
  }

  lemma AxisBalanceAtMost100(cog: real, extent: real)
    requires extent > 0.0
    ensures AxisBalance(cog, extent).Ok? && AxisBalance(cog, extent).value <= 100.0
  {
    var half := extent / 2.0;
    assert Abs(cog - half) / half >= 0.0;
  }

  // ---------------------------------------------------------------------------
  // The engine as the source runs it
  // ---------------------------------------------------------------------------

  /** What the engine's plan satisfies. */
  predicate SoundPlan(plan: PackingResult, requests: seq<CargoItem>, bay: Bay)
  {
    Disjoint(plan.packed) &&
    (forall n :: 0 <= n < |plan.packed| ==>
      InsideBay(BoxOf(plan.packed[n]), bay) && FitsBay(plan.packed[n].item, bay)) &&
    (plan.packed != [] ==>
      SumWeights(plan.packed) <= bay.maxWeight && SumVolumes(plan.packed) <= MaxVolume(bay)) &&
    |plan.packed| + |plan.unpacked| == |requests| &&
    multiset(Items(plan.packed)) + multiset(plan.unpacked) == multiset(requests) &&
    plan.stats.totalWeight == SumWeights(plan.packed) &&
    plan.stats.leftWeight + plan.stats.rightWeight == SumWeights(plan.packed) &&
    plan.stats.balanceScore <= 100.0
  }

  /** The plan has pairwise non-overlapping boxes inside the bay, within the
      weight and volume limits, every request in exactly one list, and left and
      right weights that add up to the packed weight; the only failure is a
      packed load of zero total weight. */
  lemma OptimizeIsSound(requests: seq<CargoItem>, bay: Bay)
    ensures Optimize(requests, bay).Ok? ==> SoundPlan(Optimize(requests, bay).value, requests, bay)
    ensures var st := PackAll(SortByPriority(requests), bay);
      Optimize(requests, bay).Err? <==> (st.packed != [] && SumWeights(st.packed) == 0.0)
  {
    var sorted := SortByPriority(requests);
    var st := PackAll(sorted, bay);
    PackAllKeepsInvariant(sorted, bay);
    StatsOfInvariantState(st, bay);
    PackedAreKept(sorted, bay);
    UnpackedAreDropped(sorted, bay);
    PartitionSizes(sorted, KeptMask(sorted, bay));
    SelectMultiset(sorted, KeptMask(sorted, bay));
    SortByPriorityPermutes(requests);
  }

  /** Sorts the requests, runs the greedy loop and computes the statistics. */
  method OptimizeCargo(requests: seq<CargoItem>, bay: Bay) returns (result: Result<PackingResult>)
    ensures result == Optimize(requests, bay)
    ensures result.Ok? ==> SoundPlan(result.value, requests, bay)
  {
    var sorted := SortByPriority(requests);
    var st := PackSorted(sorted, bay);
    var stats := ComputeStats(st, bay);
    if stats.Err? {
      result := Err(stats.error);
    } else {
      result := Ok(PackingResult(st.packed, st.unpacked, stats.value, bay));
    }
    OptimizeIsSound(requests, bay);
  }

  /** The greedy loop over the sorted requests: each item that passes the weight,
      volume and dimension checks and for which the search finds a position is
      appended to the packed list and its weight added to the quadrant of its
      centre; every other item is appended to the unpacked list. */
  method PackSorted(sorted: seq<CargoItem>, bay: Bay) returns (st: PackState)
    ensures st == PackAll(sorted, bay)
  {
    var packed: seq<PlacedItem> := [];
    var unpacked: seq<CargoItem> := [];
    var currentWeight := 0.0;
    var currentVolume := 0.0;
    var maxVolume := MaxVolume(bay);
    var frontLeft, frontRight, rearLeft, rearRight := 0.0, 0.0, 0.0, 0.0;
    var i := 0;
    while i < |sorted|
      invariant 0 <= i <= |sorted|
      invariant PackState(packed, unpacked, currentWeight, currentVolume,
        QuadrantWeights(frontLeft, frontRight, rearLeft, rearRight)) == PackAll(sorted[..i], bay)
    {
      var item := sorted[i];
      ghost var before := PackAll(sorted[..i], bay);
      PackAllNext(sorted, i, bay);
      var itemVolume := Volume(item);
      if currentWeight + item.weight <= bay.maxWeight &&
         currentVolume + itemVolume <= maxVolume &&
         item.length <= bay.maxLength &&
         item.width <= bay.maxWidth &&
         item.height <= bay.maxHeight {
        var best := FindBalancedPosition(packed, item, bay,
          QuadrantWeights(frontLeft, frontRight, rearLeft, rearRight));
        if best.Some? {
          var pos := best.value;
          PackOneCommits(before, item, bay, pos);
          packed := packed + [PlacedItem(item, pos)];
          currentWeight := currentWeight + item.weight;
          currentVolume := currentVolume + itemVolume;
          frontLeft, frontRight, rearLeft, rearRight :=
            AddToQuadrant(frontLeft, frontRight, rearLeft, rearRight, pos, bay, item.weight);
        } else {
          PackOneSkips(before, item, bay);
          unpacked := unpacked + [item];
        }
      } else {
        PackOneSkips(before, item, bay);
        unpacked := unpacked + [item];
      }
      i := i + 1;
    }
    assert sorted[..i] == sorted;
    st := PackState(packed, unpacked, currentWeight, currentVolume,
      QuadrantWeights(frontLeft, frontRight, rearLeft, rearRight));
  }

  /** Adds w to the running weight of the quadrant that contains pos: the front
      half is x below half the length, the left half y below half the width. */
  method AddToQuadrant(frontLeft: real, frontRight: real, rearLeft: real, rearRight: real,
                       pos: Point, bay: Bay, w: real)
    returns (frontLeft': real, frontRight': real, rearLeft': real, rearRight': real)
    ensures QuadrantWeights(frontLeft', frontRight', rearLeft', rearRight') ==
      AddWeight(QuadrantWeights(frontLeft, frontRight, rearLeft, rearRight), QuadrantOf(pos, bay), w)
  {
    frontLeft', frontRight', rearLeft', rearRight' := frontLeft, frontRight, rearLeft, rearRight;
    var inFront := pos.x < bay.maxLength / 2.0;
    var onLeft := pos.y < bay.maxWidth / 2.0;
    if inFront && onLeft {
      frontLeft' := frontLeft + w;
    } else if inFront && !onLeft {
      frontRight' := frontRight + w;
    } else if !inFront && onLeft {
      rearLeft' := rearLeft + w;
    } else {
      rearRight' := rearRight + w;
    }
  }

  /** The loop over items + [item] is one more iteration after the loop over items. */
  lemma PackAllStep(items: seq<CargoItem>, item: CargoItem, bay: Bay)
    ensures PackAll(items + [item], bay) == PackOne(PackAll(items, bay), item, bay)
  {
    var all := items + [item];
    assert all != [] && all[|all| - 1] == item && all[..|all| - 1] == items;
  }

  /** The loop over the first i + 1 items is one more iteration, on sorted[i]. */
  lemma PackAllNext(sorted: seq<CargoItem>, i: nat, bay: Bay)
    requires i < |sorted|
    ensures PackAll(sorted[..i + 1], bay) == PackOne(PackAll(sorted[..i], bay), sorted[i], bay)
  {
    assert sorted[..i + 1] == sorted[..i] + [sorted[i]];
    PackAllStep(sorted[..i], sorted[i], bay);
  }

  /** An admissible item with a free position is committed at that position. */
  lemma PackOneCommits(st: PackState, item: CargoItem, bay: Bay, pos: Point)
    requires Admissible(st, item, bay)
    requires SearchResult(st.packed, item, bay, st.quadrants) == Some(pos)
    ensures PackOne(st, item, bay) == Commit(st, PlacedItem(item, pos), bay)
  {
  }

  /** An item that fails a check, or finds no free position, is set aside. */
  lemma PackOneSkips(st: PackState, item: CargoItem, bay: Bay)
    requires !Admissible(st, item, bay) || SearchResult(st.packed, item, bay, st.quadrants).None?
    ensures PackOne(st, item, bay) == st.(unpacked := st.unpacked + [item])
  {
  }

  /** The running quadrant weights are the packed items' weights, each counted
      in the quadrant that contains its centre. */
  lemma {:induction false} PackAllTally(items: seq<CargoItem>, bay: Bay)
    ensures PackAll(items, bay).quadrants == Tally(PackAll(items, bay).packed, bay)
  {
    if items != [] {
      PackAllTally(items[..|items| - 1], bay);
      PackOneKeepsTally(PackAll(items[..|items| - 1], bay), items[|items| - 1], bay);
    }
  }

  lemma PackOneKeepsTally(st: PackState, item: CargoItem, bay: Bay)
    requires st.quadrants == Tally(st.packed, bay)
    ensures PackOne(st, item, bay).quadrants == Tally(PackOne(st, item, bay).packed, bay)
  {
    var r := SearchResult(st.packed, item, bay, st.quadrants);
    if Admissible(st, item, bay) && r.Some? {
      PackOneCommits(st, item, bay, r.value);
      TallyAppend(st.packed, PlacedItem(item, r.value), bay);
    } else {
      PackOneSkips(st, item, bay);
    }
  }

  /** The weight of the packed items whose centre lies on the right half of the
      width (right) or on the left half (not right). */
  function SideWeight(packed: seq<PlacedItem>, bay: Bay, right: bool): real
  {
    if packed == [] then 0.0
    else
      var p := packed[|packed| - 1];
      SideWeight(packed[..|packed| - 1], bay, right) +
        (if (p.position.y >= bay.maxWidth / 2.0) == right then p.item.weight else 0.0)
  }

  lemma {:induction false} TallySides(packed: seq<PlacedItem>, bay: Bay)
    ensures var t := Tally(packed, bay);
      t.frontLeft + t.rearLeft == SideWeight(packed, bay, false) &&
      t.frontRight + t.rearRight == SideWeight(packed, bay, true)
  {
    if packed != [] {
      TallySides(packed[..|packed| - 1], bay);
    }
  }

  /** The plan's left and right weights are the weights of the packed items whose
      centres lie on the left and on the right half of the bay's width. */
  lemma PlanSides(requests: seq<CargoItem>, bay: Bay)
    ensures Optimize(requests, bay).Ok? ==>
      var plan := Optimize(requests, bay).value;
      plan.stats.leftWeight == SideWeight(plan.packed, bay, false) &&
      plan.stats.rightWeight == SideWeight(plan.packed, bay, true)
  {
    var st := PackAll(SortByPriority(requests), bay);
    PackAllTally(SortByPriority(requests), bay);
    StatsSides(st, bay);
  }

  /** The statistics' left and right weights of a state whose quadrant weights
      are its tally. */
  lemma StatsSides(st: PackState, bay: Bay)
    requires st.quadrants == Tally(st.packed, bay)
    ensures ComputeStats(st, bay).Ok? ==>
      ComputeStats(st, bay).value.leftWeight == SideWeight(st.packed, bay, false) &&
      ComputeStats(st, bay).value.rightWeight == SideWeight(st.packed, bay, true)
  {
    TallySides(st.packed, bay);
    if st.packed == [] {
      assert SideWeight(st.packed, bay, false) == 0.0 && SideWeight(st.packed, bay, true) == 0.0;
    }
  }

  /** The bay has room for one lattice step in each half of its length and width
      and in its height, and the item fits at the rear-right quadrant's start
      corner (half-length, half-width, floor). */
  predicate FitsAtRearRight(item: CargoItem, bay: Bay)
  {
    2.0 * Step <= bay.maxLength && 2.0 * Step <= bay.maxWidth && Step <= bay.maxHeight &&
    bay.maxLength / 2.0 + item.length <= bay.maxLength &&
    bay.maxWidth / 2.0 + item.width <= bay.maxWidth &&
    item.height <= bay.maxHeight
  }

  /** The centre of an item placed at the rear-right start corner. */
  function FirstCentre(item: CargoItem, bay: Bay): Point
  {
    Centre(item, StartCorner(Quadrant(true, true), bay))
  }

  /** A single item that fits at the rear-right start corner is packed there, and
      the balance score falls short of 100 by half the item's length and width
      as percentages of the bay's: it reaches 100 only for an item of zero length
      and width. */
  lemma SingleItemPlan(item: CargoItem, bay: Bay)
    requires FitsAtRearRight(item, bay)
    requires 0.0 < item.weight <= bay.maxWeight && Volume(item) <= MaxVolume(bay)
    ensures Optimize([item], bay).Ok?
    ensures Optimize([item], bay).value.packed == [PlacedItem(item, FirstCentre(item, bay))]
    ensures Optimize([item], bay).value.unpacked == []
    ensures Optimize([item], bay).value.stats.centreOfGravity == FirstCentre(item, bay)
    ensures Optimize([item], bay).value.stats.balanceScore == SingleItemScore(item, bay)
  {
    var p := PlacedItem(item, FirstCentre(item, bay));
    var st := Commit(Start, p, bay);
    OptimizeOfOne(item, bay);
    assert st.packed == [p];
    CentreOfOne(p);
    SingleItemBalance(item, bay);
    StatsOfLoad(st, bay);
  }

  lemma OptimizeOfOne(item: CargoItem, bay: Bay)
    requires FitsAtRearRight(item, bay)
    requires 0.0 < item.weight <= bay.maxWeight && Volume(item) <= MaxVolume(bay)
    ensures var st := Commit(Start, PlacedItem(item, FirstCentre(item, bay)), bay);
      ComputeStats(st, bay).Ok? &&
      Optimize([item], bay) == Ok(PackingResult(st.packed, st.unpacked, ComputeStats(st, bay).value, bay))
  {
    SingleItemPacked(item, bay);
    LatticeCountMeans(bay.maxLength - bay.maxLength / 2.0, 0);
    LatticeCountMeans(bay.maxWidth - bay.maxWidth / 2.0, 0);
    SingleItemBalance(item, bay);
    CentreOfOne(PlacedItem(item, FirstCentre(item, bay)));
  }

  /** For a nonempty load of nonzero weight whose balance score is defined, the
      statistics report that centre of gravity and that balance score. */
  lemma StatsOfLoad(st: PackState, bay: Bay)
    requires st.packed != [] && st.currentWeight != 0.0
    requires BalanceScore(CentreOfGravity(st.packed, st.currentWeight), bay).Ok?
    ensures var cog := CentreOfGravity(st.packed, st.currentWeight);
      ComputeStats(st, bay).Ok? &&
      ComputeStats(st, bay).value.centreOfGravity == cog &&
      ComputeStats(st, bay).value.balanceScore == BalanceScore(cog, bay).value
  {
  }

  /** The loop packs a lone item at the rear-right start corner. */
  lemma SingleItemPacked(item: CargoItem, bay: Bay)
    requires FitsAtRearRight(item, bay)
    requires item.weight <= bay.maxWeight && Volume(item) <= MaxVolume(bay)
    ensures PackAll(SortByPriority([item]), bay) ==
      Commit(Start, PlacedItem(item, FirstCentre(item, bay)), bay)
  {
    LatticeCountMeans(bay.maxLength - bay.maxLength / 2.0, 0);
    LatticeCountMeans(bay.maxWidth - bay.maxWidth / 2.0, 0);
    LatticeCountMeans(bay.maxHeight, 0);
    assert Scanned(Quadrant(true, true), item, bay, 0, 0, 0);
    assert SortIndices(PriorityKeys([item]), 1) == [0];
    assert SortByPriority([item]) == [item];
    assert [item][..0] == [];
    assert Admissible(Start, item, bay);
    FirstPlacement(item, bay);
    PackOneCommits(Start, item, bay,
      Centre(item, StartCorner(Quadrant(true, true), bay)));
  }

  /** The centre of gravity of one item of nonzero weight is its centre. */
  lemma CentreOfOne(p: PlacedItem)
    requires p.item.weight != 0.0
    ensures CentreOfGravity([p], p.item.weight) == p.position
  {
    assert [p][..0] == [];
    var w := p.item.weight;
    assert Moment([p]) == Point(p.position.x * w, p.position.y * w, p.position.z * w);
  }

  /** The balance score of the centre of a lone item at the rear-right start corner. */
  lemma SingleItemBalance(item: CargoItem, bay: Bay)
    requires bay.maxLength > 0.0 && bay.maxWidth > 0.0
    ensures BalanceScore(FirstCentre(item, bay), bay) == Ok(SingleItemScore(item, bay))
  {
    AxisBalanceOfOffset(bay.maxLength, item.length);
    AxisBalanceOfOffset(bay.maxWidth, item.width);
  }

  /** The balance score of a lone item at the rear-right start corner: 100 less
      half the item's length and width as percentages of the bay's. */
  function SingleItemScore(item: CargoItem, bay: Bay): real
    requires bay.maxLength > 0.0 && bay.maxWidth > 0.0
  {
    100.0 - 50.0 * (Abs(item.length) / bay.maxLength + Abs(item.width) / bay.maxWidth)
  }

  /** That score is 100 only for an item of zero length and width. */
  lemma SingleItemScoreIsFullOnlyWhenFlat(item: CargoItem, bay: Bay)
    requires bay.maxLength > 0.0 && bay.maxWidth > 0.0
    ensures SingleItemScore(item, bay) == 100.0 <==> item.length == 0.0 && item.width == 0.0
  {
    assert Abs(item.length) / bay.maxLength >= 0.0 && Abs(item.width) / bay.maxWidth >= 0.0;
  }

  /** A centre of gravity offset by d/2 from the middle of an axis scores
      100 - |d| / extent * 100 on that axis. */
  lemma AxisBalanceOfOffset(extent: real, d: real)
    requires extent > 0.0
    ensures AxisBalance(extent / 2.0 + d / 2.0, extent) == Ok(100.0 - Abs(d) / extent * 100.0)
  {
    assert Abs(extent / 2.0 + d / 2.0 - extent / 2.0) == Abs(d) / 2.0;
    assert (Abs(d) / 2.0) / (extent / 2.0) == Abs(d) / extent;
  }

  /** The two selections of a mask together have as many items as the list. */
  lemma {:induction false} PartitionSizes(s: seq<CargoItem>, mask: seq<bool>)
    requires |mask| == |s|
    ensures |Select(s, mask, true)| + |Select(s, mask, false)| == |s|
  {
    if s != [] {
      PartitionSizes(s[..|s| - 1], mask[..|s| - 1]);
    }
  }
}
