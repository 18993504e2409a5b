/** The placement search: a first-fit scan of a 0.2 m lattice of minimum
    corners, quadrant by quadrant, lightest quadrant first. */
module Placement {
  import opened Geometry
  import opened Cargo
  import opened StableSort

  datatype Option<T> = None | Some(value: T)

  /** The lattice step (20 cm), the same on all three axes. */
  const Step: real := 0.2

  // ---------------------------------------------------------------------------
  // Quadrant order
  // ---------------------------------------------------------------------------

  /** The order tried while no weight has been placed: rear-right, front-right,
      rear-left, front-left. */
  const DefaultOrder: seq<Quadrant> :=
    [Quadrant(true, true), Quadrant(false, true), Quadrant(true, false), Quadrant(false, false)]

  /** The quadrants in the order of the weight table's keys
      (0,0), (0,1), (1,0), (1,1); ties in weight keep this order. */
  const KeyOrder: seq<Quadrant> :=
    [Quadrant(false, false), Quadrant(false, true), Quadrant(true, false), Quadrant(true, true)]

  /** The position of q in KeyOrder. */
  function KeyIndex(q: Quadrant): nat
  {
    (if q.rear then 2 else 0) + (if q.right then 1 else 0)
  }

  function QuadrantKeys(qw: QuadrantWeights): seq<SortKey>
  {
    [SortKey(0, qw.frontLeft), SortKey(0, qw.frontRight),
     SortKey(0, qw.rearLeft), SortKey(0, qw.rearRight)]
  }

  /** The order in which the quadrants are searched. */
  function QuadrantOrder(qw: QuadrantWeights): (order: seq<Quadrant>)
    ensures |order| == 4
  {
    if TotalWeight(qw) == 0.0 then DefaultOrder
    else
      var keys := QuadrantKeys(qw);
      var idx := SortIndices(keys, |keys|);
      [KeyOrder[idx[0]], KeyOrder[idx[1]], KeyOrder[idx[2]], KeyOrder[idx[3]]]
  }

  /** With no weight placed the default order is used. */
  lemma QuadrantOrderDefault(qw: QuadrantWeights)
    requires TotalWeight(qw) == 0.0
    ensures QuadrantOrder(qw) == DefaultOrder
  {
  }

  /** Once weight is placed, entry n of the order is the quadrant at key-order
      position idx[n] of the stable sort, and it carries that position's key. */
  lemma QuadrantOrderSorted(qw: QuadrantWeights)
    requires TotalWeight(qw) != 0.0
    ensures var keys := QuadrantKeys(qw);
      var idx := SortIndices(keys, |keys|);
      forall n :: 0 <= n < 4 ==>
        QuadrantOrder(qw)[n] == KeyOrder[idx[n]] &&
        KeyIndex(QuadrantOrder(qw)[n]) == idx[n] &&
        WeightIn(qw, QuadrantOrder(qw)[n]) == keys[idx[n]].minor && keys[idx[n]].major == 0
  {
    var keys := QuadrantKeys(qw);
    assert forall i :: 0 <= i < 4 ==>
      WeightIn(qw, KeyOrder[i]) == keys[i].minor && KeyIndex(KeyOrder[i]) == i && keys[i].major == 0;
  }

  /** Once weight is placed, every quadrant is tried. */
  lemma QuadrantOrderCovers(qw: QuadrantWeights)
    requires TotalWeight(qw) != 0.0
    ensures forall q: Quadrant :: q in QuadrantOrder(qw)
  {
    var keys := QuadrantKeys(qw);
    var idx := SortIndices(keys, |keys|);
    SortIndicesMembers(keys, |keys|);
    QuadrantOrderSorted(qw);
    forall q: Quadrant
      ensures q in QuadrantOrder(qw)
    {
      var i := KeyIndex(q);
      assert KeyOrder[i] == q;
      assert i in idx;
      var n :| 0 <= n < 4 && idx[n] == i;
      assert QuadrantOrder(qw)[n] == q;
    }
  }

  /** Once weight is placed, the quadrants are tried lightest first, ties broken
      by key order. */
  lemma QuadrantOrderAscending(qw: QuadrantWeights)
    requires TotalWeight(qw) != 0.0
    ensures var order := QuadrantOrder(qw);
      forall a, b :: 0 <= a < b < 4 ==>
        WeightIn(qw, order[a]) < WeightIn(qw, order[b]) ||
        (WeightIn(qw, order[a]) == WeightIn(qw, order[b]) && KeyIndex(order[a]) < KeyIndex(order[b]))
  {
    var keys := QuadrantKeys(qw);
    var idx := SortIndices(keys, |keys|);
    SortIndicesOrdered(keys, |keys|);
    QuadrantOrderSorted(qw);
    var order := QuadrantOrder(qw);
    forall a, b | 0 <= a < b < 4
      ensures WeightIn(qw, order[a]) < WeightIn(qw, order[b]) ||
        (WeightIn(qw, order[a]) == WeightIn(qw, order[b]) && KeyIndex(order[a]) < KeyIndex(order[b]))
    {
      var ia, ib := idx[a], idx[b];
      assert Before(keys, ia, ib);
      assert WeightIn(qw, order[a]) == keys[ia].minor && KeyIndex(order[a]) == ia && keys[ia].major == 0;
      assert WeightIn(qw, order[b]) == keys[ib].minor && KeyIndex(order[b]) == ib && keys[ib].major == 0;
    }
  }

  // ---------------------------------------------------------------------------
  // The lattice of a quadrant
  // ---------------------------------------------------------------------------

  /** The length of `range(int(span / Step))`: int() truncates, and a range of a
      non-positive length is empty. */
  function LatticeCount(span: real): nat
  {
    var q := span / Step;
    if q < 0.0 then 0 else q.Floor
  }

  /** Lattice index i is scanned exactly when the whole step after it fits in the span. */
  lemma LatticeCountMeans(span: real, i: nat)
    ensures i < LatticeCount(span) <==> (i + 1) as real * Step <= span
  {
    var q := span / Step;
    assert span == q * Step;
    if q >= 0.0 {
      assert q.Floor as real <= q < q.Floor as real + 1.0;
      assert i < q.Floor <==> (i + 1) as real <= q;
    }
  }

  function XStart(q: Quadrant, bay: Bay): real { if q.rear then bay.maxLength / 2.0 else 0.0 }
  function XEnd(q: Quadrant, bay: Bay): real { if q.rear then bay.maxLength else bay.maxLength / 2.0 }
  function YStart(q: Quadrant, bay: Bay): real { if q.right then bay.maxWidth / 2.0 else 0.0 }
  function YEnd(q: Quadrant, bay: Bay): real { if q.right then bay.maxWidth else bay.maxWidth / 2.0 }

  function XCount(q: Quadrant, bay: Bay): nat { LatticeCount(XEnd(q, bay) - XStart(q, bay)) }
  function YCount(q: Quadrant, bay: Bay): nat { LatticeCount(YEnd(q, bay) - YStart(q, bay)) }
  function ZCount(bay: Bay): nat { LatticeCount(bay.maxHeight) }

  function XAt(q: Quadrant, bay: Bay, k: nat): real { XStart(q, bay) + k as real * Step }
  function YAt(q: Quadrant, bay: Bay, j: nat): real { YStart(q, bay) + j as real * Step }
  function ZAt(i: nat): real { i as real * Step }

  /** Every scanned lattice point is a corner inside the bay's near faces,
      and only a bay of positive length, width and height has one. */
  lemma LatticePointBounds(q: Quadrant, bay: Bay, i: nat, j: nat, k: nat)
    requires i < ZCount(bay) && j < YCount(q, bay) && k < XCount(q, bay)
    ensures 0.0 <= XAt(q, bay, k) && 0.0 <= YAt(q, bay, j) && 0.0 <= ZAt(i)
    ensures bay.maxLength > 0.0 && bay.maxWidth > 0.0 && bay.maxHeight > 0.0
  {
    LatticeCountMeans(bay.maxHeight, i);
    LatticeCountMeans(YEnd(q, bay) - YStart(q, bay), j);
    LatticeCountMeans(XEnd(q, bay) - XStart(q, bay), k);
  }

  // ---------------------------------------------------------------------------
  // The candidate corners, in scan order z, then y, then x
  // ---------------------------------------------------------------------------

  /** The corners of the first k x-positions of the row at (y, z) whose far
      x-edge stays within the bay's length. */
  function Row(q: Quadrant, item: CargoItem, bay: Bay, y: real, z: real, k: nat): seq<Point>
  {
    if k == 0 then []
    else
      var x := XAt(q, bay, k - 1);
      Row(q, item, bay, y, z, k - 1) +
        (if x + item.length > bay.maxLength then [] else [Point(x, y, z)])
  }

  /** The rows of the first j y-positions of the layer at z whose far y-edge
      stays within the bay's width. */
  function Layer(q: Quadrant, item: CargoItem, bay: Bay, z: real, j: nat): seq<Point>
  {
    if j == 0 then []
    else
      var y := YAt(q, bay, j - 1);
      Layer(q, item, bay, z, j - 1) +
        (if y + item.width > bay.maxWidth then [] else Row(q, item, bay, y, z, XCount(q, bay)))
  }

  /** The layers of the first i z-positions whose top stays within the bay's height. */
  function Grid(q: Quadrant, item: CargoItem, bay: Bay, i: nat): seq<Point>
  {
    if i == 0 then []
    else
      var z := ZAt(i - 1);
      Grid(q, item, bay, i - 1) +
        (if z + item.height > bay.maxHeight then [] else Layer(q, item, bay, z, YCount(q, bay)))
  }

  /** All candidate corners of one quadrant, in scan order. */
  function QuadrantCandidates(q: Quadrant, item: CargoItem, bay: Bay): seq<Point>
  {
    Grid(q, item, bay, ZCount(bay))
  }

  /** The candidates of the first n quadrants of `order`, one quadrant after another. */
  function SearchCandidates(order: seq<Quadrant>, item: CargoItem, bay: Bay, n: nat): seq<Point>
    requires n <= |order|
  {
    if n == 0 then []
    else SearchCandidates(order, item, bay, n - 1) + QuadrantCandidates(order[n - 1], item, bay)
  }

  /** Every corner the search may try, in the order it tries them. */
  function Candidates(item: CargoItem, bay: Bay, qw: QuadrantWeights): seq<Point>
  {
    var order := QuadrantOrder(qw);
    SearchCandidates(order, item, bay, |order|)
  }

  /** The lattice point (i, j, k) of quadrant q is one the scan does not skip. */
  predicate Scanned(q: Quadrant, item: CargoItem, bay: Bay, i: nat, j: nat, k: nat)
  {
    i < ZCount(bay) && j < YCount(q, bay) && k < XCount(q, bay) &&
    ZAt(i) + item.height <= bay.maxHeight &&
    YAt(q, bay, j) + item.width <= bay.maxWidth &&
    XAt(q, bay, k) + item.length <= bay.maxLength
  }

  lemma {:induction false} RowShape(q: Quadrant, item: CargoItem, bay: Bay, y: real, z: real, k: nat, c: Point)
    returns (k': nat)
    requires c in Row(q, item, bay, y, z, k)
    ensures k' < k && c == Point(XAt(q, bay, k'), y, z) && XAt(q, bay, k') + item.length <= bay.maxLength
  {
    if c in Row(q, item, bay, y, z, k - 1) {
      k' := RowShape(q, item, bay, y, z, k - 1, c);
    } else {
      k' := k - 1;
    }
  }

  lemma {:induction false} LayerShape(q: Quadrant, item: CargoItem, bay: Bay, z: real, j: nat, c: Point)
    returns (j': nat, k': nat)
    requires c in Layer(q, item, bay, z, j)
    ensures j' < j && k' < XCount(q, bay)
    ensures c == Point(XAt(q, bay, k'), YAt(q, bay, j'), z)
    ensures YAt(q, bay, j') + item.width <= bay.maxWidth && XAt(q, bay, k') + item.length <= bay.maxLength
  {
    if c in Layer(q, item, bay, z, j - 1) {
      j', k' := LayerShape(q, item, bay, z, j - 1, c);
    } else {
      j' := j - 1;
      k' := RowShape(q, item, bay, YAt(q, bay, j'), z, XCount(q, bay), c);
    }
  }

  lemma {:induction false} GridShape(q: Quadrant, item: CargoItem, bay: Bay, i: nat, c: Point)
    returns (i': nat, j': nat, k': nat)
    requires i <= ZCount(bay) && c in Grid(q, item, bay, i)
    ensures i' < i && Scanned(q, item, bay, i', j', k')
    ensures c == Point(XAt(q, bay, k'), YAt(q, bay, j'), ZAt(i'))
  {
    if c in Grid(q, item, bay, i - 1) {
      i', j', k' := GridShape(q, item, bay, i - 1, c);
    } else {
      i' := i - 1;
      j', k' := LayerShape(q, item, bay, ZAt(i'), YCount(q, bay), c);
    }
  }

  /** Soundness of the enumeration: every candidate of a quadrant is a lattice
      point of that quadrant that the scan does not skip. */
  lemma CandidateIsScanned(q: Quadrant, item: CargoItem, bay: Bay, c: Point)
    returns (i: nat, j: nat, k: nat)
    requires c in QuadrantCandidates(q, item, bay)
    ensures Scanned(q, item, bay, i, j, k)
    ensures c == Point(XAt(q, bay, k), YAt(q, bay, j), ZAt(i))
  {
    i, j, k := GridShape(q, item, bay, ZCount(bay), c);
  }

  /** Every candidate corner gives a box inside the bay. The far edges are
      checked against the bay, not against the quadrant, so a box may reach
      beyond its quadrant. */
  lemma CandidateInsideBay(q: Quadrant, item: CargoItem, bay: Bay, c: Point)
    requires c in QuadrantCandidates(q, item, bay)
    ensures InsideBay(CornerBox(item, c), bay)
    ensures bay.maxLength > 0.0 && bay.maxWidth > 0.0 && bay.maxHeight > 0.0
  {
    var i, j, k := CandidateIsScanned(q, item, bay, c);
    LatticePointBounds(q, bay, i, j, k);
  }

  /** A centre on the bay's floor lies within the search bounds of exactly one
      quadrant, and that quadrant is the one its weight is booked to. */
  lemma QuadrantOfWithinBounds(pos: Point, bay: Bay)
    requires 0.0 <= pos.x < bay.maxLength && 0.0 <= pos.y < bay.maxWidth
    ensures var q := QuadrantOf(pos, bay);
      XStart(q, bay) <= pos.x < XEnd(q, bay) && YStart(q, bay) <= pos.y < YEnd(q, bay)
    ensures forall q: Quadrant ::
      XStart(q, bay) <= pos.x < XEnd(q, bay) && YStart(q, bay) <= pos.y < YEnd(q, bay) ==>
      q == QuadrantOf(pos, bay)
  {
  }

  /** The quadrant a corner is found in need not be the quadrant its centre is
      booked to: a 1.6 m item scanned in the front-left quadrant of a 2 m bay
      has the candidate corner x = 0.4, whose centre x = 1.2 lies in the rear half. */
  lemma CornerCentredInOtherQuadrant(item: CargoItem, bay: Bay)
    requires item.length == 1.6 && item.width == 0.2 && item.height == 0.2
    requires bay.maxLength == 2.0 && bay.maxWidth == 2.0 && bay.maxHeight == 1.0
    ensures Point(0.4, 0.0, 0.0) in QuadrantCandidates(Quadrant(false, false), item, bay)
    ensures QuadrantOf(Centre(item, Point(0.4, 0.0, 0.0)), bay) == Quadrant(true, false)
  {
    var q := Quadrant(false, false);
    CornerIsScanned(item, bay);
    ScannedIsCandidate(q, item, bay, 0, 0, 2);
    assert Point(XAt(q, bay, 2), YAt(q, bay, 0), ZAt(0)) == Point(0.4, 0.0, 0.0);
  }

  lemma CornerIsScanned(item: CargoItem, bay: Bay)
    requires item.length == 1.6 && item.width == 0.2 && item.height == 0.2
    requires bay.maxLength == 2.0 && bay.maxWidth == 2.0 && bay.maxHeight == 1.0
    ensures Scanned(Quadrant(false, false), item, bay, 0, 0, 2)
  {
    var q := Quadrant(false, false);
    LatticeCountMeans(bay.maxHeight, 0);
    LatticeCountMeans(YEnd(q, bay) - YStart(q, bay), 0);
    LatticeCountMeans(XEnd(q, bay) - XStart(q, bay), 2);
  }

  // ---------------------------------------------------------------------------
  // Prefixes of the scan
  // ---------------------------------------------------------------------------

  lemma PrefixAfter(a: seq<Point>, b: seq<Point>, c: seq<Point>)
    requires b <= c
    ensures a + b <= a + c
  {
    assert (a + c)[..|a + b|] == a + b;
  }

  lemma {:induction false} RowPrefix(q: Quadrant, item: CargoItem, bay: Bay, y: real, z: real, k1: nat, k2: nat)
    requires k1 <= k2
    ensures Row(q, item, bay, y, z, k1) <= Row(q, item, bay, y, z, k2)
    decreases k2
  {
    if k1 < k2 {
      RowPrefix(q, item, bay, y, z, k1, k2 - 1);
    }
  }

  lemma {:induction false} LayerPrefix(q: Quadrant, item: CargoItem, bay: Bay, z: real, j1: nat, j2: nat)
    requires j1 <= j2
    ensures Layer(q, item, bay, z, j1) <= Layer(q, item, bay, z, j2)
    decreases j2
  {
    if j1 < j2 {
      LayerPrefix(q, item, bay, z, j1, j2 - 1);
    }
  }

  lemma {:induction false} GridPrefix(q: Quadrant, item: CargoItem, bay: Bay, i1: nat, i2: nat)
    requires i1 <= i2
    ensures Grid(q, item, bay, i1) <= Grid(q, item, bay, i2)
    decreases i2
  {
    if i1 < i2 {
      GridPrefix(q, item, bay, i1, i2 - 1);
    }
  }

  lemma {:induction false} SearchPrefix(order: seq<Quadrant>, item: CargoItem, bay: Bay, n1: nat, n2: nat)
    requires n1 <= n2 <= |order|
    ensures SearchCandidates(order, item, bay, n1) <= SearchCandidates(order, item, bay, n2)
    decreases n2
  {
    if n1 < n2 {
      SearchPrefix(order, item, bay, n1, n2 - 1);
    }
  }

  /** The corners scanned before lattice point (i, j, k) of quadrant q,
      followed by that point, begin the quadrant's candidate list. */
  lemma ScanPrefix(q: Quadrant, item: CargoItem, bay: Bay, i: nat, j: nat, k: nat)
    requires Scanned(q, item, bay, i, j, k)
    ensures Grid(q, item, bay, i) + Layer(q, item, bay, ZAt(i), j) +
            Row(q, item, bay, YAt(q, bay, j), ZAt(i), k) + [Point(XAt(q, bay, k), YAt(q, bay, j), ZAt(i))]
            <= QuadrantCandidates(q, item, bay)
  {
    var z, y := ZAt(i), YAt(q, bay, j);
    var g, l := Grid(q, item, bay, i), Layer(q, item, bay, z, j);
    var row := Row(q, item, bay, y, z, k) + [Point(XAt(q, bay, k), y, z)];
    var fullRow := Row(q, item, bay, y, z, XCount(q, bay));
    var fullLayer := Layer(q, item, bay, z, YCount(q, bay));
    RowStepPrefix(q, item, bay, y, z, k);
    PrefixAfter(l, row, fullRow);
    LayerStepPrefix(q, item, bay, z, j);
    PrefixTrans(l + row, l + fullRow, fullLayer);
    PrefixAfter(g, l + row, fullLayer);
    GridStepPrefix(q, item, bay, i);
    PrefixTrans(g + (l + row), g + fullLayer, QuadrantCandidates(q, item, bay));
    assert g + l + Row(q, item, bay, y, z, k) + [Point(XAt(q, bay, k), y, z)] == g + (l + row);
  }

  lemma PrefixTrans(a: seq<Point>, b: seq<Point>, c: seq<Point>)
    requires a <= b && b <= c
    ensures a <= c
  {
  }

  /** A scanned x-position's corner ends a prefix of its full row. */
  lemma RowStepPrefix(q: Quadrant, item: CargoItem, bay: Bay, y: real, z: real, k: nat)
    requires k < XCount(q, bay) && XAt(q, bay, k) + item.length <= bay.maxLength
    ensures Row(q, item, bay, y, z, k) + [Point(XAt(q, bay, k), y, z)] <= Row(q, item, bay, y, z, XCount(q, bay))
  {
    RowStep(q, item, bay, y, z, k);
    RowPrefix(q, item, bay, y, z, k + 1, XCount(q, bay));
  }

  lemma RowStep(q: Quadrant, item: CargoItem, bay: Bay, y: real, z: real, k: nat)
    requires XAt(q, bay, k) + item.length <= bay.maxLength
    ensures Row(q, item, bay, y, z, k) + [Point(XAt(q, bay, k), y, z)] == Row(q, item, bay, y, z, k + 1)
  {
  }

  /** A scanned y-position's full row ends a prefix of its full layer. */
  lemma LayerStepPrefix(q: Quadrant, item: CargoItem, bay: Bay, z: real, j: nat)
    requires j < YCount(q, bay) && YAt(q, bay, j) + item.width <= bay.maxWidth
    ensures Layer(q, item, bay, z, j) + Row(q, item, bay, YAt(q, bay, j), z, XCount(q, bay))
            <= Layer(q, item, bay, z, YCount(q, bay))
  {
    LayerStep(q, item, bay, z, j);
    LayerPrefix(q, item, bay, z, j + 1, YCount(q, bay));
  }

  lemma RowSkip(q: Quadrant, item: CargoItem, bay: Bay, y: real, z: real, k: nat)
    requires XAt(q, bay, k) + item.length > bay.maxLength
    ensures Row(q, item, bay, y, z, k + 1) == Row(q, item, bay, y, z, k)
  {
  }

  lemma LayerSkip(q: Quadrant, item: CargoItem, bay: Bay, z: real, j: nat)
    requires YAt(q, bay, j) + item.width > bay.maxWidth
    ensures Layer(q, item, bay, z, j + 1) == Layer(q, item, bay, z, j)
  {
  }

  lemma GridStep(q: Quadrant, item: CargoItem, bay: Bay, i: nat)
    requires ZAt(i) + item.height <= bay.maxHeight
    ensures Grid(q, item, bay, i) + Layer(q, item, bay, ZAt(i), YCount(q, bay)) == Grid(q, item, bay, i + 1)
  {
  }

  lemma GridSkip(q: Quadrant, item: CargoItem, bay: Bay, i: nat)
    requires ZAt(i) + item.height > bay.maxHeight
    ensures Grid(q, item, bay, i + 1) == Grid(q, item, bay, i)
  {
  }

  lemma LayerStep(q: Quadrant, item: CargoItem, bay: Bay, z: real, j: nat)
    requires YAt(q, bay, j) + item.width <= bay.maxWidth
    ensures Layer(q, item, bay, z, j) + Row(q, item, bay, YAt(q, bay, j), z, XCount(q, bay))
            == Layer(q, item, bay, z, j + 1)
  {
  }

  /** A scanned z-position's full layer ends a prefix of the quadrant's candidates. */
  lemma GridStepPrefix(q: Quadrant, item: CargoItem, bay: Bay, i: nat)
    requires i < ZCount(bay) && ZAt(i) + item.height <= bay.maxHeight
    ensures Grid(q, item, bay, i) + Layer(q, item, bay, ZAt(i), YCount(q, bay)) <= QuadrantCandidates(q, item, bay)
  {
    GridStep(q, item, bay, i);
    GridPrefix(q, item, bay, i + 1, ZCount(bay));
  }

  /** Completeness of the enumeration: every lattice point the scan does not
      skip is a candidate of its quadrant. */
  lemma ScannedIsCandidate(q: Quadrant, item: CargoItem, bay: Bay, i: nat, j: nat, k: nat)
    requires Scanned(q, item, bay, i, j, k)
    ensures Point(XAt(q, bay, k), YAt(q, bay, j), ZAt(i)) in QuadrantCandidates(q, item, bay)
  {
    ScanPrefix(q, item, bay, i, j, k);
    var s := Grid(q, item, bay, i) + Layer(q, item, bay, ZAt(i), j) +
      Row(q, item, bay, YAt(q, bay, j), ZAt(i), k);
    var c := Point(XAt(q, bay, k), YAt(q, bay, j), ZAt(i));
    assert (s + [c])[|s|] == c;
  }

  // ---------------------------------------------------------------------------
  // Scan order within a quadrant
  // ---------------------------------------------------------------------------

  /** z first, then y, then x: the order in which the nested loops visit corners. */
  predicate ScanLess(a: Point, b: Point)
  {
    a.z < b.z || (a.z == b.z && (a.y < b.y || (a.y == b.y && a.x < b.x)))
  }

  predicate InScanOrder(s: seq<Point>)
  {
    forall a, b :: 0 <= a < b < |s| ==> ScanLess(s[a], s[b])
  }

  lemma InScanOrderAppend(s: seq<Point>, t: seq<Point>)
    requires InScanOrder(s) && InScanOrder(t)
    requires forall a, b :: 0 <= a < |s| && 0 <= b < |t| ==> ScanLess(s[a], t[b])
    ensures InScanOrder(s + t)
  {
    forall a, b | 0 <= a < b < |s + t|
      ensures ScanLess((s + t)[a], (s + t)[b])
    {
      if b < |s| {
        assert (s + t)[a] == s[a] && (s + t)[b] == s[b];
      } else if a < |s| {
        assert (s + t)[a] == s[a] && (s + t)[b] == t[b - |s|];
      } else {
        assert (s + t)[a] == t[a - |s|] && (s + t)[b] == t[b - |s|];
      }
    }
  }

  lemma {:induction false} RowInScanOrder(q: Quadrant, item: CargoItem, bay: Bay, y: real, z: real, k: nat)
    ensures InScanOrder(Row(q, item, bay, y, z, k))
  {
    if k > 0 {
      var s := Row(q, item, bay, y, z, k - 1);
      RowInScanOrder(q, item, bay, y, z, k - 1);
      var x := XAt(q, bay, k - 1);
      var t: seq<Point> := if x + item.length > bay.maxLength then [] else [Point(x, y, z)];
      forall a, b | 0 <= a < |s| && 0 <= b < |t|
        ensures ScanLess(s[a], t[b])
      {
        var k' := RowShape(q, item, bay, y, z, k - 1, s[a]);
      }
      InScanOrderAppend(s, t);
    }
  }

  lemma {:induction false} LayerInScanOrder(q: Quadrant, item: CargoItem, bay: Bay, z: real, j: nat)
    ensures InScanOrder(Layer(q, item, bay, z, j))
  {
    if j > 0 {
      var s := Layer(q, item, bay, z, j - 1);
      LayerInScanOrder(q, item, bay, z, j - 1);
      var y := YAt(q, bay, j - 1);
      var t := if y + item.width > bay.maxWidth then [] else Row(q, item, bay, y, z, XCount(q, bay));
      RowInScanOrder(q, item, bay, y, z, XCount(q, bay));
      forall a, b | 0 <= a < |s| && 0 <= b < |t|
        ensures ScanLess(s[a], t[b])
      {
        var j', k' := LayerShape(q, item, bay, z, j - 1, s[a]);
        var k'' := RowShape(q, item, bay, y, z, XCount(q, bay), t[b]);
      }
      InScanOrderAppend(s, t);
    }
  }

  lemma {:induction false} GridInScanOrder(q: Quadrant, item: CargoItem, bay: Bay, i: nat)
    requires i <= ZCount(bay)
    ensures InScanOrder(Grid(q, item, bay, i))
  {
    if i > 0 {
      var s := Grid(q, item, bay, i - 1);
      GridInScanOrder(q, item, bay, i - 1);
      var z := ZAt(i - 1);
      var t := if z + item.height > bay.maxHeight then [] else Layer(q, item, bay, z, YCount(q, bay));
      LayerInScanOrder(q, item, bay, z, YCount(q, bay));
      forall a, b | 0 <= a < |s| && 0 <= b < |t|
        ensures ScanLess(s[a], t[b])
      {
        var i', j', k' := GridShape(q, item, bay, i - 1, s[a]);
        var j'', k'' := LayerShape(q, item, bay, z, YCount(q, bay), t[b]);
      }
      InScanOrderAppend(s, t);
    }
  }

  /** A quadrant's candidates are listed strictly in z, y, x order. */
  lemma QuadrantCandidatesInScanOrder(q: Quadrant, item: CargoItem, bay: Bay)
    ensures InScanOrder(QuadrantCandidates(q, item, bay))
  {
    GridInScanOrder(q, item, bay, ZCount(bay));
  }

  /** Every corner the search tries belongs to one of the quadrants of its order. */
  lemma {:induction false} SearchCandidateQuadrant(order: seq<Quadrant>, item: CargoItem, bay: Bay, n: nat, c: Point)
    returns (m: nat)
    requires n <= |order| && c in SearchCandidates(order, item, bay, n)
    ensures m < n && c in QuadrantCandidates(order[m], item, bay)
  {
    if c in SearchCandidates(order, item, bay, n - 1) {
      m := SearchCandidateQuadrant(order, item, bay, n - 1, c);
    } else {
      m := n - 1;
    }
  }

  // ---------------------------------------------------------------------------
  // First fit
  // ---------------------------------------------------------------------------

  /** The box of `item` at corner c collides with none of the packed boxes. */
  predicate Free(packed: seq<PlacedItem>, item: CargoItem, c: Point)
  {
    forall m :: 0 <= m < |packed| ==> !BoxesOverlap(CornerBox(item, c), BoxOf(packed[m]))
  }

  predicate NoneFree(packed: seq<PlacedItem>, item: CargoItem, s: seq<Point>)
  {
    forall n :: 0 <= n < |s| ==> !Free(packed, item, s[n])
  }

  /** The first corner of s whose box collides with no packed box. */
  function FirstFree(packed: seq<PlacedItem>, item: CargoItem, s: seq<Point>): Option<Point>
  {
    if s == [] then None
    else if Free(packed, item, s[0]) then Some(s[0])
    else FirstFree(packed, item, s[1..])
  }

  lemma {:induction false} FirstFreeIsFirst(packed: seq<PlacedItem>, item: CargoItem, s: seq<Point>)
    returns (n: nat)
    requires FirstFree(packed, item, s).Some?
    ensures n < |s| && FirstFree(packed, item, s) == Some(s[n])
    ensures Free(packed, item, s[n]) && NoneFree(packed, item, s[..n])
  {
    if Free(packed, item, s[0]) {
      n := 0;
    } else {
      var n' := FirstFreeIsFirst(packed, item, s[1..]);
      n := n' + 1;
      assert s[..n] == [s[0]] + s[1..][..n'];
    }
  }

  lemma {:induction false} FirstFreeNone(packed: seq<PlacedItem>, item: CargoItem, s: seq<Point>)
    ensures FirstFree(packed, item, s).None? <==> NoneFree(packed, item, s)
  {
    if s != [] {
      FirstFreeNone(packed, item, s[1..]);
      assert forall n :: 0 < n < |s| ==> s[n] == s[1..][n - 1];
    }
  }

  /** The position the search returns: the centre of the first free candidate. */
  function SearchResult(packed: seq<PlacedItem>, item: CargoItem, bay: Bay, qw: QuadrantWeights): Option<Point>
  {
    match FirstFree(packed, item, Candidates(item, bay, qw))
    case None => None
    case Some(c) => Some(Centre(item, c))
  }

  /** A returned position is the centre of a free candidate that every earlier
      candidate in search order fails to be. */
  lemma SearchResultIsFirstFit(packed: seq<PlacedItem>, item: CargoItem, bay: Bay, qw: QuadrantWeights)
    returns (n: nat)
    requires SearchResult(packed, item, bay, qw).Some?
    ensures var cands := Candidates(item, bay, qw);
      n < |cands| && SearchResult(packed, item, bay, qw) == Some(Centre(item, cands[n])) &&
      Free(packed, item, cands[n]) && forall m :: 0 <= m < n ==> !Free(packed, item, cands[m])
  {
    var cands := Candidates(item, bay, qw);
    n := FirstFreeIsFirst(packed, item, cands);
    assert forall m :: 0 <= m < n ==> cands[..n][m] == cands[m];
  }

  /** No position is returned exactly when every candidate of every quadrant collides. */
  lemma SearchResultNone(packed: seq<PlacedItem>, item: CargoItem, bay: Bay, qw: QuadrantWeights)
    ensures SearchResult(packed, item, bay, qw).None? <==> NoneFree(packed, item, Candidates(item, bay, qw))
  {
    FirstFreeNone(packed, item, Candidates(item, bay, qw));
  }

  /** Every quadrant is tried, whether or not weight is placed. */
  lemma QuadrantOrderAll(qw: QuadrantWeights)
    ensures forall q: Quadrant :: q in QuadrantOrder(qw)
  {
    if TotalWeight(qw) != 0.0 {
      QuadrantOrderCovers(qw);
    } else {
      QuadrantOrderDefault(qw);
      forall q: Quadrant
        ensures q in QuadrantOrder(qw)
      {
        assert q == DefaultOrder[(if q.rear then 0 else 1) + (if q.right then 0 else 2)];
      }
    }
  }

  /** A candidate of a quadrant among the first n of the order is a search candidate. */
  lemma {:induction false} InSearch(order: seq<Quadrant>, item: CargoItem, bay: Bay, n: nat, m: nat, c: Point)
    requires m < n <= |order| && c in QuadrantCandidates(order[m], item, bay)
    ensures c in SearchCandidates(order, item, bay, n)
  {
    if m < n - 1 {
      InSearch(order, item, bay, n - 1, m, c);
    }
  }

  /** No position is returned exactly when, in all four quadrants, every lattice
      corner the scan does not skip collides with a packed box. */
  lemma NoneMeansAllRejected(packed: seq<PlacedItem>, item: CargoItem, bay: Bay, qw: QuadrantWeights)
    ensures SearchResult(packed, item, bay, qw).None? <==>
      forall q: Quadrant, i: nat, j: nat, k: nat :: Scanned(q, item, bay, i, j, k) ==>
        !Free(packed, item, Point(XAt(q, bay, k), YAt(q, bay, j), ZAt(i)))
  {
    var order := QuadrantOrder(qw);
    var cands := Candidates(item, bay, qw);
    SearchResultNone(packed, item, bay, qw);
    if SearchResult(packed, item, bay, qw).None? {
      QuadrantOrderAll(qw);
      forall q: Quadrant, i: nat, j: nat, k: nat | Scanned(q, item, bay, i, j, k)
        ensures !Free(packed, item, Point(XAt(q, bay, k), YAt(q, bay, j), ZAt(i)))
      {
        var c := Point(XAt(q, bay, k), YAt(q, bay, j), ZAt(i));
        ScannedIsCandidate(q, item, bay, i, j, k);
        assert q in order;
        var m :| 0 <= m < |order| && order[m] == q;
        InSearch(order, item, bay, |order|, m, c);
        var n :| 0 <= n < |cands| && cands[n] == c;
      }
    } else {
      var n :| 0 <= n < |cands| && Free(packed, item, cands[n]);
      var m := SearchCandidateQuadrant(order, item, bay, |order|, cands[n]);
      var i, j, k := CandidateIsScanned(order[m], item, bay, cands[n]);
      assert Scanned(order[m], item, bay, i, j, k);
    }
  }

  /** A returned position gives a box inside the bay that overlaps no packed box;
      finding one needs a bay of positive length, width and height. */
  lemma SearchResultPlacesSafely(packed: seq<PlacedItem>, item: CargoItem, bay: Bay, qw: QuadrantWeights)
    requires SearchResult(packed, item, bay, qw).Some?
    ensures var p := PlacedItem(item, SearchResult(packed, item, bay, qw).value);
      InsideBay(BoxOf(p), bay) &&
      (forall m :: 0 <= m < |packed| ==> !BoxesOverlap(BoxOf(p), BoxOf(packed[m])))
    ensures bay.maxLength > 0.0 && bay.maxWidth > 0.0 && bay.maxHeight > 0.0
  {
    var cands := Candidates(item, bay, qw);
    var n := FirstFreeIsFirst(packed, item, cands);
    var c := cands[n];
    BoxOfCentre(item, c);
    var order := QuadrantOrder(qw);
    var m := SearchCandidateQuadrant(order, item, bay, |order|, c);
    CandidateInsideBay(order[m], item, bay, c);
  }

  /** In a strictly ordered sequence, an element that no element precedes is the first. */
  lemma FirstInScanOrder(s: seq<Point>, c: Point)
    requires InScanOrder(s) && c in s
    requires forall n :: 0 <= n < |s| ==> !ScanLess(s[n], c)
    ensures s[0] == c
  {
    assert forall n :: 0 < n < |s| ==> ScanLess(s[0], s[n]);
  }

  /** The start corner of quadrant q: its near x and y edges, on the floor. */
  function StartCorner(q: Quadrant, bay: Bay): Point
  {
    Point(XStart(q, bay), YStart(q, bay), 0.0)
  }

  /** When the start corner of a quadrant is scanned, it is the quadrant's first candidate. */
  lemma StartCornerIsFirst(q: Quadrant, item: CargoItem, bay: Bay)
    requires Scanned(q, item, bay, 0, 0, 0)
    ensures var s := QuadrantCandidates(q, item, bay);
      s != [] && s[0] == StartCorner(q, bay)
  {
    var s := QuadrantCandidates(q, item, bay);
    var c := StartCorner(q, bay);
    ScannedIsCandidate(q, item, bay, 0, 0, 0);
    QuadrantCandidatesInScanOrder(q, item, bay);
    forall n | 0 <= n < |s|
      ensures !ScanLess(s[n], c)
    {
      var i, j, k := CandidateIsScanned(q, item, bay, s[n]);
    }
    FirstInScanOrder(s, c);
  }

  /** The first item of a load, in an empty bay, goes to the start corner of the
      rear-right quadrant whenever the item fits there. */
  lemma FirstPlacement(item: CargoItem, bay: Bay)
    requires Scanned(Quadrant(true, true), item, bay, 0, 0, 0)
    ensures SearchResult([], item, bay, NoWeight) ==
      Some(Centre(item, StartCorner(Quadrant(true, true), bay)))
  {
    var q := Quadrant(true, true);
    assert QuadrantOrder(NoWeight) == DefaultOrder;
    StartCornerIsFirst(q, item, bay);
    SearchPrefix(DefaultOrder, item, bay, 1, 4);
    assert SearchCandidates(DefaultOrder, item, bay, 1) == QuadrantCandidates(q, item, bay);
  }

  // ---------------------------------------------------------------------------
  // The search as the source runs it
  // ---------------------------------------------------------------------------

  /** First fit over a concatenation: the first part's answer, if it has one. */
  lemma {:induction false} FirstFreeConcat(packed: seq<PlacedItem>, item: CargoItem, s: seq<Point>, t: seq<Point>)
    ensures FirstFree(packed, item, s + t) ==
      if FirstFree(packed, item, s).Some? then FirstFree(packed, item, s) else FirstFree(packed, item, t)
  {
    if s == [] {
      assert s + t == t;
    } else {
      assert (s + t)[0] == s[0] && (s + t)[1..] == s[1..] + t;
      FirstFreeConcat(packed, item, s[1..], t);
    }
  }

  /** Tests the box of `item` at corner (x, y, z) against the packed boxes one by
      one, stopping at the first collision. */
  method CollidesWithPacked(packed: seq<PlacedItem>, item: CargoItem, x: real, y: real, z: real)
    returns (overlaps: bool)
    ensures overlaps <==> !Free(packed, item, Point(x, y, z))
  {
    overlaps := false;
    var m := 0;
    while m < |packed|
      invariant 0 <= m <= |packed| && !overlaps
      invariant forall n :: 0 <= n < m ==>
        !BoxesOverlap(CornerBox(item, Point(x, y, z)), BoxOf(packed[n]))
    {
      var p := packed[m];
      if BoxesOverlap(Box(x, y, z, item.length, item.width, item.height),
                      Box(p.position.x - p.item.length / 2.0,
                          p.position.y - p.item.width / 2.0,
                          p.position.z - p.item.height / 2.0,
                          p.item.length, p.item.width, p.item.height)) {
        overlaps := true;
        break;
      }
      m := m + 1;
    }
  }

  /** First fit over a list that extends one with a free corner gives that corner. */
  lemma FirstFreeOfPrefix(packed: seq<PlacedItem>, item: CargoItem, s: seq<Point>, t: seq<Point>)
    requires FirstFree(packed, item, s).Some? && s <= t
    ensures FirstFree(packed, item, t) == FirstFree(packed, item, s)
  {
    assert t == s + t[|s|..];
    FirstFreeConcat(packed, item, s, t[|s|..]);
  }

  /** The innermost loop: scans the x-positions of the row at (y, z) of quadrant q
      and returns the first corner whose box overlaps no packed box. */
  method ScanRow(packed: seq<PlacedItem>, item: CargoItem, bay: Bay, q: Quadrant, y: real, z: real)
    returns (r: Option<Point>)
    ensures r == FirstFree(packed, item, Row(q, item, bay, y, z, XCount(q, bay)))
  {
    var xStart := if q.rear then bay.maxLength / 2.0 else 0.0;
    var xEnd := if q.rear then bay.maxLength else bay.maxLength / 2.0;
    var xCount := LatticeCount(xEnd - xStart);
    var k := 0;
    while k < xCount
      invariant 0 <= k <= xCount && xCount == XCount(q, bay)
      invariant FirstFree(packed, item, Row(q, item, bay, y, z, k)) == None
    {
      var x := xStart + k as real * Step;
      assert x == XAt(q, bay, k);
      if x + item.length > bay.maxLength {
        RowSkip(q, item, bay, y, z, k);
        k := k + 1;
        continue;
      }
      var overlaps := CollidesWithPacked(packed, item, x, y, z);
      RowStep(q, item, bay, y, z, k);
      FirstFreeConcat(packed, item, Row(q, item, bay, y, z, k), [Point(x, y, z)]);
      if !overlaps {
        RowPrefix(q, item, bay, y, z, k + 1, xCount);
        FirstFreeOfPrefix(packed, item, Row(q, item, bay, y, z, k + 1), Row(q, item, bay, y, z, xCount));
        r := Some(Point(x, y, z));
        return;
      }
      k := k + 1;
    }
    r := None;
  }

  /** The middle loop: scans the rows of the layer at height z of quadrant q. */
  method ScanLayer(packed: seq<PlacedItem>, item: CargoItem, bay: Bay, q: Quadrant, z: real)
    returns (r: Option<Point>)
    ensures r == FirstFree(packed, item, Layer(q, item, bay, z, YCount(q, bay)))
  {
    var yStart := if q.right then bay.maxWidth / 2.0 else 0.0;
    var yEnd := if q.right then bay.maxWidth else bay.maxWidth / 2.0;
    var yCount := LatticeCount(yEnd - yStart);
    var j := 0;
    while j < yCount
      invariant 0 <= j <= yCount && yCount == YCount(q, bay)
      invariant FirstFree(packed, item, Layer(q, item, bay, z, j)) == None
    {
      var y := yStart + j as real * Step;
      assert y == YAt(q, bay, j);
      if y + item.width > bay.maxWidth {
        LayerSkip(q, item, bay, z, j);
        j := j + 1;
        continue;
      }
      r := ScanRow(packed, item, bay, q, y, z);
      LayerStep(q, item, bay, z, j);
      FirstFreeConcat(packed, item, Layer(q, item, bay, z, j), Row(q, item, bay, y, z, XCount(q, bay)));
      if r.Some? {
        LayerPrefix(q, item, bay, z, j + 1, yCount);
        FirstFreeOfPrefix(packed, item, Layer(q, item, bay, z, j + 1), Layer(q, item, bay, z, yCount));
        return;
      }
      j := j + 1;
    }
    r := None;
  }

  /** The outer loop: scans the layers of quadrant q from the floor up. */
  method ScanQuadrant(packed: seq<PlacedItem>, item: CargoItem, bay: Bay, q: Quadrant)
    returns (r: Option<Point>)
    ensures r == FirstFree(packed, item, QuadrantCandidates(q, item, bay))
  {
    var zCount := LatticeCount(bay.maxHeight);
    var i := 0;
    while i < zCount
      invariant 0 <= i <= zCount && zCount == ZCount(bay)
      invariant FirstFree(packed, item, Grid(q, item, bay, i)) == None
    {
      var z := i as real * Step;
      assert z == ZAt(i);
      if z + item.height > bay.maxHeight {
        GridSkip(q, item, bay, i);
        i := i + 1;
        continue;
      }
      r := ScanLayer(packed, item, bay, q, z);
      GridStep(q, item, bay, i);
      FirstFreeConcat(packed, item, Grid(q, item, bay, i), Layer(q, item, bay, z, YCount(q, bay)));
      if r.Some? {
        GridPrefix(q, item, bay, i + 1, zCount);
        FirstFreeOfPrefix(packed, item, Grid(q, item, bay, i + 1), Grid(q, item, bay, zCount));
        return;
      }
      i := i + 1;
    }
    r := None;
  }

  /** Tries the quadrants in QuadrantOrder(qw) and returns the centre of the
      first corner found free. */
  method FindBalancedPosition(packed: seq<PlacedItem>, item: CargoItem, bay: Bay, qw: QuadrantWeights)
    returns (r: Option<Point>)
    ensures r == SearchResult(packed, item, bay, qw)
  {
    var order := QuadrantOrder(qw);
    var corner := ScanQuadrants(packed, item, bay, order);
    if corner.Some? {
      var c := corner.value;
      SearchResultFound(packed, item, bay, qw, c);
      r := Some(Point(c.x + item.length / 2.0, c.y + item.width / 2.0, c.z + item.height / 2.0));
    } else {
      SearchResultNotFound(packed, item, bay, qw);
      r := None;
    }
  }

  /** Tries the quadrants of `order` in turn and stops at the first that has a
      free candidate corner. */
  method ScanQuadrants(packed: seq<PlacedItem>, item: CargoItem, bay: Bay, order: seq<Quadrant>)
    returns (corner: Option<Point>)
    ensures corner == FirstFree(packed, item, SearchCandidates(order, item, bay, |order|))
  {
    var qi := 0;
    while qi < |order|
      invariant 0 <= qi <= |order|
      invariant FirstFree(packed, item, SearchCandidates(order, item, bay, qi)) == None
    {
      corner := ScanQuadrant(packed, item, bay, order[qi]);
      FirstFreeConcat(packed, item, SearchCandidates(order, item, bay, qi),
        QuadrantCandidates(order[qi], item, bay));
      if corner.Some? {
        SearchPrefix(order, item, bay, qi + 1, |order|);
        FirstFreeOfPrefix(packed, item, SearchCandidates(order, item, bay, qi + 1),
          SearchCandidates(order, item, bay, |order|));
        return;
      }
      qi := qi + 1;
    }
    corner := None;
  }

  /** The search returns the centre of the first free candidate of the quadrant order. */
  lemma SearchResultFound(packed: seq<PlacedItem>, item: CargoItem, bay: Bay, qw: QuadrantWeights, c: Point)
    requires var order := QuadrantOrder(qw);
      FirstFree(packed, item, SearchCandidates(order, item, bay, |order|)) == Some(c)
    ensures SearchResult(packed, item, bay, qw) == Some(Centre(item, c))
  {
  }

  /** The search returns nothing when no candidate of the quadrant order is free. */
  lemma SearchResultNotFound(packed: seq<PlacedItem>, item: CargoItem, bay: Bay, qw: QuadrantWeights)
    requires var order := QuadrantOrder(qw);
      FirstFree(packed, item, SearchCandidates(order, item, bay, |order|)) == None
    ensures SearchResult(packed, item, bay, qw) == None
  {
  }
}
