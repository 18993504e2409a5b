# Cargo load planner: the packing engine

The planner takes a list of cargo requests and the limits of a helicopter's cargo bay. Each request has an id, a type, an integer priority, a weight and a length, width and height. The bay has a maximum weight and a maximum length, width and height. The planner returns:

- the packed items, each with the centre of its box;
- the items left unpacked;
- load statistics.

The engine works greedily. It first sorts the requests stably: higher priority first, then heavier first. It takes the items in that order. An item is considered only if it keeps the running weight and volume within the bay's limits and fits every bay dimension without rotation. For such an item it searches for a position:

- It tries the four floor quadrants in a fixed default order while no weight is placed. After that it tries the lightest quadrant first.
- Within a quadrant it scans a 0.2 m lattice: height first, then width, then length.
- It skips lattice points whose box would stick out of the bay.
- It takes the first point whose box overlaps no packed box. Boxes that only touch do not overlap.

If no point is free, the item is left unpacked. At the end the engine computes:

- the centre of gravity;
- a balance score: how close that centre is to the middle of the floor, as a percentage;
- the weight on the left and right halves;
- weight and volume utilisation.

The model has five modules, one per part of the engine:

| module | file | contents |
|---|---|---|
| `Geometry` | geometry.dfy | boxes and the overlap test |
| `Cargo` | cargo.dfy | the records and the quadrant bookkeeping |
| `StableSort` | stable_sort.dfy | the stable sort behind both `sorted` calls |
| `Placement` | placement.dfy | the position search |
| `Packing` | packing.dfy | the greedy loop and the statistics |

The parts that the source writes as loops are Dafny methods:

- the overlap scan (`CollidesWithPacked`);
- the three lattice loops (`ScanRow`, `ScanLayer`, `ScanQuadrant`) and the quadrant loop (`ScanQuadrants`, called by `FindBalancedPosition`);
- the main loop (`PackSorted`, `AddToQuadrant`, `OptimizeCargo`).

Each method is proved equal to a specification function: `FirstFree` over `Candidates`, `PackAll`, `Optimize`. The properties are lemmas about those functions.

## Model

| member | source | states |
|---|---|---|
| Geometry.BoxesOverlap | app.py:299-305 | definition: two boxes overlap unless they are separated, with non-strict comparisons, on one of the three axes |
| Geometry.OverlapSymmetric | app.py:299-305 | the overlap test gives the same answer with its two boxes swapped |
| Geometry.FaceTouchingDoesNotOverlap | app.py:299-305 | boxes that meet on a face (on any of the six sides) never overlap, because the comparisons are non-strict |
| Geometry.OverlapIffCommonInteriorPoint | app.py:299-305 | for boxes with positive extents, the test holds exactly when some point lies strictly inside both boxes |
| Geometry.DegenerateBoxesOverlap | app.py:299-305 | for a box of negative length, the test can report an overlap with a box it shares no point with |
| Cargo.Volume | app.py:127 | definition: an item's volume, length times width times height |
| Cargo.MaxVolume | app.py:116 | definition: the bay's volume, the product of its three limits |
| Cargo.Centre | app.py:276-278 | definition: the centre of an item's box with the given minimum corner |
| Cargo.BoxOf | app.py:285-288 | definition: a packed item's box, rebuilt from its centre and its dimensions |
| Cargo.TotalWeight | app.py:235 | definition: the sum of the four quadrant weights |
| Cargo.WeightIn | app.py:242-250 | definition: the lookup of one quadrant's running weight in the weight table |
| Cargo.AddWeight | app.py:150-161 | adding a weight to one quadrant raises that quadrant and the total by exactly that weight |
| Cargo.AddWeightLeavesOthers | app.py:154-161 | adding to one quadrant leaves the other three as they were |
| Cargo.QuadrantOf | app.py:151-152 | definition of the booking test on a centre; its meaning against the search's quadrant bounds is QuadrantOfWithinBounds |
| Placement.QuadrantOfWithinBounds | app.py:151-152 | a centre on the bay's floor lies within the search bounds (app.py:255-258) of exactly one quadrant, the one its weight is booked to |
| Placement.CornerCentredInOtherQuadrant | app.py:151-152 | a corner found while scanning one quadrant can have its centre, and so its weight, in another: a 1.6 m item found at x = 0.4 in the front-left quadrant of a 2 m bay is booked to the rear-left |
| Cargo.CornerBox | app.py:284 | definition: the box an item occupies with the given minimum corner, the candidate box tested for overlap |
| Cargo.BoxOfCentre | app.py:276-278 | the box recovered from a returned centre is the box tested at the lattice point (app.py:285-288) |
| StableSort.InsertMembers | app.py:106-110 | one insertion step adds exactly the new position |
| StableSort.InsertOrdered | app.py:106-110 | inserting a later position keeps the list stably ordered |
| StableSort.SortIndices | app.py:106-110 | the sort returns n positions, all valid |
| StableSort.SortIndicesMembers | app.py:106-110 | the sort returns exactly the positions 0..n-1 |
| StableSort.SortIndicesOrdered | app.py:106-110 | smaller keys come first; equal keys keep their input order |
| StableSort.SortIndicesIsPermutation | app.py:106-110 | no position is returned twice |
| StableSort.Pick | app.py:106-110 | definition: the elements at a list of positions, one per position |
| StableSort.PickCons | app.py:106-110 | picking from a list of positions that starts with a gives the element at a, then the rest |
| StableSort.PickInsert | app.py:106-110 | one insertion step picks the new position's element once more |
| StableSort.SortIndicesPicksAll | app.py:106-110 | picking by the stable order rearranges the list: same elements, same multiplicities |
| Packing.PriorityKeys | app.py:108 | definition: the sort key (-priority, -weight) of each request |
| Packing.SortByPriority | app.py:106-110 | sorting keeps the number of requests |
| Packing.SortByPriorityPermutes | app.py:106-110 | the sorted list holds every request exactly as often as the input |
| Packing.SortByPriorityIsStable | app.py:106-110 | the sorted list is a permutation of the requests: higher priority first, heavier first at equal priority, input order at equal keys |
| Placement.DefaultOrder | app.py:239 | definition: the quadrant order used while no weight is placed |
| Placement.KeyOrder | app.py:242-247 | definition: the quadrants in the order of the weight table's keys |
| Placement.QuadrantKeys | app.py:242-250 | definition: the sort key of each quadrant, its weight |
| Placement.QuadrantOrder | app.py:237-250 | exactly four quadrants are tried |
| Placement.QuadrantOrderDefault | app.py:237-239 | with zero total quadrant weight the order is rear-right, front-right, rear-left, front-left |
| Placement.QuadrantOrderSorted | app.py:241-250 | once weight is placed, entry n is the quadrant at the sort's position n, and it carries that position's weight |
| Placement.QuadrantOrderCovers | app.py:241-250 | once weight is placed, every quadrant is tried |
| Placement.QuadrantOrderAscending | app.py:241-250 | once weight is placed, quadrants are tried lightest first; ties go in the table order front-left, front-right, rear-left, rear-right |
| Placement.Step | app.py:261 | definition: the lattice step, 0.2 |
| Placement.XStart | app.py:255 | definition: the near x edge of a quadrant's search area |
| Placement.XEnd | app.py:256 | definition: the far x edge of a quadrant's search area |
| Placement.YStart | app.py:257 | definition: the near y edge of a quadrant's search area |
| Placement.YEnd | app.py:258 | definition: the far y edge of a quadrant's search area |
| Placement.XCount | app.py:271 | definition: the number of x lattice points of a quadrant |
| Placement.YCount | app.py:267 | definition: the number of y lattice points of a quadrant |
| Placement.ZCount | app.py:263 | definition: the number of z lattice points |
| Placement.XAt | app.py:271 | definition: the x coordinate of lattice index k |
| Placement.YAt | app.py:267 | definition: the y coordinate of lattice index j |
| Placement.ZAt | app.py:263 | definition: the z coordinate of lattice index i |
| Placement.LatticeCount | app.py:263-271 | definition: the length of `range(int(span / 0.2))` |
| Placement.LatticeCountMeans | app.py:263-271 | lattice index i is scanned exactly when (i+1)*0.2 fits in the span |
| Placement.LatticePointBounds | app.py:255-271 | lattice points are non-negative, and a bay with a lattice has positive dimensions |
| Placement.RowShape | app.py:271-273 | every point of a row is an x lattice point whose far x edge lies within the bay |
| Placement.LayerShape | app.py:267-273 | every point of a layer is a (x, y) lattice point whose far x and y edges lie within the bay |
| Placement.GridShape | app.py:263-273 | every point of the z scan passes all three far-edge filters |
| Placement.Row | app.py:271-273 | definition: the x lattice points of one row whose far x edge lies within the bay |
| Placement.Layer | app.py:267-273 | definition: the rows of one layer whose far y edge lies within the bay, in y order |
| Placement.Grid | app.py:263-273 | definition: the layers whose top lies within the bay, in z order |
| Placement.QuadrantCandidates | app.py:260-273 | definition: the candidate corners of one quadrant, in scan order |
| Placement.SearchCandidates | app.py:253-273 | definition: the candidates of the first n quadrants of an order, concatenated |
| Placement.Candidates | app.py:253-273 | definition: the candidates of the quadrants in the order they are tried |
| Placement.Free | app.py:280-291 | definition: the box at a corner overlaps no packed box |
| Placement.FirstFree | app.py:280-294 | definition: the first candidate whose box overlaps no packed box |
| Placement.SearchResult | app.py:276-297 | definition: the centre of the first free candidate, or None |
| Placement.CandidateIsScanned | app.py:263-273 | every candidate of a quadrant is a lattice point that passed the three filters |
| Placement.ScannedIsCandidate | app.py:263-273 | every lattice point that passes the filters is a candidate |
| Placement.CandidateInsideBay | app.py:255-273 | the box at every candidate lies within the bay |
| Placement.RowInScanOrder | app.py:271 | a row lists its points in increasing x |
| Placement.LayerInScanOrder | app.py:267-271 | a layer lists its points in increasing (y, x) |
| Placement.GridInScanOrder | app.py:263-271 | the z scan lists its points in increasing (z, y, x) |
| Placement.QuadrantCandidatesInScanOrder | app.py:263-271 | a quadrant's candidates are in z, then y, then x order with no repeats |
| Placement.ScanPrefix | app.py:263-273 | the points scanned before a lattice point are a prefix of the quadrant's candidates |
| Placement.SearchCandidateQuadrant | app.py:253-273 | every candidate of the search belongs to one of the quadrants tried |
| Placement.FirstFreeIsFirst | app.py:280-294 | a found candidate is free, and every earlier candidate collides |
| Placement.FirstFreeNone | app.py:280-297 | nothing is found exactly when every candidate collides |
| Placement.FirstFreeConcat | app.py:253-297 | searching a concatenation searches the first part first |
| Placement.FirstFreeOfPrefix | app.py:293-294 | stopping at the first free candidate gives the answer of the whole scan |
| Placement.SearchResultIsFirstFit | app.py:253-297 | the returned centre belongs to the first free candidate in quadrant and scan order |
| Placement.SearchResultNone | app.py:296-297 | None is returned exactly when every candidate of every tried quadrant collides |
| Placement.QuadrantOrderAll | app.py:237-250 | every quadrant is tried, in the default order and in the weight order alike |
| Placement.InSearch | app.py:253 | a candidate of any quadrant among the first n tried is a search candidate (the converse of SearchCandidateQuadrant) |
| Placement.NoneMeansAllRejected | app.py:253-297 | None is returned exactly when, in all four quadrants, every lattice corner the scan does not skip collides with a packed box |
| Placement.SearchResultPlacesSafely | app.py:253-297 | a returned position gives a box inside the bay that overlaps no packed box |
| Placement.StartCorner | app.py:255-263 | definition: a quadrant's first lattice point (x_start, y_start, 0) |
| Placement.StartCornerIsFirst | app.py:255-271 | when a quadrant's near corner on the floor is scanned, it is the quadrant's first candidate |
| Placement.FirstPlacement | app.py:237-294 | in an empty bay, an item that fits at the rear-right start corner is centred there |
| Placement.CollidesWithPacked | app.py:280-291 | the overlap loop reports a collision exactly when some packed box overlaps the candidate box |
| Placement.ScanRow | app.py:271-294 | the x loop returns the first free point of its row |
| Placement.ScanLayer | app.py:267-294 | the y loop returns the first free point of its layer |
| Placement.ScanQuadrant | app.py:263-294 | the z loop returns the first free candidate of the quadrant |
| Placement.SearchResultFound | app.py:293-294 | a free corner found by the quadrant scan is returned as its centre |
| Placement.SearchResultNotFound | app.py:296-297 | when the quadrant scan finds no free corner, None is returned |
| Placement.ScanQuadrants | app.py:253-294 | the quadrant loop returns the first free candidate in the given quadrant order |
| Placement.FindBalancedPosition | app.py:225-297 | the search returns the model's search result, the centre of the first free candidate |
| Packing.Start | app.py:112-123 | definition: the loop's initial state, with empty lists and zero totals |
| Packing.Commit | app.py:144-161 | definition: the state after packing an item at a position: appended, totals raised, weight booked to its centre's quadrant |
| Packing.Admissible | app.py:129-134 | definition: the weight, volume and dimension checks made before the search |
| Packing.PackOne | app.py:126-165 | definition: one iteration of the loop, which commits an admitted item at the position found, or appends it to the unpacked list |
| Packing.PackAll | app.py:112-165 | definition: the loop run over the sorted items from the empty state |
| Packing.Items | app.py:144-146 | the packed list's items keep its length |
| Packing.DisjointBothWays | app.py:280-291 | no two packed boxes overlap, in either order |
| Packing.TallyTotal | app.py:150-161 | the four quadrant sums add up to the packed weight |
| Packing.SumWeightsAppend | app.py:147 | appending a placed item adds its weight to the sum |
| Packing.SumVolumesAppend | app.py:148 | appending a placed item adds its volume to the sum |
| Packing.TallyAppend | app.py:150-161 | appending a placed item adds its weight to the quadrant of its centre |
| Packing.ItemsAppend | app.py:144-146 | appending a placed item appends its item |
| Packing.CommitKeepsTotals | app.py:143-161 | committing an item keeps the running weight, the volume and the quadrant total equal to the packed list's sums |
| Packing.CommitKeepsLayoutSafe | app.py:143-148 | committing a free, in-bay item keeps every packed box inside the bay and the boxes pairwise disjoint |
| Packing.PackOneKeepsInvariant | app.py:126-165 | one loop iteration keeps the invariant: totals agree, limits hold once something is packed, and the layout is safe |
| Packing.PackAllKeepsInvariant | app.py:126-165 | the invariant holds after any number of iterations |
| Packing.PackAllStep | app.py:126 | running the loop over items + [item] is one more iteration after running it over items |
| Packing.PackAllNext | app.py:126 | the loop over the first i + 1 items is one more iteration, on item i |
| Packing.PackOneCommits | app.py:130-161 | an item that passes the checks and gets a position is committed |
| Packing.PackOneSkips | app.py:162-165 | an item that fails a check or gets no position is appended to the unpacked list, and nothing else changes |
| Packing.PackOneSplits | app.py:126-165 | each iteration appends the item to exactly one of the two lists |
| Packing.KeptMask | app.py:126-165 | the loop records one keep-or-drop decision per item |
| Packing.PackedAreKept | app.py:143-146 | the packed items are the kept items, in sorted order |
| Packing.UnpackedAreDropped | app.py:162-165 | the unpacked items are the dropped items, in sorted order |
| Packing.Kept | app.py:130-143 | definition: an item passes the checks and the search finds a position for it |
| Packing.KeptFits | app.py:132-134 | a kept item is within every bay dimension |
| Packing.KeptItemsFit | app.py:130-134 | no packed item exceeds a bay dimension |
| Packing.PartitionSizes | app.py:112-165 | the kept and dropped items together number the inputs |
| Packing.PackOneKeepsTally | app.py:150-161 | each iteration keeps the quadrant weights equal to the sums over the packed centres |
| Packing.PackAllTally | app.py:120-161 | after the loop, each quadrant weight is the weight of the packed items whose centre lies in that quadrant |
| Packing.TallySides | app.py:179-181 | front-left plus rear-left is the weight centred in the left half; likewise for the right half |
| Packing.StatsSides | app.py:179-181 | the reported left and right weights are the weights centred in each half |
| Packing.PlanSides | app.py:105-189 | in every plan, left and right weights are the weights of the packed items centred in each half |
| Packing.Moment | app.py:169-171 | definition: the per-axis sums of centre times weight |
| Packing.CentreOfGravity | app.py:169-171 | definition: those sums divided by the packed weight |
| Packing.AxisBalance | app.py:174-175 | definition: 100 minus the distance from the axis midpoint as a percentage of half the axis; a zero half-axis is a division error |
| Packing.BalanceScore | app.py:177 | definition: the mean of the two axis balances |
| Packing.Utilization | app.py:188-189 | definition: used over capacity times 100, or 0 when the capacity is not positive |
| Packing.ComputeStats | app.py:167-210 | definition: the final statistics of a loop state |
| Packing.Optimize | app.py:105-189 | definition: sort, the loop, then the statistics |
| Packing.StatsOfEmptyLoad | app.py:182-189 | in a state the loop reaches with nothing packed: no weight or volume, centre of gravity at the origin, balance 100, no side weight, weight and volume utilisation 0 |
| Packing.EmptyRequestsPlan | app.py:105-189 | an empty request list gives empty packed and unpacked lists and the empty-load statistics |
| Packing.NoWeightUtilizationWithoutLimit | app.py:188 | with a maximum weight <= 0, weight utilisation is 0 |
| Packing.BalanceScoreAtMost100 | app.py:173-177 | for a bay of positive length and width, the balance score is defined and at most 100 |
| Packing.AxisBalanceAtMost100 | app.py:174-175 | each axis balance is defined and at most 100 for a positive extent |
| Packing.StatsOfInvariantState | app.py:167-210 | the statistics fail exactly when a packed load weighs 0 in total; otherwise total = packed weight, left + right = total, balance <= 100, and the counts are the list lengths |
| Packing.StatsOfLoad | app.py:168-177 | for a non-empty load, the statistics report its centre of gravity and that centre's balance score |
| Packing.CentreOfOne | app.py:169-171 | one item's centre of gravity is its own centre |
| Packing.AxisBalanceOfOffset | app.py:174-175 | a centre d/2 past the midpoint scores 100 - abs(d)/extent*100 |
| Packing.SingleItemBalance | app.py:173-177 | an item at the rear-right start corner has balance score SingleItemScore |
| Packing.SingleItemScoreIsFullOnlyWhenFlat | app.py:173-177 | that score is 100 exactly when the item has zero length and width |
| Packing.SingleItemPacked | app.py:126-161 | a single item that fits is packed at the rear-right start corner |
| Packing.OptimizeOfOne | app.py:105-189 | the plan for one such item is its commit followed by the statistics |
| Packing.SingleItemPlan | app.py:105-189 | one fitting item of positive weight is packed at the rear-right start corner, nothing is left unpacked, and the score is below 100 unless the item is flat |
| Packing.OptimizeIsSound | app.py:105-189 | every plan is sound: disjoint boxes inside the bay, within the weight and volume limits, sizes fitting, the packed and unpacked items together being the requests with their multiplicities (and so numbering them), consistent side weights, balance <= 100; the only failure is a packed load of zero weight |
| Packing.OptimizeCargo | app.py:105-189 | the sort-pack-statistics method returns exactly the engine's plan, and every plan it returns is sound |
| Packing.PackSorted | app.py:112-165 | the loop with its running totals and quadrant variables computes the specified fold |
| Packing.AddToQuadrant | app.py:150-161 | the four-way branch adds the weight to the quadrant of the centre, and to no other |

## Left out

- The web layer is not modelled: the Flask routes, the JSON request and response, the intake form and its presets, the stored plan for the ground-crew view, and every HTML, PDF and OpenSCAD export. The model's input is the already-parsed request list and bay limits; its output is the plan record.
- The aircraft type in the response is a fixed label. The model's plan echoes only the bay.
- Reals are exact. The lattice step 0.2 is the rational 1/5, so floating-point effects of `i * 0.2` and of the division in `int(span / 0.2)` are not modelled. `int()` is modelled as truncation (floor for non-negative spans; a negative span scans nothing).
- The response rounds utilisation, the centre of gravity, the balance score and the side weights with `round`. That display rounding is left out: the model reports exact values.
- A division by zero raises `ZeroDivisionError` in the source. The model returns `Err(DivisionByZero)`. This happens only for a non-empty packed load of total weight zero. A bay of zero length or width has no lattice points, so nothing is packed and the balance formula is never reached.
- Packing.WithinLimits: the weight and volume bounds are stated only once something is packed. With nothing packed, 0 <= maxWeight does not hold for a negative limit.
- The far edge of a lattice point is checked only against the bay's far wall, never against the quadrant boundary, so a box may reach into the next quadrant. The model follows the code here.
- Nothing validates the limits or the item dimensions, and so nothing in the model does: a negative or zero size goes through both as written (see Geometry.DegenerateBoxesOverlap).
- The statistics do not report the four quadrant weights, only left and right. The model follows the code.
- With a single item, the code does not give a balance score of 100. An item that fits at the rear-right quadrant's start point (L/2 + l <= L and W/2 + w <= W, with room for one lattice step) is placed with its corner there, at half length and half width, so the score is 100 - 50 * (abs(l)/L + abs(w)/W). Packing.SingleItemPlan states this behaviour of the code, rather than a score of 100.
- An item longer than half the bay has no candidate in the rear quadrants, and one wider than half the bay has none in the right quadrants, because every corner there is at least half-way along. The search then moves on to the next quadrant in the default order. The model covers that case only through the general search lemmas, with no closed-form single-item score.
