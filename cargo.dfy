/** The engine's records: cargo items, the bay's constraints, placed items,
    and the bay's four horizontal quadrants with their running weights. */
module Cargo {
  import opened Geometry

  /** A cargo request. Weights are in kilograms, dimensions in metres. */
  datatype CargoItem = CargoItem(
    id: int,
    itemType: string,
    priority: int,
    weight: real,
    length: real,
    width: real,
    height: real)

  /** The bay's limits. Nothing checks that they are positive. */
  datatype Bay = Bay(maxWeight: real, maxLength: real, maxWidth: real, maxHeight: real)

  /** A copy of an item with the centre of its box. */
  datatype PlacedItem = PlacedItem(item: CargoItem, position: Point)

  function Volume(item: CargoItem): real
  {
    item.length * item.width * item.height
  }

  function MaxVolume(bay: Bay): real
  {
    bay.maxLength * bay.maxWidth * bay.maxHeight
  }

  /** The box of `item` whose minimum corner is c. */
  function CornerBox(item: CargoItem, c: Point): Box
  {
    Box(c.x, c.y, c.z, item.length, item.width, item.height)
  }

  /** The centre of the box of `item` whose minimum corner is c. */
  function Centre(item: CargoItem, c: Point): Point
  {
    Point(c.x + item.length / 2.0, c.y + item.width / 2.0, c.z + item.height / 2.0)
  }

  /** The box of a placed item, recovered from its centre. */
  function BoxOf(p: PlacedItem): Box
  {
    Box(p.position.x - p.item.length / 2.0,
        p.position.y - p.item.width / 2.0,
        p.position.z - p.item.height / 2.0,
        p.item.length, p.item.width, p.item.height)
  }

  /** Placing an item by the centre of a corner box gives back that box. */
  lemma BoxOfCentre(item: CargoItem, c: Point)
    ensures BoxOf(PlacedItem(item, Centre(item, c))) == CornerBox(item, c)
  {
  }

  /** b lies within [0, maxLength] x [0, maxWidth] x [0, maxHeight]. */
  predicate InsideBay(b: Box, bay: Bay)
  {
    0.0 <= b.x && b.x + b.l <= bay.maxLength &&
    0.0 <= b.y && b.y + b.w <= bay.maxWidth &&
    0.0 <= b.z && b.z + b.h <= bay.maxHeight
  }

  /** A quadrant of the bay's floor: rear means the far half of the length,
      right the far half of the width; (false, false) is front-left. */
  datatype Quadrant = Quadrant(rear: bool, right: bool)

  /** The running weight of each quadrant. */
  datatype QuadrantWeights = QuadrantWeights(
    frontLeft: real, frontRight: real, rearLeft: real, rearRight: real)

  const NoWeight := QuadrantWeights(0.0, 0.0, 0.0, 0.0)

  function TotalWeight(qw: QuadrantWeights): real
  {
    qw.frontLeft + qw.frontRight + qw.rearLeft + qw.rearRight
  }

  function WeightIn(qw: QuadrantWeights, q: Quadrant): real
  {
    match q
    case Quadrant(false, false) => qw.frontLeft
    case Quadrant(false, true) => qw.frontRight
    case Quadrant(true, false) => qw.rearLeft
    case Quadrant(true, true) => qw.rearRight
  }

  /** Adds w to quadrant q and to no other. */
  function AddWeight(qw: QuadrantWeights, q: Quadrant, w: real): (r: QuadrantWeights)
    ensures WeightIn(r, q) == WeightIn(qw, q) + w
    ensures TotalWeight(r) == TotalWeight(qw) + w
  {
    match q
    case Quadrant(false, false) => qw.(frontLeft := qw.frontLeft + w)
    case Quadrant(false, true) => qw.(frontRight := qw.frontRight + w)
    case Quadrant(true, false) => qw.(rearLeft := qw.rearLeft + w)
    case Quadrant(true, true) => qw.(rearRight := qw.rearRight + w)
  }

  /** Adding to quadrant q leaves every other quadrant's weight as it was. */
  lemma AddWeightLeavesOthers(qw: QuadrantWeights, q: Quadrant, w: real)
    ensures forall q' :: q' != q ==> WeightIn(AddWeight(qw, q, w), q') == WeightIn(qw, q')
  {
  }

  /** The quadrant of a centre: the front half is x < maxLength / 2, the left
      half y < maxWidth / 2. */
  function QuadrantOf(pos: Point, bay: Bay): Quadrant
  {
    var inFront := pos.x < bay.maxLength / 2.0;
    var onLeft := pos.y < bay.maxWidth / 2.0;
    Quadrant(!inFront, !onLeft)
  }
}
