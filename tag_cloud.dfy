/** The TagCloud composable: the radius taken from the layout constraints, the
    rotated items and where each is placed, and the drag gesture that rotates the
    cloud. */
module Cloud {
  import opened RealFacts
  import opened KotlinMath
  import opened ComposeGeometry
  import Vectors
  import opened Quaternions
  import opened CloudState
  import opened CloudScope

  /** The radius for the given maximum width and height: half the smaller one, in
      whole pixels. */
  function Radius(maxWidth: int, maxHeight: int): (radius: int)
    requires maxWidth >= 0 && maxHeight >= 0
    ensures radius >= 0
    ensures 2 * radius <= maxWidth && 2 * radius <= maxHeight
    ensures 2 * radius + 2 > maxWidth || 2 * radius + 2 > maxHeight
  {
    (if maxWidth <= maxHeight then maxWidth else maxHeight) / 2
  }

  /** The measured size of an item's content. */
  datatype Size = Size(width: int, height: int)

  /** Where an item is placed, and its z-index. */
  datatype Placement = Placement(offset: IntOffset, zIndex: real)

  /** getItemOffset: the item's top-left corner, so that its centre sits at
      (radius (1 + x), radius (1 - y)); the y axis is flipped, since screen y grows
      downwards. Both coordinates are truncated toward zero. */
  function ItemOffset(coordinates: Vectors.Vector3, radius: int, size: Size): IntOffset
    requires size.width >= 0 && size.height >= 0
  {
    var x := radius as real * (1.0 + coordinates.x) - (size.width / 2) as real;
    var y := radius as real * (1.0 - coordinates.y) - (size.height / 2) as real;
    IntOffset(Trunc(x), Trunc(y))
  }

  /** An item at the centre of the cloud is centred on (radius, radius). */
  lemma ItemOffsetCentre(coordinates: Vectors.Vector3, radius: int, size: Size)
    requires size.width >= 0 && size.height >= 0
    requires coordinates.x == 0.0 && coordinates.y == 0.0
    ensures ItemOffset(coordinates, radius, size) == IntOffset(radius - size.width / 2, radius - size.height / 2)
  {
    TruncInt(radius - size.width / 2);
    TruncInt(radius - size.height / 2);
  }

  /** Moving an item right (larger x) never moves it left on screen. */
  lemma ItemOffsetRightward(a: Vectors.Vector3, b: Vectors.Vector3, radius: int, size: Size)
    requires size.width >= 0 && size.height >= 0 && radius >= 0 && a.x <= b.x
    ensures ItemOffset(a, radius, size).x <= ItemOffset(b, radius, size).x
  {
    var r, half := radius as real, (size.width / 2) as real;
    ScaleMonotone(r, 1.0 + a.x, 1.0 + b.x);
    TruncMonotone(r * (1.0 + a.x) - half, r * (1.0 + b.x) - half);
  }

  /** Moving an item up (larger y) never moves it down on screen: the y axis is flipped. */
  lemma ItemOffsetUpward(a: Vectors.Vector3, b: Vectors.Vector3, radius: int, size: Size)
    requires size.width >= 0 && size.height >= 0 && radius >= 0 && a.y <= b.y
    ensures ItemOffset(a, radius, size).y >= ItemOffset(b, radius, size).y
  {
    var r, half := radius as real, (size.height / 2) as real;
    ScaleMonotone(r, 1.0 - b.y, 1.0 - a.y);
    TruncMonotone(r * (1.0 - b.y) - half, r * (1.0 - a.y) - half);
  }

  lemma ScaleMonotone(r: real, a: real, b: real)
    requires r >= 0.0 && a <= b
    ensures r * a <= r * b
  {
    if r > 0.0 && a < b {
      PositiveProduct(r, b - a, r * (b - a));
    }
  }

  /** The placement of an item: its offset, and its z coordinate as its z-index. */
  function Place(coordinates: Vectors.Vector3, radius: int, size: Size): Placement
    requires size.width >= 0 && size.height >= 0
  {
    Placement(ItemOffset(coordinates, radius, size), coordinates.z)
  }

  /** The displayed items: the static items with their coordinates rotated by the
      current rotation, in the same order and with the same content. */
  function DisplayedItems<C>(items: seq<TagCloudItem<C>>, rotation: Quaternion)
    : (displayed: seq<TagCloudItem<C>>)
    ensures |displayed| == |items|
    ensures forall i :: 0 <= i < |items| ==>
              displayed[i] == TagCloudItem(Rotate(items[i].coordinates, rotation), items[i].content)
  {
    seq(|items|, i requires 0 <= i < |items| =>
      TagCloudItem(Rotate(items[i].coordinates, rotation), items[i].content))
  }

  /** A unit rotation keeps every item at its distance from the centre, and the
      Identity rotation displays the items where they were registered. */
  lemma DisplayedItemsKeepDistance<C>(items: seq<TagCloudItem<C>>, rotation: Quaternion, i: int)
    requires 0 <= i < |items|
    ensures IsUnit(rotation) ==>
              var c := DisplayedItems(items, rotation)[i].coordinates;
              Vectors.DotProduct(c, c) == Vectors.DotProduct(items[i].coordinates, items[i].coordinates)
    ensures rotation == Identity ==> DisplayedItems(items, rotation)[i] == items[i]
  {
    if IsUnit(rotation) {
      RotatePreservesLength(items[i].coordinates, rotation);
    }
    RotateIdentity(items[i].coordinates);
  }

  /** getSphereCoordinates, before normalisation: the offset relative to the centre in
      radius units, y flipped, and z from the sphere equation, or 0 outside the circle
      (where the square root would be NaN). */
  function Lifted(m: MathLib, offset: Offset, radius: int): Vectors.Vector3
    requires radius > 0
  {
    var dx := (offset.x - radius as real) / radius as real;
    var dy := (offset.y - radius as real) / radius as real * (-1.0);
    var radicand := 1.0 - dx * dx - dy * dy;
    var dz := if radicand < 0.0 then 0.0 else m.sqrt(radicand);
    Vectors.Vector3(dx, dy, dz)
  }

  /** getSphereCoordinates: the lifted point, normalised. */
  function SphereCoordinates(m: MathLib, offset: Offset, radius: int): Vectors.Vector3
    requires m.Lawful() && radius > 0
  {
    Vectors.Normalized(m, Lifted(m, offset, radius))
  }

  /** The lifted point is never the zero vector: at the centre its z is 1. */
  lemma LiftedNonzero(m: MathLib, offset: Offset, radius: int)
    requires m.Lawful() && radius > 0
    ensures Lifted(m, offset, radius) != Vectors.Zero
    ensures Lifted(m, offset, radius).z >= 0.0
  {
    var l := Lifted(m, offset, radius);
    var radicand := 1.0 - l.x * l.x - l.y * l.y;
    if l.x == 0.0 && l.y == 0.0 {
      assert radicand == 1.0;
      SqrtOfOne(m);
    }
  }

  /** The centre of the cloud lifts to the pole (0, 0, 1). */
  lemma SphereCentre(m: MathLib, radius: int)
    requires m.Lawful() && radius > 0
    ensures SphereCoordinates(m, Offset(radius as real, radius as real), radius) == Vectors.Vector3(0.0, 0.0, 1.0)
  {
    var l := Lifted(m, Offset(radius as real, radius as real), radius);
    assert l.x == 0.0 && l.y == 0.0;
    SqrtOfOne(m);
    assert l == Vectors.Vector3(0.0, 0.0, 1.0);
    Vectors.NormalizedIdempotent(m, l);
  }

  /** Every lifted point is a unit vector in the front hemisphere (z >= 0); outside the
      circle it lies on the rim (z == 0). */
  lemma SphereCoordinatesUnit(m: MathLib, offset: Offset, radius: int)
    requires m.Lawful() && radius > 0
    ensures var s := SphereCoordinates(m, offset, radius);
            && Vectors.DotProduct(s, s) == 1.0
            && s.z >= 0.0
            && (var dx := (offset.x - radius as real) / radius as real;
                var dy := (offset.y - radius as real) / radius as real * (-1.0);
                1.0 - dx * dx - dy * dy < 0.0 ==> s.z == 0.0)
  {
    var l := Lifted(m, offset, radius);
    LiftedNonzero(m, offset, radius);
    Vectors.NormalizedPositiveMultiple(m, l);
    var k :| k > 0.0 && SphereCoordinates(m, offset, radius) == Vectors.Times(l, k);
    if l.z > 0.0 {
      PositiveProduct(l.z, k, l.z * k);
    }
  }

  /** The quaternion a drag step from `from` to `to` composes into the rotation: the
      rotation between the two lifted points. Both are unit vectors, so their dot
      product lies in [-1, 1] and create(from, to) is well defined. */
  function DragRotation(m: MathLib, from: Offset, to: Offset, radius: int): Quaternion
    requires m.Lawful() && radius > 0
  {
    var fromVector := SphereCoordinates(m, from, radius);
    var toVector := SphereCoordinates(m, to, radius);
    DragWellDefined(m, fromVector, toVector, from, to, radius);
    CreateFromTo(m, fromVector, toVector)
  }

  lemma DragWellDefined(m: MathLib, fromVector: Vectors.Vector3, toVector: Vectors.Vector3,
                        from: Offset, to: Offset, radius: int)
    requires m.Lawful() && radius > 0
    requires fromVector == SphereCoordinates(m, from, radius)
    requires toVector == SphereCoordinates(m, to, radius)
    ensures m.cos(Vectors.DotProduct(fromVector, toVector) / 2.0) > 0.0
  {
    SphereCoordinatesUnit(m, from, radius);
    SphereCoordinatesUnit(m, to, radius);
    Vectors.UnitDotBounded(fromVector, toVector);
  }

  /** The TagCloud node: the cached radius, the state and the registered items. */
  class TagCloudNode<C> {
    /** The radius cached by the last measure pass (0 before the first). */
    var radius: int
    const state: TagCloudState
    const staticItems: seq<TagCloudItem<C>>

    constructor(state: TagCloudState, staticItems: seq<TagCloudItem<C>>)
      ensures this.radius == 0 && this.state == state && this.staticItems == staticItems
    {
      this.radius := 0;
      this.state := state;
      this.staticItems := staticItems;
    }

    /** The measure and layout pass: caches the new radius, lays the cloud out as a
        square of side 2 radius, and places the i-th measured child at the offset of
        the i-th displayed item, with that item's z coordinate as z-index. There is
        one size per measured child; a content that emits no child shifts every later
        child onto an earlier item's coordinates. */
    method Measure(maxWidth: int, maxHeight: int, sizes: seq<Size>)
      returns (side: int, placements: seq<Placement>)
      requires maxWidth >= 0 && maxHeight >= 0
      requires |sizes| <= |staticItems|
      requires forall i :: 0 <= i < |sizes| ==> sizes[i].width >= 0 && sizes[i].height >= 0
      modifies this
      ensures radius == Radius(maxWidth, maxHeight)
      ensures side == 2 * radius
      ensures |placements| == |sizes|
      ensures forall i :: 0 <= i < |placements| ==>
                placements[i] == Place(DisplayedItems(staticItems, state.rotation)[i].coordinates, radius, sizes[i])
    {
      var newRadius := Radius(maxWidth, maxHeight);
      if newRadius != radius {
        radius := newRadius;
      }
      var items := DisplayedItems(staticItems, state.rotation);
      placements := [];
      var index := 0;
      while index < |sizes|
        invariant 0 <= index <= |sizes|
        invariant |placements| == index
        invariant forall i :: 0 <= i < index ==> placements[i] == Place(items[i].coordinates, radius, sizes[i])
      {
        placements := placements + [Place(items[index].coordinates, radius, sizes[index])];
        index := index + 1;
      }
      side := radius * 2;
    }

    /** One step of the rotation gesture, from the previous pointer position to the
        current one: the rotation between the two lifted points is composed on the
        global axis. The flag is left as it is. */
    method RotateGestureStep(m: MathLib, from: Offset, to: Offset)
      requires m.Lawful() && radius > 0
      modifies state
      ensures state.rotation == Quaternions.Times(m, DragRotation(m, from, to, old(radius)), old(state.rotation))
      ensures state.gestureEnabled == old(state.gestureEnabled)
    {
      var quaternion := DragRotation(m, from, to, radius);
      state.RotateBy(m, quaternion);
    }
  }
}
