/** TagCloudScopeImpl: the append-only registry of cloud items, and where the
    lattice-placed items start. The composable content of an item is an opaque
    payload of type C. */
module CloudScope {
  import opened KotlinMath
  import Vectors
  import opened Quaternions
  import opened Distribution

  /** DefaultLayer: the sphere surface. */
  const DefaultLayer: real := 1.0

  /** A registered item: its initial coordinates (before the cloud's rotation) and
      its content. */
  datatype TagCloudItem<C> = TagCloudItem(coordinates: Vectors.Vector3, content: C)

  /** Where item `index` of `size` lattice-placed items starts: the lattice point,
      multiplied by the layer unless it is DefaultLayer, then rotated unless the
      rotation equals Identity. */
  function PlacedCoordinates(m: MathLib, size: int, index: int, layer: real, rotation: Quaternion)
    : Vectors.Vector3
    requires size != 0
  {
    var lattice := FibonacciLattice(size).Item(m, index);
    var scaled := if layer != DefaultLayer then Vectors.Times(lattice, layer) else lattice;
    if rotation != Identity then Rotate(scaled, rotation) else scaled
  }

  /** The two guards only skip work: the start is always the lattice point scaled by
      the layer and rotated by the rotation. */
  lemma PlacedCoordinatesUnguarded(m: MathLib, size: int, index: int, layer: real, rotation: Quaternion)
    requires size != 0
    ensures PlacedCoordinates(m, size, index, layer, rotation)
         == Rotate(Vectors.Times(FibonacciLattice(size).Item(m, index), layer), rotation)
  {
    Vectors.TimesOne(FibonacciLattice(size).Item(m, index));
    RotateIdentity(Vectors.Times(FibonacciLattice(size).Item(m, index), layer));
  }

  /** With a unit rotation the start lies on the sphere of radius `layer`. */
  lemma PlacedOnLayer(m: MathLib, size: int, index: int, layer: real, rotation: Quaternion)
    requires m.Lawful() && 0 <= index < size && IsUnit(rotation)
    ensures var p := PlacedCoordinates(m, size, index, layer, rotation);
            Vectors.DotProduct(p, p) == layer * layer
  {
    var lattice := FibonacciLattice(size).Item(m, index);
    FibonacciLattice(size).ItemOnUnitSphere(m, index);
    Vectors.TimesLength(lattice, layer);
    PlacedCoordinatesUnguarded(m, size, index, layer, rotation);
    RotatePreservesLength(Vectors.Times(lattice, layer), rotation);
  }

  /** The items `itemsIndexed(coordinates, content)` appends: one per coordinate, in
      order, each with its content bound to its index and coordinates. */
  function IndexedItems<C>(coordinates: seq<Vectors.Vector3>, content: (int, Vectors.Vector3) --> C)
    : (items: seq<TagCloudItem<C>>)
    requires forall i :: 0 <= i < |coordinates| ==> content.requires(i, coordinates[i])
    ensures |items| == |coordinates|
    ensures forall i :: 0 <= i < |items| ==>
              items[i] == TagCloudItem(coordinates[i], content(i, coordinates[i]))
  {
    seq(|coordinates|, i requires 0 <= i < |coordinates| => TagCloudItem(coordinates[i], content(i, coordinates[i])))
  }

  /** The coordinates the generic itemsIndexed computes for `items`. */
  function LatticeCoordinates<T>(m: MathLib, items: seq<T>, layer: (int, T) -> real,
                                 rotation: (int, T) -> Quaternion): (coordinates: seq<Vectors.Vector3>)
    ensures |coordinates| == |items|
    ensures forall i :: 0 <= i < |items| ==>
              coordinates[i] == PlacedCoordinates(m, |items|, i, layer(i, items[i]), rotation(i, items[i]))
  {
    seq(|items|, i requires 0 <= i < |items| =>
      PlacedCoordinates(m, |items|, i, layer(i, items[i]), rotation(i, items[i])))
  }

  class TagCloudScopeImpl<C> {
    /** The registered items, in registration order. */
    var items: seq<TagCloudItem<C>>

    constructor()
      ensures items == []
    {
      items := [];
    }

    /** itemsIndexed(coordinates, content): appends one item per coordinate. */
    method ItemsIndexed(coordinates: seq<Vectors.Vector3>, content: (int, Vectors.Vector3) --> C)
      requires forall i :: 0 <= i < |coordinates| ==> content.requires(i, coordinates[i])
      modifies this
      ensures items == old(items) + IndexedItems(coordinates, content)
    {
      items := items + IndexedItems(coordinates, content);
    }

    /** items(coordinates, content): itemsIndexed with the index ignored. */
    method Items(coordinates: seq<Vectors.Vector3>, content: Vectors.Vector3 -> C)
      modifies this
      ensures |items| == |old(items)| + |coordinates|
      ensures items[..|old(items)|] == old(items)
      ensures forall i :: 0 <= i < |coordinates| ==>
                items[|old(items)| + i] == TagCloudItem(coordinates[i], content(coordinates[i]))
    {
      ItemsIndexed(coordinates, (_, itemCoordinates) => content(itemCoordinates));
    }

    /** item(coordinates, content): appends a single item. */
    method Item(coordinates: Vectors.Vector3, content: C)
      modifies this
      ensures items == old(items) + [TagCloudItem(coordinates, content)]
    {
      ghost var before := items;
      Items([coordinates], _ => content);
      assert items == before + [TagCloudItem(coordinates, content)] by {
        assert items[|before| + 0] == TagCloudItem([coordinates][0], content);
        assert items == items[..|before|] + [items[|before|]];
      }
    }

    /** The generic itemsIndexed: the items are placed on a lattice of their own
        count, item i starting from lattice point i, scaled and rotated. */
    method ItemsIndexedOf<T>(m: MathLib, elements: seq<T>, layer: (int, T) -> real,
                             rotation: (int, T) -> Quaternion, content: (int, T) -> C)
      modifies this
      ensures |items| == |old(items)| + |elements|
      ensures items[..|old(items)|] == old(items)
      ensures forall i :: 0 <= i < |elements| ==>
                items[|old(items)| + i] == TagCloudItem(
                  PlacedCoordinates(m, |elements|, i, layer(i, elements[i]), rotation(i, elements[i])),
                  content(i, elements[i]))
    {
      var coordinates := LatticeCoordinates(m, elements, layer, rotation);
      ItemsIndexed(coordinates, (index, _) requires 0 <= index < |elements| => content(index, elements[index]));
    }

    /** The generic items: the generic itemsIndexed with index-independent layer,
        rotation and content. */
    method ItemsOf<T>(m: MathLib, elements: seq<T>, layer: T -> real, rotation: T -> Quaternion,
                      content: T -> C)
      modifies this
      ensures |items| == |old(items)| + |elements|
      ensures items[..|old(items)|] == old(items)
      ensures forall i :: 0 <= i < |elements| ==>
                items[|old(items)| + i] == TagCloudItem(
                  PlacedCoordinates(m, |elements|, i, layer(elements[i]), rotation(elements[i])),
                  content(elements[i]))
    {
      ItemsIndexedOf(m, elements, (_, item) => layer(item), (_, item) => rotation(item),
                     (_, item) => content(item));
    }
  }
}
