# Tag cloud rotation and placement, modelled in Dafny

This project models the core of the tagcloud library, a Compose component that places
items on a sphere and lets the user rotate it by dragging. It also models the two
formatting helpers of the demo. The model covers:

- `Vector3`: scaling, cross and dot products, and normalisation, which leaves the zero
  vector alone (`vector3.dfy`, module `Vectors`).
- `Quaternion` (`quaternion.dfy`, module `Quaternions`):
  - the constructor, which rescales its four fields in place unless their squared norm
    is within 1e-10 of 1;
  - the Hamilton product `times`, `equals` and `Identity`;
  - both `create` overloads;
  - `Vector3.rotate`, which multiplies the vector by the rotation matrix of the
    quaternion.
- `FibonacciLattice`: the evenly spread start points on the unit sphere
  (`fibonacci_lattice.dfy`, module `Distribution`).
- `TagCloudState`: a class whose `rotation` and `gestureEnabled` fields are replaced by
  `rotateTo` and composed by `rotateBy`. It also has the five-element list the state is
  saved to and restored from (`tag_cloud_state.dfy`, module `CloudState`).
- `TagCloudScopeImpl`: a class holding the append-only list of registered items, with
  the coordinates computed for lattice-placed items (`tag_cloud_scope.dfy`, module
  `CloudScope`).
- `TagCloud` (`tag_cloud.dfy`, module `Cloud`):
  - the radius taken from the constraints;
  - the rotated display list, the item offsets and z-indices;
  - the lift of a screen point onto the sphere;
  - one step of the drag gesture, as a class holding the cached radius.
- `TagCloudItemScope`: `rescale`, the fade and scale-down values, and the
  press/move/release click rule. The rule is a loop over a sequence of pointer events
  (`tag_cloud_item_scope.dfy`, module `ItemScope`).
- The demo's `prefixNumber` and `formatToDecimals` (`string_extensions.dfy`, module
  `StringExtensions`).

Shared modules:

- `KotlinMath` (`kotlin_math.dfy`):
  - `sqrt`, `sin`, `cos` and `acos` are fields of a `MathLib` value that each operation
    takes as a parameter;
  - `MathLib.Lawful()` lists the only facts about them that the proofs use: a square
    root is non-negative and squares back, sin² + cos² = 1, sin 0 = 0 and cos 0 = 1,
    cos(acos t) = t on [-1, 1], and cos is positive on [-1, 1];
  - `Float.toInt()` is `Trunc`, and `roundToInt()` is `RoundToInt`.
- `RealFacts` (`real_facts.dfy`) holds small lemmas about real products and quotients.
- `ComposeGeometry` (`compose_geometry.dfy`) holds `Offset` and `IntOffset`.

Float values are modelled as unbounded reals.

## Model

| member | source | states |
|---|---|---|
| Vectors.Times | tagcloud/src/commonMain/kotlin/eu/wewox/tagcloud/math/Vector3.kt:31-32 | scaling every coordinate; its laws are TimesOne, TimesTimes, TimesLength and DotTimes |
| Vectors.CrossProduct | tagcloud/src/commonMain/kotlin/eu/wewox/tagcloud/math/Vector3.kt:48-53 | the cross product; CrossAntiCommutative, CrossSelf, CrossOrthogonal and Lagrange characterise it |
| Vectors.DotProduct | tagcloud/src/commonMain/kotlin/eu/wewox/tagcloud/math/Vector3.kt:62-63 | the dot product; DotSymmetric, DotSelfZero, DotTimes, Lagrange and UnitDotBounded characterise it |
| Vectors.Normalized | tagcloud/src/commonMain/kotlin/eu/wewox/tagcloud/math/Vector3.kt:19-23 | the zero vector is returned as it is; every other vector comes back with squared length 1 |
| Vectors.NormalizedPositiveMultiple | tagcloud/src/commonMain/kotlin/eu/wewox/tagcloud/math/Vector3.kt:19-23 | a nonzero vector is normalised by multiplying it by a positive factor, so it keeps its direction |
| Vectors.NormalizedIdempotent | tagcloud/src/commonMain/kotlin/eu/wewox/tagcloud/math/Vector3.kt:19-23 | normalising a unit vector returns it unchanged |
| Vectors.TimesOne | tagcloud/src/commonMain/kotlin/eu/wewox/tagcloud/math/Vector3.kt:31-32 | `v * 1 == v` |
| Vectors.TimesTimes | tagcloud/src/commonMain/kotlin/eu/wewox/tagcloud/math/Vector3.kt:31-32 | `(v * a) * b == v * (a b)` |
| Vectors.TimesLength | tagcloud/src/commonMain/kotlin/eu/wewox/tagcloud/math/Vector3.kt:31-32 | scaling by a value scales the squared length by the value squared |
| Vectors.DotTimes | tagcloud/src/commonMain/kotlin/eu/wewox/tagcloud/math/Vector3.kt:62-63 | scaling one operand scales the dot product |
| Vectors.CrossAntiCommutative | tagcloud/src/commonMain/kotlin/eu/wewox/tagcloud/math/Vector3.kt:48-53 | `l x r == -(r x l)` |
| Vectors.CrossSelf | tagcloud/src/commonMain/kotlin/eu/wewox/tagcloud/math/Vector3.kt:48-53 | `v x v == Zero` |
| Vectors.CrossOrthogonal | tagcloud/src/commonMain/kotlin/eu/wewox/tagcloud/math/Vector3.kt:48-63 | the cross product has dot product 0 with both operands |
| Vectors.DotSymmetric | tagcloud/src/commonMain/kotlin/eu/wewox/tagcloud/math/Vector3.kt:62-63 | the dot product is symmetric |
| Vectors.DotSelfZero | tagcloud/src/commonMain/kotlin/eu/wewox/tagcloud/math/Vector3.kt:62-63 | `v . v >= 0`, and it is positive for every vector other than Zero |
| Vectors.Lagrange | tagcloud/src/commonMain/kotlin/eu/wewox/tagcloud/math/Vector3.kt:48-63 | Lagrange's identity relating dot product, cross product and lengths |
| Vectors.UnitDotBounded | tagcloud/src/commonMain/kotlin/eu/wewox/tagcloud/math/Vector3.kt:62-63 | the dot product of two unit vectors lies in [-1, 1] |
| Quaternions.Construct | tagcloud/src/main/java/eu/wewox/tagcloud/math/Quaternion.kt:39-55 | the in-place rescaling of the four fields by the init block gives exactly `Normalize` of the arguments |
| Quaternions.Normalize | tagcloud/src/main/java/eu/wewox/tagcloud/math/Quaternion.kt:46-55 | a 4-tuple within the tolerance is kept as it is; any other nonzero 4-tuple comes out with squared norm 1 |
| Quaternions.NormalizeScales | tagcloud/src/main/java/eu/wewox/tagcloud/math/Quaternion.kt:46-55 | normalisation multiplies the 4-tuple by a positive factor |
| Quaternions.NormalizeIdempotent | tagcloud/src/main/java/eu/wewox/tagcloud/math/Quaternion.kt:39-55 | constructing a quaternion from the fields of an existing one gives it back unchanged |
| Quaternions.QuaternionNonzero | tagcloud/src/main/java/eu/wewox/tagcloud/math/Quaternion.kt:39-55 | a constructed quaternion is never the zero 4-tuple |
| Quaternions.Equals | tagcloud/src/main/java/eu/wewox/tagcloud/math/Quaternion.kt:73-85 | `equals` holds exactly when all four components are equal |
| Quaternions.Hamilton | tagcloud/src/main/java/eu/wewox/tagcloud/math/Quaternion.kt:65-71 | the product `times` computes before its constructor runs; FourSquare, HamiltonNonzero, HamiltonAssociative and ConjHamilton are its contract |
| Quaternions.Times | tagcloud/src/main/java/eu/wewox/tagcloud/math/Quaternion.kt:65-71 | the product of two unit quaternions is their Hamilton product, kept unchanged by the constructor, and is a unit quaternion |
| Quaternions.FourSquare | tagcloud/src/main/java/eu/wewox/tagcloud/math/Quaternion.kt:65-71 | the squared norm of a Hamilton product is the product of the squared norms |
| Quaternions.HamiltonNonzero | tagcloud/src/main/java/eu/wewox/tagcloud/math/Quaternion.kt:65-71 | the product of two quaternions is never the zero 4-tuple, so the constructor never divides by 0 |
| Quaternions.HamiltonAssociative | tagcloud/src/main/java/eu/wewox/tagcloud/math/Quaternion.kt:65-71 | the Hamilton product is associative |
| Quaternions.TimesIdentity | tagcloud/src/main/java/eu/wewox/tagcloud/math/Quaternion.kt:65-71 | `Identity * q == q` and `q * Identity == q` for every quaternion |
| Quaternions.TimesAssociative | tagcloud/src/main/java/eu/wewox/tagcloud/math/Quaternion.kt:65-71 | `times` is associative on unit quaternions |
| Quaternions.ConjHamilton | tagcloud/src/main/java/eu/wewox/tagcloud/math/Quaternion.kt:65-71 | the conjugate of a product is the product of the conjugates in reverse order |
| Quaternions.IdentityIsCreateZero | tagcloud/src/main/java/eu/wewox/tagcloud/math/Quaternion.kt:100-114 | `create(0, Zero)` is (1, 0, 0, 0), the components of `Identity` |
| Quaternions.Create | tagcloud/src/main/java/eu/wewox/tagcloud/math/Quaternion.kt:105-114 | the result is a positive multiple of the axis-angle 4-tuple (cos(angle / 2), vector sin(angle / 2)), and that 4-tuple itself when it is within the tolerance; so the imaginary part is a multiple of the axis, and w is positive exactly when cos(angle / 2) is |
| Quaternions.CreateUnitAxis | tagcloud/src/main/java/eu/wewox/tagcloud/math/Quaternion.kt:105-114 | for a unit axis, `create(angle, vector)` is exactly (cos(angle / 2), vector sin(angle / 2)), the rotation by `angle` about `vector` |
| Quaternions.CreateNonzero | tagcloud/src/main/java/eu/wewox/tagcloud/math/Quaternion.kt:105-114 | the 4-tuple built by `create` is nonzero when the axis is nonzero or cos(angle / 2) != 0 |
| Quaternions.CreateZeroAngle | tagcloud/src/main/java/eu/wewox/tagcloud/math/Quaternion.kt:105-114 | `create(0, v) == Identity` for every axis v |
| Quaternions.CreateZeroAxis | tagcloud/src/main/java/eu/wewox/tagcloud/math/Quaternion.kt:105-114 | `create(angle, Zero)` has no imaginary part |
| Quaternions.CreateFromTo | tagcloud/src/main/java/eu/wewox/tagcloud/math/Quaternion.kt:123-127 | `create(from, to)` is a positive multiple of the axis-angle 4-tuple with angle `from . to` and axis `from x to`: its imaginary part is a multiple of `from x to`, hence orthogonal to both vectors, and w is positive exactly when cos(from . to / 2) is |
| Quaternions.CreateFromToSame | tagcloud/src/main/java/eu/wewox/tagcloud/math/Quaternion.kt:123-127 | `create(v, v)` has no imaginary part, and w has the sign of cos(v . v / 2). It is Identity when that cosine is 1, or is positive and outside the tolerance band |
| Quaternions.Rotate | tagcloud/src/main/java/eu/wewox/tagcloud/math/Quaternion.kt:137-162 | `Vector3.rotate`: the rotation matrix of the quaternion applied to the vector; SandwichIsRotation ties it to the independent q (0, v) q*, and RotateCompose, RotatePreservesLength, RotateIdentity, RotateAdditive and RotateHomogeneous state what it promises |
| Quaternions.SandwichIsRotation | tagcloud/src/main/java/eu/wewox/tagcloud/math/Quaternion.kt:137-162 | `v.rotate(q)` is the imaginary part of q (0, v) q*, whose real part is 0 |
| Quaternions.RotateIdentity | tagcloud/src/main/java/eu/wewox/tagcloud/math/Quaternion.kt:137-162 | rotating by Identity changes nothing |
| Quaternions.RotateAdditive | tagcloud/src/main/java/eu/wewox/tagcloud/math/Quaternion.kt:137-162 | rotation is additive in the vector |
| Quaternions.RotateHomogeneous | tagcloud/src/main/java/eu/wewox/tagcloud/math/Quaternion.kt:137-162 | rotation commutes with scaling the vector |
| Quaternions.RotateScaled | tagcloud/src/main/java/eu/wewox/tagcloud/math/Quaternion.kt:137-162 | scaling the quaternion by k scales the rotated vector by k² |
| Quaternions.RotateComposes | tagcloud/src/main/java/eu/wewox/tagcloud/math/Quaternion.kt:137-162 | rotating by b and then by a is rotating by the Hamilton product a b, for any 4-tuples |
| Quaternions.RotateCompose | tagcloud/src/main/java/eu/wewox/tagcloud/math/Quaternion.kt:137-162 | for unit a and b, `v.rotate(b).rotate(a) == v.rotate(a * b)` |
| Quaternions.RotatePreservesLength | tagcloud/src/main/java/eu/wewox/tagcloud/math/Quaternion.kt:137-162 | a unit quaternion keeps the squared length of the vector |
| Quaternions.CreateFromToPerpendicular | tagcloud/src/main/java/eu/wewox/tagcloud/math/Quaternion.kt:116-127 | for perpendicular `from` and `to`, `create(from, to)` is Identity and leaves `from` where it is, so it misses `to` whenever `from != to` |
| Quaternions.HalfwayNorm | tagcloud/src/main/java/eu/wewox/tagcloud/math/Quaternion.kt:116-127 | for unit vectors the half-way 4-tuple (1 + d, from x to) has squared norm 2 (1 + d) |
| Quaternions.HalfwayRotates | tagcloud/src/main/java/eu/wewox/tagcloud/math/Quaternion.kt:116-127 | the half-way 4-tuple rotates `from` onto `to` times 2 (1 + d) |
| Quaternions.CreateFromToCorrectedRotates | tagcloud/src/main/java/eu/wewox/tagcloud/math/Quaternion.kt:116-127 | the corrected create(from, to) takes `from` to `to` times the quaternion's squared norm, and exactly to `to` whenever the constructor rescaled it |
| Distribution.FibonacciLattice.Item | tagcloud/src/commonMain/kotlin/eu/wewox/tagcloud/distribution/FibonacciLattice.kt:26-37 | lattice point `index` of `size`; ItemHeight, HeightInside, HeightDecreasing, HeightSymmetric and ItemOnUnitSphere are its contract |
| Distribution.FibonacciLattice.HeightInside | tagcloud/src/commonMain/kotlin/eu/wewox/tagcloud/distribution/FibonacciLattice.kt:27-29 | for 0 <= index < size the acos argument lies strictly inside (-1, 1) |
| Distribution.FibonacciLattice.ItemHeight | tagcloud/src/commonMain/kotlin/eu/wewox/tagcloud/distribution/FibonacciLattice.kt:27-35 | the z coordinate of `item(index)` is 1 - 2 (index + 0.5) / size |
| Distribution.FibonacciLattice.HeightDecreasing | tagcloud/src/commonMain/kotlin/eu/wewox/tagcloud/distribution/FibonacciLattice.kt:27-35 | z strictly decreases as the index grows |
| Distribution.FibonacciLattice.HeightSymmetric | tagcloud/src/commonMain/kotlin/eu/wewox/tagcloud/distribution/FibonacciLattice.kt:27-35 | z of `item(i)` is minus z of `item(size - 1 - i)` |
| Distribution.FibonacciLattice.ItemOnUnitSphere | tagcloud/src/commonMain/kotlin/eu/wewox/tagcloud/distribution/FibonacciLattice.kt:26-37 | every item of the lattice has squared length 1 |
| CloudState.TagCloudState.constructor | tagcloud/src/main/java/eu/wewox/tagcloud/TagCloudState.kt:68-84 | the state holds the given flag and rotation |
| CloudState.TagCloudState.RotateBy | tagcloud/src/main/java/eu/wewox/tagcloud/TagCloudState.kt:106-108 | the new rotation is `q * old` on the global axis and `old * q` on the local one; the flag is unchanged; unit rotations stay unit |
| CloudState.TagCloudState.RotateByAngle | tagcloud/src/main/java/eu/wewox/tagcloud/TagCloudState.kt:94-97 | the same as RotateBy with `create(angle, vector)`; a zero angle leaves the rotation unchanged |
| CloudState.TagCloudState.RotateTo | tagcloud/src/main/java/eu/wewox/tagcloud/TagCloudState.kt:126-128 | the rotation is replaced, whatever it was, and the flag is unchanged |
| CloudState.TagCloudState.RotateToAngle | tagcloud/src/main/java/eu/wewox/tagcloud/TagCloudState.kt:116-119 | the rotation becomes `create(angle, vector)`; a zero angle resets it to Identity |
| CloudState.TagCloudState.Save | tagcloud/src/main/java/eu/wewox/tagcloud/TagCloudState.kt:28-36 | the saved list holds the flag and the four components of the rotation |
| CloudState.RememberTagCloudState | tagcloud/src/main/java/eu/wewox/tagcloud/TagCloudState.kt:21-58 | a new state with the given flag and rotation, true and Identity by default |
| CloudState.RestoredRotation | tagcloud/src/main/java/eu/wewox/tagcloud/TagCloudState.kt:37-49 | the restored rotation is the saved 4-tuple itself whenever it lies within the tolerance |
| CloudState.Restore | tagcloud/src/main/java/eu/wewox/tagcloud/TagCloudState.kt:37-49 | a new state with the saved flag and the rotation rebuilt by the constructor |
| CloudState.SaveRestore | tagcloud/src/main/java/eu/wewox/tagcloud/TagCloudState.kt:28-49 | restoring the saved list gives back the same flag and the same rotation |
| CloudState.SaveThenRestore | tagcloud/src/main/java/eu/wewox/tagcloud/TagCloudState.kt:26-50 | the round trip through a live state object gives an equal state |
| CloudScope.PlacedCoordinates | tagcloud/src/commonMain/kotlin/eu/wewox/tagcloud/TagCloudScope.kt:146-158 | where a lattice-placed item starts; PlacedCoordinatesUnguarded and PlacedOnLayer are its contract |
| CloudScope.PlacedCoordinatesUnguarded | tagcloud/src/commonMain/kotlin/eu/wewox/tagcloud/TagCloudScope.kt:146-158 | the two guards (layer equal to DefaultLayer, rotation equal to Identity) only skip work: the start is the lattice point scaled by the layer and rotated |
| CloudScope.PlacedOnLayer | tagcloud/src/commonMain/kotlin/eu/wewox/tagcloud/TagCloudScope.kt:146-158 | with a unit rotation the start point has squared length layer² |
| CloudScope.IndexedItems | tagcloud/src/commonMain/kotlin/eu/wewox/tagcloud/TagCloudScope.kt:116-123 | one item per coordinate, in order, with its content bound to its index and coordinates |
| CloudScope.LatticeCoordinates | tagcloud/src/commonMain/kotlin/eu/wewox/tagcloud/TagCloudScope.kt:146-158 | item i starts from point i of a lattice the size of the list, with its own layer and rotation |
| CloudScope.TagCloudScopeImpl.constructor | tagcloud/src/commonMain/kotlin/eu/wewox/tagcloud/TagCloudScope.kt:85-90 | the registry starts empty |
| CloudScope.TagCloudScopeImpl.ItemsIndexed | tagcloud/src/commonMain/kotlin/eu/wewox/tagcloud/TagCloudScope.kt:112-124 | the new items are appended after the old ones, which are unchanged |
| CloudScope.TagCloudScopeImpl.Items | tagcloud/src/commonMain/kotlin/eu/wewox/tagcloud/TagCloudScope.kt:102-110 | appends one item per coordinate, in order, and keeps the earlier items |
| CloudScope.TagCloudScopeImpl.Item | tagcloud/src/commonMain/kotlin/eu/wewox/tagcloud/TagCloudScope.kt:92-100 | appends exactly one item with the given coordinates and content |
| CloudScope.TagCloudScopeImpl.ItemsIndexedOf | tagcloud/src/commonMain/kotlin/eu/wewox/tagcloud/TagCloudScope.kt:140-163 | appends one item per element, with lattice-placed coordinates and the element's content, and keeps the earlier items |
| CloudScope.TagCloudScopeImpl.ItemsOf | tagcloud/src/commonMain/kotlin/eu/wewox/tagcloud/TagCloudScope.kt:126-138 | the same coordinates and content as the indexed form with index-independent layer, rotation and content |
| Cloud.Radius | tagcloud/src/commonMain/kotlin/eu/wewox/tagcloud/TagCloud.kt:55-58 | the largest radius whose diameter fits both the maximum width and the maximum height |
| Cloud.ItemOffset | tagcloud/src/commonMain/kotlin/eu/wewox/tagcloud/TagCloud.kt:110-117 | getItemOffset; ItemOffsetCentre, ItemOffsetRightward and ItemOffsetUpward are its contract |
| Cloud.Place | tagcloud/src/commonMain/kotlin/eu/wewox/tagcloud/TagCloud.kt:66-69 | the offset and z-index an item is placed with; Cloud.TagCloudNode.Measure states where it is used |
| Cloud.ItemOffsetCentre | tagcloud/src/commonMain/kotlin/eu/wewox/tagcloud/TagCloud.kt:110-117 | an item at x = y = 0 is centred on (radius, radius) |
| Cloud.ItemOffsetRightward | tagcloud/src/commonMain/kotlin/eu/wewox/tagcloud/TagCloud.kt:114-116 | a larger x never gives a smaller screen x |
| Cloud.ItemOffsetUpward | tagcloud/src/commonMain/kotlin/eu/wewox/tagcloud/TagCloud.kt:114-116 | a larger y never gives a larger screen y, since the y axis is flipped |
| Cloud.DisplayedItems | tagcloud/src/commonMain/kotlin/eu/wewox/tagcloud/TagCloud.kt:43 | the displayed items are the static ones, in the same order and with the same content, their coordinates rotated by the state's rotation |
| Cloud.DisplayedItemsKeepDistance | tagcloud/src/commonMain/kotlin/eu/wewox/tagcloud/TagCloud.kt:43 | a unit rotation keeps each item's distance from the centre, and Identity displays each item where it was registered |
| Cloud.Lifted | tagcloud/src/commonMain/kotlin/eu/wewox/tagcloud/TagCloud.kt:125-131 | getSphereCoordinates before normalisation; LiftedNonzero is its contract |
| Cloud.SphereCoordinates | tagcloud/src/commonMain/kotlin/eu/wewox/tagcloud/TagCloud.kt:125-132 | getSphereCoordinates; SphereCentre and SphereCoordinatesUnit are its contract |
| Cloud.DragRotation | tagcloud/src/commonMain/kotlin/eu/wewox/tagcloud/TagCloud.kt:90-97 | the quaternion one drag step composes in; DragWellDefined shows it is always defined, and Quaternions.CreateFromTo states its axis |
| Cloud.LiftedNonzero | tagcloud/src/commonMain/kotlin/eu/wewox/tagcloud/TagCloud.kt:125-131 | the lifted point is never the zero vector and has z >= 0 |
| Cloud.SphereCentre | tagcloud/src/commonMain/kotlin/eu/wewox/tagcloud/TagCloud.kt:125-132 | the centre (radius, radius) lifts to (0, 0, 1) |
| Cloud.SphereCoordinatesUnit | tagcloud/src/commonMain/kotlin/eu/wewox/tagcloud/TagCloud.kt:125-132 | every lifted point has unit length and z >= 0, and z == 0 outside the circle |
| Cloud.DragWellDefined | tagcloud/src/commonMain/kotlin/eu/wewox/tagcloud/TagCloud.kt:90-97 | for the two lifted points, cos(from . to / 2) > 0, so `create(from, to)` never meets the zero 4-tuple |
| Cloud.TagCloudNode.constructor | tagcloud/src/commonMain/kotlin/eu/wewox/tagcloud/TagCloud.kt:37-42 | the cached radius starts at 0 |
| Cloud.TagCloudNode.Measure | tagcloud/src/commonMain/kotlin/eu/wewox/tagcloud/TagCloud.kt:53-72 | caches the new radius, lays out a square of side 2 radius, and places the i-th measured child at the offset of the i-th displayed item with that item's z coordinate as z-index |
| Cloud.TagCloudNode.RotateGestureStep | tagcloud/src/commonMain/kotlin/eu/wewox/tagcloud/TagCloud.kt:90-101 | one drag step sets the rotation to `create(lift(from), lift(to)) * rotation` and leaves the flag unchanged |
| ItemScope.Rescale | tagcloud/src/main/java/eu/wewox/tagcloud/TagCloudItemScope.kt:136-137 | `rescale`; RescaleEnds, RescaleMonotone and RescaleBounded are its contract |
| ItemScope.RescaleEnds | tagcloud/src/main/java/eu/wewox/tagcloud/TagCloudItemScope.kt:136-137 | `rescale(-1) == newMin` and `rescale(1) == newMax` |
| ItemScope.RescaleMonotone | tagcloud/src/main/java/eu/wewox/tagcloud/TagCloudItemScope.kt:136-137 | for newMin <= newMax, rescale never decreases as z grows |
| ItemScope.RescaleBounded | tagcloud/src/main/java/eu/wewox/tagcloud/TagCloudItemScope.kt:136-137 | for z in [-1, 1] the result stays within [newMin, newMax] |
| ItemScope.TagCloudItemScope.FadeAlpha | tagcloud/src/main/java/eu/wewox/tagcloud/TagCloudItemScope.kt:66-69 | `fade`'s alpha; FadeAndScaleRange is its contract |
| ItemScope.TagCloudItemScope.ScaleDown | tagcloud/src/main/java/eu/wewox/tagcloud/TagCloudItemScope.kt:71-76 | `scale`'s scaleX and scaleY; FadeAndScaleRange is its contract |
| ItemScope.TagCloudItemScope.FadeAndScaleRange | tagcloud/src/main/java/eu/wewox/tagcloud/TagCloudItemScope.kt:66-76 | the nearest item is opaque and full size, the farthest has alpha toAlpha and scale toScale, and with the defaults alpha stays in [0.25, 1] and scaleX == scaleY stays in [0.5, 1] |
| ItemScope.DistanceNonnegative | tagcloud/src/main/java/eu/wewox/tagcloud/TagCloudItemScope.kt:114-119 | the distance a move adds is never negative |
| ItemScope.Step | tagcloud/src/main/java/eu/wewox/tagcloud/TagCloudItemScope.kt:108-125 | how one event updates the position and distance; TrackPrefix, MovesNeverShrink and NoPressKeepsUnspecified are its contract |
| ItemScope.Track | tagcloud/src/main/java/eu/wewox/tagcloud/TagCloudItemScope.kt:101-126 | the position and distance after a sequence of events; DetectClicks shows the loop keeps exactly these, and MovesNeverShrink, MoveBeforePressNeverClicks and NoPressKeepsUnspecified state what they promise |
| ItemScope.Clicks | tagcloud/src/main/java/eu/wewox/tagcloud/TagCloudItemScope.kt:121-124 | whether a release clicks; TapClicks, DragPastSlopNeverClicks and MoveBeforePressNeverClicks are its contract |
| ItemScope.DetectClicks | tagcloud/src/main/java/eu/wewox/tagcloud/TagCloudItemScope.kt:96-132 | the event loop clicks on event i exactly when it is a release, the item is enabled, and the distance moved since the last press is below touchSlop |
| ItemScope.ClickTraceAt | tagcloud/src/main/java/eu/wewox/tagcloud/TagCloudItemScope.kt:106-126 | entry i of the click trace is the click rule applied to the variables after the events before i |
| ItemScope.TrackPrefix | tagcloud/src/main/java/eu/wewox/tagcloud/TagCloudItemScope.kt:106-126 | one more event is one more step of the variables and one more entry of the trace |
| ItemScope.TapClicks | tagcloud/src/main/java/eu/wewox/tagcloud/TagCloudItemScope.kt:109-124 | a press and then a release click exactly when touchSlop > 0 and the item is enabled, after any history |
| ItemScope.MovesNeverShrink | tagcloud/src/main/java/eu/wewox/tagcloud/TagCloudItemScope.kt:114-119 | between presses the distance never decreases |
| ItemScope.DragPastSlopNeverClicks | tagcloud/src/main/java/eu/wewox/tagcloud/TagCloudItemScope.kt:114-124 | once the distance has reached touchSlop, no release clicks until the next press |
| ItemScope.MoveBeforePressNeverClicks | tagcloud/src/main/java/eu/wewox/tagcloud/TagCloudItemScope.kt:101-124 | a move before any press starts from Offset.Unspecified: the distance becomes NaN and no release clicks |
| ItemScope.NoPressKeepsUnspecified | tagcloud/src/main/java/eu/wewox/tagcloud/TagCloudItemScope.kt:101-119 | without a press, either the position stays unspecified or the distance is NaN |
| KotlinMath.Trunc | tagcloud/src/commonMain/kotlin/eu/wewox/tagcloud/TagCloud.kt:116 | `toInt()` rounds toward zero: the result is within 1 of the argument, on its side of zero |
| KotlinMath.TruncMonotone | tagcloud/src/commonMain/kotlin/eu/wewox/tagcloud/TagCloud.kt:116 | truncation never decreases when its argument grows |
| KotlinMath.RoundToInt | demo/src/commonMain/kotlin/eu/wewox/tagcloud/ui/extensions/StringExtensions.kt:11 | `roundToInt()` gives the nearest integer, with ties rounded up |
| StringExtensions.IntToString | demo/src/commonMain/kotlin/eu/wewox/tagcloud/ui/extensions/StringExtensions.kt:16 | `Int.toString()`; NatToStringValue reads the digits back as the number |
| StringExtensions.PrefixNumber | demo/src/commonMain/kotlin/eu/wewox/tagcloud/ui/extensions/StringExtensions.kt:15-20 | `prefixNumber`; PrefixNumberShape is its contract |
| StringExtensions.NatToStringValue | demo/src/commonMain/kotlin/eu/wewox/tagcloud/ui/extensions/StringExtensions.kt:16 | the decimal text of a natural number is read back as that number |
| StringExtensions.PrefixNumberShape | demo/src/commonMain/kotlin/eu/wewox/tagcloud/ui/extensions/StringExtensions.kt:15-20 | the padded text is max(length, \|s\|) long for s = id.toString(); it ends with s and has only zeros before it; it is s itself when s is long enough; for id >= 0 it still reads as id |
| StringExtensions.FormatToDecimals | demo/src/commonMain/kotlin/eu/wewox/tagcloud/ui/extensions/StringExtensions.kt:9-13 | `formatToDecimals` as written; FormatFractionWidth, FormatCarryLost and FormatNegativeFraction are its contract |
| StringExtensions.FormatFractionWidth | demo/src/commonMain/kotlin/eu/wewox/tagcloud/ui/extensions/StringExtensions.kt:9-13 | for x >= 0 whose rounded fraction is below 10^decimals, the text is the integer part, a dot and exactly `decimals` digits that denote the rounded fraction |
| StringExtensions.FractionDigitsNonnegative | demo/src/commonMain/kotlin/eu/wewox/tagcloud/ui/extensions/StringExtensions.kt:10-11 | for x >= 0 the rounded fraction is never negative |
| StringExtensions.FormatCarryLost | demo/src/commonMain/kotlin/eu/wewox/tagcloud/ui/extensions/StringExtensions.kt:9-13 | 0.96 with one decimal prints "0.10" |
| StringExtensions.FormatNegativeFraction | demo/src/commonMain/kotlin/eu/wewox/tagcloud/ui/extensions/StringExtensions.kt:9-13 | -1.5 with one decimal prints "-1.-5" |
| StringExtensions.Rounded | demo/src/commonMain/kotlin/eu/wewox/tagcloud/ui/extensions/StringExtensions.kt:11 | \|x\| 10^decimals rounded half up to a natural number |
| StringExtensions.FixedPointShape | demo/src/commonMain/kotlin/eu/wewox/tagcloud/ui/extensions/StringExtensions.kt:9-13 | the fixed-point text of n is digits, a dot and exactly `decimals` digits, which read back as n |
| StringExtensions.FormatToDecimalsCorrected | demo/src/commonMain/kotlin/eu/wewox/tagcloud/ui/extensions/StringExtensions.kt:9-13 | `formatToDecimals` as evidently intended; FormatCorrectedShape and FormatCorrectedExamples are its contract |
| StringExtensions.FormatCorrectedShape | demo/src/commonMain/kotlin/eu/wewox/tagcloud/ui/extensions/StringExtensions.kt:9-13 | the corrected text has one leading minus sign exactly when x < 0 and the rounded value is not 0, then the fixed-point digits of the rounded \|x\| |
| StringExtensions.FormatCorrectedExamples | demo/src/commonMain/kotlin/eu/wewox/tagcloud/ui/extensions/StringExtensions.kt:9-13 | the corrected formatting prints 0.96 as "1.0" and -1.5 as "-1.5" |

## Left out

- Float arithmetic is modelled over reals. The model leaves out IEEE rounding, NaN and
  infinities. The one NaN the code tests for, in the lift onto the sphere, is modelled
  as "a negative radicand gives z = 0". The NaN in the click rule is modelled as a
  missing distance. That reading assumes `Offset.Unspecified - position` gives NaN
  coordinates, as in Compose versions whose `Offset` arithmetic does not check for
  Unspecified; in versions that do check, the first move before any press throws
  instead, and the model does not capture that.
- The 1e-10 tolerance of the quaternion constructor is kept as a real constant. In
  Float arithmetic it is below the spacing of values near 1, so the source effectively
  tests for exactly 1.
- `sqrt`, `sin`, `cos` and `acos` come from kotlin.math. They are parameters with only
  the laws listed above.
- The saturation of `Float.toInt()` and `roundToInt()` at the Int bounds is not
  modelled.
- `Quaternion.hashCode` is JVM hashing; there is nothing to state beyond consistency
  with `equals`.
- Compose plumbing is not modelled: `Layout`, measuring, `Constraints`,
  `graphicsLayer`, `composed`, `remember`, `mutableStateOf` recomposition, and the
  `rememberSaveable`/`listSaver` machinery. Only the saved five-element list is kept.
  - Item content lambdas are an opaque payload type.
  - The measured sizes of the items are given to `Measure` as a parameter.
- Gesture detection in `RotationModifier.kt` is not part of this model. This covers
  the drag pointer loop, the `onStartGesture` and `onEndGesture` callbacks, and the
  check of `gestureEnabled`. `RotateGestureStep` is one call of the step lambda with
  the previous and current pointer positions.
- The click rule's endless `awaitPointerEvent` loop is modelled over a finite sequence
  of events. Each event carries one position: the last change's position. The
  `clickable` modifier chained after it is left out; its own handler is an empty
  lambda, so clicks come only through the pointer rule. Its interaction source,
  indication, label and role are left out too.
- All demo UI is left out: the screens, activities, theme, top bar, auto-rotation
  loops and colour conversion.
- Cloud.TagCloudNode.Measure takes one size per measured child. It requires no more
  children than items, because in the source a content that emits more than one
  child makes `items[index]` throw IndexOutOfBounds. Fewer children are modelled:
  each later child is placed at an earlier item's coordinates, as in the source.
- Cloud.SphereCoordinates, Cloud.DragRotation, Cloud.TagCloudNode.RotateGestureStep:
  these require a positive radius. Before the first measure the cached radius is 0,
  and the source would divide by zero.
- Quaternions.Normalize, Quaternions.Construct, CloudState.Restore: these require a
  nonzero 4-tuple, because the source divides 0 by 0 there.
- Quaternions.Create requires cos(angle / 2) != 0 or a nonzero axis, for the same
  reason.
- CloudScope.PlacedCoordinates requires size != 0. In the source an empty list never
  asks the lattice for a point.
- Distribution.FibonacciLattice.ItemOnUnitSphere and CloudScope.PlacedOnLayer are
  stated for indices inside the lattice. Outside it, `acos` receives an argument
  outside [-1, 1] and the source gets NaN.
- StringExtensions.FormatFractionWidth is stated for x >= 0 and decimals >= 1. With 0
  decimals `prefixNumber` still prints at least one digit. Negative x is the second
  finding below.
- Quaternions.CreateFromToCorrectedRotates: the corrected quaternion takes `from`
  exactly to `to` only when the constructor rescaled it. When the half-way 4-tuple
  is already within the tolerance, the result is `to` times a squared norm within
  1e-10 of 1.
- Quaternions.CreateFromToCorrected is stated for unit vectors that are not opposite.
  For opposite vectors the half-way 4-tuple is zero, and any axis perpendicular to
  them would do.
- Cloud.TagCloudNode.RotateGestureStep keeps the library's `create(from, to)`, since
  that is what the gesture does. The corrected rotation is stated beside it and is
  not wired into the gesture.

## Findings

| source | as written | input that shows it | evidently intended | confidence | as-written member | corrected member |
|---|---|---|---|---|---|---|
| demo/src/commonMain/kotlin/eu/wewox/tagcloud/ui/extensions/StringExtensions.kt:10-12 | the fraction is rounded on its own, and a rounded fraction of 10^decimals does not carry into the integer part | 0.96 with one decimal prints "0.10" | "1.0": round once, then split into integer part and fraction | not executed | StringExtensions.FormatCarryLost | StringExtensions.FormatCorrectedShape |
| demo/src/commonMain/kotlin/eu/wewox/tagcloud/ui/extensions/StringExtensions.kt:10-12 | for negative x the fraction is negative and keeps its own minus sign | -1.5 with one decimal prints "-1.-5" | "-1.5": one sign, in front | not executed | StringExtensions.FormatNegativeFraction | StringExtensions.FormatCorrectedExamples |
| tagcloud/src/main/java/eu/wewox/tagcloud/math/Quaternion.kt:116-127 | `create(from, to)` passes the dot product itself as the angle, not the angle between the vectors | from = (1, 0, 0), to = (0, 1, 0): the dot product is 0, the result is Identity, and `from` is not moved | the rotation that takes `from` to `to`, as the documentation says: the half-way quaternion (1 + from . to, from x to), normalised | not executed | Quaternions.CreateFromToPerpendicular | Quaternions.CreateFromToCorrectedRotates |
