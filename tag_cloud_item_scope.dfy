/** TagCloudItemScope: what an item's content can ask of the cloud. Its alpha and scale
    follow its depth through `rescale`, and it has a click rule that ignores drags. */
module ItemScope {
  import opened RealFacts
  import opened KotlinMath
  import opened ComposeGeometry
  import Vectors

  /** rescale(newMin, newMax): maps z in [-1, 1] linearly onto [newMin, newMax]. */
  function Rescale(z: real, newMin: real, newMax: real): real {
    (((z + 1.0) * (newMax - newMin)) / 2.0) + newMin
  }

  /** The ends of [-1, 1] go to the ends of [newMin, newMax]. */
  lemma RescaleEnds(newMin: real, newMax: real)
    ensures Rescale(-1.0, newMin, newMax) == newMin
    ensures Rescale(1.0, newMin, newMax) == newMax
  {
  }

  /** For newMin <= newMax, rescale never decreases as z grows. */
  lemma RescaleMonotone(z1: real, z2: real, newMin: real, newMax: real)
    requires z1 <= z2 && newMin <= newMax
    ensures Rescale(z1, newMin, newMax) <= Rescale(z2, newMin, newMax)
  {
    var span := newMax - newMin;
    if z1 < z2 && span > 0.0 {
      PositiveProduct(z2 - z1, span, (z2 - z1) * span);
      assert (z2 + 1.0) * span - (z1 + 1.0) * span == (z2 - z1) * span;
    }
  }

  /** For z in [-1, 1] and newMin <= newMax, the result stays within [newMin, newMax]. */
  lemma RescaleBounded(z: real, newMin: real, newMax: real)
    requires -1.0 <= z <= 1.0 && newMin <= newMax
    ensures newMin <= Rescale(z, newMin, newMax) <= newMax
  {
    RescaleMonotone(-1.0, z, newMin, newMax);
    RescaleMonotone(z, 1.0, newMin, newMax);
    RescaleEnds(newMin, newMax);
  }

  /** The scale set on both axes by tagCloudItemScaleDown. */
  datatype Scale = Scale(scaleX: real, scaleY: real)

  /** TagCloudItemScopeImpl: the scope of one item, at its current (rotated)
      coordinates. */
  datatype TagCloudItemScope = TagCloudItemScope(coordinates: Vectors.Vector3)
  {
    /** tagCloudItemFade(toAlpha = 0.25): the alpha is the item's z rescaled onto
        [toAlpha, 1]. */
    function FadeAlpha(toAlpha: real := 0.25): real {
      Rescale(coordinates.z, toAlpha, 1.0)
    }

    /** tagCloudItemScaleDown(toScale = 0.5): both scales are the item's z rescaled onto
        [toScale, 1]. */
    function ScaleDown(toScale: real := 0.5): Scale {
      var scale := Rescale(coordinates.z, toScale, 1.0);
      Scale(scale, scale)
    }

    /** The nearest item (z == 1) is opaque and full size, the farthest (z == -1) has
        alpha toAlpha and scale toScale, and with the defaults every item on the
        sphere has alpha in [0.25, 1] and scale in [0.5, 1]. */
    lemma FadeAndScaleRange(toAlpha: real, toScale: real)
      ensures coordinates.z == 1.0 ==> FadeAlpha(toAlpha) == 1.0 && ScaleDown(toScale) == Scale(1.0, 1.0)
      ensures coordinates.z == -1.0 ==> FadeAlpha(toAlpha) == toAlpha && ScaleDown(toScale) == Scale(toScale, toScale)
      ensures -1.0 <= coordinates.z <= 1.0 ==>
                0.25 <= FadeAlpha() <= 1.0 && 0.5 <= ScaleDown().scaleX == ScaleDown().scaleY <= 1.0
    {
      RescaleEnds(toAlpha, 1.0);
      RescaleEnds(toScale, 1.0);
      if -1.0 <= coordinates.z <= 1.0 {
        RescaleBounded(coordinates.z, 0.25, 1.0);
        RescaleBounded(coordinates.z, 0.5, 1.0);
      }
    }
  }

  // ---------------------------------------------------------------------------
  // The click rule of tagCloudItemClickable

  datatype Option<T> = None | Some(value: T)

  /** The pointer event types the rule reacts to; every other type is ignored. */
  datatype PointerEventType = Press | Move | Release | Other

  /** A pointer event: its type and the position of its last change. */
  datatype PointerEvent = PointerEvent(kind: PointerEventType, position: Offset)

  /** The rule's two variables: the current pointer position (None is
      Offset.Unspecified, its initial value) and the distance moved since the last
      press (None is NaN, what a move from the unspecified position adds). */
  datatype Tracker = Tracker(position: Option<Offset>, distance: Option<real>)

  const Initial: Tracker := Tracker(None, Some(0.0))

  /** Offset.getDistance of the difference of two positions. */
  function Distance(m: MathLib, a: Offset, b: Offset): real {
    var dx := a.x - b.x;
    var dy := a.y - b.y;
    m.sqrt(dx * dx + dy * dy)
  }

  lemma DistanceNonnegative(m: MathLib, a: Offset, b: Offset)
    requires m.Lawful()
    ensures Distance(m, a, b) >= 0.0
  {
    var dx := a.x - b.x;
    var dy := a.y - b.y;
    Square(dx, dx * dx);
    Square(dy, dy * dy);
  }

  /** How one event changes the variables: a press records the position and resets
      the distance, a move adds the distance from the last position and records the
      new one, anything else changes nothing. */
  function Step(m: MathLib, tracker: Tracker, event: PointerEvent): Tracker {
    match event.kind
    case Press => Tracker(Some(event.position), Some(0.0))
    case Move =>
      var distance :=
        match (tracker.position, tracker.distance)
        case (Some(current), Some(d)) => Some(d + Distance(m, current, event.position))
        case _ => None;
      Tracker(Some(event.position), distance)
    case _ => tracker
  }

  /** The variables after a sequence of events. */
  function Track(m: MathLib, events: seq<PointerEvent>): Tracker {
    if events == [] then Initial
    else Step(m, Track(m, events[..|events| - 1]), events[|events| - 1])
  }

  /** A release calls onClick when the distance moved since the press is below
      touchSlop and the item is enabled (a NaN distance never is). */
  predicate Clicks(tracker: Tracker, event: PointerEvent, touchSlop: real, enabled: bool) {
    && event.kind == Release
    && tracker.distance.Some?
    && tracker.distance.value < touchSlop
    && enabled
  }

  /** Whether each event of a sequence clicks, given the events before it. */
  function ClickTrace(m: MathLib, events: seq<PointerEvent>, touchSlop: real, enabled: bool)
    : (clicks: seq<bool>)
    ensures |clicks| == |events|
  {
    if events == [] then []
    else
      var front := events[..|events| - 1];
      ClickTrace(m, front, touchSlop, enabled) + [Clicks(Track(m, front), events[|events| - 1], touchSlop, enabled)]
  }

  /** Entry i of the trace is whether event i clicks after the events before it. */
  lemma {:induction false} ClickTraceAt(m: MathLib, events: seq<PointerEvent>, touchSlop: real, enabled: bool)
    ensures forall i :: 0 <= i < |events| ==>
              (ClickTrace(m, events, touchSlop, enabled)[i] <==> Clicks(Track(m, events[..i]), events[i], touchSlop, enabled))
  {
    if events != [] {
      var front := events[..|events| - 1];
      ClickTraceAt(m, front, touchSlop, enabled);
      forall i | 0 <= i < |front|
        ensures front[..i] == events[..i] && front[i] == events[i]
      {
      }
    }
  }

  /** The pointer loop of tagCloudItemPointerInputClickable over a finite sequence of
      events: clicked[i] tells whether onClick ran on event i. A disabled item never
      clicks, and only releases click. */
  method DetectClicks(m: MathLib, events: seq<PointerEvent>, touchSlop: real, enabled: bool)
    returns (clicked: seq<bool>)
    ensures clicked == ClickTrace(m, events, touchSlop, enabled)
    ensures |clicked| == |events|
    ensures forall i :: 0 <= i < |events| ==>
              (clicked[i] <==> Clicks(Track(m, events[..i]), events[i], touchSlop, enabled))
    ensures forall i :: 0 <= i < |events| && clicked[i] ==> enabled && events[i].kind == Release
  {
    var currentPointerPosition: Option<Offset> := None;
    var pointerMoveDistance: Option<real> := Some(0.0);
    clicked := [];
    var index := 0;
    while index < |events|
      invariant 0 <= index <= |events|
      invariant |clicked| == index
      invariant Tracker(currentPointerPosition, pointerMoveDistance) == Track(m, events[..index])
      invariant clicked == ClickTrace(m, events[..index], touchSlop, enabled)
    {
      var event := events[index];
      TrackPrefix(m, events, index, touchSlop, enabled);
      var click := false;
      match event.kind {
        case Press =>
          currentPointerPosition := Some(event.position);
          pointerMoveDistance := Some(0.0);
        case Move =>
          var newPos := event.position;
          match (currentPointerPosition, pointerMoveDistance) {
            case (Some(current), Some(d)) =>
              pointerMoveDistance := Some(d + Distance(m, current, newPos));
            case _ =>
              pointerMoveDistance := None;
          }
          currentPointerPosition := Some(newPos);
        case Release =>
          if pointerMoveDistance.Some? && pointerMoveDistance.value < touchSlop && enabled {
            click := true;
          }
        case Other =>
      }
      clicked := clicked + [click];
      index := index + 1;
    }
    assert events[..index] == events;
    ClickTraceAt(m, events, touchSlop, enabled);
  }

  /** Tracking one more event of a sequence is one more Step, and its trace has one
      more entry. */
  lemma TrackPrefix(m: MathLib, events: seq<PointerEvent>, index: int, touchSlop: real, enabled: bool)
    requires 0 <= index < |events|
    ensures Track(m, events[..index + 1]) == Step(m, Track(m, events[..index]), events[index])
    ensures ClickTrace(m, events[..index + 1], touchSlop, enabled)
         == ClickTrace(m, events[..index], touchSlop, enabled)
            + [Clicks(Track(m, events[..index]), events[index], touchSlop, enabled)]
  {
    assert events[..index + 1][..index] == events[..index];
  }

  /** A press then a release, after any history, clicks exactly when touchSlop is
      positive and the item is enabled. */
  lemma TapClicks(m: MathLib, history: seq<PointerEvent>, at: Offset, releasedAt: Offset,
                  touchSlop: real, enabled: bool)
    ensures var events := history + [PointerEvent(Press, at)];
            var clicks := Clicks(Track(m, events), PointerEvent(Release, releasedAt), touchSlop, enabled);
            clicks <==> 0.0 < touchSlop && enabled
  {
    var events := history + [PointerEvent(Press, at)];
    assert events[..|events| - 1] == history;
  }

  /** Moves never shrink the distance: after any number of moves (and events other
      than a press) the distance is at least what it was. */
  lemma {:induction false} MovesNeverShrink(m: MathLib, events: seq<PointerEvent>, later: seq<PointerEvent>)
    requires m.Lawful()
    requires Track(m, events).distance.Some? && Track(m, events).position.Some?
    requires forall e :: e in later ==> e.kind != Press
    ensures Track(m, events + later).distance.Some? ==>
              Track(m, events + later).distance.value >= Track(m, events).distance.value
  {
    if later == [] {
      assert events + later == events;
    } else {
      var front := later[..|later| - 1];
      var last := later[|later| - 1];
      assert (events + later)[..|events + later| - 1] == events + front;
      MovesNeverShrink(m, events, front);
      var before := Track(m, events + front);
      if last.kind == Move && before.position.Some? && before.distance.Some? {
        DistanceNonnegative(m, before.position.value, last.position);
      }
    }
  }

  /** Once the distance since the press has reached touchSlop, no release clicks until
      the next press. */
  lemma DragPastSlopNeverClicks(m: MathLib, events: seq<PointerEvent>, later: seq<PointerEvent>,
                                release: PointerEvent, touchSlop: real, enabled: bool)
    requires m.Lawful()
    requires Track(m, events).distance.Some? && Track(m, events).position.Some?
    requires Track(m, events).distance.value >= touchSlop
    requires forall e :: e in later ==> e.kind != Press
    ensures !Clicks(Track(m, events + later), release, touchSlop, enabled)
  {
    MovesNeverShrink(m, events, later);
  }

  /** A move before any press starts from Offset.Unspecified: the distance becomes NaN
      and no release clicks until the next press. */
  lemma {:induction false} MoveBeforePressNeverClicks(m: MathLib, events: seq<PointerEvent>,
                                                      release: PointerEvent, touchSlop: real, enabled: bool)
    requires forall e :: e in events ==> e.kind != Press
    requires exists e :: e in events && e.kind == Move
    ensures Track(m, events).distance == None
    ensures !Clicks(Track(m, events), release, touchSlop, enabled)
  {
    var front := events[..|events| - 1];
    var last := events[|events| - 1];
    assert forall e :: e in front ==> e in events;
    NoPressKeepsUnspecified(m, front);
    if last.kind != Move {
      var e :| e in events && e.kind == Move;
      assert e in front by {
        assert events == front + [last];
      }
      MoveBeforePressNeverClicks(m, front, release, touchSlop, enabled);
    }
  }

  /** Without a press the position stays unspecified, or is set by a move, after
      which the distance is NaN. */
  lemma {:induction false} NoPressKeepsUnspecified(m: MathLib, events: seq<PointerEvent>)
    requires forall e :: e in events ==> e.kind != Press
    ensures Track(m, events).position == None || Track(m, events).distance == None
  {
    if events != [] {
      var front := events[..|events| - 1];
      assert forall e :: e in front ==> e in events;
      NoPressKeepsUnspecified(m, front);
    }
  }
}
