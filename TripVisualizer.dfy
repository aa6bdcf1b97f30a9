/** TripVisualizerComponent: the cursor, the three lists and the canvas
    flags as fields, updated in place by methods that follow the
    component's own. Every method is proved to compute the reference
    definitions: module Layout for the cursor and the draw points, module
    ColorRegistry for the colour registry and the random draws. */
module TripVisualizer {
  import opened TripModel
  import opened ColorRegistry
  import opened Layout

  /** The pair a drawn point is coloured by. */
  function PointPair(p: DrawPoint): (string, string) {
    (p.startPoint, p.endPoint)
  }

  /** The pairs of a list of points, in order. */
  function PairsOf(pts: seq<DrawPoint>): (r: seq<(string, string)>)
    ensures |r| == |pts|
    ensures forall k :: 0 <= k < |pts| ==> r[k] == PointPair(pts[k])
  {
    seq(|pts|, k requires 0 <= k < |pts| => PointPair(pts[k]))
  }

  /** Looking up the pairs of pts[..k + 1] is looking up those of pts[..k]
      and then the pair of pts[k]. */
  lemma LookupPairsSnoc(m: seq<LineColor>, pts: seq<DrawPoint>, k: nat, random: nat -> Channel, draws: nat)
    requires k < |pts|
    ensures var r := LookupAll(m, PairsOf(pts[..k]), random, draws);
            LookupAll(m, PairsOf(pts[..k + 1]), random, draws) == LookupAll(r.0, [PointPair(pts[k])], random, r.1)
  {
    assert PairsOf(pts[..k + 1]) == PairsOf(pts[..k]) + [PointPair(pts[k])];
    LookupAllAppend(m, PairsOf(pts[..k]), [PointPair(pts[k])], random, draws);
  }

  /** With a leg to colour it, the plain line looks up that leg's pair,
      and looking it up a second time for the arrow head adds nothing. */
  lemma PlainLineLooksUpLeg(travels: seq<TravelDetails>, fr: Frame, addArrow: bool,
                            m: seq<LineColor>, random: nat -> Channel, draws: nat)
    requires |fr.points| / 2 < |travels|
    ensures LookupAll(m, PlainLineLookups(travels, fr, addArrow), random, draws) ==
            LookupAll(m, [PairOf(travels[|fr.points| / 2])], random, draws)
  {
    LookupPairTwice(m, PairOf(travels[|fr.points| / 2]), random, draws);
  }

  /** `drawPoints.filter(p => p.isConnected)`: exactly the connected
      points, each kept in place (ConnectedPointsAppend gives the order). */
  function ConnectedPoints(pts: seq<DrawPoint>): (r: seq<DrawPoint>)
    ensures |r| <= |pts|
    ensures forall p :: p in r <==> p in pts && p.isConnected
    ensures AllConnected(pts) ==> r == pts
  {
    if pts == [] then []
    else
      var rest := ConnectedPoints(pts[1..]);
      assert forall p :: p in pts <==> p == pts[0] || p in pts[1..];
      if pts[0].isConnected then [pts[0]] + rest else rest
  }

  /** The filter works point by point and keeps the order: filtering a + b
      is filtering a, then b, and a single point is kept exactly when it is
      connected. (These two equations determine the filter.) */
  lemma {:induction false} ConnectedPointsAppend(a: seq<DrawPoint>, b: seq<DrawPoint>)
    ensures ConnectedPoints(a + b) == ConnectedPoints(a) + ConnectedPoints(b)
    ensures forall p :: ConnectedPoints([p]) == if p.isConnected then [p] else []
    decreases |a|
  {
    if a != [] {
      assert (a + b)[1..] == a[1..] + b;
      ConnectedPointsAppend(a[1..], b);
    } else {
      assert a + b == b;
    }
    forall p ensures ConnectedPoints([p]) == if p.isConnected then [p] else [] {
      assert [p][1..] == [];
    }
  }

  /** The pairs `drawCanvas` looks up: those of the layout scan, then one per
      connected point for its dot and label. */
  function RedrawLookups(travels: seq<TravelDetails>, d: DrawingConfig, height: nat): seq<(string, string)> {
    ScanLookups(travels, 0, Frame(ResetCursor(d, height), [])) +
    PairsOf(ConnectedPoints(Redraw(travels, d, height).points))
  }

  /** Redrawing again from the result of a redraw gives the same points and
      looks up the same pairs, which by then all have a colour: the second
      redraw changes neither the registry nor the random draws. */
  lemma RedrawTwiceAddsNothing(travels: seq<TravelDetails>, d: DrawingConfig, height: nat,
                               m: seq<LineColor>, random: nat -> Channel, draws: nat)
    ensures var f := Redraw(travels, d, height);
            var (m1, d1) := LookupAll(m, RedrawLookups(travels, d, height), random, draws);
            && Redraw(travels, f.drawing, height) == f
            && LookupAll(m1, RedrawLookups(travels, f.drawing, height), random, d1) == (m1, d1)
  {
    var f := Redraw(travels, d, height);
    ScanKeeps(travels, 0, Frame(ResetCursor(d, height), []));
    assert ResetCursor(f.drawing, height) == ResetCursor(d, height);
    LookupAllIdempotent(m, RedrawLookups(travels, d, height), random, draws,
                        LookupAll(m, RedrawLookups(travels, d, height), random, draws).1);
  }

  /** When every point is connected, looking up some pairs and then the
      pairs of the connected points gives every point's pair a colour. */
  lemma ConnectedPairsColoured(m: seq<LineColor>, scan: seq<(string, string)>, pts: seq<DrawPoint>,
                               random: nat -> Channel, draws: nat)
    requires AllConnected(pts)
    ensures var m1 := LookupAll(m, scan + PairsOf(ConnectedPoints(pts)), random, draws).0;
            forall k :: 0 <= k < |pts| ==> FindColor(m1, pts[k].startPoint, pts[k].endPoint).Some?
  {
    var lookups := scan + PairsOf(ConnectedPoints(pts));
    assert ConnectedPoints(pts) == pts;
    forall k | 0 <= k < |pts|
      ensures FindColor(LookupAll(m, lookups, random, draws).0, pts[k].startPoint, pts[k].endPoint).Some?
    {
      assert lookups[|scan| + k] == PointPair(pts[k]);
      LookupAllRegistersOne(m, lookups, random, draws, |scan| + k);
    }
  }

  /** After a redraw's lookups, every drawn point's pair has a colour. */
  lemma RedrawnPointsColoured(travels: seq<TravelDetails>, d: DrawingConfig, height: nat,
                              m: seq<LineColor>, random: nat -> Channel, draws: nat)
    ensures var pts := Redraw(travels, d, height).points;
            var m1 := LookupAll(m, RedrawLookups(travels, d, height), random, draws).0;
            forall k :: 0 <= k < |pts| ==> FindColor(m1, pts[k].startPoint, pts[k].endPoint).Some?
  {
    var start := Frame(ResetCursor(d, height), []);
    ScanKeeps(travels, 0, start);
    ConnectedPairsColoured(m, ScanLookups(travels, 0, start), Redraw(travels, d, height).points, random, draws);
  }

  class TripVisualizerComponent {
    /** The cursor. */
    var drawing: DrawingConfig
    /** The legs, the placed points and the colour registry. */
    var state: VisualizationState
    /** Whether the 2D context was acquired (`canvas.ctx` is not null). */
    var hasContext: bool
    /** `canvas.isInitialized`. */
    var isInitialized: bool
    /** The canvas element's width and height. */
    var canvasWidth: nat
    var canvasHeight: nat
    /** Draw number n of `Math.floor(Math.random() * 255)`. */
    const random: nat -> Channel
    /** How many random draws have been made. */
    var draws: nat

    /** circleDiff is the constant 10, the segment length never exceeds 250
        and the registry holds at most one entry per unordered pair. */
    ghost predicate Valid()
      reads this
    {
      drawing.circleDiff == 10.0 && drawing.lineLength <= 250.0 && UniquePairs(state.colorMap)
    }

    /** The cursor together with the placed points. */
    function CurrentFrame(): Frame
      reads this
    {
      Frame(drawing, state.drawPoints)
    }

    /** The canvas flags and sizes are as before. */
    twostate predicate CanvasKept()
      reads this
    {
      hasContext == old(hasContext) && isInitialized == old(isInitialized) &&
      canvasWidth == old(canvasWidth) && canvasHeight == old(canvasHeight)
    }

    /** The canvas and the legs are as before. */
    twostate predicate Kept()
      reads this
    {
      CanvasKept() && state.travels == old(state.travels)
    }

    /** The registry and the number of random draws are what looking up
        `pairs`, in order, from the old registry gives. */
    twostate predicate LookedUp(new pairs: seq<(string, string)>)
      reads this
    {
      var r := LookupAll(old(state.colorMap), pairs, random, old(draws));
      state.colorMap == r.0 && draws == r.1
    }

    /** Nothing of the layout, the registry or the random draws changed. */
    twostate predicate LayoutUnchanged()
      reads this
    {
      drawing == old(drawing) && state == old(state) && draws == old(draws)
    }

    /** The field initialisers: cursor (100, 300), lineLength 250,
        circleDiff 10, on the baseline; empty lists; no context yet. */
    constructor (random: nat -> Channel, width: nat, height: nat)
      ensures Valid()
      ensures this.random == random && draws == 0
      ensures !hasContext && !isInitialized
      ensures canvasWidth == width && canvasHeight == height
      ensures drawing == DrawingConfig(100.0, 300.0, 250.0, 10.0, false)
      ensures state == VisualizationState([], [], [])
    {
      this.random := random;
      draws := 0;
      hasContext := false;
      isInitialized := false;
      canvasWidth := width;
      canvasHeight := height;
      drawing := DrawingConfig(100.0, 300.0, 250.0, 10.0, false);
      state := VisualizationState([], [], []);
    }

    // --------------------------------------------------------------------
    // Colours

    /** Three random channels, red, green, blue. */
    method GenerateRandomColor() returns (c: Rgb)
      modifies this
      ensures c == NextColor(random, old(draws))
      ensures draws == old(draws) + 3
      ensures drawing == old(drawing) && state == old(state) && Kept()
    {
      var rgb: seq<Channel> := [];
      var i := 0;
      while i < 3
        invariant 0 <= i <= 3 && |rgb| == i
        invariant draws == old(draws) + i
        invariant forall k :: 0 <= k < i ==> rgb[k] == random(old(draws) + k)
        invariant drawing == old(drawing) && state == old(state) && Kept()
      {
        rgb := rgb + [random(draws)];
        draws := draws + 1;
        i := i + 1;
      }
      c := Rgb(rgb[0], rgb[1], rgb[2]);
    }

    /** The colour of the pair {startPoint, endPoint}: the stored one, or a
        new random colour that is registered for the pair. */
    method GetLineColor(startPoint: string, endPoint: string) returns (c: Rgb)
      requires Valid()
      modifies this
      ensures Valid() && Kept()
      ensures drawing == old(drawing) && state.drawPoints == old(state.drawPoints)
      ensures c == LineColorFor(old(state.colorMap), startPoint, endPoint, NextColor(random, old(draws))).0
      ensures state.colorMap == LineColorFor(old(state.colorMap), startPoint, endPoint, NextColor(random, old(draws))).1
      ensures LookedUp([(startPoint, endPoint)])
    {
      LookupKeepsPairsUnique(state.colorMap, startPoint, endPoint, NextColor(random, draws));
      match FindColor(state.colorMap, startPoint, endPoint) {
        case Some(existing) =>
          c := existing;
        case None =>
          c := GenerateRandomColor();
          state := state.(colorMap := state.colorMap + [LineColor(startPoint, endPoint, c)]);
      }
      assert [(startPoint, endPoint)][1..] == [];
    }

    /** The colour lookup of `drawLine`; the stroke itself is rendering. */
    method DrawLine(startPoint: string, endPoint: string)
      requires Valid()
      modifies this
      ensures Valid() && Kept()
      ensures drawing == old(drawing) && state.drawPoints == old(state.drawPoints)
      ensures if old(hasContext)
              then LookedUp([(startPoint, endPoint)])
              else LayoutUnchanged()
    {
      if !hasContext {
        return;
      }
      var color := GetLineColor(startPoint, endPoint);
    }

    /** The colour lookup of `drawArrow`; the arrow head itself is rendering. */
    method DrawArrow(startPoint: string, endPoint: string)
      requires Valid()
      modifies this
      ensures Valid() && Kept()
      ensures drawing == old(drawing) && state.drawPoints == old(state.drawPoints)
      ensures if old(hasContext)
              then LookedUp([(startPoint, endPoint)])
              else LayoutUnchanged()
    {
      if !hasContext {
        return;
      }
      var color := GetLineColor(startPoint, endPoint);
    }

    // --------------------------------------------------------------------
    // Points

    /** Appends one point; nothing else changes. */
    method AddDrawPoint(x: real, y: real, text: string, isConnected: bool, startPoint: string, endPoint: string)
      requires Valid()
      modifies this
      ensures Valid() && Kept()
      ensures state == old(state).(drawPoints := old(state.drawPoints) + [DrawPoint(x, y, text, isConnected, startPoint, endPoint)])
      ensures drawing == old(drawing) && draws == old(draws)
    {
      state := state.(drawPoints := state.drawPoints + [DrawPoint(x, y, text, isConnected, startPoint, endPoint)]);
    }

    /** Marks the points in the 10-unit box around (x, y) as connected. */
    method ConnectNearbyPoints(x: real, y: real)
      requires Valid()
      modifies this
      ensures Valid() && Kept()
      ensures state == old(state).(drawPoints := ConnectNearby(old(state.drawPoints), x, y))
      ensures drawing == old(drawing) && draws == old(draws)
    {
      state := state.(drawPoints := ConnectNearby(state.drawPoints, x, y));
    }

    /** The labelled point of the first leg, at the cursor. */
    method AddFirstPoint(details: TravelDetails)
      requires Valid()
      modifies this
      ensures Valid() && Kept()
      ensures CurrentFrame() == PlaceRoute(old(CurrentFrame()), details)
      ensures state.colorMap == old(state.colorMap) && draws == old(draws)
    {
      AddDrawPoint(drawing.initialX, drawing.initialY,
                   FormatPointLabel(details.startPoint, details.endPoint),
                   true, details.startPoint, details.endPoint);
    }

    /** The labelled point of `route`, at the cursor. */
    method AddPointForCurrentRoute(route: TravelDetails)
      requires Valid()
      modifies this
      ensures Valid() && Kept()
      ensures CurrentFrame() == PlaceRoute(old(CurrentFrame()), route)
      ensures state.colorMap == old(state.colorMap) && draws == old(draws)
    {
      AddDrawPoint(drawing.initialX, drawing.initialY,
                   FormatPointLabel(route.startPoint, route.endPoint),
                   true, route.startPoint, route.endPoint);
    }

    // --------------------------------------------------------------------
    // Cursor steps

    /** A straight segment from the cursor, coloured by the leg at index
        floor(|drawPoints| / 2), with an arrow head when asked. */
    method CreatePlainLinePoint(addArrow: bool)
      requires Valid()
      modifies this
      ensures Valid() && Kept()
      ensures old(hasContext) ==> CurrentFrame() == PlainLine(state.travels, old(CurrentFrame()))
      ensures old(hasContext) ==> LookedUp(PlainLineLookups(state.travels, old(CurrentFrame()), addArrow))
      ensures !old(hasContext) ==> LayoutUnchanged()
    {
      if hasContext {
        ghost var fr0 := CurrentFrame();
        var startX := drawing.initialX;
        var startY := drawing.initialY;
        var endX := drawing.initialX + drawing.lineLength;
        var currentIndex := if |state.drawPoints| > 0 then |state.drawPoints| / 2 else 0;
        if currentIndex < |state.travels| {
          var current := state.travels[currentIndex];
          var p := (current.startPoint, current.endPoint);
          ghost var m0, d0 := state.colorMap, draws;
          DrawLine(current.startPoint, current.endPoint);
          if addArrow {
            LookupPairTwice(m0, p, random, d0);
            DrawArrow(current.startPoint, current.endPoint);
          }
          PlainLineLooksUpLeg(state.travels, fr0, addArrow, m0, random, d0);
          PlainLineAt(state.travels, fr0);
          ConnectNearbyPoints(startX, startY);
          drawing := drawing.(initialX := endX + drawing.circleDiff);
          AddDrawPoint(endX, startY, "", true, current.startPoint, current.endPoint);
        }
      }
    }

    /** The upward S-curve: leg k on the upper track, a straight segment,
        then leg k + 1. The scan only calls it when leg k + 1 exists
        (LayoutProperties.UpLoopHasSuccessor). */
    method HandleUpCurvePoints(k: nat)
      requires Valid() && k + 1 < |state.travels|
      modifies this
      ensures Valid() && Kept()
      ensures if old(hasContext) then
                && CurrentFrame() == UpCurve(state.travels, old(CurrentFrame()), k)
                && LookedUp(UpCurveLookups(state.travels, old(CurrentFrame()), k))
              else LayoutUnchanged()
    {
      if !hasContext {
        return;
      }
      ghost var fr0, m0, d0 := CurrentFrame(), state.colorMap, draws;
      var curveEndX := drawing.initialX + 138.0;
      var curveEndY := drawing.initialY - 80.0;
      var color := GetLineColor(state.travels[k].startPoint, state.travels[k].endPoint);
      ghost var m1, d1 := state.colorMap, draws;
      drawing := drawing.(initialX := curveEndX, initialY := curveEndY, isUpper := true);
      var current := state.travels[k];
      var next := state.travels[k + 1];
      AddDrawPoint(drawing.initialX, drawing.initialY,
                   FormatPointLabel(current.startPoint, current.endPoint),
                   true, current.startPoint, current.endPoint);
      ghost var lifted := CurrentFrame();
      assert lifted == PlaceRoute(fr0.(drawing := Lifted(fr0.drawing)), current);
      CreatePlainLinePoint(false);
      AddDrawPoint(drawing.initialX, drawing.initialY,
                   FormatPointLabel(next.startPoint, next.endPoint),
                   true, next.startPoint, next.endPoint);
      LookupAllAppend(m0, [PairOf(current)], PlainLineLookups(state.travels, lifted, false), random, d0);
    }

    /** The downward S-curve back to the baseline, with leg j's point. */
    method HandleDownCurvePoints(j: nat)
      requires Valid() && j < |state.travels|
      modifies this
      ensures Valid() && Kept()
      ensures if old(hasContext) then
                && CurrentFrame() == DownCurve(state.travels, old(CurrentFrame()), j)
                && LookedUp([PairOf(state.travels[j])])
              else LayoutUnchanged()
    {
      if !hasContext {
        return;
      }
      var curveEndX := drawing.initialX + 85.0;
      var curveEndY := drawing.initialY + 80.0;
      var color := GetLineColor(state.travels[j].startPoint, state.travels[j].endPoint);
      drawing := drawing.(initialY := curveEndY, initialX := curveEndX, isUpper := false);
      var current := state.travels[j];
      AddDrawPoint(drawing.initialX, drawing.initialY,
                   FormatPointLabel(current.startPoint, current.endPoint),
                   true, current.startPoint, current.endPoint);
    }

    /** Legs l - 1 and l stacked 100 units above the cursor, joined by a
        line coloured by leg l - 1. */
    method HandleDuplicatePoints(l: nat)
      requires Valid() && 1 <= l < |state.travels|
      modifies this
      ensures Valid() && Kept()
      ensures if old(hasContext) then
                && CurrentFrame() == DuplicatePoints(state.travels, old(CurrentFrame()), l)
                && LookedUp([PairOf(state.travels[l - 1])])
              else LayoutUnchanged()
    {
      if !hasContext {
        return;
      }
      var upperY := drawing.initialY - 100.0;
      var prevRoute := state.travels[l - 1];
      var currentRoute := state.travels[l];
      AddDrawPoint(drawing.initialX, upperY,
                   FormatPointLabel(prevRoute.startPoint, prevRoute.endPoint),
                   true, prevRoute.startPoint, prevRoute.endPoint);
      DrawLine(prevRoute.startPoint, prevRoute.endPoint);
      var newX := drawing.initialX + drawing.lineLength + drawing.circleDiff;
      drawing := drawing.(initialX := newX, initialY := upperY, isUpper := true);
      AddDrawPoint(drawing.initialX - drawing.circleDiff, upperY,
                   FormatPointLabel(currentRoute.startPoint, currentRoute.endPoint),
                   true, currentRoute.startPoint, currentRoute.endPoint);
    }

    // --------------------------------------------------------------------
    // The scan

    /** A leg equal to the previous or the next one. Returns the index of the
        last leg handled (index + 1 when the upward curve consumed the next
        leg); the step is Layout.Step. */
    method HandleDuplicateRoutes(index: nat, cur: TravelDetails, isSameAsPrev: bool, isSameAsNext: bool)
      returns (handled: nat)
      requires Valid() && hasContext
      requires 1 <= index < |state.travels| && cur == state.travels[index]
      requires isSameAsPrev == SameRoute(cur, state.travels[index - 1])
      requires isSameAsNext == (index + 1 < |state.travels| && SameRoute(cur, state.travels[index + 1]))
      requires isSameAsPrev || isSameAsNext
      requires RepeatOnUpperTrack(state.travels, index, CurrentFrame())
      modifies this
      ensures Valid() && Kept()
      ensures handled + 1 == Step(state.travels, index, old(CurrentFrame())).1
      ensures CurrentFrame() == Step(state.travels, index, old(CurrentFrame())).0
      ensures LookedUp(StepLookups(state.travels, index, old(CurrentFrame())))
    {
      ghost var fr0 := CurrentFrame();
      handled := index;
      if index == 1 {
        if isSameAsPrev && isSameAsNext {
          StepStack(state.travels, index, fr0);
          HandleDuplicatePoints(index);
        } else if isSameAsNext {
          StepUpLoop(state.travels, index, fr0);
          HandleUpCurvePoints(index);
          handled := handled + 1;
        } else {
          StepStack(state.travels, index, fr0);
          HandleDuplicatePoints(index);
        }
      } else {
        if drawing.isUpper {
          StepStraight(state.travels, index, fr0, false);
          CreatePlainLinePoint(false);
          AddPointForCurrentRoute(cur);
        } else {
          StepUpLoop(state.travels, index, fr0);
          HandleUpCurvePoints(index);
          handled := handled + 1;
        }
      }
    }

    /** A leg that starts where the previous one ended. */
    method HandleConnectedRoutes(index: nat, cur: TravelDetails)
      requires Valid() && hasContext
      requires 1 <= index < |state.travels| && cur == state.travels[index]
      requires !SameRoute(cur, state.travels[index - 1])
      requires !(index + 1 < |state.travels| && SameRoute(cur, state.travels[index + 1]))
      requires state.travels[index - 1].endPoint == cur.startPoint
      modifies this
      ensures Valid() && Kept()
      ensures CurrentFrame() == Step(state.travels, index, old(CurrentFrame())).0
      ensures Step(state.travels, index, old(CurrentFrame())).1 == index + 1
      ensures LookedUp(StepLookups(state.travels, index, old(CurrentFrame())))
    {
      ghost var fr0 := CurrentFrame();
      if drawing.isUpper {
        StepDownLoop(state.travels, index, fr0);
        HandleDownCurvePoints(index);
      } else {
        StepStraight(state.travels, index, fr0, false);
        CreatePlainLinePoint(false);
        AddPointForCurrentRoute(cur);
      }
    }

    /** A leg that does not start where the previous one ended. */
    method HandleDisconnectedRoutes(index: nat, cur: TravelDetails)
      requires Valid() && hasContext
      requires 1 <= index < |state.travels| && cur == state.travels[index]
      requires !SameRoute(cur, state.travels[index - 1])
      requires !(index + 1 < |state.travels| && SameRoute(cur, state.travels[index + 1]))
      requires state.travels[index - 1].endPoint != cur.startPoint
      modifies this
      ensures Valid() && Kept()
      ensures CurrentFrame() == Step(state.travels, index, old(CurrentFrame())).0
      ensures Step(state.travels, index, old(CurrentFrame())).1 == index + 1
      ensures LookedUp(StepLookups(state.travels, index, old(CurrentFrame())))
    {
      ghost var fr0 := CurrentFrame();
      if drawing.isUpper {
        StepDownLoop(state.travels, index, fr0);
        HandleDownCurvePoints(index);
      } else {
        StepStraight(state.travels, index, fr0, true);
        CreatePlainLinePoint(true);
        AddPointForCurrentRoute(cur);
      }
    }

    /** The layout scan over all legs, from the current cursor and points. */
    method CalculateDrawPoints()
      requires Valid() && hasContext
      modifies this
      ensures Valid() && Kept()
      ensures CurrentFrame() == ScanFrom(state.travels, 0, old(CurrentFrame()))
      ensures LookedUp(ScanLookups(state.travels, 0, old(CurrentFrame())))
    {
      var i := 0;
      while i < |state.travels|
        invariant Valid() && hasContext && Kept()
        invariant i <= |state.travels|
        invariant RepeatOnUpperTrack(state.travels, i, CurrentFrame())
        invariant ScanFrom(state.travels, i, CurrentFrame()) == ScanFrom(state.travels, 0, old(CurrentFrame()))
        invariant LookupAll(state.colorMap, ScanLookups(state.travels, i, CurrentFrame()), random, draws) ==
                  LookupAll(old(state.colorMap), ScanLookups(state.travels, 0, old(CurrentFrame())), random, old(draws))
        decreases |state.travels| - i
      {
        ghost var before, m0, d0, i0 := CurrentFrame(), state.colorMap, draws, i;
        i := ScanStep(i);
        assert Step(state.travels, i0, before).0 == CurrentFrame() && Step(state.travels, i0, before).1 == i;
        LookupAllAppend(m0, StepLookups(state.travels, i0, before), ScanLookups(state.travels, i, CurrentFrame()), random, d0);
      }
    }

    /** One pass of the `calculateDrawPoints` loop body at leg i: the first
        leg, a repeat, a connected or a disconnected leg. Returns the index
        of the next leg to handle; the step is Layout.Step. */
    method ScanStep(i: nat) returns (next: nat)
      requires Valid() && hasContext
      requires i < |state.travels|
      requires RepeatOnUpperTrack(state.travels, i, CurrentFrame())
      modifies this
      ensures Valid() && Kept() && hasContext
      ensures CurrentFrame() == Step(state.travels, i, old(CurrentFrame())).0
      ensures next == Step(state.travels, i, old(CurrentFrame())).1
      ensures LookedUp(StepLookups(state.travels, i, old(CurrentFrame())))
    {
      var cur := state.travels[i];
      next := i;
      if i == 0 {
        AddFirstPoint(cur);
      } else {
        var prev := state.travels[i - 1];
        var isSameAsPrev := cur.startPoint == prev.startPoint && cur.endPoint == prev.endPoint;
        var isSameAsNext := i + 1 < |state.travels| &&
                            cur.startPoint == state.travels[i + 1].startPoint &&
                            cur.endPoint == state.travels[i + 1].endPoint;
        var isConnectedToPrev := prev.endPoint == cur.startPoint;
        if isSameAsPrev || isSameAsNext {
          next := HandleDuplicateRoutes(i, cur, isSameAsPrev, isSameAsNext);
        } else if isConnectedToPrev {
          HandleConnectedRoutes(i, cur);
        } else {
          HandleDisconnectedRoutes(i, cur);
        }
      }
      next := next + 1;
    }

    /** The dot and label of every connected point, each in its pair's
        colour: only the colour lookups are modelled. */
    method DrawConnectedPoints()
      requires Valid()
      modifies this
      ensures Valid() && Kept()
      ensures drawing == old(drawing) && state.drawPoints == old(state.drawPoints)
      ensures if old(hasContext)
              then LookedUp(PairsOf(ConnectedPoints(old(state.drawPoints))))
              else LayoutUnchanged()
    {
      if !hasContext {
        return;
      }
      var connected := ConnectedPoints(state.drawPoints);
      var k := 0;
      while k < |connected|
        invariant 0 <= k <= |connected|
        invariant Valid() && Kept()
        invariant drawing == old(drawing) && state.drawPoints == old(state.drawPoints)
        invariant LookedUp(PairsOf(connected[..k]))
      {
        var point := connected[k];
        var pointColor := GetLineColor(point.startPoint, point.endPoint);
        LookupPairsSnoc(old(state.colorMap), connected, k, random, old(draws));
        k := k + 1;
      }
      assert connected[..k] == connected;
    }

    // --------------------------------------------------------------------
    // Controller

    /** Resets the cursor to (100, height / 2) on the baseline, empties the
        points, runs the scan and draws the connected points. */
    method DrawCanvas()
      requires Valid()
      modifies this
      ensures Valid() && Kept() && drawing.lineLength == old(drawing.lineLength)
      ensures if old(hasContext) then
                && CurrentFrame() == Redraw(state.travels, old(drawing), canvasHeight)
                && LookedUp(RedrawLookups(state.travels, old(drawing), canvasHeight))
              else LayoutUnchanged()
    {
      if !hasContext {
        return;
      }
      ghost var m0, d0 := state.colorMap, draws;
      drawing := drawing.(initialX := 100.0, initialY := canvasHeight as real / 2.0, isUpper := false);
      state := state.(drawPoints := []);
      ghost var start := CurrentFrame();
      assert start == Frame(ResetCursor(old(drawing), canvasHeight), []);
      CalculateDrawPoints();
      ScanKeeps(state.travels, 0, start);
      ghost var m1, d1 := state.colorMap, draws;
      DrawConnectedPoints();
      LookupAllAppend(m0, ScanLookups(state.travels, 0, start),
                      PairsOf(ConnectedPoints(Redraw(state.travels, old(drawing), canvasHeight).points)), random, d0);
    }

    /** Appends a leg, sets lineLength to min(250, (width - 200) / n) and
        redraws; does nothing before the canvas is initialised. */
    method AddTravelDetails(start: string, end: string)
      requires Valid()
      modifies this
      ensures Valid() && CanvasKept()
      ensures if old(isInitialized && hasContext) then
                && state.travels == old(state.travels) + [TravelDetails(start, end)]
                && drawing.lineLength == LineLengthFor(canvasWidth, |state.travels|)
                && CurrentFrame() == Redraw(state.travels, old(drawing).(lineLength := drawing.lineLength), canvasHeight)
                && LookedUp(RedrawLookups(state.travels, old(drawing).(lineLength := drawing.lineLength), canvasHeight))
              else LayoutUnchanged()
    {
      if !isInitialized || !hasContext {
        return;
      }
      var travelDetails := TravelDetails(start, end);
      state := state.(travels := state.travels + [travelDetails]);
      drawing := drawing.(lineLength := LineLengthFor(canvasWidth, |state.travels|));
      DrawCanvas();
    }

    /** The `tripPoints` input: a leg is added only when both ends are
        present and non-empty. */
    method SetTripPoints(value: Option<TripPoints>)
      requires Valid()
      modifies this
      ensures Valid() && CanvasKept()
      ensures var accepted := value.Some? && value.value.start != "" && value.value.end != "";
              && (accepted && old(isInitialized && hasContext) ==>
                    && state.travels == old(state.travels) + [TravelDetails(value.value.start, value.value.end)]
                    && drawing.lineLength == LineLengthFor(canvasWidth, |state.travels|)
                    && CurrentFrame() == Redraw(state.travels, old(drawing).(lineLength := drawing.lineLength), canvasHeight)
                    && LookedUp(RedrawLookups(state.travels, old(drawing).(lineLength := drawing.lineLength), canvasHeight)))
              && (!accepted || !old(isInitialized && hasContext) ==> LayoutUnchanged())
    {
      if value.Some? && value.value.start != "" && value.value.end != "" {
        AddTravelDetails(value.value.start, value.value.end);
      }
    }

    /** Clears all three lists and puts the cursor at (0, 0) with
        lineLength 70. */
    method ResetVisualizer()
      modifies this
      ensures Valid() && CanvasKept() && draws == old(draws)
      ensures state == VisualizationState([], [], [])
      ensures drawing == DrawingConfig(0.0, 0.0, 70.0, 10.0, false)
    {
      state := VisualizationState([], [], []);
      drawing := DrawingConfig(0.0, 0.0, 70.0, 10.0, false);
    }

    /** Sizes the canvas to the container (width, half the height, as whole
        pixels) and redraws; lineLength is not recomputed. Without a
        container nothing happens. */
    method ResizeCanvas(hasContainer: bool, clientWidth: nat, clientHeight: nat)
      requires Valid()
      modifies this
      ensures Valid()
      ensures hasContext == old(hasContext) && isInitialized == old(isInitialized)
      ensures state.travels == old(state.travels)
      ensures drawing.lineLength == old(drawing.lineLength)
      ensures old(state.colorMap) <= state.colorMap
      ensures if hasContainer then
                && canvasWidth == clientWidth && canvasHeight == clientHeight / 2
                && (hasContext ==> CurrentFrame() == Redraw(state.travels, old(drawing), canvasHeight))
                && (hasContext ==> LookedUp(RedrawLookups(state.travels, old(drawing), canvasHeight)))
                && (!hasContext ==> LayoutUnchanged())
              else LayoutUnchanged() && CanvasKept()
    {
      if !hasContainer {
        return;
      }
      canvasWidth := clientWidth;
      canvasHeight := clientHeight / 2;
      DrawCanvas();
    }

    /** Acquires the context (or not); on success sizes the canvas, redraws
        and marks the canvas initialised. */
    method InitializeCanvas(contextAcquired: bool, hasContainer: bool, clientWidth: nat, clientHeight: nat)
      requires Valid()
      modifies this
      ensures Valid()
      ensures hasContext == contextAcquired
      ensures isInitialized == (old(isInitialized) || contextAcquired)
      ensures state.travels == old(state.travels)
      ensures drawing.lineLength == old(drawing.lineLength)
      ensures !contextAcquired ==> LayoutUnchanged() && canvasWidth == old(canvasWidth) && canvasHeight == old(canvasHeight)
      ensures contextAcquired && !hasContainer ==>
                LayoutUnchanged() && canvasWidth == old(canvasWidth) && canvasHeight == old(canvasHeight)
      ensures contextAcquired && hasContainer ==>
                && canvasWidth == clientWidth && canvasHeight == clientHeight / 2
                && CurrentFrame() == Redraw(state.travels, old(drawing), canvasHeight)
                && LookedUp(RedrawLookups(state.travels, old(drawing), canvasHeight))
    {
      hasContext := contextAcquired;
      if !hasContext {
        return;
      }
      ResizeCanvas(hasContainer, clientWidth, clientHeight);
      isInitialized := true;
    }
  }
}
