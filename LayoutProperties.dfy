/** What the layout scan guarantees, stated about the reference definition
    in module Layout. */
module LayoutProperties {
  import opened TripModel
  import opened Layout

  // ----------------------------------------------------------------------
  // Counting labelled points

  /** The number of points that carry a label (a non-empty text). */
  function LabelledCount(pts: seq<DrawPoint>): nat {
    if pts == [] then 0
    else LabelledCount(pts[..|pts| - 1]) + (if pts[|pts| - 1].text != "" then 1 else 0)
  }

  /** Whether some point carries leg t's label and ends. */
  ghost predicate HasRoutePoint(pts: seq<DrawPoint>, t: TravelDetails) {
    exists k :: 0 <= k < |pts| && IsRoutePoint(pts[k], t)
  }

  lemma LabelledCountAppend(pts: seq<DrawPoint>, p: DrawPoint)
    ensures LabelledCount(pts + [p]) == LabelledCount(pts) + (if p.text != "" then 1 else 0)
  {
    assert (pts + [p])[..|pts|] == pts;
  }

  lemma {:induction false} LabelledCountBound(pts: seq<DrawPoint>)
    ensures LabelledCount(pts) <= |pts|
  {
    if pts != [] {
      LabelledCountBound(pts[..|pts| - 1]);
    }
  }

  /** Extending a point list never loses a label. */
  lemma {:induction false} LabelledCountGrows(a: seq<DrawPoint>, b: seq<DrawPoint>)
    requires Extends(a, b)
    ensures LabelledCount(b) >= LabelledCount(a)
    decreases |b|
  {
    if |b| > |a| {
      var b' := b[..|b| - 1];
      assert Extends(a, b');
      LabelledCountGrows(a, b');
    } else if a != [] {
      var a', b' := a[..|a| - 1], b[..|b| - 1];
      assert Extends(a', b');
      assert SameButConnection(a[|a| - 1], b[|b| - 1]);
      LabelledCountGrows(a', b');
    }
  }

  lemma ExtendsKeepsRoute(a: seq<DrawPoint>, b: seq<DrawPoint>, t: TravelDetails)
    requires Extends(a, b) && HasRoutePoint(a, t)
    ensures HasRoutePoint(b, t)
  {
    var k :| 0 <= k < |a| && IsRoutePoint(a[k], t);
    assert SameButConnection(a[k], b[k]);
    assert IsRoutePoint(b[k], t);
  }

  lemma LabelNonEmpty(t: TravelDetails)
    ensures FormatPointLabel(t.startPoint, t.endPoint) != ""
  {
    assert |FormatPointLabel(t.startPoint, t.endPoint)| >= 3;
  }

  // ----------------------------------------------------------------------
  // Every leg gets a labelled point

  lemma PlaceRouteLabels(fr: Frame, t: TravelDetails)
    ensures LabelledCount(PlaceRoute(fr, t).points) == LabelledCount(fr.points) + 1
    ensures HasRoutePoint(PlaceRoute(fr, t).points, t)
  {
    var p := RoutePoint(fr.drawing.initialX, fr.drawing.initialY, t);
    LabelNonEmpty(t);
    LabelledCountAppend(fr.points, p);
    assert IsRoutePoint(PlaceRoute(fr, t).points[|fr.points|], t);
  }

  /** Every leg i .. j - 1 has a labelled point in `after`, and `after`
      has at least j - i more labelled points than `before`. */
  ghost predicate LabelsLegs(travels: seq<TravelDetails>, i: nat, j: nat, before: seq<DrawPoint>, after: seq<DrawPoint>) {
    && LabelledCount(after) >= LabelledCount(before) + (j - i)
    && forall l :: i <= l < j && l < |travels| ==> HasRoutePoint(after, travels[l])
  }

  lemma StraightLabels(travels: seq<TravelDetails>, fr: Frame, t: TravelDetails)
    ensures LabelledCount(PlaceRoute(PlainLine(travels, fr), t).points) >= LabelledCount(fr.points) + 1
    ensures HasRoutePoint(PlaceRoute(PlainLine(travels, fr), t).points, t)
  {
    var line := PlainLine(travels, fr);
    PlainLineShape(travels, fr);
    LabelledCountGrows(fr.points, line.points);
    PlaceRouteLabels(line, t);
  }

  lemma UpCurveLabels(travels: seq<TravelDetails>, fr: Frame, k: nat)
    requires k + 1 < |travels|
    ensures LabelsLegs(travels, k, k + 2, fr.points, UpCurve(travels, fr, k).points)
  {
    var r := UpCurve(travels, fr, k);
    var d := fr.drawing;
    var q := RoutePoint(d.initialX + 138.0, d.initialY - 80.0, travels[k]);
    var lifted := fr.points + [q];
    LabelNonEmpty(travels[k]);
    LabelNonEmpty(travels[k + 1]);
    LabelledCountAppend(fr.points, q);
    assert IsRoutePoint(lifted[|fr.points|], travels[k]);
    ExtendsKeepsRoute(lifted, r.points, travels[k]);
    var last := r.points[|r.points| - 1];
    var body := r.points[..|r.points| - 1];
    assert Extends(lifted, body);
    LabelledCountGrows(lifted, body);
    assert r.points == body + [last];
    LabelledCountAppend(body, last);
    assert IsRoutePoint(r.points[|r.points| - 1], travels[k + 1]);
    forall l | k <= l < k + 2 && l < |travels| ensures HasRoutePoint(r.points, travels[l]) {
      if l != k { assert l == k + 1; }
    }
  }

  lemma DownCurveLabels(travels: seq<TravelDetails>, fr: Frame, j: nat)
    requires j < |travels|
    ensures LabelsLegs(travels, j, j + 1, fr.points, DownCurve(travels, fr, j).points)
  {
    var d := fr.drawing;
    var lowered := fr.(drawing := d.(initialX := d.initialX + 85.0, initialY := d.initialY + 80.0, isUpper := false));
    PlaceRouteLabels(lowered, travels[j]);
  }

  lemma DuplicatePointsLabels(travels: seq<TravelDetails>, fr: Frame, l: nat)
    requires 1 <= l < |travels|
    ensures LabelledCount(DuplicatePoints(travels, fr, l).points) >= LabelledCount(fr.points) + 1
    ensures HasRoutePoint(DuplicatePoints(travels, fr, l).points, travels[l])
  {
    var d := fr.drawing;
    var q1 := RoutePoint(d.initialX, d.initialY - 100.0, travels[l - 1]);
    var q2 := RoutePoint(d.initialX + d.lineLength, d.initialY - 100.0, travels[l]);
    var r := DuplicatePoints(travels, fr, l);
    assert r.points == (fr.points + [q1]) + [q2];
    LabelNonEmpty(travels[l - 1]);
    LabelNonEmpty(travels[l]);
    LabelledCountAppend(fr.points, q1);
    LabelledCountAppend(fr.points + [q1], q2);
    assert IsRoutePoint(r.points[|fr.points| + 1], travels[l]);
  }


  // One lemma per branch of Step keeps each proof small.

  lemma FirstStepLabels(travels: seq<TravelDetails>, i: nat, fr: Frame)
    requires i < |travels| && RepeatOnUpperTrack(travels, i, fr)
    requires Classify(travels, i, fr.drawing.isUpper) == First
    ensures LabelsLegs(travels, i, Step(travels, i, fr).1, fr.points, Step(travels, i, fr).0.points)
  {
    StepFirst(travels, i, fr);
    PlaceRouteLabels(fr, travels[i]);
    assert LabelsLegs(travels, i, i + 1, fr.points, PlaceRoute(fr, travels[i]).points);
  }

  lemma StackStepLabels(travels: seq<TravelDetails>, i: nat, fr: Frame)
    requires i < |travels| && RepeatOnUpperTrack(travels, i, fr)
    requires Classify(travels, i, fr.drawing.isUpper) == Stack
    ensures LabelsLegs(travels, i, Step(travels, i, fr).1, fr.points, Step(travels, i, fr).0.points)
  {
    StepStack(travels, i, fr);
    DuplicatePointsLabels(travels, fr, i);
    assert LabelsLegs(travels, i, i + 1, fr.points, DuplicatePoints(travels, fr, i).points);
  }

  lemma UpLoopStepLabels(travels: seq<TravelDetails>, i: nat, fr: Frame)
    requires i < |travels| && RepeatOnUpperTrack(travels, i, fr)
    requires Classify(travels, i, fr.drawing.isUpper) == UpLoop
    ensures LabelsLegs(travels, i, Step(travels, i, fr).1, fr.points, Step(travels, i, fr).0.points)
  {
    StepUpLoop(travels, i, fr);
    UpCurveLabels(travels, fr, i);
  }

  lemma StraightStepLabels(travels: seq<TravelDetails>, i: nat, fr: Frame)
    requires i < |travels| && RepeatOnUpperTrack(travels, i, fr)
    requires Classify(travels, i, fr.drawing.isUpper) .Straight?
    ensures LabelsLegs(travels, i, Step(travels, i, fr).1, fr.points, Step(travels, i, fr).0.points)
  {
    StepStraight(travels, i, fr, Classify(travels, i, fr.drawing.isUpper).arrow);
    StraightLabels(travels, fr, travels[i]);
    assert LabelsLegs(travels, i, i + 1, fr.points, PlaceRoute(PlainLine(travels, fr), travels[i]).points);
  }

  lemma DownLoopStepLabels(travels: seq<TravelDetails>, i: nat, fr: Frame)
    requires i < |travels| && RepeatOnUpperTrack(travels, i, fr)
    requires Classify(travels, i, fr.drawing.isUpper) == DownLoop
    ensures LabelsLegs(travels, i, Step(travels, i, fr).1, fr.points, Step(travels, i, fr).0.points)
  {
    StepDownLoop(travels, i, fr);
    DownCurveLabels(travels, fr, i);
  }

  /** One step of the scan places a labelled point for every leg it handles
      (one, or two when the upward curve consumes the next leg). */
  lemma StepLabels(travels: seq<TravelDetails>, i: nat, fr: Frame)
    requires i < |travels| && RepeatOnUpperTrack(travels, i, fr)
    ensures LabelsLegs(travels, i, Step(travels, i, fr).1, fr.points, Step(travels, i, fr).0.points)
  {
    match Classify(travels, i, fr.drawing.isUpper)
    case First => FirstStepLabels(travels, i, fr);
    case Stack => StackStepLabels(travels, i, fr);
    case UpLoop => UpLoopStepLabels(travels, i, fr);
    case Straight(_) => StraightStepLabels(travels, i, fr);
    case DownLoop => DownLoopStepLabels(travels, i, fr);
  }

  /** The legs before i keep their labelled points in an extension, so with
      legs i .. j - 1 labelled as well, every leg before j is. */
  lemma LabelsCarry(travels: seq<TravelDetails>, i: nat, j: nat, before: seq<DrawPoint>, after: seq<DrawPoint>)
    requires i <= j <= |travels|
    requires Extends(before, after) && LabelsLegs(travels, i, j, before, after)
    requires LabelledCount(before) >= i
    requires forall l :: 0 <= l < i ==> HasRoutePoint(before, travels[l])
    ensures LabelledCount(after) >= j
    ensures forall l :: 0 <= l < j ==> HasRoutePoint(after, travels[l])
  {
    forall l | 0 <= l < j ensures HasRoutePoint(after, travels[l]) {
      if l < i {
        ExtendsKeepsRoute(before, after, travels[l]);
      }
    }
  }

  lemma {:induction false} ScanLabels(travels: seq<TravelDetails>, i: nat, fr: Frame)
    requires i <= |travels| && RepeatOnUpperTrack(travels, i, fr)
    requires LabelledCount(fr.points) >= i
    requires forall l :: 0 <= l < i ==> HasRoutePoint(fr.points, travels[l])
    ensures LabelledCount(ScanFrom(travels, i, fr).points) >= |travels|
    ensures forall l :: 0 <= l < |travels| ==> HasRoutePoint(ScanFrom(travels, i, fr).points, travels[l])
    decreases |travels| - i
  {
    if i < |travels| {
      var f, j := Step(travels, i, fr).0, Step(travels, i, fr).1;
      StepLabels(travels, i, fr);
      StepKeeps(travels, i, fr);
      LabelsCarry(travels, i, j, fr.points, f.points);
      ScanLabels(travels, j, f);
    }
  }

  /** After a redraw, every leg has a labelled point carrying its start and
      end. */
  lemma EveryLegLabelled(travels: seq<TravelDetails>, d: DrawingConfig, height: nat)
    ensures forall l :: 0 <= l < |travels| ==> HasRoutePoint(Redraw(travels, d, height).points, travels[l])
  {
    ScanLabels(travels, 0, Frame(ResetCursor(d, height), []));
  }

  /** After a redraw there are at least as many labelled points as legs, and
      every point is connected, so at least as many connected points too. */
  lemma LabelledPointsCoverLegs(travels: seq<TravelDetails>, d: DrawingConfig, height: nat)
    ensures LabelledCount(Redraw(travels, d, height).points) >= |travels|
    ensures AllConnected(Redraw(travels, d, height).points)
    ensures |Redraw(travels, d, height).points| >= |travels|
  {
    ScanLabels(travels, 0, Frame(ResetCursor(d, height), []));
    ScanKeeps(travels, 0, Frame(ResetCursor(d, height), []));
    LabelledCountBound(Redraw(travels, d, height).points);
  }

  // ----------------------------------------------------------------------
  // Redraws

  /** A redraw uses nothing of the cursor but lineLength and circleDiff:
      two redraws of the same legs at the same height with the same segment
      length and spacing give the same frame. */
  lemma RedrawSameLength(travels: seq<TravelDetails>, d1: DrawingConfig, d2: DrawingConfig, height: nat)
    requires d1.lineLength == d2.lineLength && d1.circleDiff == d2.circleDiff
    ensures Redraw(travels, d1, height) == Redraw(travels, d2, height)
  {
    assert ResetCursor(d1, height) == ResetCursor(d2, height);
  }

  /** Redrawing again from the result of a redraw gives the same frame. */
  lemma RedrawIdempotent(travels: seq<TravelDetails>, d: DrawingConfig, height: nat)
    ensures Redraw(travels, Redraw(travels, d, height).drawing, height) == Redraw(travels, d, height)
  {
    var r := Redraw(travels, d, height);
    ScanKeeps(travels, 0, Frame(ResetCursor(d, height), []));
    RedrawSameLength(travels, r.drawing, d, height);
  }

  /** An upward curve followed by a downward curve returns to the original
      height and to the baseline. */
  lemma CurvesReturnToBaseline(travels: seq<TravelDetails>, fr: Frame, k: nat, j: nat)
    requires k + 1 < |travels| && j < |travels|
    ensures DownCurve(travels, UpCurve(travels, fr, k), j).drawing.initialY == fr.drawing.initialY
    ensures !DownCurve(travels, UpCurve(travels, fr, k), j).drawing.isUpper
  {
  }

  // ----------------------------------------------------------------------
  // A chain of connected legs

  /** Each leg starts where the previous one ended and differs from it. */
  ghost predicate IsChain(travels: seq<TravelDetails>) {
    forall i :: 0 < i < |travels| ==>
      travels[i - 1].endPoint == travels[i].startPoint && !SameRoute(travels[i - 1], travels[i])
  }

  /** Point k of a chain's layout from cursor d: leg k / 2's labelled point
      at even k, the empty-label end of the straight segment after it at odd
      k; all on d's row, a step of lineLength + circleDiff per leg. */
  function ChainPoint(travels: seq<TravelDetails>, k: nat, d: DrawingConfig): DrawPoint
    requires k / 2 < |travels|
  {
    var m := k / 2;
    var x := d.initialX + (m as real) * (d.lineLength + d.circleDiff);
    if k % 2 == 0 then RoutePoint(x, d.initialY, travels[m])
    else DrawPoint(x + d.lineLength, d.initialY, "", true, travels[m].startPoint, travels[m].endPoint)
  }

  ghost predicate ChainInv(travels: seq<TravelDetails>, i: nat, fr: Frame, d: DrawingConfig) {
    && 1 <= i <= |travels|
    && fr.drawing == d.(initialX := d.initialX + ((i - 1) as real) * (d.lineLength + d.circleDiff))
    && |fr.points| == 2 * i - 1
    && forall k :: 0 <= k < |fr.points| ==> fr.points[k] == ChainPoint(travels, k, d)
  }

  lemma Distribute(m: nat, s: real)
    ensures ((m + 1) as real) * s == (m as real) * s + s
  {
  }

  lemma ChainConnected(travels: seq<TravelDetails>, i: nat, fr: Frame, d: DrawingConfig)
    requires ChainInv(travels, i, fr, d)
    ensures AllConnected(fr.points)
  {
    forall k | 0 <= k < |fr.points| ensures fr.points[k].isConnected {
      assert fr.points[k] == ChainPoint(travels, k, d);
    }
  }

  /** The straight segment of a chain step: the joint point is appended and
      the cursor advances by one leg. */
  lemma ChainLine(travels: seq<TravelDetails>, i: nat, fr: Frame, d: DrawingConfig)
    requires ChainInv(travels, i, fr, d) && i < |travels|
    ensures PlainLine(travels, fr).points == fr.points + [ChainPoint(travels, 2 * i - 1, d)]
    ensures PlainLine(travels, fr).drawing ==
            d.(initialX := d.initialX + (i as real) * (d.lineLength + d.circleDiff))
  {
    ChainConnected(travels, i, fr, d);
    assert |fr.points| / 2 == i - 1;
    PlainLineOnConnected(travels, fr);
    ChainJoint(travels, i, d);
    Distribute(i - 1, d.lineLength + d.circleDiff);
  }

  /** The odd chain point 2i - 1: the end of leg i - 1's straight segment. */
  lemma ChainJoint(travels: seq<TravelDetails>, i: nat, d: DrawingConfig)
    requires 1 <= i <= |travels|
    ensures ChainPoint(travels, 2 * i - 1, d) ==
            DrawPoint(d.initialX + ((i - 1) as real) * (d.lineLength + d.circleDiff) + d.lineLength, d.initialY,
                      "", true, travels[i - 1].startPoint, travels[i - 1].endPoint)
  {
    assert (2 * i - 1) / 2 == i - 1 && (2 * i - 1) % 2 == 1;
  }

  /** Appending chain points 2i - 1 and 2i, with the cursor one leg further,
      extends the chain invariant from i to i + 1 legs. */
  lemma ChainExtend(travels: seq<TravelDetails>, i: nat, fr: Frame, f: Frame, d: DrawingConfig)
    requires ChainInv(travels, i, fr, d) && i < |travels|
    requires f.points == fr.points + [ChainPoint(travels, 2 * i - 1, d), ChainPoint(travels, 2 * i, d)]
    requires f.drawing == d.(initialX := d.initialX + (i as real) * (d.lineLength + d.circleDiff))
    ensures ChainInv(travels, i + 1, f, d)
  {
    forall k | 0 <= k < |f.points| ensures f.points[k] == ChainPoint(travels, k, d) {
      if k < |fr.points| {
        assert f.points[k] == fr.points[k];
      }
    }
  }

  /** Inside a chain, every leg after the first is a plain straight step. */
  lemma ChainClassify(travels: seq<TravelDetails>, i: nat)
    requires IsChain(travels) && 1 <= i < |travels|
    ensures !SameRoute(travels[i], travels[i - 1])
    ensures Classify(travels, i, false) == Straight(false)
  {
    assert !SameRoute(travels[i - 1], travels[i]);
    assert i + 1 < |travels| ==> !SameRoute(travels[i], travels[i + 1]);
  }

  /** Placing leg i's labelled point after the joint point extends the
      chain invariant from i to i + 1 legs. */
  lemma ChainPlace(travels: seq<TravelDetails>, i: nat, fr: Frame, line: Frame, d: DrawingConfig)
    requires ChainInv(travels, i, fr, d) && i < |travels|
    requires line.points == fr.points + [ChainPoint(travels, 2 * i - 1, d)]
    requires line.drawing == d.(initialX := d.initialX + (i as real) * (d.lineLength + d.circleDiff))
    ensures ChainInv(travels, i + 1, PlaceRoute(line, travels[i]), d)
  {
    var f := PlaceRoute(line, travels[i]);
    assert (2 * i) / 2 == i && (2 * i) % 2 == 0;
    assert ChainPoint(travels, 2 * i, d) == RoutePoint(line.drawing.initialX, line.drawing.initialY, travels[i]);
    assert f.points == fr.points + [ChainPoint(travels, 2 * i - 1, d), ChainPoint(travels, 2 * i, d)];
    ChainExtend(travels, i, fr, f, d);
  }

  lemma ChainStep(travels: seq<TravelDetails>, i: nat, fr: Frame, d: DrawingConfig)
    requires IsChain(travels) && !d.isUpper
    requires ChainInv(travels, i, fr, d) && i < |travels|
    ensures RepeatOnUpperTrack(travels, i, fr)
    ensures Step(travels, i, fr).1 == i + 1
    ensures ChainInv(travels, i + 1, Step(travels, i, fr).0, d)
  {
    ChainClassify(travels, i);
    StepStraight(travels, i, fr, false);
    ChainLine(travels, i, fr, d);
    ChainPlace(travels, i, fr, PlainLine(travels, fr), d);
  }

  lemma {:induction false} ChainScan(travels: seq<TravelDetails>, i: nat, fr: Frame, d: DrawingConfig)
    requires IsChain(travels) && !d.isUpper
    requires ChainInv(travels, i, fr, d) && RepeatOnUpperTrack(travels, i, fr)
    ensures ChainInv(travels, |travels|, ScanFrom(travels, i, fr), d)
    decreases |travels| - i
  {
    if i < |travels| {
      ChainStep(travels, i, fr, d);
      ChainScan(travels, i + 1, Step(travels, i, fr).0, d);
    }
  }

  /** A chain of legs is laid out exactly as ChainPoint says: 2n - 1 points,
      alternating labelled and empty-label points on the row y = height / 2. */
  lemma ChainLayout(travels: seq<TravelDetails>, d: DrawingConfig, height: nat)
    requires |travels| > 0 && IsChain(travels)
    ensures var r := Redraw(travels, d, height);
            && |r.points| == 2 * |travels| - 1
            && !r.drawing.isUpper
            && forall k :: 0 <= k < |r.points| ==> r.points[k] == ChainPoint(travels, k, ResetCursor(d, height))
  {
    var s := ResetCursor(d, height);
    var fr0 := Frame(s, []);
    assert Classify(travels, 0, false) == First;
    var f1 := PlaceRoute(fr0, travels[0]);
    assert Step(travels, 0, fr0) == (f1, 1);
    assert f1.points[0] == ChainPoint(travels, 0, s);
    assert ChainInv(travels, 1, f1, s);
    ChainScan(travels, 1, f1, s);
  }

  /** What one chain point is, read off its definition. */
  lemma ChainPointShape(travels: seq<TravelDetails>, k: nat, d: DrawingConfig)
    requires k / 2 < |travels|
    ensures ChainPoint(travels, k, d).y == d.initialY
    ensures ChainPoint(travels, k, d).isConnected
    ensures k % 2 == 0 ==> IsRoutePoint(ChainPoint(travels, k, d), travels[k / 2])
    ensures k % 2 == 1 ==> ChainPoint(travels, k, d).text == ""
  {
  }

  /** Chain point 2m is leg m's labelled point. */
  lemma ChainEvenPoint(travels: seq<TravelDetails>, m: nat, d: DrawingConfig)
    requires m < |travels|
    ensures IsRoutePoint(ChainPoint(travels, 2 * m, d), travels[m])
  {
    assert (2 * m) / 2 == m && (2 * m) % 2 == 0;
  }

  /** Chain point 2m + 1 is the unlabelled end of leg m's segment. */
  lemma ChainOddPoint(travels: seq<TravelDetails>, m: nat, d: DrawingConfig)
    requires m < |travels|
    ensures ChainPoint(travels, 2 * m + 1, d).text == ""
  {
    assert (2 * m + 1) / 2 == m && (2 * m + 1) % 2 == 1;
  }

  /** Consecutive chain points advance to the right. */
  lemma ChainPointAdvance(travels: seq<TravelDetails>, k: nat, d: DrawingConfig)
    requires (k + 1) / 2 < |travels|
    requires d.lineLength > 0.0 && d.circleDiff > 0.0
    ensures ChainPoint(travels, k, d).x < ChainPoint(travels, k + 1, d).x
  {
    var m := k / 2;
    var x := d.initialX + (m as real) * (d.lineLength + d.circleDiff);
    if k % 2 == 0 {
      assert (k + 1) / 2 == m && (k + 1) % 2 == 1;
      assert ChainPoint(travels, k, d).x == x;
      assert ChainPoint(travels, k + 1, d).x == x + d.lineLength;
    } else {
      assert (k + 1) / 2 == m + 1 && (k + 1) % 2 == 0;
      Distribute(m, d.lineLength + d.circleDiff);
      assert ChainPoint(travels, k, d).x == x + d.lineLength;
      assert ChainPoint(travels, k + 1, d).x == x + d.lineLength + d.circleDiff;
    }
  }

  /** With a positive segment length and spacing, the points of a chain
      layout advance strictly left to right. */
  lemma ChainPointsAdvance(travels: seq<TravelDetails>, r: seq<DrawPoint>, s: DrawingConfig)
    requires |travels| > 0 && |r| == 2 * |travels| - 1
    requires s.lineLength > 0.0 && s.circleDiff > 0.0
    requires forall k :: 0 <= k < |r| ==> r[k] == ChainPoint(travels, k, s)
    ensures forall k :: 0 < k < |r| ==> r[k - 1].x < r[k].x
  {
    forall k | 0 < k < |r| ensures r[k - 1].x < r[k].x {
      ChainPointAdvance(travels, k - 1, s);
    }
  }

  /** The points of a chain layout lie on the cursor's row and are all
      connected. */
  lemma ChainPointsShape(travels: seq<TravelDetails>, r: seq<DrawPoint>, s: DrawingConfig)
    requires |travels| > 0 && |r| == 2 * |travels| - 1
    requires forall k :: 0 <= k < |r| ==> r[k] == ChainPoint(travels, k, s)
    ensures forall k :: 0 <= k < |r| ==> r[k].y == s.initialY
    ensures forall k :: 0 <= k < |r| ==> r[k].isConnected
  {
    forall k | 0 <= k < |r| ensures r[k].y == s.initialY && r[k].isConnected {
      ChainPointShape(travels, k, s);
    }
  }

  /** In a chain layout even points carry their leg and odd points are
      unlabelled. */
  lemma ChainPointsLabels(travels: seq<TravelDetails>, r: seq<DrawPoint>, s: DrawingConfig)
    requires |travels| > 0 && |r| == 2 * |travels| - 1
    requires forall k :: 0 <= k < |r| ==> r[k] == ChainPoint(travels, k, s)
    ensures forall m :: 0 <= m < |travels| ==> IsRoutePoint(r[2 * m], travels[m])
    ensures forall m :: 0 <= m < |travels| - 1 ==> r[2 * m + 1].text == ""
  {
    forall m | 0 <= m < |travels| ensures IsRoutePoint(r[2 * m], travels[m]) {
      ChainEvenPoint(travels, m, s);
    }
    forall m | 0 <= m < |travels| - 1 ensures r[2 * m + 1].text == "" {
      ChainOddPoint(travels, m, s);
    }
  }

  /** A chain stays on the baseline row, even points carrying their leg and
      odd points unlabelled; with a positive segment length and spacing its
      points advance strictly left to right. */
  lemma ChainOnBaseline(travels: seq<TravelDetails>, d: DrawingConfig, height: nat)
    requires |travels| > 0 && IsChain(travels)
    ensures var r := Redraw(travels, d, height);
            && |r.points| == 2 * |travels| - 1
            && !r.drawing.isUpper
            && (forall k :: 0 <= k < |r.points| ==> r.points[k].y == height as real / 2.0)
            && (forall k :: 0 <= k < |r.points| ==> r.points[k].isConnected)
            && (forall m :: 0 <= m < |travels| ==> IsRoutePoint(r.points[2 * m], travels[m]))
            && (forall m :: 0 <= m < |travels| - 1 ==> r.points[2 * m + 1].text == "")
    ensures var r := Redraw(travels, d, height);
            d.lineLength > 0.0 && d.circleDiff > 0.0 ==> forall k :: 0 < k < |r.points| ==> r.points[k - 1].x < r.points[k].x
  {
    ChainLayout(travels, d, height);
    ChainPointsShape(travels, Redraw(travels, d, height).points, ResetCursor(d, height));
    ChainPointsLabels(travels, Redraw(travels, d, height).points, ResetCursor(d, height));
    if d.lineLength > 0.0 && d.circleDiff > 0.0 {
      ChainPointsAdvance(travels, Redraw(travels, d, height).points, ResetCursor(d, height));
    }
  }

  // ----------------------------------------------------------------------
  // Runs of points on one row

  /** Points from .. from + n - 1 of pts lie on row y, right of x0, each
      strictly right of the one before. */
  ghost predicate OnRow(pts: seq<DrawPoint>, from: nat, n: nat, y: real, x0: real) {
    && from + n <= |pts|
    && (forall k :: from <= k < from + n ==> pts[k].y == y && x0 < pts[k].x)
    && (forall k :: from < k < from + n ==> pts[k - 1].x < pts[k].x)
  }

  /** Points from, from + 2, ... are segment ends (no label) and points
      from + 1, from + 3, ... carry legs i, i + 1, ... */
  ghost predicate RunLabels(travels: seq<TravelDetails>, pts: seq<DrawPoint>, from: nat, i: nat, n: nat) {
    && from + 2 * n <= |pts|
    && forall m :: 0 <= m < n && i + m < |travels| ==>
         pts[from + 2 * m].text == "" && IsRoutePoint(pts[from + 2 * m + 1], travels[i + m])
  }

  lemma OnRowPrepend(pts: seq<DrawPoint>, from: nat, n: nat, y: real, x0: real)
    requires from + 2 <= |pts| && OnRow(pts, from + 2, n, y, pts[from + 1].x)
    requires pts[from].y == y && pts[from + 1].y == y
    requires x0 < pts[from].x < pts[from + 1].x
    ensures OnRow(pts, from, n + 2, y, x0)
  {
  }

  lemma RunLabelsPrepend(travels: seq<TravelDetails>, pts: seq<DrawPoint>, from: nat, i: nat, n: nat)
    requires i < |travels| && from + 2 <= |pts| && RunLabels(travels, pts, from + 2, i + 1, n)
    requires pts[from].text == "" && IsRoutePoint(pts[from + 1], travels[i])
    ensures RunLabels(travels, pts, from, i, n + 1)
  {
    forall m | 0 <= m < n + 1 && i + m < |travels|
      ensures pts[from + 2 * m].text == "" && IsRoutePoint(pts[from + 2 * m + 1], travels[i + m])
    {
      if m > 0 {
        assert from + 2 * m == (from + 2) + 2 * (m - 1);
      }
    }
  }

  /** Legs i .. j - 1 occupy points n .. n + 2 (j - i) - 1 of r: on row y,
      right of x, left to right, a segment end then the leg's labelled
      point. */
  ghost predicate Run(travels: seq<TravelDetails>, r: seq<DrawPoint>, i: nat, j: nat, n: nat, y: real, x: real)
    requires i <= j
  {
    OnRow(r, n, 2 * (j - i), y, x) && RunLabels(travels, r, n, i, j - i)
  }

  /** Points n and n + 1 of r are what a straight step from cursor d
      appends: the segment end at (x + lineLength, y), unlabelled, and leg
      i's labelled point circleDiff further right. */
  ghost predicate StraightPair(travels: seq<TravelDetails>, r: seq<DrawPoint>, n: nat, i: nat, d: DrawingConfig) {
    && n + 2 <= |r| && i < |travels|
    && r[n].y == d.initialY && r[n + 1].y == d.initialY
    && r[n].x == d.initialX + d.lineLength
    && r[n + 1].x == d.initialX + d.lineLength + d.circleDiff
    && r[n].text == "" && IsRoutePoint(r[n + 1], travels[i])
  }

  /** Legs i .. j - 1 laid out by straight steps from cursor d: points
      n .. n + 2 (j - i) - 1 of r are, leg by leg, the pair a straight step
      appends, each step moving the cursor lineLength + circleDiff right. */
  ghost predicate StraightRun(travels: seq<TravelDetails>, r: seq<DrawPoint>, i: nat, j: nat, n: nat, d: DrawingConfig)
    requires i <= j
    decreases j - i
  {
    && n <= |r|
    && (i < j ==>
          && StraightPair(travels, r, n, i, d)
          && StraightRun(travels, r, i + 1, j, n + 2, d.(initialX := d.initialX + d.lineLength + d.circleDiff)))
  }

  /** A longer point list that keeps the points of a keeps a straight
      step's pair in a. */
  lemma ExtendsKeepsPair(travels: seq<TravelDetails>, a: seq<DrawPoint>, b: seq<DrawPoint>, n: nat, i: nat, d: DrawingConfig)
    requires Extends(a, b) && StraightPair(travels, a, n, i, d)
    ensures StraightPair(travels, b, n, i, d)
  {
    assert SameButConnection(a[n], b[n]);
    assert SameButConnection(a[n + 1], b[n + 1]);
  }

  /** A straight step's pair in front of a run of the following legs is a
      run one leg longer. */
  lemma RunCons(travels: seq<TravelDetails>, r: seq<DrawPoint>, i: nat, j: nat, n: nat, d: DrawingConfig)
    requires i < j && StraightPair(travels, r, n, i, d)
    requires d.lineLength > 0.0 && d.circleDiff > 0.0
    requires Run(travels, r, i + 1, j, n + 2, d.initialY, d.initialX + d.lineLength + d.circleDiff)
    ensures Run(travels, r, i, j, n, d.initialY, d.initialX)
  {
    OnRowPrepend(r, n, 2 * (j - i - 1), d.initialY, d.initialX);
    RunLabelsPrepend(travels, r, n, i, j - i - 1);
    assert 2 * (j - i - 1) + 2 == 2 * (j - i) && j - i - 1 + 1 == j - i;
  }

  /** With a positive segment length and spacing, a straight run lies on the
      cursor's row, left to right and right of the cursor, segment ends and
      the legs' labelled points alternating. */
  lemma {:induction false} StraightRunOnRow(travels: seq<TravelDetails>, r: seq<DrawPoint>, i: nat, j: nat, n: nat, d: DrawingConfig)
    requires i <= j && StraightRun(travels, r, i, j, n, d)
    requires d.lineLength > 0.0 && d.circleDiff > 0.0
    ensures Run(travels, r, i, j, n, d.initialY, d.initialX)
    decreases j - i
  {
    if i < j {
      var e := d.(initialX := d.initialX + d.lineLength + d.circleDiff);
      StraightRunOnRow(travels, r, i + 1, j, n + 2, e);
      RunCons(travels, r, i, j, n, d);
    }
  }

  // ----------------------------------------------------------------------
  // Scenarios

  /** The label of a leg whose ends are short upper-case codes is the two
      codes joined by " - ". */
  lemma LabelOfShortCodes(a: string, b: string)
    requires |a| <= 3 && |b| <= 3
    requires forall k :: 0 <= k < |a| ==> 'A' <= a[k] <= 'Z'
    requires forall k :: 0 <= k < |b| ==> 'A' <= b[k] <= 'Z'
    ensures FormatPointLabel(a, b) == a + " - " + b
  {
    AbbrevOfShortUpper(a);
    AbbrevOfShortUpper(b);
  }

  /** NYC -> LON, LON -> PAR, PAR -> NYC: five points on one row, labelled
      "NYC - LON", "", "LON - PAR", "", "PAR - NYC", left to right. */
  lemma NycLonParScenario(d: DrawingConfig, height: nat)
    ensures var travels := [TravelDetails("NYC", "LON"), TravelDetails("LON", "PAR"), TravelDetails("PAR", "NYC")];
            var r := Redraw(travels, d, height).points;
            && |r| == 5
            && r[0].text == "NYC - LON" && r[1].text == "" && r[2].text == "LON - PAR"
            && r[3].text == "" && r[4].text == "PAR - NYC"
            && (forall k :: 0 <= k < 5 ==> r[k].y == height as real / 2.0 && r[k].isConnected)
            && (d.lineLength > 0.0 && d.circleDiff > 0.0 ==> r[0].x < r[1].x < r[2].x < r[3].x < r[4].x)
  {
    var travels := [TravelDetails("NYC", "LON"), TravelDetails("LON", "PAR"), TravelDetails("PAR", "NYC")];
    assert IsChain(travels);
    ChainOnBaseline(travels, d, height);
    var r := Redraw(travels, d, height).points;
    NycLonParPoints(travels, r, height as real / 2.0);
    if d.lineLength > 0.0 && d.circleDiff > 0.0 {
      assert r[1 - 1].x < r[1].x && r[2 - 1].x < r[2].x && r[3 - 1].x < r[3].x && r[4 - 1].x < r[4].x;
    }
  }

  lemma NycLonParPoints(travels: seq<TravelDetails>, r: seq<DrawPoint>, y: real)
    requires travels == [TravelDetails("NYC", "LON"), TravelDetails("LON", "PAR"), TravelDetails("PAR", "NYC")]
    requires |r| == 5
    requires forall k :: 0 <= k < |r| ==> r[k].y == y
    requires forall k :: 0 <= k < |r| ==> r[k].isConnected
    requires forall m :: 0 <= m < |travels| ==> IsRoutePoint(r[2 * m], travels[m])
    requires forall m :: 0 <= m < |travels| - 1 ==> r[2 * m + 1].text == ""
    ensures r[0].text == "NYC - LON" && r[1].text == "" && r[2].text == "LON - PAR"
    ensures r[3].text == "" && r[4].text == "PAR - NYC"
    ensures forall k :: 0 <= k < 5 ==> r[k].y == y && r[k].isConnected
  {
    LabelOfShortCodes("NYC", "LON");
    LabelOfShortCodes("LON", "PAR");
    LabelOfShortCodes("PAR", "NYC");
    assert IsRoutePoint(r[2 * 0], travels[0]);
    assert IsRoutePoint(r[2 * 1], travels[1]);
    assert IsRoutePoint(r[2 * 2], travels[2]);
    assert r[2 * 0 + 1].text == "" && r[2 * 1 + 1].text == "";
  }

  /** A leg repeated at index 1 is stacked: the repeat and the original are
      drawn 100 units above the first point, lineLength apart, all three
      labelled "A - B". */
  lemma DuplicatePairScenario(d: DrawingConfig, height: nat)
    ensures var t := TravelDetails("A", "B");
            var y := height as real / 2.0;
            Redraw([t, t], d, height).points ==
              [ RoutePoint(100.0, y, t),
                RoutePoint(100.0, y - 100.0, t),
                RoutePoint(100.0 + d.lineLength, y - 100.0, t) ]
    ensures FormatPointLabel("A", "B") == "A - B"
  {
    var t := TravelDetails("A", "B");
    var travels := [t, t];
    var fr0 := Frame(ResetCursor(d, height), []);
    assert Classify(travels, 0, false) == First;
    var (f1, i1) := Step(travels, 0, fr0);
    assert Classify(travels, 1, false) == Stack;
    var (f2, i2) := Step(travels, 1, f1);
    assert ScanFrom(travels, 0, fr0) == ScanFrom(travels, 1, f1) == ScanFrom(travels, 2, f2) == f2;
    LabelOfShortCodes("A", "B");
  }

  /** A → B then C → D: the second leg is disconnected, drawn as a straight
      segment (with an arrow head) on the same row. */
  lemma DisconnectedPairScenario(d: DrawingConfig, height: nat)
    ensures var travels := [TravelDetails("A", "B"), TravelDetails("C", "D")];
            var r := Redraw(travels, d, height).points;
            && Classify(travels, 1, false) == Straight(true)
            && |r| == 3
            && (forall k :: 0 <= k < 3 ==> r[k].y == height as real / 2.0)
            && IsRoutePoint(r[2], travels[1]) && r[1].text == ""
  {
    var travels := [TravelDetails("A", "B"), TravelDetails("C", "D")];
    var s := ResetCursor(d, height);
    var fr0 := Frame(s, []);
    assert Classify(travels, 0, false) == First;
    var f1 := PlaceRoute(fr0, travels[0]);
    assert Step(travels, 0, fr0) == (f1, 1);
    assert Classify(travels, 1, false) == Straight(true);
    var line := PlainLine(travels, f1);
    var f2 := PlaceRoute(line, travels[1]);
    assert Step(travels, 1, f1) == (f2, 2);
    assert ScanFrom(travels, 2, f2) == f2;
    assert ScanFrom(travels, 0, fr0) == f2;
    assert |line.points| == 2;
    assert line.points[1].y == s.initialY && line.points[1].text == "";
    assert f2.points[2] == RoutePoint(line.drawing.initialX, s.initialY, travels[1]);
  }

  // ----------------------------------------------------------------------
  // The upward curve always has a successor leg

  /** The scan would pick the upward curve for a last leg (one without a
      successor) exactly when that leg, at index 2 or later, repeats the
      previous one while the cursor is on the baseline. */
  lemma UpLoopWithoutSuccessor(travels: seq<TravelDetails>, i: nat, isUpper: bool)
    requires i < |travels|
    ensures (Classify(travels, i, isUpper) == UpLoop && i + 1 == |travels|) <==>
            (2 <= i && i + 1 == |travels| && SameRoute(travels[i], travels[i - 1]) && !isUpper)
  {
  }

  /** In every state the scan reaches, the upward curve is only chosen when
      leg i + 1 exists, so `handleUpCurvePoints` never reads past the end of
      travels. */
  lemma UpLoopHasSuccessor(travels: seq<TravelDetails>, i: nat, fr: Frame)
    requires i < |travels| && RepeatOnUpperTrack(travels, i, fr)
    requires Classify(travels, i, fr.drawing.isUpper) == UpLoop
    ensures i + 1 < |travels|
  {
    UpLoopWithoutSuccessor(travels, i, fr.drawing.isUpper);
  }
}
