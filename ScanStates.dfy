/** The states the layout scan reaches from an empty point list, and what
    holds in them: the plain line always has a leg to colour it, a run of
    plain legs reached on the baseline is laid out left to right on one row,
    and adding a leg never lowers the number of points. */
module ScanStates {
  import opened TripModel
  import opened Layout
  import opened LayoutProperties

  // ----------------------------------------------------------------------
  // Reached states

  /** What holds at leg i of a scan that started at leg 0 with no points:
      the repeat-on-upper-track invariant, and at most two points per leg
      handled so far, the first leg counting one. */
  ghost predicate Reached(travels: seq<TravelDetails>, i: nat, fr: Frame) {
    && RepeatOnUpperTrack(travels, i, fr)
    && (if i == 0 then |fr.points| == 0 else |fr.points| <= 2 * i - 1)
  }

  /** The upward curve adds at most three points. */
  lemma UpCurveSize(travels: seq<TravelDetails>, fr: Frame, k: nat)
    requires k + 1 < |travels|
    ensures |UpCurve(travels, fr, k).points| <= |fr.points| + 3
  {
    PlainLineShape(travels, PlaceRoute(fr.(drawing := Lifted(fr.drawing)), travels[k]));
  }

  /** Every step keeps the scan in a reached state. */
  lemma StepReached(travels: seq<TravelDetails>, i: nat, fr: Frame)
    requires i < |travels| && Reached(travels, i, fr)
    ensures Reached(travels, Step(travels, i, fr).1, Step(travels, i, fr).0)
  {
    match Classify(travels, i, fr.drawing.isUpper)
    case First => StepFirst(travels, i, fr);
    case Stack => StepStack(travels, i, fr);
    case UpLoop => StepUpLoop(travels, i, fr); UpCurveSize(travels, fr, i);
    case Straight(arrow) => StepStraight(travels, i, fr, arrow); PlainLineShape(travels, fr);
    case DownLoop => StepDownLoop(travels, i, fr);
  }

  /** In a reached state, a straight step always finds the leg at index
      floor(|points| / 2) that colours its segment, so the segment is drawn:
      the cursor moves right by lineLength + circleDiff on the same row, and
      the segment's end point and leg i's labelled point are appended. */
  lemma StraightStep(travels: seq<TravelDetails>, i: nat, fr: Frame)
    requires i < |travels| && Reached(travels, i, fr)
    requires Classify(travels, i, fr.drawing.isUpper).Straight?
    ensures |fr.points| / 2 < |travels|
    ensures var d, r, cur := fr.drawing, Step(travels, i, fr).0, travels[|fr.points| / 2];
            && Step(travels, i, fr).1 == i + 1
            && r.drawing == d.(initialX := d.initialX + d.lineLength + d.circleDiff)
            && |r.points| == |fr.points| + 2
            && Extends(fr.points, r.points)
            && r.points[|fr.points|] == DrawPoint(d.initialX + d.lineLength, d.initialY, "", true, cur.startPoint, cur.endPoint)
            && r.points[|fr.points| + 1] == RoutePoint(d.initialX + d.lineLength + d.circleDiff, d.initialY, travels[i])
  ensures StraightPair(travels, Step(travels, i, fr).0.points, |fr.points|, i, fr.drawing)
  {
    StepStraight(travels, i, fr, Classify(travels, i, fr.drawing.isUpper).arrow);
    PlainLineShape(travels, fr);
    var line := PlainLine(travels, fr);
    ExtendsTransitive(fr.points, line.points, PlaceRoute(line, travels[i]).points);
  }

  // ----------------------------------------------------------------------
  // A run of plain legs on one row

  /** Leg l repeats neither its predecessor nor its successor. */
  predicate PlainLeg(travels: seq<TravelDetails>, l: nat) {
    1 <= l < |travels| && !SameRoute(travels[l], travels[l - 1]) &&
    !(l + 1 < |travels| && SameRoute(travels[l], travels[l + 1]))
  }

  /** On the baseline, a plain leg is a straight step. */
  lemma PlainLegIsStraight(travels: seq<TravelDetails>, l: nat)
    requires PlainLeg(travels, l)
    ensures Classify(travels, l, false).Straight?
  {
  }

  /** The first leg of a run: the step from fr is straight and leaves a
      reached state g one leg on, with the cursor moved right by
      lineLength + circleDiff on the same row and track. */
  lemma BaselineNext(travels: seq<TravelDetails>, i: nat, fr: Frame) returns (g: Frame)
    requires i < |travels| && Reached(travels, i, fr) && PlainLeg(travels, i) && !fr.drawing.isUpper
    ensures g == Step(travels, i, fr).0 && Step(travels, i, fr).1 == i + 1
    ensures Reached(travels, i + 1, g)
    ensures g.drawing == fr.drawing.(initialX := fr.drawing.initialX + fr.drawing.lineLength + fr.drawing.circleDiff)
    ensures |g.points| == |fr.points| + 2
    ensures StraightPair(travels, g.points, |fr.points|, i, fr.drawing)
  {
    PlainLegIsStraight(travels, i);
    StraightStep(travels, i, fr);
    StepReached(travels, i, fr);
    g := Step(travels, i, fr).0;
  }

  /** The two points a straight step appended keep their row, position and
      label in the layout the rest of the scan finishes. */
  lemma StraightPairKept(travels: seq<TravelDetails>, i: nat, g: Frame, n: nat, d: DrawingConfig)
    requires RepeatOnUpperTrack(travels, i + 1, g) && StraightPair(travels, g.points, n, i, d)
    ensures StraightPair(travels, ScanFrom(travels, i + 1, g).points, n, i, d)
  {
    ScanKeeps(travels, i + 1, g);
    ExtendsKeepsPair(travels, g.points, ScanFrom(travels, i + 1, g).points, n, i, d);
  }

  /** A straight step's pair in front of the run the rest of the scan lays
      out from where the step leaves off. */
  lemma BaselineCons(travels: seq<TravelDetails>, i: nat, j: nat, fr: Frame, g: Frame)
    requires i < j <= |travels| && RepeatOnUpperTrack(travels, i, fr)
    requires g == Step(travels, i, fr).0 && Step(travels, i, fr).1 == i + 1
    requires StraightPair(travels, g.points, |fr.points|, i, fr.drawing)
    requires g.drawing == fr.drawing.(initialX := fr.drawing.initialX + fr.drawing.lineLength + fr.drawing.circleDiff)
    requires |g.points| == |fr.points| + 2
    requires StraightRun(travels, ScanFrom(travels, i + 1, g).points, i + 1, j, |g.points|, g.drawing)
    ensures StraightRun(travels, ScanFrom(travels, i, fr).points, i, j, |fr.points|, fr.drawing)
  {
    ScanFromStep(travels, i, fr);
    StraightPairKept(travels, i, g, |fr.points|, fr.drawing);
    assert ScanFrom(travels, i, fr).points == ScanFrom(travels, i + 1, g).points;
  }

  /** From any reached state on the baseline, legs i .. j - 1 that repeat
      neither neighbour are laid out by straight steps on the cursor's row,
      and later legs do not move them. */
  lemma {:induction false} BaselineRun(travels: seq<TravelDetails>, i: nat, j: nat, fr: Frame)
    requires i <= j <= |travels| && Reached(travels, i, fr) && !fr.drawing.isUpper
    requires forall l :: i <= l < j ==> PlainLeg(travels, l)
    ensures StraightRun(travels, ScanFrom(travels, i, fr).points, i, j, |fr.points|, fr.drawing)
    decreases j - i
  {
    if i < j {
      var g := BaselineNext(travels, i, fr);
      BaselineRun(travels, i + 1, j, g);
      BaselineCons(travels, i, j, fr, g);
    } else {
      ScanKeeps(travels, i, fr);
    }
  }

  // ----------------------------------------------------------------------
  // The states of a redraw

  /** The scan from leg i, stopped before the first leg at index j or later:
      the frame and the index it stopped at. */
  function ScanUntil(travels: seq<TravelDetails>, i: nat, fr: Frame, j: nat): (Frame, nat)
    requires RepeatOnUpperTrack(travels, i, fr)
    decreases |travels| - i
  {
    if i >= |travels| || i >= j then (fr, i)
    else ScanUntil(travels, Step(travels, i, fr).1, Step(travels, i, fr).0, j)
  }

  /** Stopping the scan part way gives a reached state from which the rest
      of the scan finishes the same layout. */
  lemma {:induction false} ScanUntilReached(travels: seq<TravelDetails>, i: nat, fr: Frame, j: nat)
    requires Reached(travels, i, fr)
    ensures var s := ScanUntil(travels, i, fr, j);
            && Reached(travels, s.1, s.0)
            && ScanFrom(travels, s.1, s.0) == ScanFrom(travels, i, fr)
    decreases |travels| - i
  {
    if i < |travels| && i < j {
      StepReached(travels, i, fr);
      ScanUntilReached(travels, Step(travels, i, fr).1, Step(travels, i, fr).0, j);
    }
  }

  /** A run of plain legs i .. j - 1 that the redraw reaches on the baseline
      (leg i - 1 was not consumed by an upward curve and the cursor is not
      on the upper track) ends up on that row, left to right, in the
      redrawn points. */
  lemma RedrawBaselineRun(travels: seq<TravelDetails>, d: DrawingConfig, height: nat, i: nat, j: nat)
    requires i <= j <= |travels|
    requires forall l :: i <= l < j ==> PlainLeg(travels, l)
    requires var s := ScanUntil(travels, 0, Frame(ResetCursor(d, height), []), i);
             s.1 == i && !s.0.drawing.isUpper
    ensures var s := ScanUntil(travels, 0, Frame(ResetCursor(d, height), []), i);
            && StraightRun(travels, Redraw(travels, d, height).points, i, j, |s.0.points|, s.0.drawing)
            && s.0.drawing.lineLength == d.lineLength && s.0.drawing.circleDiff == d.circleDiff
    ensures var s := ScanUntil(travels, 0, Frame(ResetCursor(d, height), []), i);
            d.lineLength > 0.0 && d.circleDiff > 0.0 ==>
              Run(travels, Redraw(travels, d, height).points, i, j, |s.0.points|, s.0.drawing.initialY, s.0.drawing.initialX)
  {
    var start := Frame(ResetCursor(d, height), []);
    ScanUntilReached(travels, 0, start, i);
    var s := ScanUntil(travels, 0, start, i);
    ScanUntilKeeps(travels, 0, start, i);
    BaselineRun(travels, i, j, s.0);
    if d.lineLength > 0.0 && d.circleDiff > 0.0 {
      StraightRunOnRow(travels, Redraw(travels, d, height).points, i, j, |s.0.points|, s.0.drawing);
    }
  }

  /** Stopping part way keeps the segment length and spacing. */
  lemma {:induction false} ScanUntilKeeps(travels: seq<TravelDetails>, i: nat, fr: Frame, j: nat)
    requires RepeatOnUpperTrack(travels, i, fr)
    ensures Keeps(fr, ScanUntil(travels, i, fr, j).0)
    decreases |travels| - i
  {
    if i < |travels| && i < j {
      var g := Step(travels, i, fr).0;
      StepKeeps(travels, i, fr);
      ScanUntilKeeps(travels, Step(travels, i, fr).1, g, j);
      KeepsTransitive(fr, g, ScanUntil(travels, i, fr, j).0);
    }
  }

  // ----------------------------------------------------------------------
  // Adding a leg

  /** How many points a step adds in each case. */
  function Gain(c: Case): nat {
    match c
    case First => 1
    case Stack => 2
    case UpLoop => 3
    case Straight(_) => 2
    case DownLoop => 1
  }

  /** In a reached state every step adds Gain points: the plain line of a
      straight step and of an upward curve always has a leg to colour it. */
  lemma StepGain(travels: seq<TravelDetails>, i: nat, fr: Frame)
    requires i < |travels| && Reached(travels, i, fr)
    ensures |Step(travels, i, fr).0.points| == |fr.points| + Gain(Classify(travels, i, fr.drawing.isUpper))
  {
    match Classify(travels, i, fr.drawing.isUpper)
    case First => StepFirst(travels, i, fr);
    case Stack => StepStack(travels, i, fr);
    case UpLoop =>
      StepUpLoop(travels, i, fr);
      PlainLineShape(travels, PlaceRoute(fr.(drawing := Lifted(fr.drawing)), travels[i]));
    case Straight(_) => StraightStep(travels, i, fr);
    case DownLoop => StepDownLoop(travels, i, fr);
  }

  /** From a reached state, the scan over at least one more leg adds at
      least one point. */
  lemma ScanAdds(travels: seq<TravelDetails>, i: nat, fr: Frame)
    requires i < |travels| && Reached(travels, i, fr)
    ensures |ScanFrom(travels, i, fr).points| > |fr.points|
  {
    StepGain(travels, i, fr);
    ScanFromStep(travels, i, fr);
    ScanKeeps(travels, Step(travels, i, fr).1, Step(travels, i, fr).0);
  }

  /** A plain line coloured by one of the legs draws the same with a leg
      added at the end. */
  lemma PlainLineSnoc(travels: seq<TravelDetails>, t: TravelDetails, fr: Frame)
    requires |fr.points| / 2 < |travels|
    ensures PlainLine(travels + [t], fr) == PlainLine(travels, fr)
  {
    assert (travels + [t])[|fr.points| / 2] == travels[|fr.points| / 2];
  }

  lemma UpCurveSnoc(travels: seq<TravelDetails>, t: TravelDetails, fr: Frame, k: nat)
    requires k + 1 < |travels| && (|fr.points| + 1) / 2 < |travels|
    ensures UpCurve(travels + [t], fr, k) == UpCurve(travels, fr, k)
  {
    assert (travels + [t])[k] == travels[k] && (travels + [t])[k + 1] == travels[k + 1];
    PlainLineSnoc(travels, t, PlaceRoute(fr.(drawing := Lifted(fr.drawing)), travels[k]));
  }

  /** A leg with a successor is handled the same with a leg added at the
      end. */
  lemma StepSnoc(travels: seq<TravelDetails>, t: TravelDetails, i: nat, fr: Frame)
    requires i + 1 < |travels| && Reached(travels, i, fr)
    ensures Reached(travels + [t], i, fr)
    ensures Step(travels + [t], i, fr) == Step(travels, i, fr)
  {
    var longer := travels + [t];
    assert longer[i] == travels[i] && longer[i + 1] == travels[i + 1];
    assert i >= 1 ==> longer[i - 1] == travels[i - 1];
    assert Classify(longer, i, fr.drawing.isUpper) == Classify(travels, i, fr.drawing.isUpper);
    match Classify(travels, i, fr.drawing.isUpper)
    case First =>
    case Stack =>
    case UpLoop => UpCurveSnoc(travels, t, fr, i);
    case Straight(_) => PlainLineSnoc(travels, t, fr);
    case DownLoop =>
  }

  /** The last leg of a list: with a leg added after it, its step adds at
      least as many points, and one more when it consumes the new leg. */
  lemma LastStepSnoc(travels: seq<TravelDetails>, t: TravelDetails, fr: Frame)
    requires |travels| > 0 && Reached(travels, |travels| - 1, fr)
    ensures Reached(travels + [t], |travels| - 1, fr)
    ensures Step(travels, |travels| - 1, fr).1 == |travels|
    ensures var s, s' := Step(travels, |travels| - 1, fr), Step(travels + [t], |travels| - 1, fr);
            && |travels| <= s'.1
            && |s'.0.points| >= |s.0.points| + (if s'.1 == |travels| then 0 else 1)
  {
    var i, longer := |travels| - 1, travels + [t];
    assert longer[i] == travels[i];
    assert i >= 1 ==> longer[i - 1] == travels[i - 1];
    StepGain(travels, i, fr);
    StepGain(longer, i, fr);
    if Classify(longer, i, fr.drawing.isUpper) == UpLoop {
      StepUpLoop(longer, i, fr);
    }
  }

  /** Adding a leg at the end adds points to the scan from any reached
      state. */
  lemma {:induction false} ScanSnocGrows(travels: seq<TravelDetails>, t: TravelDetails, i: nat, fr: Frame)
    requires i <= |travels| && Reached(travels, i, fr) && Reached(travels + [t], i, fr)
    ensures |ScanFrom(travels + [t], i, fr).points| > |ScanFrom(travels, i, fr).points|
    decreases |travels| - i
  {
    var longer := travels + [t];
    if i == |travels| {
      ScanAdds(longer, i, fr);
    } else if i + 1 == |travels| {
      LastStepSnoc(travels, t, fr);
      ScanFromStep(travels, i, fr);
      ScanFromStep(longer, i, fr);
      var g := Step(longer, i, fr).0;
      StepReached(longer, i, fr);
      if Step(longer, i, fr).1 == |travels| {
        ScanAdds(longer, |travels|, g);
      }
    } else {
      StepSnoc(travels, t, i, fr);
      StepReached(travels, i, fr);
      ScanSnocGrows(travels, t, Step(travels, i, fr).1, Step(travels, i, fr).0);
      ScanFromStep(travels, i, fr);
      ScanFromStep(longer, i, fr);
    }
  }

  // ----------------------------------------------------------------------
  // The count of points does not depend on the cursor settings

  /** Two frames with as many points and on the same track: the scan
      classifies their legs alike, whatever their cursors. */
  predicate SameCount(a: Frame, b: Frame) {
    |a.points| == |b.points| && a.drawing.isUpper == b.drawing.isUpper
  }

  /** A step from two such frames consumes the same legs and leaves two
      such frames. */
  lemma StepSameCount(travels: seq<TravelDetails>, i: nat, a: Frame, b: Frame)
    requires i < |travels| && RepeatOnUpperTrack(travels, i, a) && SameCount(a, b)
    ensures RepeatOnUpperTrack(travels, i, b)
    ensures Step(travels, i, a).1 == Step(travels, i, b).1
    ensures SameCount(Step(travels, i, a).0, Step(travels, i, b).0)
  {
    match Classify(travels, i, a.drawing.isUpper)
    case First => StepFirst(travels, i, a); StepFirst(travels, i, b);
    case Stack => StepStack(travels, i, a); StepStack(travels, i, b);
    case UpLoop =>
      StepUpLoop(travels, i, a);
      StepUpLoop(travels, i, b);
      PlainLineShape(travels, PlaceRoute(a.(drawing := Lifted(a.drawing)), travels[i]));
      PlainLineShape(travels, PlaceRoute(b.(drawing := Lifted(b.drawing)), travels[i]));
    case Straight(arrow) =>
      StepStraight(travels, i, a, arrow);
      StepStraight(travels, i, b, arrow);
      PlainLineShape(travels, a);
      PlainLineShape(travels, b);
    case DownLoop => StepDownLoop(travels, i, a); StepDownLoop(travels, i, b);
  }

  lemma {:induction false} ScanSameCount(travels: seq<TravelDetails>, i: nat, a: Frame, b: Frame)
    requires RepeatOnUpperTrack(travels, i, a) && SameCount(a, b)
    ensures |ScanFrom(travels, i, a).points| == |ScanFrom(travels, i, b).points|
    decreases |travels| - i
  {
    if i < |travels| {
      StepSameCount(travels, i, a, b);
      ScanFromStep(travels, i, a);
      ScanFromStep(travels, i, b);
      ScanSameCount(travels, Step(travels, i, a).1, Step(travels, i, a).0, Step(travels, i, b).0);
    }
  }

  /** How many points a redraw lays out depends on the legs alone, not on
      the segment length, the circle spacing or the canvas height. */
  lemma RedrawCountIndependent(travels: seq<TravelDetails>, d1: DrawingConfig, d2: DrawingConfig, h1: nat, h2: nat)
    ensures |Redraw(travels, d1, h1).points| == |Redraw(travels, d2, h2).points|
  {
    ScanSameCount(travels, 0, Frame(ResetCursor(d1, h1), []), Frame(ResetCursor(d2, h2), []));
  }

  /** `addTravelDetails` never lowers the number of points the redraw lays
      out: every added leg adds at least one, even though the segment
      length is recomputed and the canvas may have been resized in
      between. */
  lemma RedrawGrows(travels: seq<TravelDetails>, t: TravelDetails, d1: DrawingConfig, d2: DrawingConfig, h1: nat, h2: nat)
    ensures |Redraw(travels + [t], d2, h2).points| > |Redraw(travels, d1, h1).points|
  {
    ScanSnocGrows(travels, t, 0, Frame(ResetCursor(d1, h1), []));
    RedrawCountIndependent(travels + [t], d1, d2, h1, h2);
  }
}
