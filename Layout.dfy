/** The layout engine of TripVisualizerComponent as a reference definition
    on values: a cursor (`DrawingConfig`) and the list of draw points are
    carried through the legs by the same steps the component performs.
    The component's methods (module TripVisualizer) are proved to compute
    exactly these functions; the lemmas here state what the layout
    guarantees. */
module Layout {
  import opened TripModel

  // ----------------------------------------------------------------------
  // Labels

  /** `toUpperCase` on one character (ASCII letters only). */
  function ToUpper(c: char): char {
    if 'a' <= c <= 'z' then (c as int - 32) as char else c
  }

  function MinNat(a: nat, b: nat): nat {
    if a <= b then a else b
  }

  /** `s.substring(0, 3).toUpperCase()`. */
  function Abbrev(s: string): (r: string)
    ensures |r| == MinNat(3, |s|)
    ensures forall k :: 0 <= k < |r| ==> r[k] == ToUpper(s[k]) && !('a' <= r[k] <= 'z')
  {
    var p := if |s| <= 3 then s else s[..3];
    seq(|p|, k requires 0 <= k < |p| => ToUpper(p[k]))
  }

  /** The label of a point: the upper-cased first (at most) three
      characters of each end, joined by " - ". */
  function FormatPointLabel(startPoint: string, endPoint: string): string {
    Abbrev(startPoint) + " - " + Abbrev(endPoint)
  }

  /** The label, character by character. */
  lemma FormatPointLabelShape(startPoint: string, endPoint: string)
    ensures var text, n := FormatPointLabel(startPoint, endPoint), MinNat(3, |startPoint|);
            && |text| == n + 3 + MinNat(3, |endPoint|)
            && (forall k :: 0 <= k < n ==> text[k] == ToUpper(startPoint[k]))
            && text[n..n + 3] == " - "
            && (forall k :: 0 <= k < MinNat(3, |endPoint|) ==> text[n + 3 + k] == ToUpper(endPoint[k]))
  {
    var a, b := Abbrev(startPoint), Abbrev(endPoint);
    var text := a + " - " + b;
    assert text[|a|..|a| + 3] == " - ";
  }

  /** Abbreviating twice is abbreviating once. */
  lemma AbbrevIdempotent(s: string)
    ensures Abbrev(Abbrev(s)) == Abbrev(s)
  {
    AbbrevOfShortUpper(Abbrev(s));
  }

  /** A name that is already upper case and at most three characters long
      is its own abbreviation. */
  lemma AbbrevOfShortUpper(s: string)
    requires |s| <= 3
    requires forall k :: 0 <= k < |s| ==> !('a' <= s[k] <= 'z')
    ensures Abbrev(s) == s
  {
    var r := Abbrev(s);
    assert |r| == |s|;
    forall k | 0 <= k < |s| ensures r[k] == s[k] {
      assert r[k] == ToUpper(s[k]);
    }
  }

  // ----------------------------------------------------------------------
  // Points and connection marking

  function Abs(v: real): real {
    if v < 0.0 then -v else v
  }

  /** Whether a point lies in the 10-unit box around (x, y). */
  predicate Near(p: DrawPoint, x: real, y: real) {
    Abs(p.x - x) < 10.0 && Abs(p.y - y) < 10.0
  }

  /** q is p, except that q may have become connected. */
  predicate SameButConnection(p: DrawPoint, q: DrawPoint) {
    q.x == p.x && q.y == p.y && q.text == p.text &&
    q.startPoint == p.startPoint && q.endPoint == p.endPoint &&
    (p.isConnected ==> q.isConnected)
  }

  /** b keeps every point of a in place (up to gaining connection) and
      may have more points after them. */
  predicate Extends(a: seq<DrawPoint>, b: seq<DrawPoint>) {
    |a| <= |b| && forall k :: 0 <= k < |a| ==> SameButConnection(a[k], b[k])
  }

  predicate AllConnected(pts: seq<DrawPoint>) {
    forall k :: 0 <= k < |pts| ==> pts[k].isConnected
  }

  /** `connectNearbyPoints(x, y)`: every point in the 10-unit box around
      (x, y) becomes connected; nothing else changes. */
  function ConnectNearby(pts: seq<DrawPoint>, x: real, y: real): (r: seq<DrawPoint>)
    ensures |r| == |pts|
    ensures forall k :: 0 <= k < |pts| ==>
              SameButConnection(pts[k], r[k]) &&
              r[k].isConnected == (pts[k].isConnected || Near(pts[k], x, y))
  {
    if pts == [] then []
    else
      var p := pts[0];
      [if Near(p, x, y) then p.(isConnected := true) else p] + ConnectNearby(pts[1..], x, y)
  }

  /** Marking the same box twice is the same as marking it once. */
  lemma ConnectNearbyIdempotent(pts: seq<DrawPoint>, x: real, y: real)
    ensures ConnectNearby(ConnectNearby(pts, x, y), x, y) == ConnectNearby(pts, x, y)
  {
    var once := ConnectNearby(pts, x, y);
    var twice := ConnectNearby(once, x, y);
    forall k | 0 <= k < |pts| ensures twice[k] == once[k] {
      assert Near(once[k], x, y) == Near(pts[k], x, y);
    }
  }

  /** When every point is already connected, marking changes nothing. */
  lemma ConnectNearbyOnConnected(pts: seq<DrawPoint>, x: real, y: real)
    requires AllConnected(pts)
    ensures ConnectNearby(pts, x, y) == pts
  {
    var r := ConnectNearby(pts, x, y);
    forall k | 0 <= k < |pts| ensures r[k] == pts[k] {
      assert SameButConnection(pts[k], r[k]) && r[k].isConnected;
    }
  }

  lemma ExtendsTransitive(a: seq<DrawPoint>, b: seq<DrawPoint>, c: seq<DrawPoint>)
    requires Extends(a, b) && Extends(b, c)
    ensures Extends(a, c)
  {
    forall k | 0 <= k < |a| ensures SameButConnection(a[k], c[k]) {
      assert SameButConnection(a[k], b[k]) && SameButConnection(b[k], c[k]);
    }
  }
  /** What every step of the scan keeps: the placed points (up to gaining
      connection), their being all connected, the segment length and the
      dot clearance. */
  predicate Keeps(before: Frame, after: Frame) {
    && Extends(before.points, after.points)
    && (AllConnected(before.points) ==> AllConnected(after.points))
    && after.drawing.lineLength == before.drawing.lineLength
    && after.drawing.circleDiff == before.drawing.circleDiff
  }

  lemma KeepsTransitive(a: Frame, b: Frame, c: Frame)
    requires Keeps(a, b) && Keeps(b, c)
    ensures Keeps(a, c)
  {
    ExtendsTransitive(a.points, b.points, c.points);
  }


  // ----------------------------------------------------------------------
  // Cursor steps

  /** The cursor together with the points placed so far. */
  datatype Frame = Frame(drawing: DrawingConfig, points: seq<DrawPoint>)

  /** The labelled, connected point a leg gets at (x, y). */
  function RoutePoint(x: real, y: real, t: TravelDetails): DrawPoint {
    DrawPoint(x, y, FormatPointLabel(t.startPoint, t.endPoint), true, t.startPoint, t.endPoint)
  }

  /** Whether p is a labelled point carrying leg t. */
  predicate IsRoutePoint(p: DrawPoint, t: TravelDetails) {
    p.text == FormatPointLabel(t.startPoint, t.endPoint) &&
    p.startPoint == t.startPoint && p.endPoint == t.endPoint
  }

  /** `addFirstPoint` / `addPointForCurrentRoute`: a labelled point for t at
      the cursor; the cursor stays. */
  function PlaceRoute(fr: Frame, t: TravelDetails): (r: Frame)
    ensures r.drawing == fr.drawing
    ensures r.points == fr.points + [RoutePoint(fr.drawing.initialX, fr.drawing.initialY, t)]
    ensures Extends(fr.points, r.points)
    ensures AllConnected(fr.points) ==> AllConnected(r.points)
  {
    fr.(points := fr.points + [RoutePoint(fr.drawing.initialX, fr.drawing.initialY, t)])
  }

  /** `createPlainLinePoint`: a straight segment of length lineLength from
      the cursor. The leg it is coloured with (and whose ends the new point
      carries) is the one at index floor(|points| / 2); when there is no
      such leg nothing happens. */
  function PlainLine(travels: seq<TravelDetails>, fr: Frame): (r: Frame)
  {
    var d := fr.drawing;
    var currentIndex := |fr.points| / 2;
    if currentIndex < |travels| then
      var current := travels[currentIndex];
      var endX := d.initialX + d.lineLength;
      var connected := ConnectNearby(fr.points, d.initialX, d.initialY);
      Frame(d.(initialX := endX + d.circleDiff),
            connected + [DrawPoint(endX, d.initialY, "", true, current.startPoint, current.endPoint)])
    else
      fr
  }

  /** What the plain line keeps and adds: the cursor's track, line length
      and spacing stay, the points only gain connections and, when there is
      a leg to colour it, the line's end point; without one nothing changes. */
  lemma PlainLineShape(travels: seq<TravelDetails>, fr: Frame)
    ensures var r := PlainLine(travels, fr);
            && r.drawing.initialY == fr.drawing.initialY
            && r.drawing.isUpper == fr.drawing.isUpper
            && r.drawing.lineLength == fr.drawing.lineLength
            && r.drawing.circleDiff == fr.drawing.circleDiff
            && Extends(fr.points, r.points)
            && (AllConnected(fr.points) ==> AllConnected(r.points))
            && (|fr.points| / 2 < |travels| ==>
                  var d, cur := fr.drawing, travels[|fr.points| / 2];
                  && r.drawing.initialX == d.initialX + d.lineLength + d.circleDiff
                  && |r.points| == |fr.points| + 1
                  && r.points[|fr.points|] ==
                     DrawPoint(d.initialX + d.lineLength, d.initialY, "", true, cur.startPoint, cur.endPoint))
            && (|fr.points| / 2 >= |travels| ==> r == fr)
  {
  }

  /** The plain line when there is a leg to colour it, written out. */
  lemma PlainLineAt(travels: seq<TravelDetails>, fr: Frame)
    requires |fr.points| / 2 < |travels|
    ensures var d, cur := fr.drawing, travels[|fr.points| / 2];
            PlainLine(travels, fr) ==
            Frame(d.(initialX := d.initialX + d.lineLength + d.circleDiff),
                  ConnectNearby(fr.points, d.initialX, d.initialY) +
                  [DrawPoint(d.initialX + d.lineLength, d.initialY, "", true, cur.startPoint, cur.endPoint)])
  {
  }

  /** The plain line from a frame whose points are all connected only
      appends the line's end point. */
  lemma PlainLineOnConnected(travels: seq<TravelDetails>, fr: Frame)
    requires |fr.points| / 2 < |travels| && AllConnected(fr.points)
    ensures var d, cur := fr.drawing, travels[|fr.points| / 2];
            && PlainLine(travels, fr).points ==
               fr.points + [DrawPoint(d.initialX + d.lineLength, d.initialY, "", true, cur.startPoint, cur.endPoint)]
            && PlainLine(travels, fr).drawing == d.(initialX := d.initialX + d.lineLength + d.circleDiff)
  {
    PlainLineAt(travels, fr);
    ConnectNearbyOnConnected(fr.points, fr.drawing.initialX, fr.drawing.initialY);
  }

  /** The plain line connects every point in the 10-unit box around the
      cursor it starts from. */
  lemma PlainLineConnectsStart(travels: seq<TravelDetails>, fr: Frame)
    requires |fr.points| / 2 < |travels|
    ensures var d := fr.drawing;
            forall k :: 0 <= k < |fr.points| && Near(fr.points[k], d.initialX, d.initialY) ==>
              PlainLine(travels, fr).points[k].isConnected
  {
  }

  /** The cursor at the end of the upward S-curve. */
  function Lifted(d: DrawingConfig): DrawingConfig {
    d.(initialX := d.initialX + 138.0, initialY := d.initialY - 80.0, isUpper := true)
  }

  /** `handleUpCurvePoints(k)`: lift the cursor by (+138, -80) onto the upper
      track and place leg k there; then a straight segment and a point for
      leg k + 1, which this step consumes (the source reads `travels[k + 1]`
      unconditionally; RepeatOnUpperTrack shows the scan only gets here when
      that leg exists). */
  function UpCurve(travels: seq<TravelDetails>, fr: Frame, k: nat): (r: Frame)
    requires k + 1 < |travels|
    ensures r.drawing.initialY == fr.drawing.initialY - 80.0
    ensures r.drawing.isUpper
    ensures r.drawing.lineLength == fr.drawing.lineLength
    ensures r.drawing.circleDiff == fr.drawing.circleDiff
    ensures Extends(fr.points + [RoutePoint(fr.drawing.initialX + 138.0, fr.drawing.initialY - 80.0, travels[k])], r.points)
    ensures AllConnected(fr.points) ==> AllConnected(r.points)
    ensures |r.points| == |fr.points| + (if (|fr.points| + 1) / 2 < |travels| then 3 else 2)
    ensures r.points[|r.points| - 1] == RoutePoint(r.drawing.initialX, r.drawing.initialY, travels[k + 1])
    ensures (|fr.points| + 1) / 2 < |travels| ==>
              var d, cur := fr.drawing, travels[(|fr.points| + 1) / 2];
              r.points[|fr.points| + 1] ==
              DrawPoint(d.initialX + 138.0 + d.lineLength, d.initialY - 80.0, "", true, cur.startPoint, cur.endPoint)
    ensures (|fr.points| + 1) / 2 < |travels| ==>
              r.drawing.initialX == fr.drawing.initialX + 138.0 + fr.drawing.lineLength + fr.drawing.circleDiff
  {
    var lifted := PlaceRoute(fr.(drawing := Lifted(fr.drawing)), travels[k]);
    var line := PlainLine(travels, lifted);
    ExtendsTransitive(fr.points, lifted.points, line.points);
    PlaceRoute(line, travels[k + 1])
  }

  /** `handleDownCurvePoints(j)`: drop the cursor by (+85, +80) back to the
      baseline and place leg j there. */
  function DownCurve(travels: seq<TravelDetails>, fr: Frame, j: nat): (r: Frame)
    requires j < |travels|
    ensures r.drawing == fr.drawing.(initialX := fr.drawing.initialX + 85.0,
                                     initialY := fr.drawing.initialY + 80.0,
                                     isUpper := false)
    ensures r.points == fr.points + [RoutePoint(fr.drawing.initialX + 85.0, fr.drawing.initialY + 80.0, travels[j])]
    ensures Extends(fr.points, r.points)
    ensures AllConnected(fr.points) ==> AllConnected(r.points)
  {
    var d := fr.drawing.(initialX := fr.drawing.initialX + 85.0,
                         initialY := fr.drawing.initialY + 80.0,
                         isUpper := false);
    PlaceRoute(fr.(drawing := d), travels[j])
  }

  /** `handleDuplicatePoints(l)`: legs l - 1 and l side by side, 100 units
      above the cursor and lineLength apart; the cursor moves onto that
      upper track, past the second point by circleDiff. */
  function DuplicatePoints(travels: seq<TravelDetails>, fr: Frame, l: nat): (r: Frame)
    requires 1 <= l < |travels|
    ensures var d := fr.drawing;
            r.drawing == d.(initialX := d.initialX + d.lineLength + d.circleDiff,
                            initialY := d.initialY - 100.0,
                            isUpper := true)
    ensures var d := fr.drawing;
            r.points == fr.points + [RoutePoint(d.initialX, d.initialY - 100.0, travels[l - 1]),
                                     RoutePoint(d.initialX + d.lineLength, d.initialY - 100.0, travels[l])]
    ensures Extends(fr.points, r.points)
    ensures AllConnected(fr.points) ==> AllConnected(r.points)
  {
    var d := fr.drawing;
    var upperY := d.initialY - 100.0;
    var newX := d.initialX + d.lineLength + d.circleDiff;
    var first := fr.points + [RoutePoint(d.initialX, upperY, travels[l - 1])];
    Frame(d.(initialX := newX, initialY := upperY, isUpper := true),
          first + [RoutePoint(newX - d.circleDiff, upperY, travels[l])])
  }

  // ----------------------------------------------------------------------
  // The scan

  /** How the scan handles one leg. */
  datatype Case = First | Stack | UpLoop | Straight(arrow: bool) | DownLoop

  predicate SameRoute(a: TravelDetails, b: TravelDetails) {
    a.startPoint == b.startPoint && a.endPoint == b.endPoint
  }

  /** The branch `calculateDrawPoints` and its handlers take for leg i, given
      the track flag: first leg; duplicate of the previous or next leg (with
      its index-1 special case); connected to the previous leg; otherwise
      disconnected. */
  function Classify(travels: seq<TravelDetails>, i: nat, isUpper: bool): (r: Case)
    requires i < |travels|
    ensures (r == First) == (i == 0)
    ensures r.DownLoop? ==> isUpper
    ensures r.Straight? && r.arrow ==> !isUpper && travels[i - 1].endPoint != travels[i].startPoint
    ensures (r == Stack || r == UpLoop) ==
            (i >= 1 && (i == 1 || !isUpper) &&
             (SameRoute(travels[i], travels[i - 1]) || (i + 1 < |travels| && SameRoute(travels[i], travels[i + 1]))))
    ensures var prev, next := i >= 1 && SameRoute(travels[i], travels[i - 1]),
                              i + 1 < |travels| && SameRoute(travels[i], travels[i + 1]);
            && (i == 1 && prev ==> r == Stack)
            && (i == 1 && !prev && next ==> r == UpLoop)
            && (i >= 2 && (prev || next) ==> r == (if isUpper then Straight(false) else UpLoop))
            && (i >= 1 && !prev && !next ==>
                  r == (if isUpper then DownLoop else Straight(travels[i - 1].endPoint != travels[i].startPoint)))
  {
    if i == 0 then First
    else
      var cur, prev := travels[i], travels[i - 1];
      var isSameAsPrev := SameRoute(cur, prev);
      var isSameAsNext := i + 1 < |travels| && SameRoute(cur, travels[i + 1]);
      if isSameAsPrev || isSameAsNext then
        if i == 1 then
          if isSameAsPrev && isSameAsNext then Stack
          else if isSameAsNext then UpLoop
          else Stack
        else if isUpper then Straight(false)
        else UpLoop
      else if prev.endPoint == cur.startPoint then
        if isUpper then DownLoop else Straight(false)
      else
        if isUpper then DownLoop else Straight(true)
  }

  /** The scan's invariant: when leg i (i >= 2) repeats leg i - 1, the
      cursor is on the upper track. (Leg i - 1 then saw its repeat as the
      next leg, and it either consumed leg i in an upward curve or left the
      cursor on the upper track.) */
  predicate RepeatOnUpperTrack(travels: seq<TravelDetails>, i: nat, fr: Frame) {
    2 <= i < |travels| && SameRoute(travels[i], travels[i - 1]) ==> fr.drawing.isUpper
  }

  /** One iteration of the scan at leg i: the new frame and the index of the
      next leg to handle (i + 2 when the upward curve consumed leg i + 1). */
  function Step(travels: seq<TravelDetails>, i: nat, fr: Frame): (r: (Frame, nat))
    requires i < |travels|
    requires RepeatOnUpperTrack(travels, i, fr)
    ensures i < r.1 <= i + 2
    ensures r.1 <= |travels|
    ensures RepeatOnUpperTrack(travels, r.1, r.0)
  {
    match Classify(travels, i, fr.drawing.isUpper)
    case First => (PlaceRoute(fr, travels[i]), i + 1)
    case Stack => (DuplicatePoints(travels, fr, i), i + 1)
    case UpLoop => (UpCurve(travels, fr, i), i + 2)
    case Straight(_) => (PlaceRoute(PlainLine(travels, fr), travels[i]), i + 1)
    case DownLoop => (DownCurve(travels, fr, i), i + 1)
  }

  /** The scan from leg i on. */
  function ScanFrom(travels: seq<TravelDetails>, i: nat, fr: Frame): Frame
    requires RepeatOnUpperTrack(travels, i, fr)
    decreases |travels| - i
  {
    if i >= |travels| then fr
    else
      var (next, j) := Step(travels, i, fr);
      ScanFrom(travels, j, next)
  }

  /** The scan from leg i is its first step, then the scan from where that
      step leaves off. */
  lemma ScanFromStep(travels: seq<TravelDetails>, i: nat, fr: Frame)
    requires i < |travels| && RepeatOnUpperTrack(travels, i, fr)
    ensures ScanFrom(travels, i, fr) == ScanFrom(travels, Step(travels, i, fr).1, Step(travels, i, fr).0)
  {
  }

  // ----------------------------------------------------------------------
  // Colour lookups made while laying out

  /** The (start, end) pair a leg is coloured by. */
  function PairOf(t: TravelDetails): (string, string) {
    (t.startPoint, t.endPoint)
  }

  /** The pairs `createPlainLinePoint` looks up: the current leg for the
      line, and once more for the arrow head of a disconnected leg. */
  function PlainLineLookups(travels: seq<TravelDetails>, fr: Frame, addArrow: bool): seq<(string, string)> {
    var currentIndex := |fr.points| / 2;
    if currentIndex < |travels| then
      var p := PairOf(travels[currentIndex]);
      if addArrow then [p, p] else [p]
    else []
  }

  /** The pairs `handleUpCurvePoints(k)` looks up: leg k for the curve,
      then the plain line drawn from the lifted cursor. */
  function UpCurveLookups(travels: seq<TravelDetails>, fr: Frame, k: nat): seq<(string, string)>
    requires k < |travels|
  {
    [PairOf(travels[k])] + PlainLineLookups(travels, PlaceRoute(fr.(drawing := Lifted(fr.drawing)), travels[k]), false)
  }

  /** The pairs one step of the scan looks up, in order. */
  function StepLookups(travels: seq<TravelDetails>, i: nat, fr: Frame): seq<(string, string)>
    requires i < |travels|
  {
    match Classify(travels, i, fr.drawing.isUpper)
    case First => []
    case Stack => [PairOf(travels[i - 1])]
    case UpLoop => UpCurveLookups(travels, fr, i)
    case Straight(arrow) => PlainLineLookups(travels, fr, arrow)
    case DownLoop => [PairOf(travels[i])]
  }

  /** The pairs the scan from leg i on looks up, in order. */
  function ScanLookups(travels: seq<TravelDetails>, i: nat, fr: Frame): seq<(string, string)>
    requires RepeatOnUpperTrack(travels, i, fr)
    decreases |travels| - i
  {
    if i >= |travels| then []
    else
      var (next, j) := Step(travels, i, fr);
      StepLookups(travels, i, fr) + ScanLookups(travels, j, next)
  }

  // What one step is in each case; one lemma per case keeps each proof
  // small.

  lemma StepFirst(travels: seq<TravelDetails>, i: nat, fr: Frame)
    requires i < |travels| && RepeatOnUpperTrack(travels, i, fr)
    requires Classify(travels, i, fr.drawing.isUpper) == First
    ensures Step(travels, i, fr).0 == PlaceRoute(fr, travels[i]) && Step(travels, i, fr).1 == i + 1
    ensures StepLookups(travels, i, fr) == []
    ensures Keeps(fr, Step(travels, i, fr).0)
  {
  }

  lemma StepStack(travels: seq<TravelDetails>, i: nat, fr: Frame)
    requires i < |travels| && RepeatOnUpperTrack(travels, i, fr)
    requires Classify(travels, i, fr.drawing.isUpper) == Stack
    ensures 1 <= i
    ensures Step(travels, i, fr).0 == DuplicatePoints(travels, fr, i) && Step(travels, i, fr).1 == i + 1
    ensures StepLookups(travels, i, fr) == [PairOf(travels[i - 1])]
    ensures Keeps(fr, Step(travels, i, fr).0)
  {
  }

  lemma StepUpLoop(travels: seq<TravelDetails>, i: nat, fr: Frame)
    requires i < |travels| && RepeatOnUpperTrack(travels, i, fr)
    requires Classify(travels, i, fr.drawing.isUpper) == UpLoop
    ensures i + 1 < |travels|
    ensures Step(travels, i, fr).0 == UpCurve(travels, fr, i) && Step(travels, i, fr).1 == i + 2
    ensures StepLookups(travels, i, fr) == UpCurveLookups(travels, fr, i)
    ensures Keeps(fr, Step(travels, i, fr).0)
  {
    UpCurveKeeps(travels, fr, i);
  }

  /** The upward curve keeps the points drawn before it, their connections,
      the line length and the spacing. */
  lemma UpCurveKeeps(travels: seq<TravelDetails>, fr: Frame, k: nat)
    requires k + 1 < |travels|
    ensures Keeps(fr, UpCurve(travels, fr, k))
  {
    var d := fr.drawing;
    ExtendsTransitive(fr.points, fr.points + [RoutePoint(d.initialX + 138.0, d.initialY - 80.0, travels[k])],
                      UpCurve(travels, fr, k).points);
  }

  lemma StepStraight(travels: seq<TravelDetails>, i: nat, fr: Frame, arrow: bool)
    requires i < |travels| && RepeatOnUpperTrack(travels, i, fr)
    requires Classify(travels, i, fr.drawing.isUpper) == Straight(arrow)
    ensures Step(travels, i, fr).0 == PlaceRoute(PlainLine(travels, fr), travels[i]) && Step(travels, i, fr).1 == i + 1
    ensures StepLookups(travels, i, fr) == PlainLineLookups(travels, fr, arrow)
    ensures Keeps(fr, Step(travels, i, fr).0)
  {
    var line := PlainLine(travels, fr);
    PlainLineShape(travels, fr);
    ExtendsTransitive(fr.points, line.points, PlaceRoute(line, travels[i]).points);
  }

  lemma StepDownLoop(travels: seq<TravelDetails>, i: nat, fr: Frame)
    requires i < |travels| && RepeatOnUpperTrack(travels, i, fr)
    requires Classify(travels, i, fr.drawing.isUpper) == DownLoop
    ensures Step(travels, i, fr).0 == DownCurve(travels, fr, i) && Step(travels, i, fr).1 == i + 1
    ensures StepLookups(travels, i, fr) == [PairOf(travels[i])]
    ensures Keeps(fr, Step(travels, i, fr).0)
  {
  }

  /** A step keeps what Keeps names. */
  lemma StepKeeps(travels: seq<TravelDetails>, i: nat, fr: Frame)
    requires i < |travels| && RepeatOnUpperTrack(travels, i, fr)
    ensures Keeps(fr, Step(travels, i, fr).0)
  {
    match Classify(travels, i, fr.drawing.isUpper)
    case First => StepFirst(travels, i, fr);
    case Stack => StepStack(travels, i, fr);
    case UpLoop => StepUpLoop(travels, i, fr);
    case Straight(arrow) => StepStraight(travels, i, fr, arrow);
    case DownLoop => StepDownLoop(travels, i, fr);
  }

  /** The whole scan keeps what each step keeps. */
  lemma {:induction false} ScanKeeps(travels: seq<TravelDetails>, i: nat, fr: Frame)
    requires RepeatOnUpperTrack(travels, i, fr)
    ensures Keeps(fr, ScanFrom(travels, i, fr))
    decreases |travels| - i
  {
    if i < |travels| {
      var next, j := Step(travels, i, fr).0, Step(travels, i, fr).1;
      StepKeeps(travels, i, fr);
      ScanKeeps(travels, j, next);
      KeepsTransitive(fr, next, ScanFrom(travels, j, next));
    }
  }

  /** The cursor `drawCanvas` starts from: x = 100, y = height / 2, on the
      baseline; lineLength and circleDiff are kept. */
  function ResetCursor(d: DrawingConfig, height: nat): DrawingConfig {
    d.(initialX := 100.0, initialY := height as real / 2.0, isUpper := false)
  }

  /** What `drawCanvas` computes: the cursor reset, the point list emptied,
      then the whole scan. */
  function Redraw(travels: seq<TravelDetails>, d: DrawingConfig, height: nat): Frame {
    ScanFrom(travels, 0, Frame(ResetCursor(d, height), []))
  }

  /** `addTravelDetails`' segment length: min(250, (width - 200) / n), with
      no floor at 0. */
  function LineLengthFor(width: nat, n: nat): (r: real)
    requires n > 0
    ensures r <= 250.0
    ensures r <= (width as real - 200.0) / n as real
    ensures r == 250.0 || r == (width as real - 200.0) / n as real
  {
    var q := (width as real - 200.0) / n as real;
    if 250.0 < q then 250.0 else q
  }
}
