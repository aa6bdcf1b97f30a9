# Trip visualizer layout engine, in Dafny

This project models the layout engine of the Angular component
`TripVisualizerComponent` (`src/app/components/trip-visualizer/trip-visualizer.component.ts`).
The component takes an ordered list of travel legs (start, end). It lays them
out on a canvas as a list of labelled draw points and keeps a registry of one
colour per unordered pair of places. It keeps two pieces of state:

- `drawing`: the cursor, with `initialX`, `initialY`, `lineLength`,
  `circleDiff` (always 10) and the `isUpper` track flag;
- `state`: the legs (`travels`), the placed points (`drawPoints`) and the
  colour registry (`colorMap`).

The component is written imperatively, so the model is too. The modules are:

- `TripModel`: the datatypes of `trip-visualizer.model.ts`. Coordinates are
  `real`. A colour is an `Rgb` triple of channels 0..254, which the source
  formats as the string `rgb(r,g,b)`.
- `ColorRegistry`: the registry behind `getLineColor` as functions on values.
  It holds the first-match search in either order, the lookup, and the effect
  of a sequence of lookups on the registry and on the number of random draws.
- `Layout`: a reference definition on values of everything the component
  does to the cursor and the points:
  - the label format;
  - connection marking;
  - each cursor step (plain line, up curve, down curve, duplicate stack);
  - the classification of a leg (`Classify`), one iteration of the scan
    (`Step`), the whole scan (`ScanFrom`) and a full redraw (`Redraw`);
  - the colour lookups each step makes.
- `LayoutProperties`: what the layout guarantees:
  - every leg gets a labelled point;
  - every point is connected;
  - redraws are repeatable;
  - a chain of connected legs lies on one row, left to right;
  - the up curve always has a successor leg;
  - concrete scenarios, among them NYC → LON → PAR → NYC.
- `ScanStates`: what holds in every state the scan reaches from an empty
  point list:
  - at most two points per leg handled, so the plain line always has a leg
    to colour it;
  - a run of legs that repeat neither neighbour, which the scan reaches on
    the baseline, is laid out by straight steps on one row, wherever it
    starts in the list (after a stack or an up curve the cursor is on the
    upper track, and the next such leg takes the down curve instead);
  - the number of points a redraw lays out depends on the legs alone, and
    adding a leg always adds points, whatever the segment length and the
    canvas height.
- `TripVisualizer`: the class `TripVisualizerComponent`. Its fields are the
  cursor, the three lists and the canvas flags, and its methods follow the
  component's own. Each method that changes the layout ensures that the new
  cursor and points equal the `Layout` function of the old ones. It also
  ensures that the new registry and draw count equal `LookupAll` over the
  pairs the step looks up (the twostate predicate `LookedUp`).
  `calculateDrawPoints` is a `while` loop whose invariant ties the remaining
  scan to the whole scan.

`Math.random` is an injected oracle, `random: nat -> Channel`, together with
a counter `draws`: colour number k uses draws 3k, 3k+1 and 3k+2. These
properties hold for every oracle:

- the registry never has two entries for the same pair (`Valid`);
- every drawn point's pair has a colour after a redraw;
- a second redraw neither adds entries nor makes random draws.

Whether a 2D context was obtained, whether the canvas is initialised, and the
canvas and container sizes are plain fields and parameters.

## Model

| member | source | states |
|---|---|---|
| ColorRegistry.FirstMatch | src/app/components/trip-visualizer/trip-visualizer.component.ts:559-562 | `find` stops at the first entry for {start, end} in either order: it returns that entry's index, or the registry's length when no entry matches; no earlier entry matches |
| ColorRegistry.FindColor | src/app/components/trip-visualizer/trip-visualizer.component.ts:559-566 | no colour exactly when no entry is for the pair; otherwise the colour of an entry for the pair |
| ColorRegistry.LineColorFor | src/app/components/trip-visualizer/trip-visualizer.component.ts:557-584 | a hit returns the stored colour and leaves the registry unchanged; a miss appends exactly one entry {start, end, generated} and returns the generated colour; afterwards the pair has that colour |
| ColorRegistry.FirstMatchSymmetric | src/app/components/trip-visualizer/trip-visualizer.component.ts:559-562 | the search finds the same entry for (a, b) and (b, a) |
| ColorRegistry.BindingStable | src/app/components/trip-visualizer/trip-visualizer.component.ts:559-581 | once a pair has a colour, every later registry (which only appends) returns that colour for it |
| ColorRegistry.LookupSymmetric | src/app/components/trip-visualizer/trip-visualizer.component.ts:557-584 | getLineColor(b, a) right after getLineColor(a, b) returns the same colour and leaves the registry as it was |
| ColorRegistry.LookupRepeatable | src/app/components/trip-visualizer/trip-visualizer.component.ts:557-584 | repeating a lookup returns the same colour and never grows the registry |
| ColorRegistry.LookupKeepsPairsUnique | src/app/components/trip-visualizer/trip-visualizer.component.ts:564-581 | a lookup keeps the registry free of duplicate pairs |
| ColorRegistry.LookupOne | src/app/components/trip-visualizer/trip-visualizer.component.ts:557-595 | one getLineColor call: the registry only grows, by at most one entry; three draws per new entry; the pair then has a colour |
| ColorRegistry.LookupAll | src/app/components/trip-visualizer/trip-visualizer.component.ts:557-595 | lookups in order: the registry only grows, and the draws are three per entry added |
| ColorRegistry.LookupPairTwice | src/app/components/trip-visualizer/trip-visualizer.component.ts:336-341 | the arrow head's second lookup of the line's pair changes nothing, so looking a pair up twice is looking it up once |
| ColorRegistry.LookupAllRegistersOne | src/app/components/trip-visualizer/trip-visualizer.component.ts:557-584 | after a sequence of lookups, pair k of it has a colour |
| ColorRegistry.LookupAllRegisters | src/app/components/trip-visualizer/trip-visualizer.component.ts:557-584 | after a sequence of lookups, every pair looked up has a colour |
| ColorRegistry.LookupAllAppend | src/app/components/trip-visualizer/trip-visualizer.component.ts:557-584 | looking up a + b is looking up a, then b from the registry and draw count a left |
| ColorRegistry.LookupAllRegistered | src/app/components/trip-visualizer/trip-visualizer.component.ts:564-566 | when every pair already has a colour, the lookups change nothing and draw nothing |
| ColorRegistry.LookupAllIdempotent | src/app/components/trip-visualizer/trip-visualizer.component.ts:557-584 | repeating the same lookups adds no entry and makes no random draw |
| ColorRegistry.LookupAllKeepsPairsUnique | src/app/components/trip-visualizer/trip-visualizer.component.ts:564-581 | any sequence of lookups keeps the registry free of duplicate pairs |
| Layout.FormatPointLabelShape | src/app/components/trip-visualizer/trip-visualizer.component.ts:285-287 | the label is the upper-cased first min(3, length of start) characters of start, then " - ", then the upper-cased first min(3, length of end) characters of end; shorter names are taken whole |
| Layout.Abbrev | src/app/components/trip-visualizer/trip-visualizer.component.ts:286 | `substring(0, 3).toUpperCase()`: the first min(3, length) characters, each upper-cased, so no lower-case letter remains |
| Layout.AbbrevIdempotent | src/app/components/trip-visualizer/trip-visualizer.component.ts:286 | abbreviating an abbreviation changes nothing |
| Layout.AbbrevOfShortUpper | src/app/components/trip-visualizer/trip-visualizer.component.ts:286 | a name of at most three characters with no lower-case letter is its own abbreviation |
| Layout.ConnectNearby | src/app/components/trip-visualizer/trip-visualizer.component.ts:380-392 | same length; every field but isConnected kept; isConnected becomes true exactly for points within 10 of (x, y) on both axes (abs(px - x) < 10 and abs(py - y) < 10), and no point loses it |
| Layout.ConnectNearbyIdempotent | src/app/components/trip-visualizer/trip-visualizer.component.ts:380-392 | marking the same box twice equals marking it once |
| Layout.ConnectNearbyOnConnected | src/app/components/trip-visualizer/trip-visualizer.component.ts:380-392 | on points that are all connected, marking changes nothing |
| Layout.PlaceRoute | src/app/components/trip-visualizer/trip-visualizer.component.ts:205-214 | addFirstPoint / addPointForCurrentRoute: exactly one labelled, connected point for the leg is appended at the cursor; the earlier points and the cursor are unchanged |
| Layout.PlainLineShape | src/app/components/trip-visualizer/trip-visualizer.component.ts:323-354 | with a leg at index floor(number of points / 2): one empty-label point at (x + L, y) is appended and the cursor moves to x + L + 10, keeping y and isUpper; earlier points only gain connections; without such a leg nothing changes |
| Layout.PlainLineAt | src/app/components/trip-visualizer/trip-visualizer.component.ts:326-352 | with a leg to colour it, the plain line is the marked points plus the line's end point, and the cursor is advanced by L + circleDiff |
| Layout.PlainLineOnConnected | src/app/components/trip-visualizer/trip-visualizer.component.ts:343-352 | when all points are already connected, the plain line only appends its end point |
| Layout.PlainLineConnectsStart | src/app/components/trip-visualizer/trip-visualizer.component.ts:343-344 | every point in the 10-unit box around the line's start becomes connected |
| Layout.UpCurve | src/app/components/trip-visualizer/trip-visualizer.component.ts:397-444 | cursor moved by (+138, -80) onto the upper track, then one plain line; leg k's point at the lifted cursor and leg k + 1's point last; earlier points kept; with a leg floor((n + 1) / 2) to colour the line (n the points before), exactly three points are added, the middle one the unlabelled segment end at (x0 + 138 + L, y0 - 80) carrying that leg's pair and the cursor ends at x = x0 + 138 + L + circleDiff; without such a leg exactly two |
| Layout.DownCurve | src/app/components/trip-visualizer/trip-visualizer.component.ts:449-484 | cursor moved by (+85, +80) and isUpper cleared; exactly leg j's labelled point appended there |
| Layout.DuplicatePoints | src/app/components/trip-visualizer/trip-visualizer.component.ts:489-537 | y := y - 100, x := x + L + 10, isUpper := true; legs l - 1 and l appended at (x, y - 100) and (x + L, y - 100), using the old x and y |
| Layout.Classify | src/app/components/trip-visualizer/trip-visualizer.component.ts:182-266 | every branch: the first leg exactly at index 0; at index 1, the stack when the leg repeats the previous one and the up curve when it repeats only the next one; from index 2, a repeat of either neighbour is the up curve on the baseline and a plain straight step on the upper track; a leg repeating neither neighbour takes the down curve on the upper track, and on the baseline a straight step with the arrow exactly when it does not start where the previous leg ends |
| Layout.Step | src/app/components/trip-visualizer/trip-visualizer.component.ts:176-199 | one iteration of the scan advances the index by 1, or by 2 when the up curve consumed leg i + 1; it never passes the end, and it keeps the invariant that a repeat at index 2 or later finds the cursor on the upper track |
| Layout.StepFirst | src/app/components/trip-visualizer/trip-visualizer.component.ts:182-185 | the first leg's step is addFirstPoint, makes no colour lookup and keeps the earlier points |
| Layout.StepStack | src/app/components/trip-visualizer/trip-visualizer.component.ts:222-230 | the index-1 stack is handleDuplicatePoints, which looks up leg l - 1 |
| Layout.StepUpLoop | src/app/components/trip-visualizer/trip-visualizer.component.ts:225-238 | the up-curve step consumes legs i and i + 1 (i + 1 exists), and looks up leg i and then the plain line's leg |
| Layout.UpCurveKeeps | src/app/components/trip-visualizer/trip-visualizer.component.ts:397-444 | the up curve keeps the earlier points, their connections, L and circleDiff |
| Layout.StepStraight | src/app/components/trip-visualizer/trip-visualizer.component.ts:233-235 | a straight step is createPlainLinePoint(arrow) then addPointForCurrentRoute, and looks up the line's leg once, or twice with arrow |
| Layout.StepDownLoop | src/app/components/trip-visualizer/trip-visualizer.component.ts:248-249 | a step on the upper track for a non-repeated leg is handleDownCurvePoints, which looks up leg j |
| Layout.StepKeeps | src/app/components/trip-visualizer/trip-visualizer.component.ts:176-199 | every step keeps the earlier points (up to gaining connection), their being all connected, L and circleDiff |
| Layout.ScanKeeps | src/app/components/trip-visualizer/trip-visualizer.component.ts:175-200 | the whole scan keeps what every step keeps |
| Layout.LineLengthFor | src/app/components/trip-visualizer/trip-visualizer.component.ts:133-136 | lineLength = min(250, (width - 200) / n): at most 250 and at most (width - 200) / n, equal to one of them, with no floor at 0 |
| LayoutProperties.LabelledCountGrows | src/app/components/trip-visualizer/trip-visualizer.component.ts:380-392 | marking points and appending never removes a label |
| LayoutProperties.PlaceRouteLabels | src/app/components/trip-visualizer/trip-visualizer.component.ts:271-280 | addPointForCurrentRoute adds one labelled point carrying the leg |
| LayoutProperties.UpCurveLabels | src/app/components/trip-visualizer/trip-visualizer.component.ts:422-443 | the up curve labels both legs k and k + 1 |
| LayoutProperties.DownCurveLabels | src/app/components/trip-visualizer/trip-visualizer.component.ts:473-483 | the down curve labels leg j |
| LayoutProperties.DuplicatePointsLabels | src/app/components/trip-visualizer/trip-visualizer.component.ts:528-536 | the duplicate stack labels leg l |
| LayoutProperties.StepLabels | src/app/components/trip-visualizer/trip-visualizer.component.ts:182-199 | each step places a labelled point for every leg it handles |
| LayoutProperties.ScanLabels | src/app/components/trip-visualizer/trip-visualizer.component.ts:175-200 | after the scan from leg i, every leg has a labelled point and there are at least as many labelled points as legs |
| LayoutProperties.EveryLegLabelled | src/app/components/trip-visualizer/trip-visualizer.component.ts:144-170 | after a redraw, every leg has a labelled point carrying its start and end |
| LayoutProperties.LabelledPointsCoverLegs | src/app/components/trip-visualizer/trip-visualizer.component.ts:144-170 | after a redraw: labelled points ≥ legs and every point is connected (every call site appends isConnected = true) |
| LayoutProperties.RedrawSameLength | src/app/components/trip-visualizer/trip-visualizer.component.ts:153-166 | two redraws of the same legs at the same height with the same L and circleDiff give identical points and cursor |
| LayoutProperties.RedrawIdempotent | src/app/components/trip-visualizer/trip-visualizer.component.ts:153-166 | redrawing from a redraw's result gives the same frame |
| LayoutProperties.CurvesReturnToBaseline | src/app/components/trip-visualizer/trip-visualizer.component.ts:397-484 | an up curve followed by a down curve restores the original y and clears isUpper |
| LayoutProperties.ChainStep | src/app/components/trip-visualizer/trip-visualizer.component.ts:247-254 | in a chain of connected, distinct legs, each step is a plain line and a labelled point that extend the chain layout by one leg |
| LayoutProperties.ChainScan | src/app/components/trip-visualizer/trip-visualizer.component.ts:175-200 | the scan of a chain from leg i on lays out exactly the chain points |
| LayoutProperties.ChainLayout | src/app/components/trip-visualizer/trip-visualizer.component.ts:144-200 | a chain of n legs redraws to exactly 2n - 1 points, as ChainPoint gives them, ending on the baseline |
| LayoutProperties.ChainPointAdvance | src/app/components/trip-visualizer/trip-visualizer.component.ts:328-349 | with L > 0, consecutive chain points strictly advance in x |
| LayoutProperties.ChainOnBaseline | src/app/components/trip-visualizer/trip-visualizer.component.ts:144-354 | a chain keeps y = height / 2 and every point connected, even points carrying their leg and odd points unlabelled; with L > 0 and circleDiff > 0, x strictly increases |
| LayoutProperties.StraightRunOnRow | src/app/components/trip-visualizer/trip-visualizer.component.ts:328-352 | with L > 0 and circleDiff > 0, points laid out by consecutive straight steps lie on the cursor's row, right of it, left to right, with segment ends and labelled legs alternating |
| LayoutProperties.ExtendsKeepsPair | src/app/components/trip-visualizer/trip-visualizer.component.ts:380-392 | marking connections and appending keep the two points a straight step placed |
| LayoutProperties.LabelOfShortCodes | src/app/components/trip-visualizer/trip-visualizer.component.ts:285-287 | the label of two upper-case codes of at most three letters is "A - B" |
| LayoutProperties.NycLonParScenario | src/app/components/trip-visualizer/trip-visualizer.component.ts:144-354 | NYC→LON, LON→PAR, PAR→NYC gives five connected points at y = height / 2, labelled "NYC - LON", "", "LON - PAR", "", "PAR - NYC"; with L > 0 and circleDiff > 0 they run left to right |
| LayoutProperties.DuplicatePairScenario | src/app/components/trip-visualizer/trip-visualizer.component.ts:219-230 | [A→B, A→B] gives the first point at (100, h/2) and the stack at (100, h/2 - 100) and (100 + L, h/2 - 100), all labelled "A - B" |
| LayoutProperties.DisconnectedPairScenario | src/app/components/trip-visualizer/trip-visualizer.component.ts:259-266 | [A→B, C→D] takes the disconnected branch (with arrow) and gives three points on one row |
| LayoutProperties.UpLoopWithoutSuccessor | src/app/components/trip-visualizer/trip-visualizer.component.ts:219-242 | the classification alone would pick the up curve for a last leg exactly when it repeats the previous leg at index ≥ 2 with the cursor on the baseline |
| LayoutProperties.UpLoopHasSuccessor | src/app/components/trip-visualizer/trip-visualizer.component.ts:422-443 | in every state the scan reaches, the up curve is chosen only when travels[i + 1] exists |
| ScanStates.StepReached | src/app/components/trip-visualizer/trip-visualizer.component.ts:175-200 | every step keeps the reached-state invariant: the repeat-on-upper-track condition, and no points before leg 0, at most 2i - 1 points before leg i |
| ScanStates.UpCurveSize | src/app/components/trip-visualizer/trip-visualizer.component.ts:397-444 | the up curve adds at most three points |
| ScanStates.StraightStep | src/app/components/trip-visualizer/trip-visualizer.component.ts:323-354 | in every reached state a straight step finds the leg at floor(points / 2) that colours the line, keeps y, moves the cursor right by L + circleDiff and appends the line's end at (x + L, y) then the leg's labelled point at (x + L + circleDiff, y) |
| ScanStates.PlainLegIsStraight | src/app/components/trip-visualizer/trip-visualizer.component.ts:219-266 | on the baseline, a leg at index 1 or later that repeats neither neighbour is drawn by a straight step |
| ScanStates.BaselineNext | src/app/components/trip-visualizer/trip-visualizer.component.ts:247-266 | a plain leg from a reached state on the baseline: one straight step to a reached state one leg on, cursor moved right by L + circleDiff, two points added |
| ScanStates.StraightPairKept | src/app/components/trip-visualizer/trip-visualizer.component.ts:175-200 | the rest of the scan keeps the two points a straight step placed |
| ScanStates.BaselineCons | src/app/components/trip-visualizer/trip-visualizer.component.ts:175-200 | the pair a straight step places, in front of the straight run the rest of the scan lays out from where the step leaves off, is a straight run one leg longer |
| ScanStates.BaselineRun | src/app/components/trip-visualizer/trip-visualizer.component.ts:175-200 | from any reached state on the baseline, legs i .. j - 1 that repeat neither neighbour are laid out by consecutive straight steps, and later legs do not move their points |
| ScanStates.ScanUntilReached | src/app/components/trip-visualizer/trip-visualizer.component.ts:175-200 | the scan stopped part way is in a reached state, and the rest of the scan from there finishes the same layout |
| ScanStates.ScanUntilKeeps | src/app/components/trip-visualizer/trip-visualizer.component.ts:175-200 | stopping part way keeps the earlier points, L and circleDiff |
| ScanStates.RedrawBaselineRun | src/app/components/trip-visualizer/trip-visualizer.component.ts:144-200 | in a redraw, a run of such legs that the scan reaches on the baseline is laid out by straight steps from where it is reached; with L > 0 and circleDiff > 0, left to right on that row |
| ScanStates.StepGain | src/app/components/trip-visualizer/trip-visualizer.component.ts:176-199 | in a reached state each step adds a fixed number of points: 1 for the first leg and the down curve, 2 for the stack and a straight step, 3 for the up curve |
| ScanStates.ScanAdds | src/app/components/trip-visualizer/trip-visualizer.component.ts:175-200 | the scan over at least one more leg adds at least one point |
| ScanStates.PlainLineSnoc | src/app/components/trip-visualizer/trip-visualizer.component.ts:330-333 | a plain line coloured by an existing leg draws the same when a leg is added at the end |
| ScanStates.UpCurveSnoc | src/app/components/trip-visualizer/trip-visualizer.component.ts:397-444 | so does the up curve of a leg that has a successor |
| ScanStates.StepSnoc | src/app/components/trip-visualizer/trip-visualizer.component.ts:175-200 | a leg with a successor is handled the same when a leg is added at the end |
| ScanStates.LastStepSnoc | src/app/components/trip-visualizer/trip-visualizer.component.ts:181-198 | the last leg, once a leg follows it, adds at least as many points, and one more when its up curve consumes the new leg |
| ScanStates.ScanSnocGrows | src/app/components/trip-visualizer/trip-visualizer.component.ts:175-200 | from any reached state, the scan of the legs with one more at the end gives strictly more points |
| ScanStates.StepSameCount | src/app/components/trip-visualizer/trip-visualizer.component.ts:181-198 | two frames with as many points on the same track take the same branch, consume the same legs and again have as many points on the same track, whatever their cursors |
| ScanStates.ScanSameCount | src/app/components/trip-visualizer/trip-visualizer.component.ts:175-200 | the scan from two such frames lays out the same number of points |
| ScanStates.RedrawCountIndependent | src/app/components/trip-visualizer/trip-visualizer.component.ts:144-200 | the number of points a redraw lays out does not depend on lineLength, circleDiff or the canvas height |
| ScanStates.RedrawGrows | src/app/components/trip-visualizer/trip-visualizer.component.ts:114-200 | addTravelDetails' redraw has strictly more points than any earlier redraw of the legs before it, even though lineLength is recomputed (line 135) and the canvas may have been resized in between |
| TripVisualizer.PairsOf | src/app/components/trip-visualizer/trip-visualizer.component.ts:296-298 | one (start, end) pair per point, in order |
| TripVisualizer.ConnectedPoints | src/app/components/trip-visualizer/trip-visualizer.component.ts:296 | `filter(p => p.isConnected)`: a point is in the result exactly when it is in the list and connected; all of them when all are connected |
| TripVisualizer.ConnectedPointsAppend | src/app/components/trip-visualizer/trip-visualizer.component.ts:296 | the filter of a + b is the filter of a followed by the filter of b, and a single point is kept exactly when it is connected, so the filter keeps the points in order |
| TripVisualizer.LookupPairsSnoc | src/app/components/trip-visualizer/trip-visualizer.component.ts:296-298 | one more pass of the drawConnectedPoints loop is one more lookup |
| TripVisualizer.PlainLineLooksUpLeg | src/app/components/trip-visualizer/trip-visualizer.component.ts:336-341 | the plain line's lookups (line, and arrow) leave the registry as one lookup of the leg does |
| TripVisualizer.RedrawTwiceAddsNothing | src/app/components/trip-visualizer/trip-visualizer.component.ts:144-170 | a second redraw gives the same frame and neither grows the registry nor draws random numbers |
| TripVisualizer.ConnectedPairsColoured | src/app/components/trip-visualizer/trip-visualizer.component.ts:292-298 | when all points are connected, the dot lookups give every point's pair a colour |
| TripVisualizer.RedrawnPointsColoured | src/app/components/trip-visualizer/trip-visualizer.component.ts:144-170 | after drawCanvas' lookups, every drawn point's pair has a colour |
| TripVisualizer.TripVisualizerComponent.constructor | src/app/components/trip-visualizer/trip-visualizer.component.ts:19-37 | the field initialisers: cursor (100, 300), L = 250, circleDiff = 10, baseline, empty lists, no context, not initialised |
| TripVisualizer.TripVisualizerComponent.GenerateRandomColor | src/app/components/trip-visualizer/trip-visualizer.component.ts:589-595 | three draws of the oracle, red, green, blue, in order; nothing else changes |
| TripVisualizer.TripVisualizerComponent.GetLineColor | src/app/components/trip-visualizer/trip-visualizer.component.ts:557-584 | returns and stores what LineColorFor gives for the next random colour; the registry keeps unique pairs; layout untouched |
| TripVisualizer.TripVisualizerComponent.DrawLine | src/app/components/trip-visualizer/trip-visualizer.component.ts:359-363 | with a context, one lookup of the pair; without one, nothing changes |
| TripVisualizer.TripVisualizerComponent.DrawArrow | src/app/components/trip-visualizer/trip-visualizer.component.ts:600-603 | with a context, one lookup of the pair; without one, nothing changes |
| TripVisualizer.TripVisualizerComponent.AddDrawPoint | src/app/components/trip-visualizer/trip-visualizer.component.ts:628-636 | exactly one point appended at the end; earlier points, cursor, registry and legs unchanged |
| TripVisualizer.TripVisualizerComponent.ConnectNearbyPoints | src/app/components/trip-visualizer/trip-visualizer.component.ts:380-392 | the points become ConnectNearby of the old points; nothing else changes |
| TripVisualizer.TripVisualizerComponent.AddFirstPoint | src/app/components/trip-visualizer/trip-visualizer.component.ts:205-214 | the frame becomes PlaceRoute of the old frame; no lookup |
| TripVisualizer.TripVisualizerComponent.AddPointForCurrentRoute | src/app/components/trip-visualizer/trip-visualizer.component.ts:271-280 | the frame becomes PlaceRoute of the old frame; no lookup |
| TripVisualizer.TripVisualizerComponent.CreatePlainLinePoint | src/app/components/trip-visualizer/trip-visualizer.component.ts:323-354 | with a context, the frame becomes PlainLine of the old frame and the registry reflects its lookups; without one nothing changes |
| TripVisualizer.TripVisualizerComponent.HandleUpCurvePoints | src/app/components/trip-visualizer/trip-visualizer.component.ts:397-444 | with a context, the frame becomes UpCurve of the old frame with its lookups; without one nothing changes |
| TripVisualizer.TripVisualizerComponent.HandleDownCurvePoints | src/app/components/trip-visualizer/trip-visualizer.component.ts:449-484 | with a context, the frame becomes DownCurve of the old frame and leg j is looked up; without one nothing changes |
| TripVisualizer.TripVisualizerComponent.HandleDuplicatePoints | src/app/components/trip-visualizer/trip-visualizer.component.ts:489-537 | with a context, the frame becomes DuplicatePoints of the old frame and leg l - 1 is looked up; without one nothing changes |
| TripVisualizer.TripVisualizerComponent.HandleDuplicateRoutes | src/app/components/trip-visualizer/trip-visualizer.component.ts:219-242 | performs Layout.Step for a repeated leg; the returned index plus one is the next leg to handle |
| TripVisualizer.TripVisualizerComponent.HandleConnectedRoutes | src/app/components/trip-visualizer/trip-visualizer.component.ts:247-254 | performs Layout.Step for a connected leg: a down curve on the upper track, otherwise a plain line and the leg's point |
| TripVisualizer.TripVisualizerComponent.HandleDisconnectedRoutes | src/app/components/trip-visualizer/trip-visualizer.component.ts:259-266 | performs Layout.Step for a disconnected leg: a down curve on the upper track, otherwise a plain line with arrow and the leg's point |
| TripVisualizer.TripVisualizerComponent.ScanStep | src/app/components/trip-visualizer/trip-visualizer.component.ts:177-198 | one pass of the loop body performs Layout.Step and returns the next index |
| TripVisualizer.TripVisualizerComponent.CalculateDrawPoints | src/app/components/trip-visualizer/trip-visualizer.component.ts:175-200 | the loop computes ScanFrom from the current frame and makes exactly its lookups in order |
| TripVisualizer.TripVisualizerComponent.DrawConnectedPoints | src/app/components/trip-visualizer/trip-visualizer.component.ts:292-318 | with a context, one lookup per connected point, in order; layout untouched |
| TripVisualizer.TripVisualizerComponent.DrawCanvas | src/app/components/trip-visualizer/trip-visualizer.component.ts:144-170 | with a context, the frame becomes Redraw of the legs from the reset cursor, the registry is kept and only extended by the redraw's lookups, and L is unchanged; without one nothing changes |
| TripVisualizer.TripVisualizerComponent.AddTravelDetails | src/app/components/trip-visualizer/trip-visualizer.component.ts:114-139 | when initialised with a context: the leg is appended at the end, L = min(250, (width - 200) / n) (so L ≤ 250), then a redraw; otherwise nothing changes |
| TripVisualizer.TripVisualizerComponent.SetTripPoints | src/app/components/trip-visualizer/trip-visualizer.component.ts:44-48 | a value with an empty (or missing) start or end is ignored; otherwise, when initialised with a context, the leg is appended, L is recomputed, the frame becomes Redraw of the legs and the registry reflects the redraw's lookups; otherwise nothing changes |
| TripVisualizer.TripVisualizerComponent.ResetVisualizer | src/app/components/trip-visualizer/trip-visualizer.component.ts:641-660 | all three lists emptied, cursor (0, 0), L = 70, circleDiff = 10, baseline |
| TripVisualizer.TripVisualizerComponent.ResizeCanvas | src/app/components/trip-visualizer/trip-visualizer.component.ts:77-93 | with a container: width and height set (height = clientHeight / 2, floored), and with a context the frame becomes Redraw and the registry reflects the redraw's lookups, L not recomputed; the registry only grows; without a container nothing changes |
| TripVisualizer.TripVisualizerComponent.InitializeCanvas | src/app/components/trip-visualizer/trip-visualizer.component.ts:98-109 | records whether a context was acquired; on failure nothing else changes; on success marks the canvas initialised, and with a container sizes it, redraws and makes the redraw's lookups; without a container the layout and size are unchanged |

## Left out

- Canvas rendering: the strokes, arcs (`drawArc`), dots, text, arrow-head geometry, `clearRect`, line widths and styles. `drawLine`, `drawArrow` and `drawConnectedPoints` are modelled only through the colour lookups they make, which change `colorMap`.
- `generateRandomColor`'s `Math.random` and float flooring: replaced by the oracle `random` with channels 0..254. The colour is kept as a triple rather than the string `rgb(r,g,b)`.
- `setupCanvas`, `ngAfterViewInit`, `ngOnDestroy` and the window resize listener: Angular lifecycle and DOM plumbing. `InitializeCanvas` and `ResizeCanvas` take the context outcome, the container's presence and its client size as parameters.
- `canvasRef` is assumed to be present (the `!this.canvasRef` checks in `drawCanvas` and `handleDuplicatePoints` are not modelled). The console messages are not modelled.
- The canvas height attribute is taken as `clientHeight / 2` rounded down to a whole pixel, as the HTML attribute parses it.
- `toUpperCase` is modelled for ASCII letters only.
- Layout.Abbrev: takes the first three characters (Unicode scalar values), whereas JavaScript's `substring(0, 3)` takes three UTF-16 code units; the two differ for names with characters outside the Basic Multilingual Plane.
- Numbers are exact reals; JavaScript's floating-point rounding of coordinates is not modelled.
- The body of the `calculateDrawPoints` loop is the method `ScanStep`, so that the loop stays small. The source writes it inline.
- `handleDuplicateRoutes`, `handleConnectedRoutes`, `handleDisconnectedRoutes` and `calculateDrawPoints` require a context. The three handlers are called only by `calculateDrawPoints` (lines 175-200), and `drawCanvas` calls `calculateDrawPoints` only after checking for a context.
- `HandleUpCurvePoints` requires that leg k + 1 exists. The source reads `travels[k + 1]` without a check, and `LayoutProperties.UpLoopHasSuccessor` proves that the scan only calls it in that case.
- The other files of the repository (city selector, input field, button, app shell, styling config) are not part of this model.
