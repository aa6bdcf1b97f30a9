/** The value types of the trip visualizer: the records declared in
    src/app/components/trip-visualizer/trip-visualizer.model.ts, with
    numbers as reals (canvas coordinates) and strings as seq<char>. */
module TripModel {

  datatype Option<+T> = None | Some(value: T)

  /** One travel leg, in travel order. */
  datatype TravelDetails = TravelDetails(startPoint: string, endPoint: string)

  /** A placed, labelled point of the diagram. */
  datatype DrawPoint = DrawPoint(
    x: real,
    y: real,
    text: string,
    isConnected: bool,
    startPoint: string,
    endPoint: string)

  /** One colour channel as `Math.floor(Math.random() * 255)` yields it. */
  type Channel = c: int | 0 <= c < 255

  /** The three channels that the source formats as `rgb(r,g,b)`. */
  datatype Rgb = Rgb(red: Channel, green: Channel, blue: Channel)

  /** A colour-registry entry, keyed by the unordered pair {start, end}. */
  datatype LineColor = LineColor(start: string, end: string, color: Rgb)

  /** The drawing cursor: where the next point is anchored, the segment
      length, the clearance around a dot and the track flag. */
  datatype DrawingConfig = DrawingConfig(
    initialX: real,
    initialY: real,
    lineLength: real,
    circleDiff: real,
    isUpper: bool)

  /** The three lists the component keeps. */
  datatype VisualizationState = VisualizationState(
    travels: seq<TravelDetails>,
    drawPoints: seq<DrawPoint>,
    colorMap: seq<LineColor>)

  /** The value handed to the `tripPoints` input. */
  datatype TripPoints = TripPoints(start: string, end: string)
}
