/**
 * The ground-network document as a sequence of structured elements: frequencies,
 * parking stands, taxi nodes and arcs, with markers for the fixed text between sections.
 */
module Elements {
  import opened Geometry

  /** The element tags of the `frequencies` block. */
  datatype FreqTag = AWOS | UNICOM | CLEARANCE | GROUND | TOWER | APPROACH

  /** The `holdPointType` attribute: "none" or "normal". */
  datatype Hold = NoHold | NormalHold

  /** The fixed text the converter writes between elements. */
  datatype Marker =
    | Prologue        // xml declaration, <groundnet>, <version>1</version>, <frequencies>
    | EndFrequencies  // </frequencies>
    | BeginParking    // <parkingList>
    | EndParking      // </parkingList>
    | BeginTaxiNodes  // <TaxiNodes>
    | BeginSegments   // </TaxiNodes> <TaxiWaySegments>
    | Epilogue        // </TaxiWaySegments> </groundnet>

  /**
   * One element of the document. A Parking element also carries the fixed attributes
   * type="gate", name="Gate" and airlineCodes=""; an Arc carries isPushBackRoute="0" and name="".
   */
  datatype Element =
    | Text(marker: Marker)
    | Freq(tag: FreqTag, mhz: string)
    | Parking(index: nat, number: nat, lat: Angle, lon: Angle, heading: real, radius: nat)
    | Node(index: nat, lat: Angle, lon: Angle, onRunway: bool, hold: Hold)
    | Arc(begin: nat, end: nat)

  /** A taxi node before it is written: its position and its index. */
  datatype TaxiNode = TaxiNode(pos: Point, index: nat)

  /** The four sections of a ground network, in the order they are written. */
  datatype Document = Document(frequencies: seq<Element>, parking: seq<Element>, nodes: seq<Element>, arcs: seq<Element>)

  /** The document as the converter writes it, section by section. */
  function Render(d: Document): (r: seq<Element>)
    ensures |r| == |d.frequencies| + |d.parking| + |d.nodes| + |d.arcs| + 5
    ensures r[0] == Text(Prologue) && r[|r| - 1] == Text(Epilogue)
  {
    [Text(Prologue)] + d.frequencies + [Text(EndFrequencies)] + d.parking
    + [Text(BeginTaxiNodes)] + d.nodes + [Text(BeginSegments)] + d.arcs + [Text(Epilogue)]
  }

  /** gen_parking: a stand whose number is its index plus one, at the given position and heading. */
  function GenParking(pos: Point, index: nat, heading: real): (e: Element)
    ensures e.Parking? && e.index == index && e.number == index + 1 && e.radius == 28
    ensures AngleValue(e.lat, 'N') == pos.lat && AngleValue(e.lon, 'E') == pos.lon && e.heading == heading
  {
    var c := ConvertCoord(pos);
    Parking(index, index + 1, c.0, c.1, heading, 28)
  }

  /** One `node` element: on the runway exactly when its index is in `runway`, a hold point exactly when in `holds`. */
  function NodeElement(n: TaxiNode, runway: set<nat>, holds: set<nat>): (e: Element)
    ensures e.Node? && e.index == n.index
    ensures e.onRunway <==> n.index in runway
    ensures e.hold == NormalHold <==> n.index in holds
    ensures AngleValue(e.lat, 'N') == n.pos.lat && AngleValue(e.lon, 'E') == n.pos.lon
  {
    var c := ConvertCoord(n.pos);
    Node(n.index, c.0, c.1, n.index in runway, if n.index in holds then NormalHold else NoHold)
  }
}
