/**
 * The part of the host PCB editor's board that the bowtie generator touches:
 * named nets, footprints keyed by reference, and the one list that holds every
 * track and via (the host's `GetTracks()` returns both kinds together).
 * Coordinates and sizes are millimetres, as exact reals.
 */
module Kicad {
  import opened Decimal

  /** The copper layers a footprint or track can be assigned to. */
  datatype KicadLayer = TOP | L2 | L3 | L4 | L5 | L6 | L7 | L8 | L9 | BOTTOM

  /** An electrical net looked up by name, with the code the host uses to tag copper. */
  datatype Net = Net(name: string, code: int) {
    /** `Net.__repr__`: the name, then the code in parentheses. */
    function Repr(): (s: string)
      ensures |s| >= |name| + 10
      ensures s[..|name|] == name
      ensures s[|name|..|name| + 8] == " (Code: "
      ensures s[|name| + 8..|s| - 1] == IntToString(code)
      ensures s[|s| - 1] == ')'
    {
      name + " (Code: " + IntToString(code) + ")"
    }
  }

  /** A net's representation determines its code once its name is known. */
  lemma ReprDeterminesCode(a: Net, b: Net)
    requires a.name == b.name
    ensures a.Repr() == b.Repr() ==> a == b
  {
    IntToStringInjective(a.code, b.code);
  }

  datatype Point = Point(x: real, y: real)

  /** A routing item on the board: a straight copper segment, or a through via. */
  datatype BoardItem =
    | Track(start: Point, end: Point, width: real, layer: KicadLayer, netCode: int)
    | Via(position: Point, drill: real, diameter: real, netCode: int)

  /** The state of one footprint that the generator sets. */
  datatype Placement = Placement(
    x: real,
    y: real,
    layer: KicadLayer,
    rotation: real,
    referenceVisible: bool
  )

  /** The host board. */
  class Board {
    var nets: map<string, int>
    var footprints: map<string, Placement>
    var items: seq<BoardItem>

    constructor (nets: map<string, int>, footprints: map<string, Placement>, items: seq<BoardItem>)
      ensures this.nets == nets && this.footprints == footprints && this.items == items
    {
      this.nets := nets;
      this.footprints := footprints;
      this.items := items;
    }
  }
}
