/**
 * The closed-form geometry of the bowtie panel: where each LED goes and the
 * tracks and vias emitted for it, for every LED slot of the panel in the order
 * the generator visits them.
 */
module Layout {
  import opened Wrappers
  import opened Kicad
  import opened Handler
  import opened Decimal
  import opened Schedule
  import opened Seqs

  /** Centre of the first LED (bottom left of the left side of the bowtie). */
  const START_X: real := 93.25
  const CENTRE_LINE_Y: real := 100.0
  const COLUMN_SPACING: real := 2.25
  const ROW_SPACING: real := 2.25
  const VIA_DIAMETER: real := 0.45
  const VIA_HOLE: real := 0.2
  const LED_PAD_OFFSET_X: real := 0.515
  const LED_PAD_OFFSET_Y: real := 0.43
  /** How far each jumper steps sideways (and along) at its two bevelled corners. */
  const BEVEL: real := 0.435
  /** Width of the top-layer tracks: pad-to-via drops and jumpers. */
  const PAD_TRACK_WIDTH: real := 0.127
  /** Width of the inner-layer track that runs from each via to the next column. */
  const BACKBONE_TRACK_WIDTH: real := 0.45

  /** The centre of the LED in row `row` of column `col`, a column `height` LEDs tall. */
  function LedCentre(col: nat, row: nat, height: int): (c: Point)
    ensures row < height ==> CENTRE_LINE_Y - 0.5 * (height - 1) as real * ROW_SPACING <= c.y
                               <= CENTRE_LINE_Y + 0.5 * (height - 1) as real * ROW_SPACING
  {
    Point(START_X + COLUMN_SPACING * col as real,
          CENTRE_LINE_Y - row as real * ROW_SPACING + 0.5 * (height - 1) as real * ROW_SPACING)
  }

  /**
   * One LED place: its column, its row, the height of its column, the LED
   * centre there and the tracks and vias emitted for that LED, in emission
   * order (`SlotAt` fills them in; every slot of the panel is built so).
   */
  datatype Slot = Slot(col: nat, row: nat, height: int, centre: Point, items: seq<BoardItem>)

  function SlotAt(col: nat, row: nat, height: int, netCode: int): (s: Slot)
    ensures s.col == col && s.row == row && s.height == height
    ensures s.centre == LedCentre(col, row, height)
    ensures s.items == LedItems(s.centre, row, netCode)
  {
    var c := LedCentre(col, row, height);
    Slot(col, row, height, c, LedItems(c, row, netCode))
  }

  /** What placing the LED sets: its centre, the top layer, rotation 0, reference hidden. */
  function LedPlacement(s: Slot): Placement {
    Placement(s.centre.x, s.centre.y, TOP, 0.0, false)
  }

  /**
   * The four pads of the LED centred at `c`. The board's y axis points down, so
   * a bottom pad has the larger y. Each pad lies inside the LED's own cell of
   * one column spacing by one row spacing.
   */
  function BottomLeftPad(c: Point): (p: Point)
    ensures p.x < c.x && c.y < p.y
    ensures c.x - p.x < 0.5 * COLUMN_SPACING && p.y - c.y < 0.5 * ROW_SPACING
  {
    Point(c.x - LED_PAD_OFFSET_X, c.y + LED_PAD_OFFSET_Y)
  }

  function TopRightPad(c: Point): (p: Point)
    ensures c.x < p.x && p.y < c.y
    ensures p.x - c.x < 0.5 * COLUMN_SPACING && c.y - p.y < 0.5 * ROW_SPACING
  {
    Point(c.x + LED_PAD_OFFSET_X, c.y - LED_PAD_OFFSET_Y)
  }

  function TopLeftPad(c: Point): (p: Point)
    ensures p.x < c.x && p.y < c.y
    ensures c.x - p.x < 0.5 * COLUMN_SPACING && c.y - p.y < 0.5 * ROW_SPACING
  {
    Point(c.x - LED_PAD_OFFSET_X, c.y - LED_PAD_OFFSET_Y)
  }

  function BottomRightPad(c: Point): (p: Point)
    ensures c.x < p.x && c.y < p.y
    ensures p.x - c.x < 0.5 * COLUMN_SPACING && p.y - c.y < 0.5 * ROW_SPACING
  {
    Point(c.x + LED_PAD_OFFSET_X, c.y + LED_PAD_OFFSET_Y)
  }

  /**
   * Where the bottom-left pad's drop ends and its via sits: straight below that
   * pad, on the boundary half a row below the centre.
   */
  function ViaPoint(c: Point): (v: Point)
    ensures v.x == BottomLeftPad(c).x && BottomLeftPad(c).y < v.y
    ensures v.y - c.y == 0.5 * ROW_SPACING
  {
    Point(c.x - LED_PAD_OFFSET_X, c.y + 0.5 * ROW_SPACING)
  }

  /**
   * The four corners of a jumper that leaves `pad`, bevels to the side `side`
   * (-BEVEL or BEVEL), runs straight down and returns under `pad` one row lower.
   */
  function JumperPoints(pad: Point, side: real): (ps: seq<Point>)
    ensures |ps| == 4 && ps[0] == pad && ps[3] == Point(pad.x, pad.y + ROW_SPACING)
    ensures ps[1].x == ps[2].x == pad.x + side && ps[1].y < ps[2].y
  {
    [pad,
     Point(pad.x + side, pad.y + BEVEL),
     Point(pad.x + side, pad.y + ROW_SPACING - BEVEL),
     Point(pad.x, pad.y + ROW_SPACING)]
  }

  /** Handler calls made to route one LED: the backbone's three, and above row 0 three jumpers. */
  function CallCount(row: nat): nat {
    if row > 0 then 6 else 3
  }

  /**
   * What the k-th handler call routing the LED centred at `c` appends: 0 the
   * drop from the bottom-left pad to the via point, 1 the via there, 2 the
   * inner-layer run to the next column, 3 .. 5 the jumpers from the top-right,
   * top-left and bottom-right pads.
   */
  function RouteCall(c: Point, netCode: int, k: nat): (r: seq<BoardItem>)
    requires k < 6
    ensures |r| == if k < 3 then 1 else 3
    ensures forall i :: 0 <= i < |r| ==> r[i].netCode == netCode
    ensures forall i :: 0 <= i < |r| ==> (r[i].Via? <==> k == 1)
  {
    var v := ViaPoint(c);
    JumperTracks(TopRightPad(c), -BEVEL, netCode);
    JumperTracks(TopLeftPad(c), -BEVEL, netCode);
    JumperTracks(BottomRightPad(c), BEVEL, netCode);
    if k == 0 then [Track(BottomLeftPad(c), v, PAD_TRACK_WIDTH, TOP, netCode)]
    else if k == 1 then [Via(v, VIA_HOLE, VIA_DIAMETER, netCode)]
    else if k == 2 then [Track(v, Point(v.x + COLUMN_SPACING, v.y), BACKBONE_TRACK_WIDTH, L3, netCode)]
    else if k == 3 then MultipointTracks(JumperPoints(TopRightPad(c), -BEVEL), netCode, TOP, PAD_TRACK_WIDTH)
    else if k == 4 then MultipointTracks(JumperPoints(TopLeftPad(c), -BEVEL), netCode, TOP, PAD_TRACK_WIDTH)
    else MultipointTracks(JumperPoints(BottomRightPad(c), BEVEL), netCode, TOP, PAD_TRACK_WIDTH)
  }

  /** What calls `lo` .. `hi` - 1 of an LED's routing append, in call order. */
  function RouteCalls(c: Point, netCode: int, lo: nat, hi: nat): (r: seq<BoardItem>)
    requires lo <= hi <= 6
    ensures forall i :: 0 <= i < |r| ==> r[i].netCode == netCode
    decreases hi - lo
  {
    if lo == hi then [] else RouteCall(c, netCode, lo) + RouteCalls(c, netCode, lo + 1, hi)
  }

  /** Everything emitted for the LED centred at `c` in row `row`, in emission order. */
  function LedItems(c: Point, row: nat, netCode: int): (r: seq<BoardItem>)
    ensures forall i :: 0 <= i < |r| ==> r[i].netCode == netCode
  {
    RouteCalls(c, netCode, 0, CallCount(row))
  }

  /** An LED's routing is its three backbone calls followed, above row 0, by its three jumper calls. */
  lemma LedItemsCalls(c: Point, row: nat, netCode: int)
    ensures LedItems(c, row, netCode)
         == RouteCall(c, netCode, 0) + RouteCall(c, netCode, 1) + RouteCall(c, netCode, 2)
            + (if row > 0 then RouteCall(c, netCode, 3) + RouteCall(c, netCode, 4) + RouteCall(c, netCode, 5)
               else [])
  {
    var n := CallCount(row);
    var tail := RouteCalls(c, netCode, 3, n);
    assert tail == if row > 0 then RouteCall(c, netCode, 3) + RouteCall(c, netCode, 4) + RouteCall(c, netCode, 5)
                   else [] by {
      if row > 0 {
        assert RouteCalls(c, netCode, 5, 6) == RouteCall(c, netCode, 5);
        assert RouteCalls(c, netCode, 4, 6) == RouteCall(c, netCode, 4) + RouteCall(c, netCode, 5);
      }
    }
    assert RouteCalls(c, netCode, 2, n) == RouteCall(c, netCode, 2) + tail;
    assert RouteCalls(c, netCode, 1, n) == RouteCall(c, netCode, 1) + (RouteCall(c, netCode, 2) + tail);
  }

  /** The slots of column `col` when it is `height` LEDs tall, row 0 first. */
  function ColumnSlots(col: nat, height: int, netCode: int): (r: seq<Slot>)
    ensures |r| == Rows(height)
  {
    seq(Rows(height), row requires 0 <= row => SlotAt(col, row, height, netCode))
  }

  /** Row `row` of a column lies in that column and row, at the column's height. */
  lemma ColumnSlotPlace(col: nat, height: int, netCode: int, row: nat)
    requires row < Rows(height)
    ensures var s := ColumnSlots(col, height, netCode)[row];
            s.col == col && s.row == row && s.height == height
  {
    ColumnSlotAt(col, height, netCode, row);
  }

  /** Row `row` of a column is the slot at that row. */
  lemma ColumnSlotAt(col: nat, height: int, netCode: int, row: nat)
    requires row < Rows(height)
    ensures ColumnSlots(col, height, netCode)[row] == SlotAt(col, row, height, netCode)
  {
  }

  /** The slots of the first `numCols` columns, in the order the generator visits them. */
  function Slots(startColumnSize: int, numCols: nat, netCode: int): seq<Slot>
    decreases numCols
  {
    if numCols == 0 then []
    else Slots(startColumnSize, numCols - 1, netCode)
         + ColumnSlots(numCols - 1, ColumnHeight(startColumnSize, numCols - 1), netCode)
  }

  /** One more column appends that column's slots, at the height the schedule gives it. */
  lemma SlotsNext(startColumnSize: int, col: nat, height: int, netCode: int)
    requires height == ColumnHeight(startColumnSize, col)
    ensures Slots(startColumnSize, col + 1, netCode) == Slots(startColumnSize, col, netCode) + ColumnSlots(col, height, netCode)
  {
  }

  /** Every slot of the panel, routed on the net with code `netCode`. */
  function AllSlots(netCode: int): seq<Slot> {
    Slots(START_COLUMN_SIZE, NUM_COLS, netCode)
  }

  /** The routing emitted for `slots`, slot after slot. */
  function Routing(slots: seq<Slot>): seq<BoardItem>
    decreases |slots|
  {
    if slots == [] then []
    else Routing(slots[..|slots| - 1]) + slots[|slots| - 1].items
  }

  /** The reference of the k-th LED: `LD` followed by k in decimal. */
  function LedRef(k: nat): (s: string)
    ensures |s| >= 3 && s[..2] == "LD" && AllDigits(s[2..])
  {
    "LD" + NatToString(k)
  }

  // ---------------------------------------------------------------------------
  // Properties of the geometry

  /**
   * All LEDs of a column share the column's x; rows are one row spacing apart,
   * falling in y as the row index rises; the first and the last row of a column
   * are mirror images about the centre line.
   */
  lemma LedCentreProperties(col: nat, row: nat, height: int)
    ensures LedCentre(col, row, height).x == START_X + COLUMN_SPACING * col as real
    ensures LedCentre(col, row, height).y - LedCentre(col, row + 1, height).y == ROW_SPACING
    ensures row < height ==>
              LedCentre(col, row, height).y + LedCentre(col, height - 1 - row, height).y
              == 2.0 * CENTRE_LINE_Y
  {
  }

  /**
   * The backbone of every row: a top-layer drop of width 0.127 from the
   * bottom-left pad to half a row below the centre, a via exactly at its end,
   * and an inner-layer (L3) run of width 0.45 from the via one column to the
   * right, all on the given net; it stays inside the row's band.
   */
  lemma BackboneShape(c: Point, row: nat, netCode: int)
    ensures var items := LedItems(c, row, netCode);
      && |items| >= 3
      && items[0] == Track(BottomLeftPad(c), Point(c.x - LED_PAD_OFFSET_X, c.y + 0.5 * ROW_SPACING), 0.127, TOP, netCode)
      && items[1] == Via(items[0].end, 0.2, 0.45, netCode)
      && items[2].Track? && items[2].start == items[1].position
      && items[2].end == Point(items[1].position.x + COLUMN_SPACING, items[1].position.y)
      && items[2].layer == L3 && items[2].width == 0.45 && items[2].netCode == netCode
      && c.y <= items[0].start.y <= items[0].end.y == c.y + 0.5 * ROW_SPACING
  {
    LedItemsCalls(c, row, netCode);
  }

  /**
   * Above row 0 an LED's routing ends in three jumper polylines of three
   * top-layer tracks each, every one ending one row below its pad and
   * bevelled sideways by 0.435.
   */
  lemma JumperShape(c: Point, row: nat, netCode: int)
    requires row > 0
    ensures |LedItems(c, row, netCode)| == 12
    ensures var j := LedItems(c, row, netCode)[3..];
      && (forall i :: 0 <= i < 9 ==> j[i].Track? && j[i].layer == TOP && j[i].width == 0.127 && j[i].netCode == netCode)
      && j[0].start == TopRightPad(c) && j[2].end == Point(TopRightPad(c).x, TopRightPad(c).y + ROW_SPACING)
      && j[3].start == TopLeftPad(c) && j[5].end == Point(TopLeftPad(c).x, TopLeftPad(c).y + ROW_SPACING)
      && j[6].start == BottomRightPad(c) && j[8].end == Point(BottomRightPad(c).x, BottomRightPad(c).y + ROW_SPACING)
      && j[0].end == Point(TopRightPad(c).x - 0.435, TopRightPad(c).y + 0.435)
      && j[3].end == Point(TopLeftPad(c).x - 0.435, TopLeftPad(c).y + 0.435)
      && j[6].end == Point(BottomRightPad(c).x + 0.435, BottomRightPad(c).y + 0.435)
      && (forall i :: 0 <= i < 8 && i % 3 != 2 ==> j[i].end == j[i + 1].start)
  {
    LedItemsCalls(c, row, netCode);
    JumperTracks(TopRightPad(c), -BEVEL, netCode);
    JumperTracks(TopLeftPad(c), -BEVEL, netCode);
    JumperTracks(BottomRightPad(c), BEVEL, netCode);
    var j := LedItems(c, row, netCode)[3..];
    assert j == RouteCall(c, netCode, 3) + RouteCall(c, netCode, 4) + RouteCall(c, netCode, 5);
  }

  /** One jumper is three top-layer tracks through its four corners. */
  lemma JumperTracks(pad: Point, side: real, netCode: int)
    ensures MultipointTracks(JumperPoints(pad, side), netCode, TOP, PAD_TRACK_WIDTH)
         == [Track(pad, Point(pad.x + side, pad.y + BEVEL), PAD_TRACK_WIDTH, TOP, netCode),
             Track(Point(pad.x + side, pad.y + BEVEL), Point(pad.x + side, pad.y + ROW_SPACING - BEVEL),
                   PAD_TRACK_WIDTH, TOP, netCode),
             Track(Point(pad.x + side, pad.y + ROW_SPACING - BEVEL), Point(pad.x, pad.y + ROW_SPACING),
                   PAD_TRACK_WIDTH, TOP, netCode)]
  {
    var pts := JumperPoints(pad, side);
    MultipointTrackAt(pts, netCode, TOP, PAD_TRACK_WIDTH, 0);
    MultipointTrackAt(pts, netCode, TOP, PAD_TRACK_WIDTH, 1);
    MultipointTrackAt(pts, netCode, TOP, PAD_TRACK_WIDTH, 2);
  }

  /** How many items an LED emits: three in the first row of a column, twelve in any other. */
  lemma LedItemsCount(c: Point, row: nat, netCode: int)
    ensures |LedItems(c, row, netCode)| == if row > 0 then 12 else 3
  {
    LedItemsCalls(c, row, netCode);
  }

  /** Each jumper of row r ends on the matching pad of row r - 1 of the same column. */
  lemma JumperReachesPreviousRow(col: nat, row: nat, height: int)
    requires row > 0
    ensures var here, below := LedCentre(col, row, height), LedCentre(col, row - 1, height);
      && Point(TopRightPad(here).x, TopRightPad(here).y + ROW_SPACING) == TopRightPad(below)
      && Point(TopLeftPad(here).x, TopLeftPad(here).y + ROW_SPACING) == TopLeftPad(below)
      && Point(BottomRightPad(here).x, BottomRightPad(here).y + ROW_SPACING) == BottomRightPad(below)
  {
  }

  /**
   * The inner-layer run of slot (col, row) ends on the via of the next column:
   * on the same row when the next column is as tall, one row lower when it has
   * shrunk by two. After a shrink the runs of the bottom row (row 0) and of the
   * top row (row h - 1) have no LED of the next column to land on: the row
   * below row 0 does not exist, and the next column's top row is h - 3.
   */
  lemma BackboneHandOff(startColumnSize: int, col: nat, row: nat, netCode: int)
    requires row < Rows(ColumnHeight(startColumnSize, col))
    ensures var h, h' := ColumnHeight(startColumnSize, col), ColumnHeight(startColumnSize, col + 1);
      var here := SlotAt(col, row, h, netCode).items;
      && |here| >= 3
      && (h' == h ==>
            var right := SlotAt(col + 1, row, h', netCode).items;
            row < Rows(h') && |right| >= 2 && here[2].Track? && right[1].Via? && here[2].end == right[1].position)
      && (h' == h - 2 && row > 0 ==>
            var right := SlotAt(col + 1, row - 1, h', netCode).items;
            |right| >= 2 && here[2].Track? && right[1].Via? && here[2].end == right[1].position)
      && (h' == h - 2 && row > 0 ==> (row - 1 < Rows(h') <==> row < h - 1))
  {
    var h, h' := ColumnHeight(startColumnSize, col), ColumnHeight(startColumnSize, col + 1);
    ShrinkStep(startColumnSize, col);
    BackboneShape(LedCentre(col, row, h), row, netCode);
    BackboneShape(LedCentre(col + 1, row, h'), row, netCode);
    if row > 0 {
      BackboneShape(LedCentre(col + 1, row - 1, h'), row - 1, netCode);
    }
  }

  // ---------------------------------------------------------------------------
  // References and slots

  /** The LED number a reference names, when it is exactly `LD` followed by a decimal number. */
  function LedIndex(key: string): (r: Option<nat>)
    ensures r.Some? ==> key == LedRef(r.value)
  {
    if |key| >= 3 && key[..2] == "LD" && AllDigits(key[2..]) && LedRef(ParseNat(key[2..])) == key
    then Some(ParseNat(key[2..]))
    else None
  }

  /** Reading the number back out of a reference gives the number it was made from. */
  lemma LedIndexOfRef(k: nat)
    ensures LedIndex(LedRef(k)) == Some(k)
  {
    var key := LedRef(k);
    assert key[..2] == "LD" && key[2..] == NatToString(k);
    ParseNatToString(k);
  }

  /** Distinct LED numbers give distinct references, so each footprint is looked up once. */
  lemma LedRefInjective(a: nat, b: nat)
    ensures LedRef(a) == LedRef(b) <==> a == b
  {
    LedIndexOfRef(a);
    LedIndexOfRef(b);
  }

  /** The slots of fewer columns are a prefix of the slots of more columns. */
  lemma {:induction false} SlotsPrefix(startColumnSize: int, netCode: int, a: nat, b: nat)
    requires a <= b
    ensures |Slots(startColumnSize, a, netCode)| <= |Slots(startColumnSize, b, netCode)|
    ensures Slots(startColumnSize, a, netCode) == Slots(startColumnSize, b, netCode)[..|Slots(startColumnSize, a, netCode)|]
    decreases b
  {
    if a < b {
      SlotsPrefix(startColumnSize, netCode, a, b - 1);
      var front := Slots(startColumnSize, b - 1, netCode);
      assert Slots(startColumnSize, b, netCode)[..|front|] == front;
    }
  }

  /** The first `placed` slots of column `col` extend the slots before it to a prefix of the whole panel. */
  lemma SlotsPartColumn(startColumnSize: int, netCode: int, col: nat, numCols: nat, placed: nat)
    requires col < numCols
    requires placed < Rows(ColumnHeight(startColumnSize, col))
    ensures var front := Slots(startColumnSize, col, netCode)
                         + ColumnSlots(col, ColumnHeight(startColumnSize, col), netCode)[..placed];
      && |front| < |Slots(startColumnSize, numCols, netCode)|
      && front == Slots(startColumnSize, numCols, netCode)[..|front|]
  {
    var all := Slots(startColumnSize, numCols, netCode);
    var done := Slots(startColumnSize, col, netCode);
    var column := ColumnSlots(col, ColumnHeight(startColumnSize, col), netCode);
    SlotsPrefix(startColumnSize, netCode, col + 1, numCols);
    assert Slots(startColumnSize, col + 1, netCode) == done + column;
    PrefixThenPart(all, done, column, placed);
  }

  /**
   * Every slot of the first `numCols` columns lies in one of them, inside its
   * column's height, which the shrink schedule fixes.
   */
  lemma {:induction false} SlotPlaces(startColumnSize: int, netCode: int, numCols: nat, i: nat)
    requires i < |Slots(startColumnSize, numCols, netCode)|
    ensures var s := Slots(startColumnSize, numCols, netCode)[i];
            && s.col < numCols && s.row < s.height
            && s.height == ColumnHeight(startColumnSize, s.col)
    decreases numCols
  {
    var front := Slots(startColumnSize, numCols - 1, netCode);
    var column := ColumnSlots(numCols - 1, ColumnHeight(startColumnSize, numCols - 1), netCode);
    assert Slots(startColumnSize, numCols, netCode) == front + column;
    if i < |front| {
      SlotPlaces(startColumnSize, netCode, numCols - 1, i);
    } else {
      ColumnSlotPlace(numCols - 1, ColumnHeight(startColumnSize, numCols - 1), netCode, i - |front|);
    }
  }

  /**
   * Every slot of the panel is the slot of its own place: it carries the LED
   * centre there and the routing of the LED there.
   */
  lemma {:induction false} SlotsWellFormed(startColumnSize: int, netCode: int, numCols: nat, i: nat)
    requires i < |Slots(startColumnSize, numCols, netCode)|
    ensures var s := Slots(startColumnSize, numCols, netCode)[i];
            s == SlotAt(s.col, s.row, s.height, netCode)
    decreases numCols
  {
    var front := Slots(startColumnSize, numCols - 1, netCode);
    var column := ColumnSlots(numCols - 1, ColumnHeight(startColumnSize, numCols - 1), netCode);
    assert Slots(startColumnSize, numCols, netCode) == front + column;
    if i < |front| {
      SlotsWellFormed(startColumnSize, netCode, numCols - 1, i);
    } else {
      ColumnSlotAt(numCols - 1, ColumnHeight(startColumnSize, numCols - 1), netCode, i - |front|);
    }
  }

  /** Slots come column by column, and bottom row to top row within a column. */
  lemma {:induction false} SlotsOrdered(startColumnSize: int, netCode: int, numCols: nat, i: nat, j: nat)
    requires i < j < |Slots(startColumnSize, numCols, netCode)|
    ensures var s, t := Slots(startColumnSize, numCols, netCode)[i], Slots(startColumnSize, numCols, netCode)[j];
            s.col < t.col || (s.col == t.col && s.row < t.row)
    decreases numCols
  {
    var front := Slots(startColumnSize, numCols - 1, netCode);
    var column := ColumnSlots(numCols - 1, ColumnHeight(startColumnSize, numCols - 1), netCode);
    assert Slots(startColumnSize, numCols, netCode) == front + column;
    if j < |front| {
      SlotsOrdered(startColumnSize, netCode, numCols - 1, i, j);
    } else if i < |front| {
      SlotPlaces(startColumnSize, netCode, numCols - 1, i);
      ColumnSlotPlace(numCols - 1, ColumnHeight(startColumnSize, numCols - 1), netCode, j - |front|);
    } else {
      ColumnSlotPlace(numCols - 1, ColumnHeight(startColumnSize, numCols - 1), netCode, i - |front|);
      ColumnSlotPlace(numCols - 1, ColumnHeight(startColumnSize, numCols - 1), netCode, j - |front|);
    }
  }

  /** The panel has as many slots as the shrink schedule has LEDs. */
  lemma {:induction false} SlotsCount(startColumnSize: int, netCode: int, numCols: nat)
    ensures |Slots(startColumnSize, numCols, netCode)| == TotalLeds(startColumnSize, numCols)
    decreases numCols
  {
    if numCols > 0 {
      SlotsCount(startColumnSize, netCode, numCols - 1);
    }
  }

  /** The panel has 428 LED slots. */
  lemma AllSlotsCount(netCode: int)
    ensures |AllSlots(netCode)| == 428
  {
    SlotsCount(START_COLUMN_SIZE, netCode, NUM_COLS);
    ReferenceTotal();
  }

  /** Appending a slot appends exactly its items to the routing. */
  lemma RoutingSnoc(slots: seq<Slot>, s: Slot)
    ensures Routing(slots + [s]) == Routing(slots) + s.items
  {
    assert (slots + [s])[..|slots|] == slots;
  }

  /** How many vias `items` holds. */
  function CountVias(items: seq<BoardItem>): nat
    decreases |items|
  {
    if items == [] then 0
    else CountVias(items[..|items| - 1]) + (if items[|items| - 1].Via? then 1 else 0)
  }

  /** Counting vias distributes over concatenation. */
  lemma {:induction false} CountViasAppend(a: seq<BoardItem>, b: seq<BoardItem>)
    ensures CountVias(a + b) == CountVias(a) + CountVias(b)
    decreases |b|
  {
    if b != [] {
      var front := b[..|b| - 1];
      assert (a + b)[..|a + b| - 1] == a + front;
      CountViasAppend(a, front);
    } else {
      assert a + b == a;
    }
  }

  /** A run of tracks holds no via. */
  lemma {:induction false} CountViasOfTracks(items: seq<BoardItem>)
    requires forall i :: 0 <= i < |items| ==> items[i].Track?
    ensures CountVias(items) == 0
    decreases |items|
  {
    if items != [] {
      CountViasOfTracks(items[..|items| - 1]);
    }
  }

  /** Every LED, whatever its row, drops exactly one via. */
  lemma LedVias(c: Point, row: nat, netCode: int)
    ensures CountVias(LedItems(c, row, netCode)) == 1
  {
    var items := LedItems(c, row, netCode);
    BackboneShape(c, row, netCode);
    LedItemsCount(c, row, netCode);
    var jumpers := items[3..];
    if row > 0 {
      JumperShape(c, row, netCode);
    }
    assert forall i :: 0 <= i < |jumpers| ==> jumpers[i].Track?;
    CountViasOfTracks(jumpers);
    assert items == [items[0]] + [items[1]] + [items[2]] + jumpers;
    CountViasAppend([items[0]] + [items[1]] + [items[2]], jumpers);
    CountViasAppend([items[0]] + [items[1]], [items[2]]);
    CountViasAppend([items[0]], [items[1]]);
    assert CountVias([items[0]]) == 0 && CountVias([items[1]]) == 1 && CountVias([items[2]]) == 0 by {
      assert [items[0]][..0] == [] && [items[1]][..0] == [] && [items[2]][..0] == [];
    }
  }

  /** The routing of well-formed slots drops one via per slot. */
  lemma {:induction false} RoutingVias(slots: seq<Slot>, netCode: int)
    requires forall i :: 0 <= i < |slots| ==> slots[i].items == LedItems(slots[i].centre, slots[i].row, netCode)
    ensures CountVias(Routing(slots)) == |slots|
    decreases |slots|
  {
    if slots != [] {
      var n := |slots|;
      var front := slots[..n - 1];
      RoutingVias(front, netCode);
      CountViasAppend(Routing(front), slots[n - 1].items);
      LedVias(slots[n - 1].centre, slots[n - 1].row, netCode);
    }
  }

  /** A panel drops one via per LED. */
  lemma SlotsVias(startColumnSize: int, netCode: int, numCols: nat)
    ensures CountVias(Routing(Slots(startColumnSize, numCols, netCode))) == TotalLeds(startColumnSize, numCols)
  {
    var all := Slots(startColumnSize, numCols, netCode);
    forall i | 0 <= i < |all|
      ensures all[i].items == LedItems(all[i].centre, all[i].row, netCode)
    {
      SlotsWellFormed(startColumnSize, netCode, numCols, i);
    }
    RoutingVias(all, netCode);
    SlotsCount(startColumnSize, netCode, numCols);
  }

  /** The whole panel drops 428 vias. */
  lemma PanelVias(netCode: int)
    ensures CountVias(Routing(AllSlots(netCode))) == 428
  {
    SlotsVias(START_COLUMN_SIZE, netCode, NUM_COLS);
    ReferenceTotal();
  }

  /**
   * A panel of two columns starting three LEDs tall: no shrink fires, so both
   * columns hold three LEDs, and the six LEDs drop six vias.
   */
  lemma SmallPanel(netCode: int)
    ensures Heights(3, 2) == [3, 3]
    ensures |Slots(3, 2, netCode)| == 6
    ensures CountVias(Routing(Slots(3, 2, netCode))) == 6
  {
    assert StateAt(3, 1) == ScheduleState(3, 1, false);
    SlotsCount(3, netCode, 2);
    SlotsVias(3, netCode, 2);
  }
}
