/**
 * `create_bowtie`: clears the board's routing, then walks the columns of the
 * bowtie, placing LED `LD1`, `LD2`, ... in turn and emitting each one's tracks
 * and vias, with the column height following the shrink schedule.
 */
module Bowtie {
  import opened Wrappers
  import opened Kicad
  import opened Handler
  import opened Schedule
  import opened Layout
  import opened Seqs

  /** The first of LEDs `from`..`last` whose reference the board lacks, if any. */
  function FirstMissingLed(footprints: map<string, Placement>, from: nat, last: nat): (r: Option<nat>)
    ensures r.Some? ==> from <= r.value <= last && LedRef(r.value) !in footprints
    ensures r.Some? ==> forall j :: from <= j < r.value ==> LedRef(j) in footprints
    ensures r.None? ==> forall j :: from <= j <= last ==> LedRef(j) in footprints
    decreases last + 1 - from
  {
    if from > last then None
    else if LedRef(from) !in footprints then Some(from)
    else FirstMissingLed(footprints, from + 1, last)
  }

  /** `footprints` with LED k moved to the centre of done[k - 1], for k = 1 .. |done| in turn. */
  function Placed(footprints: map<string, Placement>, done: seq<Slot>): map<string, Placement>
    decreases |done|
  {
    if done == [] then footprints
    else Placed(footprints, done[..|done| - 1])[LedRef(|done|) := LedPlacement(done[|done| - 1])]
  }

  /** LEDs 1 .. n all have footprints. */
  ghost predicate LedsPresent(footprints: map<string, Placement>, n: nat) {
    forall k :: 1 <= k <= n ==> LedRef(k) in footprints
  }

  /** Moving LEDs that all exist adds and removes no footprint. */
  lemma {:induction false} PlacedKeys(footprints: map<string, Placement>, done: seq<Slot>)
    requires LedsPresent(footprints, |done|)
    ensures Placed(footprints, done).Keys == footprints.Keys
    decreases |done|
  {
    if done != [] {
      PlacedKeys(footprints, done[..|done| - 1]);
    }
  }

  /** After moving LEDs 1 .. |done| in turn, LED k sits at the centre of done[k - 1]. */
  lemma {:induction false} PlacedLeds(footprints: map<string, Placement>, done: seq<Slot>, k: nat)
    requires 1 <= k <= |done|
    ensures LedRef(k) in Placed(footprints, done)
    ensures Placed(footprints, done)[LedRef(k)] == LedPlacement(done[k - 1])
    decreases |done|
  {
    var n := |done|;
    if k < n {
      var front := done[..n - 1];
      PlacedLeds(footprints, front, k);
      LedRefInjective(k, n);
      assert front[k - 1] == done[k - 1];
    }
  }

  /** Moving LEDs 1 .. |done| leaves every footprint that is not one of those LEDs where it was. */
  lemma {:induction false} PlacedOthers(footprints: map<string, Placement>, done: seq<Slot>, key: string)
    requires key in footprints
    requires !(LedIndex(key).Some? && 1 <= LedIndex(key).value <= |done|)
    ensures key in Placed(footprints, done)
    ensures Placed(footprints, done)[key] == footprints[key]
    decreases |done|
  {
    if done != [] {
      var n := |done|;
      PlacedOthers(footprints, done[..n - 1], key);
      LedIndexOfRef(n);
    }
  }

  /** Placing the next LED extends the placed prefix by one slot. */
  lemma PlacedSnoc(footprints: map<string, Placement>, done: seq<Slot>, s: Slot)
    ensures Placed(footprints, done + [s]) == Placed(footprints, done)[LedRef(|done| + 1) := LedPlacement(s)]
  {
    assert (done + [s])[..|done|] == done;
  }

  /** Once LEDs 1 .. n are known present, a missing LD(n + 1) is the first missing reference. */
  lemma FirstMissingAfterPlaced(footprints: map<string, Placement>, n: nat, last: nat)
    requires LedsPresent(footprints, n)
    requires n < last
    requires LedRef(n + 1) !in footprints
    ensures FirstMissingLed(footprints, 1, last) == Some(n + 1)
  {
    assert forall j :: 1 <= j < n + 1 ==> LedRef(j) in footprints;
  }

  /** Once LEDs 1 .. n are known present, none of them was missing. */
  lemma NoneMissingWhenAllPlaced(footprints: map<string, Placement>, n: nat)
    requires LedsPresent(footprints, n)
    ensures FirstMissingLed(footprints, 1, n) == None
  {
    assert forall j :: 1 <= j <= n ==> LedRef(j) in footprints;
  }

  /**
   * The board's footprints and items are what laying out the slots `done`, in
   * order, makes of `footprints0` and `items0`: LEDs 1 .. |done| exist and are
   * placed, and their routing is appended.
   */
  ghost predicate Accounted(footprints0: map<string, Placement>, items0: seq<BoardItem>,
                            footprints: map<string, Placement>, items: seq<BoardItem>,
                            done: seq<Slot>, netCode: int)
  {
    && LedsPresent(footprints0, |done|)
    && footprints == Placed(footprints0, done)
    && items == items0 + Routing(done)
  }

  /**
   * One pass of the row loop, for row `row` of column `col` (`height` LEDs
   * tall) at (x, y), extends the account by that row's slot.
   */
  lemma AccountStep(footprints0: map<string, Placement>, items0: seq<BoardItem>,
                    footprintsBefore: map<string, Placement>, itemsBefore: seq<BoardItem>,
                    footprintsAfter: map<string, Placement>, itemsAfter: seq<BoardItem>,
                    done: seq<Slot>, col: nat, height: int, row: nat, netCode: int, x: real, y: real)
    requires row < Rows(height)
    requires x == START_X + COLUMN_SPACING * col as real
    requires y == CENTRE_LINE_Y - row as real * ROW_SPACING + 0.5 * (height - 1) as real * ROW_SPACING
    requires Accounted(footprints0, items0, footprintsBefore, itemsBefore,
                       done + ColumnSlots(col, height, netCode)[..row], netCode)
    requires LedRef(|done| + row + 1) in footprintsBefore
    requires footprintsAfter == footprintsBefore[LedRef(|done| + row + 1) := Placement(x, y, TOP, 0.0, false)]
    requires itemsAfter == itemsBefore + LedItems(Point(x, y), row, netCode)
    ensures Accounted(footprints0, items0, footprintsAfter, itemsAfter,
                      done + ColumnSlots(col, height, netCode)[..row + 1], netCode)
  {
    var column := ColumnSlots(col, height, netCode);
    var walked := done + column[..row];
    ColumnSlotAt(col, height, netCode, row);
    FootprintStep(footprints0, footprintsBefore, footprintsAfter, walked, column[row], x, y);
    RoutingStep(items0, itemsBefore, itemsAfter, walked, column[row]);
    TakeOneMore(column, row);
    AppendAssociative(done, column[..row], [column[row]]);
  }

  /**
   * Moving the next LED, LD(|done| + 1), to the centre of slot `s` extends the
   * placed prefix by `s`, and shows that LED exists.
   */
  lemma FootprintStep(footprints0: map<string, Placement>, footprintsBefore: map<string, Placement>,
                      footprintsAfter: map<string, Placement>, done: seq<Slot>, s: Slot, x: real, y: real)
    requires s.centre == Point(x, y)
    requires LedsPresent(footprints0, |done|)
    requires footprintsBefore == Placed(footprints0, done)
    requires LedRef(|done| + 1) in footprintsBefore
    requires footprintsAfter == footprintsBefore[LedRef(|done| + 1) := Placement(x, y, TOP, 0.0, false)]
    ensures LedsPresent(footprints0, |done| + 1)
    ensures footprintsAfter == Placed(footprints0, done + [s])
  {
    PlacedKeys(footprints0, done);
    PlacedSnoc(footprints0, done, s);
  }

  /** Appending the routing of one more slot extends the routing of the walked slots. */
  lemma RoutingStep(items0: seq<BoardItem>, itemsBefore: seq<BoardItem>, itemsAfter: seq<BoardItem>,
                    done: seq<Slot>, s: Slot)
    requires itemsBefore == items0 + Routing(done)
    requires itemsAfter == itemsBefore + s.items
    ensures itemsAfter == items0 + Routing(done + [s])
  {
    RoutingSnoc(done, s);
  }

  /**
   * What laying out the panel slots `all` on a board whose footprints and items
   * were `footprints0` and `items0` leaves behind, with outcome `r`: when every
   * LED exists, all of them placed and routed and `Pass`; when LD k is the first
   * missing reference, LEDs 1 .. k - 1 placed and routed, everything else as it
   * was, and a failure naming LD k.
   */
  ghost predicate LaidOut(footprints0: map<string, Placement>, items0: seq<BoardItem>,
                          footprints: map<string, Placement>, items: seq<BoardItem>,
                          all: seq<Slot>, netCode: int, r: Outcome<Error>)
  {
    match FirstMissingLed(footprints0, 1, |all|)
    case None =>
      && r == Pass
      && items == items0 + Routing(all)
      && footprints == Placed(footprints0, all)
    case Some(k) =>
      && r == Fail(MissingComponent(LedRef(k)))
      && items == items0 + Routing(all[..k - 1])
      && footprints == Placed(footprints0, all[..k - 1])
  }

  /** A run that stops at the missing LD(n + 1) after placing the first n slots of the panel. */
  lemma StopAccount(footprints0: map<string, Placement>, footprints: map<string, Placement>,
                    items0: seq<BoardItem>, items: seq<BoardItem>, all: seq<Slot>, front: seq<Slot>,
                    next: nat, r: Outcome<Error>, netCode: int)
    requires |front| < |all| && front == all[..|front|]
    requires next == |front| + 1
    requires LedRef(next) !in footprints0
    requires Accounted(footprints0, items0, footprints, items, front, netCode)
    requires r == Fail(MissingComponent(LedRef(next)))
    ensures LaidOut(footprints0, items0, footprints, items, all, netCode, r)
  {
    FirstMissingAfterPlaced(footprints0, |front|, |all|);
  }

  /** A run that placed every slot of the panel. */
  lemma FinishAccount(footprints0: map<string, Placement>, footprints: map<string, Placement>,
                      items0: seq<BoardItem>, items: seq<BoardItem>, all: seq<Slot>, netCode: int)
    requires Accounted(footprints0, items0, footprints, items, all, netCode)
    ensures LaidOut(footprints0, items0, footprints, items, all, netCode, Pass)
  {
    NoneMissingWhenAllPlaced(footprints0, |all|);
  }

  /** Routing for one LED at (ledCentreX, ledCentreY): the backbone, then the three jumpers unless it is row 0. */
  method RouteLed(pcb: M0WUTPcbHandler, net5v: Net, ledCentreX: real, ledCentreY: real, row: nat)
    modifies pcb.board`items
    ensures pcb.board.items == old(pcb.board.items) + LedItems(Point(ledCentreX, ledCentreY), row, net5v.code)
  {
    var c := Point(ledCentreX, ledCentreY);
    // Bottom-left pad down to a via, then on to the next column on L3.
    var xPos := ledCentreX - LED_PAD_OFFSET_X;
    var yPos := ledCentreY + LED_PAD_OFFSET_Y;
    pcb.AddTrack(xPos, yPos, xPos, ledCentreY + 0.5 * ROW_SPACING, net5v, TOP, Some(0.127));
    pcb.AddVia(xPos, ledCentreY + 0.5 * ROW_SPACING, net5v, Some(VIA_HOLE), Some(VIA_DIAMETER));
    pcb.AddTrack(xPos, ledCentreY + 0.5 * ROW_SPACING, xPos + COLUMN_SPACING, ledCentreY + 0.5 * ROW_SPACING,
                 net5v, L3, Some(0.45));
    ghost var backbone := RouteCall(c, net5v.code, 0) + RouteCall(c, net5v.code, 1) + RouteCall(c, net5v.code, 2);
    assert pcb.board.items == old(pcb.board.items) + backbone;
    if row > 0 {
      ghost var before := pcb.board.items;
      // Top-right pad.
      xPos := ledCentreX + LED_PAD_OFFSET_X;
      yPos := ledCentreY - LED_PAD_OFFSET_Y;
      pcb.AddMultipointTrack(
        [Point(xPos, yPos),
         Point(xPos - 0.435, yPos + 0.435),
         Point(xPos - 0.435, yPos + ROW_SPACING - 0.435),
         Point(xPos, yPos + ROW_SPACING)],
        net5v, TOP, Some(0.127));
      // Top-left pad.
      xPos := ledCentreX - LED_PAD_OFFSET_X;
      yPos := ledCentreY - LED_PAD_OFFSET_Y;
      pcb.AddMultipointTrack(
        [Point(xPos, yPos),
         Point(xPos - 0.435, yPos + 0.435),
         Point(xPos - 0.435, yPos + ROW_SPACING - 0.435),
         Point(xPos, yPos + ROW_SPACING)],
        net5v, TOP, Some(0.127));
      // Bottom-right pad.
      xPos := ledCentreX + LED_PAD_OFFSET_X;
      yPos := ledCentreY + LED_PAD_OFFSET_Y;
      pcb.AddMultipointTrack(
        [Point(xPos, yPos),
         Point(xPos + 0.435, yPos + 0.435),
         Point(xPos + 0.435, yPos + ROW_SPACING - 0.435),
         Point(xPos, yPos + ROW_SPACING)],
        net5v, TOP, Some(0.127));
      assert pcb.board.items
          == before + (RouteCall(c, net5v.code, 3) + RouteCall(c, net5v.code, 4) + RouteCall(c, net5v.code, 5));
    }
    LedItemsCalls(c, row, net5v.code);
  }

  /**
   * One pass of the row loop: look up LD<reference>; when it exists, place it at
   * (ledCentreX, ledCentreY) on the top layer with rotation 0 and its reference
   * hidden, then emit its routing.
   */
  method PlaceAndRouteLed(pcb: M0WUTPcbHandler, net5v: Net, reference: nat,
                          ledCentreX: real, ledCentreY: real, row: nat) returns (found: bool)
    modifies pcb.board`footprints, pcb.board`items
    ensures found <==> LedRef(reference) in old(pcb.board.footprints)
    ensures !found ==> unchanged(pcb.board)
    ensures found ==>
              pcb.board.footprints
              == old(pcb.board.footprints)[LedRef(reference) := Placement(ledCentreX, ledCentreY, TOP, 0.0, false)]
    ensures found ==>
              pcb.board.items == old(pcb.board.items) + LedItems(Point(ledCentreX, ledCentreY), row, net5v.code)
  {
    var led := pcb.GetComponent(LedRef(reference));
    if led.None? {
      return false;
    }
    var placed := led.value.SetPosition(ledCentreX, ledCentreY, TOP, Some(0.0));
    assert placed.Pass?;
    NormaliseRotationExamples();
    led.value.HideReference();
    RouteLed(pcb, net5v, ledCentreX, ledCentreY, row);
    found := true;
  }

  /**
   * One pass of the row loop for row `row` of column `col`, `ledsPerColumn`
   * LEDs tall, at (ledCentreX, ledCentreY): when LD<reference> exists it is
   * placed and routed and the account grows by that row's slot; otherwise the
   * board is left alone.
   */
  method LayOutRow(pcb: M0WUTPcbHandler, net: Net, col: nat, ledsPerColumn: int, row: nat, reference: nat,
                   ledCentreX: real, ledCentreY: real,
                   ghost done: seq<Slot>, ghost footprints0: map<string, Placement>, ghost items0: seq<BoardItem>)
    returns (found: bool)
    requires row < Rows(ledsPerColumn)
    requires reference == |done| + row + 1
    requires ledCentreX == START_X + COLUMN_SPACING * col as real
    requires ledCentreY == CENTRE_LINE_Y - row as real * ROW_SPACING + 0.5 * (ledsPerColumn - 1) as real * ROW_SPACING
    requires Accounted(footprints0, items0, pcb.board.footprints, pcb.board.items,
                       done + ColumnSlots(col, ledsPerColumn, net.code)[..row], net.code)
    modifies pcb.board`footprints, pcb.board`items
    ensures found <==> LedRef(reference) in footprints0
    ensures !found ==> unchanged(pcb.board)
    ensures found ==> Accounted(footprints0, items0, pcb.board.footprints, pcb.board.items,
                                done + ColumnSlots(col, ledsPerColumn, net.code)[..row + 1], net.code)
  {
    ghost var footprintsBefore := pcb.board.footprints;
    ghost var itemsBefore := pcb.board.items;
    PlacedKeys(footprints0, done + ColumnSlots(col, ledsPerColumn, net.code)[..row]);
    found := PlaceAndRouteLed(pcb, net, reference, ledCentreX, ledCentreY, row);
    if found {
      AccountStep(footprints0, items0, footprintsBefore, itemsBefore, pcb.board.footprints, pcb.board.items,
                  done, col, ledsPerColumn, row, net.code, ledCentreX, ledCentreY);
    }
  }

  /**
   * The row loop of `create_bowtie` for column `col`, `ledsPerColumn` LEDs tall,
   * starting at LED `currentLedReference`, after the slots `done` have been laid
   * out. It stops at the first missing reference; `placed` counts the LEDs of
   * this column laid out before that.
   */
  method LayOutColumn(pcb: M0WUTPcbHandler, net: Net, col: nat, ledsPerColumn: int, currentLedReference: nat,
                      ghost done: seq<Slot>, ghost footprints0: map<string, Placement>, ghost items0: seq<BoardItem>)
    returns (r: Outcome<Error>, nextLedReference: nat, ghost placed: nat)
    requires currentLedReference == |done| + 1
    requires Accounted(footprints0, items0, pcb.board.footprints, pcb.board.items, done, net.code)
    modifies pcb.board`footprints, pcb.board`items
    ensures placed <= Rows(ledsPerColumn)
    ensures nextLedReference == currentLedReference + placed
    ensures Accounted(footprints0, items0, pcb.board.footprints, pcb.board.items,
                      done + ColumnSlots(col, ledsPerColumn, net.code)[..placed], net.code)
    ensures r.Pass? <==> placed == Rows(ledsPerColumn)
    ensures r.Fail? ==> r == Fail(MissingComponent(LedRef(nextLedReference))) && LedRef(nextLedReference) !in footprints0
  {
    ghost var board := pcb.board;
    assert done + ColumnSlots(col, ledsPerColumn, net.code)[..0] == done;
    var ledCentreX := START_X + COLUMN_SPACING * col as real;
    nextLedReference := currentLedReference;
    var row := 0;
    while row < ledsPerColumn
      invariant 0 <= row <= Rows(ledsPerColumn)
      invariant nextLedReference == currentLedReference + row
      invariant Accounted(footprints0, items0, board.footprints, board.items,
                          done + ColumnSlots(col, ledsPerColumn, net.code)[..row], net.code)
    {
      var ledCentreY := CENTRE_LINE_Y - row as real * ROW_SPACING
                        + 0.5 * (ledsPerColumn - 1) as real * ROW_SPACING;
      var found := LayOutRow(pcb, net, col, ledsPerColumn, row, nextLedReference, ledCentreX, ledCentreY,
                             done, footprints0, items0);
      if !found {
        placed := row;
        r := Fail(MissingComponent(LedRef(nextLedReference)));
        return;
      }
      nextLedReference := nextLedReference + 1;
      row := row + 1;
    }
    placed := row;
    r := Pass;
  }

  /**
   * A column that stopped at the missing LD(next) after `placed` of its LEDs
   * leaves the panel of `numCols` columns laid out up to that LED.
   */
  lemma ColumnStopped(footprints0: map<string, Placement>, items0: seq<BoardItem>,
                      footprints: map<string, Placement>, items: seq<BoardItem>,
                      startColumnSize: int, numCols: nat, col: nat, height: int, netCode: int,
                      placed: nat, next: nat, r: Outcome<Error>)
    requires col < numCols
    requires height == ColumnHeight(startColumnSize, col)
    requires placed < Rows(height)
    requires next == |Slots(startColumnSize, col, netCode)| + placed + 1
    requires r == Fail(MissingComponent(LedRef(next))) && LedRef(next) !in footprints0
    requires Accounted(footprints0, items0, footprints, items,
                       Slots(startColumnSize, col, netCode) + ColumnSlots(col, height, netCode)[..placed], netCode)
    ensures LaidOut(footprints0, items0, footprints, items, Slots(startColumnSize, numCols, netCode), netCode, r)
  {
    var all := Slots(startColumnSize, numCols, netCode);
    var front := Slots(startColumnSize, col, netCode) + ColumnSlots(col, height, netCode)[..placed];
    SlotsPartColumn(startColumnSize, netCode, col, numCols, placed);
    StopAccount(footprints0, footprints, items0, items, all, front, next, r, netCode);
  }

  /** A column whose every LED was laid out extends the account by the whole column. */
  lemma ColumnFinished(footprints0: map<string, Placement>, items0: seq<BoardItem>,
                       footprints: map<string, Placement>, items: seq<BoardItem>,
                       startColumnSize: int, col: nat, height: int, netCode: int, placed: nat)
    requires height == ColumnHeight(startColumnSize, col)
    requires placed == Rows(height)
    requires Accounted(footprints0, items0, footprints, items,
                       Slots(startColumnSize, col, netCode) + ColumnSlots(col, height, netCode)[..placed], netCode)
    ensures |Slots(startColumnSize, col + 1, netCode)| == |Slots(startColumnSize, col, netCode)| + placed
    ensures Accounted(footprints0, items0, footprints, items, Slots(startColumnSize, col + 1, netCode), netCode)
  {
    var column := ColumnSlots(col, height, netCode);
    SlotsNext(startColumnSize, col, height, netCode);
    TakeAll(column);
  }

  /**
   * One pass of the column loop: lays out column `col` of the panel, at the
   * height the schedule gives it, after the columns before it. A missing LED
   * ends the panel's run there; otherwise the account covers one more column.
   */
  method LayOutPanelColumn(pcb: M0WUTPcbHandler, net: Net, numCols: nat, startColumnSize: int, col: nat,
                           ledsPerColumn: int, currentLedReference: nat,
                           ghost footprints0: map<string, Placement>, ghost items0: seq<BoardItem>)
    returns (r: Outcome<Error>, nextLedReference: nat)
    requires col < numCols
    requires ledsPerColumn == ColumnHeight(startColumnSize, col)
    requires currentLedReference == |Slots(startColumnSize, col, net.code)| + 1
    requires Accounted(footprints0, items0, pcb.board.footprints, pcb.board.items,
                       Slots(startColumnSize, col, net.code), net.code)
    modifies pcb.board`footprints, pcb.board`items
    ensures r.Fail? ==> LaidOut(footprints0, items0, pcb.board.footprints, pcb.board.items,
                                Slots(startColumnSize, numCols, net.code), net.code, r)
    ensures r.Pass? ==> nextLedReference == |Slots(startColumnSize, col + 1, net.code)| + 1
    ensures r.Pass? ==> Accounted(footprints0, items0, pcb.board.footprints, pcb.board.items,
                                  Slots(startColumnSize, col + 1, net.code), net.code)
  {
    ghost var placed;
    r, nextLedReference, placed := LayOutColumn(pcb, net, col, ledsPerColumn, currentLedReference,
                                                Slots(startColumnSize, col, net.code), footprints0, items0);
    if r.Fail? {
      ColumnStopped(footprints0, items0, pcb.board.footprints, pcb.board.items, startColumnSize, numCols, col,
                    ledsPerColumn, net.code, placed, nextLedReference, r);
    } else {
      ColumnFinished(footprints0, items0, pcb.board.footprints, pcb.board.items, startColumnSize, col,
                     ledsPerColumn, net.code, placed);
    }
  }

  /**
   * The column loop of `create_bowtie` for a panel of `numCols` columns whose
   * first column holds `startColumnSize` LEDs (the generator passes NUM_COLS and
   * START_COLUMN_SIZE). LED k goes to slot k - 1 of the panel; the first
   * reference the board lacks stops the run with everything before it already
   * placed and routed.
   */
  method LayOutPanel(pcb: M0WUTPcbHandler, net: Net, numCols: nat, startColumnSize: int) returns (r: Outcome<Error>)
    modifies pcb.board`footprints, pcb.board`items
    ensures LaidOut(old(pcb.board.footprints), old(pcb.board.items), pcb.board.footprints, pcb.board.items,
                    Slots(startColumnSize, numCols, net.code), net.code, r)
  {
    ghost var board := pcb.board;
    ghost var items0 := board.items;
    ghost var footprints0 := board.footprints;
    assert items0 + Routing(Slots(startColumnSize, 0, net.code)) == items0;
    var currentLedReference := 1;
    var ledsPerColumn := startColumnSize;
    var addLedNextColumn := 0;
    var flip := false;
    var col := 0;
    while col < numCols
      invariant 0 <= col <= numCols
      invariant ScheduleState(ledsPerColumn, addLedNextColumn, flip) == StateAt(startColumnSize, col)
      invariant currentLedReference == |Slots(startColumnSize, col, net.code)| + 1
      invariant Accounted(footprints0, items0, board.footprints, board.items, Slots(startColumnSize, col, net.code),
                          net.code)
    {
      var outcome, next := LayOutPanelColumn(pcb, net, numCols, startColumnSize, col, ledsPerColumn,
                                             currentLedReference, footprints0, items0);
      if outcome.Fail? {
        return outcome;
      }
      currentLedReference := next;
      ghost var finished := ScheduleState(ledsPerColumn, addLedNextColumn, flip);

      if addLedNextColumn == (if flip then 2 else 1) {
        ledsPerColumn := ledsPerColumn - 2;
        addLedNextColumn := 0;
        flip := !flip;
      } else {
        addLedNextColumn := addLedNextColumn + 1;
      }
      assert ScheduleState(ledsPerColumn, addLedNextColumn, flip) == Step(finished);
      col := col + 1;
    }
    FinishAccount(footprints0, board.footprints, items0, board.items, Slots(startColumnSize, numCols, net.code),
                  net.code);
    r := Pass;
  }

  /**
   * Generates the bowtie on `kicadPcb`. Fails before touching the board when
   * net "5V0" or "0V" is missing. Otherwise the old routing is wiped, so the
   * routing afterwards depends only on the 5V0 net's code and on which LEDs
   * exist: on success every LED of the panel is placed and routed; when LD k is
   * the first reference missing, LEDs 1 .. k - 1 are already placed and routed,
   * nothing after them is touched, and nothing is rolled back.
   */
  method CreateBowtie(kicadPcb: Board) returns (r: Outcome<Error>)
    modifies kicadPcb`footprints, kicadPcb`items
    ensures "5V0" !in old(kicadPcb.nets) ==> r == Fail(MissingNet("5V0")) && unchanged(kicadPcb)
    ensures ("5V0" in old(kicadPcb.nets) && "0V" !in old(kicadPcb.nets))
              ==> r == Fail(MissingNet("0V")) && unchanged(kicadPcb)
    ensures "5V0" in old(kicadPcb.nets) && "0V" in old(kicadPcb.nets) ==>
              LaidOut(old(kicadPcb.footprints), [], kicadPcb.footprints, kicadPcb.items,
                      AllSlots(old(kicadPcb.nets)["5V0"]), old(kicadPcb.nets)["5V0"], r)
  {
    var pcb := new M0WUTPcbHandler(kicadPcb, 0.2, VIA_DIAMETER, VIA_HOLE);

    var net5v := pcb.GetNet("5V0");
    if net5v.None? {
      return Fail(MissingNet("5V0"));
    }
    var net0v := pcb.GetNet("0V");
    if net0v.None? {
      return Fail(MissingNet("0V"));
    }

    // Wipe the board from previous attempts.
    pcb.DeleteAllTracksAndVias();

    r := LayOutPanel(pcb, net5v.value, NUM_COLS, START_COLUMN_SIZE);
  }
}
