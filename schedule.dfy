/**
 * The column-height schedule of the bowtie: the three counters `leds_per_column`,
 * `add_led_next_column` and `flip` that `create_bowtie` updates after each
 * column, as a state machine stepped once per column.
 */
module Schedule {

  /** Columns in the panel. */
  const NUM_COLS: nat := 21
  /** Height of the first column. */
  const START_COLUMN_SIZE: int := 28

  /** The schedule's state after some number of columns. */
  datatype ScheduleState = ScheduleState(height: int, counter: nat, flip: bool)

  /** Before the first column: the starting height, a counter of zero (Python's False), no flip. */
  function Initial(startColumnSize: int): ScheduleState {
    ScheduleState(startColumnSize, 0, false)
  }

  /** The counter value at which the next shrink fires. */
  function Threshold(flip: bool): nat {
    if flip then 2 else 1
  }

  /** The update made once a column is finished. */
  function Step(s: ScheduleState): ScheduleState {
    if s.counter == Threshold(s.flip) then ScheduleState(s.height - 2, 0, !s.flip)
    else ScheduleState(s.height, s.counter + 1, s.flip)
  }

  /** The state in force while column `col` is laid out. */
  function StateAt(startColumnSize: int, col: nat): ScheduleState
    decreases col
  {
    if col == 0 then Initial(startColumnSize) else Step(StateAt(startColumnSize, col - 1))
  }

  function ColumnHeight(startColumnSize: int, col: nat): int {
    StateAt(startColumnSize, col).height
  }

  /** Rows in a column of that height: Python's `range(h)` is empty for h <= 0. */
  function Rows(height: int): nat {
    if height > 0 then height else 0
  }

  /** The counter never passes the threshold, so it stays in {0, 1, 2}. */
  lemma {:induction false} CounterBounded(startColumnSize: int, col: nat)
    ensures StateAt(startColumnSize, col).counter <= Threshold(StateAt(startColumnSize, col).flip)
    ensures StateAt(startColumnSize, col).counter <= 2
    decreases col
  {
    if col > 0 {
      CounterBounded(startColumnSize, col - 1);
    }
  }

  /**
   * From one column to the next the height stays or drops by exactly two, and
   * `flip` toggles exactly when it drops.
   */
  lemma ShrinkStep(startColumnSize: int, col: nat)
    ensures var h, h' := ColumnHeight(startColumnSize, col), ColumnHeight(startColumnSize, col + 1);
            h' == h || h' == h - 2
    ensures StateAt(startColumnSize, col + 1).flip != StateAt(startColumnSize, col).flip
        <==> ColumnHeight(startColumnSize, col + 1) == ColumnHeight(startColumnSize, col) - 2
  {
  }

  /**
   * The schedule repeats every five columns: a shrink after two columns, then
   * one after three, so the height falls by four per period.
   */
  lemma {:induction false} Period(startColumnSize: int, k: nat)
    ensures StateAt(startColumnSize, 5 * k) == ScheduleState(startColumnSize - 4 * k, 0, false)
    decreases k
  {
    if k > 0 {
      var c := 5 * (k - 1);
      var h := startColumnSize - 4 * (k - 1);
      Period(startColumnSize, k - 1);
      assert StateAt(startColumnSize, c + 1) == ScheduleState(h, 1, false);
      assert StateAt(startColumnSize, c + 2) == ScheduleState(h - 2, 0, true);
      assert StateAt(startColumnSize, c + 3) == ScheduleState(h - 2, 1, true);
      assert StateAt(startColumnSize, c + 4) == ScheduleState(h - 2, 2, true);
    }
  }

  /** Height of any column in closed form: 4 fewer per period, 2 fewer from the third column of a period. */
  lemma ColumnHeightClosedForm(startColumnSize: int, col: nat)
    ensures ColumnHeight(startColumnSize, col)
         == startColumnSize - 4 * (col / 5) - (if col % 5 >= 2 then 2 else 0)
  {
    var k := col / 5;
    var h := startColumnSize - 4 * k;
    Period(startColumnSize, k);
    assert StateAt(startColumnSize, 5 * k + 1) == ScheduleState(h, 1, false);
    assert StateAt(startColumnSize, 5 * k + 2) == ScheduleState(h - 2, 0, true);
    assert StateAt(startColumnSize, 5 * k + 3) == ScheduleState(h - 2, 1, true);
    assert StateAt(startColumnSize, 5 * k + 4) == ScheduleState(h - 2, 2, true);
  }

  /** Later columns are never taller than earlier ones. */
  lemma HeightNonIncreasing(startColumnSize: int, col: nat, col': nat)
    requires col <= col'
    ensures ColumnHeight(startColumnSize, col') <= ColumnHeight(startColumnSize, col)
  {
    ColumnHeightClosedForm(startColumnSize, col);
    ColumnHeightClosedForm(startColumnSize, col');
  }

  function Heights(startColumnSize: int, numCols: nat): (hs: seq<int>)
    ensures |hs| == numCols
  {
    seq(numCols, col requires 0 <= col < numCols => ColumnHeight(startColumnSize, col))
  }

  /** LEDs in the first `numCols` columns. */
  function TotalLeds(startColumnSize: int, numCols: nat): nat
    decreases numCols
  {
    if numCols == 0 then 0
    else TotalLeds(startColumnSize, numCols - 1) + Rows(ColumnHeight(startColumnSize, numCols - 1))
  }

  /** One more period adds its five columns: two of height h and three of height h - 2. */
  lemma TotalOfNextPeriod(startColumnSize: int, k: nat)
    requires startColumnSize - 4 * k - 2 > 0
    ensures TotalLeds(startColumnSize, 5 * k + 5)
         == TotalLeds(startColumnSize, 5 * k) + 5 * (startColumnSize - 4 * k) - 6
  {
    var c := 5 * k;
    var h := startColumnSize - 4 * k;
    Period(startColumnSize, k);
    assert StateAt(startColumnSize, c + 1) == ScheduleState(h, 1, false);
    assert StateAt(startColumnSize, c + 2) == ScheduleState(h - 2, 0, true);
    assert StateAt(startColumnSize, c + 3) == ScheduleState(h - 2, 1, true);
    assert StateAt(startColumnSize, c + 4) == ScheduleState(h - 2, 2, true);
    assert TotalLeds(startColumnSize, c + 2) == TotalLeds(startColumnSize, c) + 2 * h;
    assert TotalLeds(startColumnSize, c + 4) == TotalLeds(startColumnSize, c + 2) + 2 * (h - 2);
  }

  /** With 21 columns starting at 28, this is the height of every column. */
  lemma ReferenceHeights()
    ensures Heights(START_COLUMN_SIZE, NUM_COLS)
         == [28, 28, 26, 26, 26, 24, 24, 22, 22, 22, 20, 20, 18, 18, 18, 16, 16, 14, 14, 14, 12]
  {
    // The schedule's state column by column.
    assert StateAt(START_COLUMN_SIZE, 0) == ScheduleState(28, 0, false);
    assert StateAt(START_COLUMN_SIZE, 1) == ScheduleState(28, 1, false);
    assert StateAt(START_COLUMN_SIZE, 2) == ScheduleState(26, 0, true);
    assert StateAt(START_COLUMN_SIZE, 3) == ScheduleState(26, 1, true);
    assert StateAt(START_COLUMN_SIZE, 4) == ScheduleState(26, 2, true);
    assert StateAt(START_COLUMN_SIZE, 5) == ScheduleState(24, 0, false);
    assert StateAt(START_COLUMN_SIZE, 6) == ScheduleState(24, 1, false);
    assert StateAt(START_COLUMN_SIZE, 7) == ScheduleState(22, 0, true);
    assert StateAt(START_COLUMN_SIZE, 8) == ScheduleState(22, 1, true);
    assert StateAt(START_COLUMN_SIZE, 9) == ScheduleState(22, 2, true);
    assert StateAt(START_COLUMN_SIZE, 10) == ScheduleState(20, 0, false);
    assert StateAt(START_COLUMN_SIZE, 11) == ScheduleState(20, 1, false);
    assert StateAt(START_COLUMN_SIZE, 12) == ScheduleState(18, 0, true);
    assert StateAt(START_COLUMN_SIZE, 13) == ScheduleState(18, 1, true);
    assert StateAt(START_COLUMN_SIZE, 14) == ScheduleState(18, 2, true);
    assert StateAt(START_COLUMN_SIZE, 15) == ScheduleState(16, 0, false);
    assert StateAt(START_COLUMN_SIZE, 16) == ScheduleState(16, 1, false);
    assert StateAt(START_COLUMN_SIZE, 17) == ScheduleState(14, 0, true);
    assert StateAt(START_COLUMN_SIZE, 18) == ScheduleState(14, 1, true);
    assert StateAt(START_COLUMN_SIZE, 19) == ScheduleState(14, 2, true);
    assert StateAt(START_COLUMN_SIZE, 20) == ScheduleState(12, 0, false);
  }

  /** With 21 columns starting at 28, the panel holds 428 LEDs. */
  lemma ReferenceTotal()
    ensures TotalLeds(START_COLUMN_SIZE, NUM_COLS) == 428
  {
    var s := START_COLUMN_SIZE;
    assert TotalLeds(s, 0) == 0;
    TotalOfNextPeriod(s, 0);
    assert TotalLeds(s, 5) == 134;
    TotalOfNextPeriod(s, 1);
    assert TotalLeds(s, 10) == 248;
    TotalOfNextPeriod(s, 2);
    assert TotalLeds(s, 15) == 342;
    TotalOfNextPeriod(s, 3);
    assert TotalLeds(s, 20) == 416;
    ColumnHeightClosedForm(s, 20);
    assert ColumnHeight(s, 20) == 12;
    assert TotalLeds(s, 21) == TotalLeds(s, 20) + Rows(ColumnHeight(s, 20));
  }
}
