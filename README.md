# Bowtie LED-panel generator, modelled in Dafny

This project models `create_bowtie` from the KiCad bowtie creator. The
generator places the LED footprints `LD1`, `LD2`, ... of a bowtie-shaped
panel column by column, and routes the 5V0 supply for each LED:

- a short top-layer drop from the LED's bottom-left pad;
- a via at the end of that drop;
- an inner-layer run to the next column;
- above the first row of a column, three bevelled jumpers down to the row below.

Column heights follow a small state machine, made of `leds_per_column`,
`add_led_next_column` and `flip`. A column shrinks by two after two columns,
then after three, and so on in turn.

The model has six modules:

- `Kicad` (`kicad.dfy`): the part of the host board the generator touches. A
  `Board` class holds the nets, the footprints by reference, and one list of
  routing items, holding both tracks and vias.
- `Handler` (`handler.dfy`): the `Component` and `M0WUTPcbHandler` classes.
  Their methods change the board in place, as the Python methods do. Alongside
  them are the pure helpers: rotation normalisation, polyline splitting, and
  the track and via filters.
- `Schedule` (`schedule.dfy`): the column-height state machine, one step per
  column, with its invariants. It also proves the concrete heights and the
  total for the shipped constants.
- `Layout` (`layout.dfy`): the closed-form geometry, meaning the LED centres,
  pads, backbone and jumpers. It also lists every LED slot of a panel in the
  order the generator visits them, presented as a specification and proved
  against.
- `Bowtie` (`bowtie.dfy`): `create_bowtie` itself, as nested imperative loops.
  The loops are proved to leave exactly the placements and routing that the
  `Layout` functions describe, including when an LED is missing part way
  through.
- `Decimal`, `Seqs`, `Wrappers`: decimal rendering of numbers, sequence
  lemmas, and `Option`/`Outcome`.

All coordinates are exact reals in millimetres.

The data the model works on:

- `Kicad.KicadLayer` is the layer enumeration (`bowtie_creator.py:9-19`).
- `Kicad.Net` is a net's name and code (`bowtie_creator.py:37-46`).
- `Kicad.Board` stands for the `pcbnew.BOARD` handed to `create_bowtie`.
- `Layout.Slot` is one LED place: its column, row, column height, centre and
  routing items.

**How vias are counted.** The code drops one via for every LED, row 0 included
(`bowtie_creator.py:279-285`). A panel of two columns three LEDs tall
therefore has six vias. `SmallPanel` and `PanelVias` state these counts.

## Model

| member | source | states |
|---|---|---|
| Kicad.Net.Repr | Bowtie_Creator/bowtie_creator.py:42-43 | the representation is the name, then " (Code: ", then the code in decimal, then ")" |
| Kicad.Board.constructor | Bowtie_Creator/bowtie_creator.py:221 | the board handed to the generator holds exactly the given nets, footprints and routing items |
| Kicad.ReprDeterminesCode | Bowtie_Creator/bowtie_creator.py:37-46 | two nets with the same name and the same representation are the same net: the code can be read back |
| Decimal.NatToString | Bowtie_Creator/bowtie_creator.py:247 | the rendering of a number is a non-empty string of decimal digits, with no leading zero unless it is the single digit 0 |
| Decimal.IntToString | Bowtie_Creator/bowtie_creator.py:43 | the rendering is non-empty; a non-negative number starts with a digit; a negative one is '-' followed by the digits of its magnitude |
| Decimal.ParseNatToString | Bowtie_Creator/bowtie_creator.py:247 | parsing the decimal digits of an LED number gives back that number |
| Decimal.NatToStringInjective | Bowtie_Creator/bowtie_creator.py:247 | distinct LED numbers render to distinct digit strings |
| Decimal.IntToStringInjective | Bowtie_Creator/bowtie_creator.py:43 | distinct net codes, negative ones included, render to distinct strings |
| Handler.NormaliseRotation | Bowtie_Creator/bowtie_creator.py:70-72 | `(r + 360) % 360` lies in [0, 360) and differs from r by a whole number of turns |
| Handler.NormaliseRotationUnique | Bowtie_Creator/bowtie_creator.py:70-72 | the normalised angle is the only angle in [0, 360) that differs from the input by whole turns |
| Handler.NormaliseRotationIdempotent | Bowtie_Creator/bowtie_creator.py:70-72 | normalising an angle that is already normalised changes nothing |
| Handler.NormaliseRotationExamples | Bowtie_Creator/bowtie_creator.py:70-72 | -10 becomes 350, 370 becomes 10, and 0 stays 0 |
| Handler.MultipointTracks | Bowtie_Creator/bowtie_creator.py:169-181 | a polyline of k points splits into max(k - 1, 0) tracks |
| Handler.MultipointTrackAt | Bowtie_Creator/bowtie_creator.py:176-181 | track i runs from point i to point i + 1, with the shared net, layer and width |
| Handler.MultipointTracksChained | Bowtie_Creator/bowtie_creator.py:176-181 | consecutive tracks of a polyline share an endpoint |
| Handler.WithoutTracks | Bowtie_Creator/bowtie_creator.py:190-195 | what deleting the tracks leaves holds only vias and is no longer than the original |
| Handler.WithoutVias | Bowtie_Creator/bowtie_creator.py:200-204 | what deleting the vias leaves holds only tracks and is no longer than the original |
| Handler.WithoutTracksMembers | Bowtie_Creator/bowtie_creator.py:190-195 | an item survives deleting the tracks exactly when it was on the board and is a via |
| Handler.WithoutViasMembers | Bowtie_Creator/bowtie_creator.py:200-204 | an item survives deleting the vias exactly when it was on the board and is a track |
| Handler.DeletionsPartition | Bowtie_Creator/bowtie_creator.py:190-205 | the vias kept by one deletion and the tracks kept by the other together number the original items |
| Handler.WithoutTracksIdempotent | Bowtie_Creator/bowtie_creator.py:190-195 | deleting the tracks a second time changes nothing |
| Handler.DeleteTracksThenVias | Bowtie_Creator/bowtie_creator.py:190-205 | deleting the tracks and then the vias leaves no routing |
| Handler.Component.constructor | Bowtie_Creator/bowtie_creator.py:49-51 | the handle refers to the given footprint on the given board |
| Handler.Component.SetPosition | Bowtie_Creator/bowtie_creator.py:53-72 | fails, with the footprint untouched, for any layer except TOP and BOTTOM; otherwise it sets the position and layer, stores a given rotation normalised, keeps the old rotation when none is given, and never changes the reference visibility |
| Handler.Component.SetReferenceVisible | Bowtie_Creator/bowtie_creator.py:74-75 | sets only that footprint's reference visibility |
| Handler.Component.ShowReference | Bowtie_Creator/bowtie_creator.py:77-78 | makes the reference visible and changes nothing else |
| Handler.Component.HideReference | Bowtie_Creator/bowtie_creator.py:80-81 | hides the reference and changes nothing else |
| Handler.M0WUTPcbHandler.constructor | Bowtie_Creator/bowtie_creator.py:101-107 | keeps the board and the three fallback sizes; the defaults are 0.45, 0.45 and 0.2 |
| Handler.M0WUTPcbHandler.AddVia | Bowtie_Creator/bowtie_creator.py:114-141 | appends exactly one via at (x, y) on the net; a missing hole or pad diameter becomes the handler's default |
| Handler.M0WUTPcbHandler.AddTrack | Bowtie_Creator/bowtie_creator.py:143-167 | appends exactly one track on the net and layer; a missing width becomes the handler's default |
| Handler.M0WUTPcbHandler.AddMultipointTrack | Bowtie_Creator/bowtie_creator.py:169-181 | appends the polyline's tracks in order, and nothing else |
| Handler.M0WUTPcbHandler.GetComponent | Bowtie_Creator/bowtie_creator.py:183-188 | returns a handle exactly when the board has a footprint with that reference, otherwise None |
| Handler.M0WUTPcbHandler.GetNet | Bowtie_Creator/bowtie_creator.py:213-218 | returns the net, with its name and code from the board, exactly when the board has it, otherwise None |
| Handler.M0WUTPcbHandler.DeleteAllTracks | Bowtie_Creator/bowtie_creator.py:190-198 | the routing afterwards is the old routing with every track removed, with the vias in their order |
| Handler.M0WUTPcbHandler.DeleteAllVias | Bowtie_Creator/bowtie_creator.py:200-205 | the routing afterwards is the old routing with every via removed, with the tracks in their order |
| Handler.M0WUTPcbHandler.DeleteAllTracksAndVias | Bowtie_Creator/bowtie_creator.py:207-211 | the routing afterwards is empty |
| Schedule.Initial | Bowtie_Creator/bowtie_creator.py:239-243 | by definition, before the first column the height is the start size, the counter is 0 (Python's `False`) and `flip` is false |
| Schedule.Step | Bowtie_Creator/bowtie_creator.py:356-361 | by definition, once a column is done: if the counter equals `2 if flip else 1`, the height drops by 2, the counter resets to 0 and `flip` toggles; otherwise the counter goes up by 1 |
| Schedule.StateAt | Bowtie_Creator/bowtie_creator.py:239-361 | by definition, the state in force for column c is `Initial` stepped once per earlier column |
| Schedule.Threshold | Bowtie_Creator/bowtie_creator.py:356 | by definition, the counter value at which the next shrink fires: 2 when `flip` is set, 1 otherwise |
| Schedule.Rows | Bowtie_Creator/bowtie_creator.py:246 | by definition, the number of rows `range(leds_per_column)` visits: the height when it is positive, 0 otherwise |
| Schedule.CounterBounded | Bowtie_Creator/bowtie_creator.py:356-361 | `add_led_next_column` never exceeds `2 if flip else 1`, so it stays in {0, 1, 2} |
| Schedule.ShrinkStep | Bowtie_Creator/bowtie_creator.py:356-361 | from one column to the next the height stays the same or drops by exactly 2, and `flip` toggles exactly when it drops |
| Schedule.Period | Bowtie_Creator/bowtie_creator.py:356-361 | every five columns the schedule returns to counter 0 and no flip, with the height 4 lower |
| Schedule.ColumnHeightClosedForm | Bowtie_Creator/bowtie_creator.py:356-361 | the height of column c is start - 4 * (c / 5), less 2 more from the third column of each period of five |
| Schedule.HeightNonIncreasing | Bowtie_Creator/bowtie_creator.py:356-361 | a later column is never taller than an earlier one |
| Schedule.Heights | Bowtie_Creator/bowtie_creator.py:244-246 | the list of the first n column heights, in column order, has exactly n entries |
| Schedule.TotalLeds | Bowtie_Creator/bowtie_creator.py:244-354 | by definition, the number of LEDs the first n columns hold: the sum of their row counts, which is how far `current_led_reference` advances |
| Schedule.ReferenceHeights | Bowtie_Creator/bowtie_creator.py:84-85 | with 21 columns starting at 28, the heights are 28,28,26,26,26,24,24,22,22,22,20,20,18,18,18,16,16,14,14,14,12 |
| Schedule.TotalOfNextPeriod | Bowtie_Creator/bowtie_creator.py:244-246 | one period of five columns of height h adds 5h - 6 LEDs |
| Schedule.ReferenceTotal | Bowtie_Creator/bowtie_creator.py:84-85 | with 21 columns starting at 28, the panel holds 428 LEDs |
| Layout.LedCentre | Bowtie_Creator/bowtie_creator.py:245-256 | by definition x = START_X + COLUMN_SPACING * col and y = CENTRE_LINE_Y - row * ROW_SPACING + (h - 1) / 2 * ROW_SPACING; its contract states that a row the column has lies within (h - 1) / 2 row spacings of CENTRE_LINE_Y |
| Layout.BottomLeftPad | Bowtie_Creator/bowtie_creator.py:266-269 | the pad is left of the centre and below it (larger y), inside the LED's own cell |
| Layout.TopRightPad | Bowtie_Creator/bowtie_creator.py:298-301 | the pad is right of the centre and above it (smaller y), inside the LED's own cell |
| Layout.TopLeftPad | Bowtie_Creator/bowtie_creator.py:316-319 | the pad is left of the centre and above it, inside the LED's own cell |
| Layout.BottomRightPad | Bowtie_Creator/bowtie_creator.py:335-338 | the pad is right of the centre and below it, inside the LED's own cell |
| Layout.ViaPoint | Bowtie_Creator/bowtie_creator.py:270-285 | the via sits straight below the bottom-left pad, half a row spacing below the LED centre |
| Layout.JumperPoints | Bowtie_Creator/bowtie_creator.py:302-311 | four corners from the pad, with a vertical middle run offset by `side`, ending under the pad one row spacing lower |
| Layout.RouteCall | Bowtie_Creator/bowtie_creator.py:266-352 | each of the six handler calls routing an LED appends one item (calls 0-2) or three tracks (calls 3-5), all on the supply net; only call 1, `add_via`, makes a via |
| Layout.RouteCalls | Bowtie_Creator/bowtie_creator.py:266-352 | a run of consecutive routing calls, in call order, emits only items on the supply net |
| Layout.CallCount | Bowtie_Creator/bowtie_creator.py:296 | by definition, an LED in row 0 gets the three backbone calls and one in any other row gets all six, the `if row > 0` |
| Layout.LedItems | Bowtie_Creator/bowtie_creator.py:266-352 | everything emitted for one LED, calls 0-2 always and 3-5 above row 0, is on the supply net |
| Layout.LedItemsCalls | Bowtie_Creator/bowtie_creator.py:266-352 | an LED's routing is the three backbone calls, then, above row 0 only, the three jumper calls, in call order |
| Layout.LedCentreProperties | Bowtie_Creator/bowtie_creator.py:252-256 | every LED of a column has x = START_X + COLUMN_SPACING * col; y falls by ROW_SPACING per row; the first and last rows of a column are mirror images about CENTRE_LINE_Y |
| Layout.BackboneShape | Bowtie_Creator/bowtie_creator.py:266-294 | every row, row 0 included, has a 0.127 top-layer drop from the bottom-left pad to half a row below the centre, then a via (0.2 drill, 0.45 pad) exactly at its end, then a 0.45 L3 track from the via one column spacing to the right, all on the supply net |
| Layout.JumperShape | Bowtie_Creator/bowtie_creator.py:296-352 | a row above 0 adds three polylines on TOP at 0.127, nine tracks in all, from the top-right, top-left and bottom-right pads; each ends ROW_SPACING below its pad at the same x, bevels by -0.435, -0.435 and +0.435, and is continuous |
| Layout.JumperTracks | Bowtie_Creator/bowtie_creator.py:302-315 | one jumper is three tracks through its four corner points |
| Layout.LedItemsCount | Bowtie_Creator/bowtie_creator.py:266-352 | an LED emits 3 items in row 0 and 12 in any other row |
| Layout.JumperReachesPreviousRow | Bowtie_Creator/bowtie_creator.py:296-352 | each jumper of row r ends on the same pad of the LED in row r - 1 of the same column |
| Layout.BackboneHandOff | Bowtie_Creator/bowtie_creator.py:286-294 | for a row the column has, the L3 run ends on the via of the next column: in the same row, which the next column also has, when it is as tall; one row lower when it is 2 shorter. After a shrink, that lower row exists exactly for rows below the top one (row 0 has none below it) |
| Layout.LedRef | Bowtie_Creator/bowtie_creator.py:247 | the reference of LED k is `LD` followed by a non-empty run of decimal digits |
| Layout.LedIndex | Bowtie_Creator/bowtie_creator.py:247 | a reference the model reads as LED k is exactly `LD` followed by k |
| Layout.LedIndexOfRef | Bowtie_Creator/bowtie_creator.py:247 | the number can be read back out of `LD<k>` |
| Layout.LedRefInjective | Bowtie_Creator/bowtie_creator.py:247 | `LD<a>` and `LD<b>` are equal exactly when a = b, so each reference is looked up once |
| Layout.SlotAt | Bowtie_Creator/bowtie_creator.py:244-352 | the slot for (col, row) of a column h tall records that place, the LED centre there and that LED's routing |
| Layout.Slots | Bowtie_Creator/bowtie_creator.py:244-246 | by definition, the slots of the first n columns are those of the first n - 1, followed by column n - 1's slots at its scheduled height |
| Layout.Routing | Bowtie_Creator/bowtie_creator.py:266-354 | by definition, the routing of a run of slots is their items joined in order |
| Layout.ColumnSlots | Bowtie_Creator/bowtie_creator.py:246 | a column h LEDs tall has exactly as many slots as the row loop runs: h, and none when h <= 0 |
| Layout.ColumnSlotPlace | Bowtie_Creator/bowtie_creator.py:244-246 | slot `row` of a column lies in that column and that row, at the column's height |
| Layout.SlotsPrefix | Bowtie_Creator/bowtie_creator.py:244 | the slots of the first a columns are a prefix of the slots of the first b columns, for a <= b |
| Layout.SlotsPartColumn | Bowtie_Creator/bowtie_creator.py:244-246 | the columns before `col`, followed by part of column `col`, form a proper prefix of the panel |
| Layout.SlotPlaces | Bowtie_Creator/bowtie_creator.py:244-246 | every slot of the panel has a column below numCols and a row below that column's scheduled height |
| Layout.SlotsWellFormed | Bowtie_Creator/bowtie_creator.py:244-352 | every slot of the panel carries the LED centre and the routing of its own place |
| Layout.SlotsOrdered | Bowtie_Creator/bowtie_creator.py:244-246 | slots are visited column by column, and from row 0 upwards within a column |
| Layout.SlotsCount | Bowtie_Creator/bowtie_creator.py:244-246 | a panel has exactly the number of LEDs the schedule gives |
| Layout.AllSlotsCount | Bowtie_Creator/bowtie_creator.py:244-246 | the shipped panel has 428 LED slots |
| Layout.AllSlots | Bowtie_Creator/bowtie_creator.py:84-85 | by definition, the slots of the shipped panel: NUM_COLS columns, the first START_COLUMN_SIZE tall |
| Layout.RoutingSnoc | Bowtie_Creator/bowtie_creator.py:266-352 | one more slot appends exactly that slot's routing |
| Layout.CountViasAppend | Bowtie_Creator/bowtie_creator.py:279-285 | counting the vias of two item lists joined together is the sum of the two counts |
| Layout.CountViasOfTracks | Bowtie_Creator/bowtie_creator.py:296-352 | a list of tracks holds no via |
| Layout.LedVias | Bowtie_Creator/bowtie_creator.py:279-285 | every LED drops exactly one via, whatever its row |
| Layout.RoutingVias | Bowtie_Creator/bowtie_creator.py:279-285 | the routing of n well-formed slots holds n vias |
| Layout.SlotsVias | Bowtie_Creator/bowtie_creator.py:279-285 | a panel's routing holds one via per LED |
| Layout.PanelVias | Bowtie_Creator/bowtie_creator.py:279-285 | the shipped panel drops 428 vias |
| Layout.SmallPanel | Bowtie_Creator/bowtie_creator.py:244-361 | two columns starting 3 tall have heights [3, 3], 6 LEDs and 6 vias |
| Bowtie.FirstMissingLed | Bowtie_Creator/bowtie_creator.py:247-249 | finds the first LED in a range whose reference the board lacks, with every earlier one present; returns None only when all are present |
| Bowtie.Placed | Bowtie_Creator/bowtie_creator.py:258-264 | by definition, the footprints with LED k moved to the centre of slot k - 1, for k = 1 .. n in turn |
| Layout.LedPlacement | Bowtie_Creator/bowtie_creator.py:258-264 | by definition, what placing an LED sets: the slot's centre, the top layer, rotation 0 and its reference hidden |
| Bowtie.Accounted | Bowtie_Creator/bowtie_creator.py:244-354 | by definition, LEDs 1 .. n exist on the original board, the footprints are `Placed` for the first n slots, and the routing is the original followed by those slots' items |
| Bowtie.LaidOut | Bowtie_Creator/bowtie_creator.py:244-354 | by definition, if no LED is missing the outcome is Pass and every slot is placed and routed; if LD k is the first one missing, the outcome names LD k and exactly slots 1 .. k - 1 are placed and routed |
| Bowtie.PlacedKeys | Bowtie_Creator/bowtie_creator.py:258-264 | moving LEDs that all exist adds and removes no footprint |
| Bowtie.PlacedLeds | Bowtie_Creator/bowtie_creator.py:258-264 | after LEDs 1 .. n are placed, LED k sits on TOP at the centre of slot k - 1, with rotation 0 and its reference hidden |
| Bowtie.PlacedOthers | Bowtie_Creator/bowtie_creator.py:258-264 | a footprint that is not one of LEDs 1 .. n keeps its placement |
| Bowtie.PlacedSnoc | Bowtie_Creator/bowtie_creator.py:258-264 | placing the next LED extends the placed prefix by one slot |
| Bowtie.FirstMissingAfterPlaced | Bowtie_Creator/bowtie_creator.py:247-249 | once LEDs 1 .. n are known present, a missing LD(n + 1) is the first missing reference |
| Bowtie.NoneMissingWhenAllPlaced | Bowtie_Creator/bowtie_creator.py:247-249 | when LEDs 1 .. n are all present, no reference is missing |
| Bowtie.AccountStep | Bowtie_Creator/bowtie_creator.py:246-354 | one pass of the row loop extends the laid-out prefix by that row's slot |
| Bowtie.FootprintStep | Bowtie_Creator/bowtie_creator.py:258-264 | moving the next LED extends the placed prefix, and shows that LED exists |
| Bowtie.RoutingStep | Bowtie_Creator/bowtie_creator.py:266-352 | appending one slot's items extends the routing of the slots walked so far |
| Bowtie.StopAccount | Bowtie_Creator/bowtie_creator.py:247-249 | if the run stops at the missing LD(n + 1) after n slots, the board is left in the state that failure describes |
| Bowtie.FinishAccount | Bowtie_Creator/bowtie_creator.py:244-361 | a run that laid out every slot leaves the board in the state success describes |
| Bowtie.RouteLed | Bowtie_Creator/bowtie_creator.py:266-352 | appends exactly that LED's routing for its row, and nothing else |
| Bowtie.PlaceAndRouteLed | Bowtie_Creator/bowtie_creator.py:247-352 | finds LD<reference> exactly when the board has it. If it is missing, the board is untouched. Otherwise the LED goes to (x, y) on TOP with rotation 0 and its reference hidden, and its routing is appended |
| Bowtie.LayOutRow | Bowtie_Creator/bowtie_creator.py:247-354 | a pass finds its LED exactly when the original board had it; when found, the laid-out prefix grows by the row's slot; otherwise nothing changes |
| Bowtie.LayOutColumn | Bowtie_Creator/bowtie_creator.py:245-354 | the row loop lays out the column's slots in order. It stops at the first missing reference with the earlier rows laid out, and succeeds exactly when all rows are laid out. The next reference is the old one plus the rows laid out |
| Bowtie.ColumnStopped | Bowtie_Creator/bowtie_creator.py:247-249 | a column that stops part way leaves the whole panel in the failure state for that LED |
| Bowtie.ColumnFinished | Bowtie_Creator/bowtie_creator.py:244-354 | a finished column extends the laid-out prefix to one more column, counting its LEDs |
| Bowtie.LayOutPanelColumn | Bowtie_Creator/bowtie_creator.py:244-354 | one pass of the column loop either ends the panel run at a missing LED, or extends the laid-out prefix by one column with the reference counter just past it |
| Bowtie.LayOutPanel | Bowtie_Creator/bowtie_creator.py:239-361 | with every LED present, all slots are placed and routed. Otherwise LEDs 1 .. k - 1 are placed and routed, k is the first missing reference, everything else is as it was, and the failure names LD k |
| Bowtie.CreateBowtie | Bowtie_Creator/bowtie_creator.py:221-363 | a missing 5V0 net, and then a missing 0V net, fails with the board untouched. Otherwise the routing is wiped and the board ends in `LaidOut` for the 428-slot panel on the 5V0 code: every LED placed and routed when all exist; else, for the first missing LD k, LEDs 1 .. k - 1 placed and routed and a failure naming LD k |

## Left out

- Host object model: `pcbnew.FromMM`, the `int(...)` truncation to nanometres in `_pcbpoint`, `SetLayerAndFlip`, `pcb.Add`, `Delete` and `Remove`, and `GetClass()`. All are calls into the host editor. The board is an abstract class holding a map of footprints and one list of routing items, and coordinates stay exact millimetres. The board's routing list holds only tracks and vias, in the order they were added, so `DeletionsPartition` and `DeleteTracksThenVias` are facts about that list. The host's `GetTracks()` may hold other kinds of item, and its `Add` may order them differently.
- `KicadLayer.get_layer_code`: the numeric layer codes are host constants. The model keeps the enumeration only.
- Flipping: moving a footprint to BOTTOM through `SetLayerAndFlip` also mirrors it in the host. The model records only the layer.
- `sleep` and `pcbnew.Refresh()`: timing and screen redraw, with no effect on the board's contents.
- Floating point: Python floats are modelled as exact reals. Nothing is claimed about binary rounding of the coordinates.
- Deleting while iterating: `delete_all_*` walk the list `GetTracks()` returned before any deletion. The model walks a snapshot of the item list in the same way. What the host does to a live list during deletion is not modelled.
- The column counter starts as Python's `False` and is compared with integers. The model uses the integer 0 for it, which is the value Python gives `False` in that comparison.
- The "0V" net is only checked for existence. The generator never uses its code, and neither does the model.
- The other files of the repository: the project-scaffolding tool, the DRC plugin stub, the plugin registration files, and the platform, UI and logging helpers. All of them are dialogs, subprocess calls or host registration.
- Bowtie.CreateBowtie: the Python `assert` statements are modelled as `Fail` outcomes (`MissingNet`, `MissingComponent`, `LayerNotAllowed`) rather than exceptions. As in the source, nothing done before a failure is undone.
