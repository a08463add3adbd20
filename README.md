# Timeline widget and price calculator — a Dafny model

This project models the logic of a small React site in Dafny and proves properties of that model. The site has two parts.

- A **timeline widget** (`TimelineApp`, `TimelineCanvas`, `TimelineControls`, `ObjectPanel`). Passengers and vehicles are placed on a vertical time axis in two lanes.
  - The root component keeps the object store, the selection, the visible time range, the zoom and the mode.
  - The canvas maps hours to pixels and back. It labels the axis every two hours, filters objects by lane and lets the user drag an object.
  - Dropping an object snaps it to its lane's anchor and sets its kind and start time.
  - The controls pan the range by four hours.
  - The side panel creates objects from a typed name and edits the shown object's name, duration and colour.
- A **price calculator** on the landing page (`App.tsx`). It looks up a material and a distance band in two constant tables. It then writes three result cells: material cost, delivery cost and total.

Modules:

| module | file | what it holds |
|---|---|---|
| `Wrappers` | Wrappers.dfy | `Option` |
| `JsText` | JsText.dfy | `String.prototype.trim` (section 22.1.3.32 of ECMA-262) |
| `JsNumber` | JsNumber.dfy | the global `parseInt` without a radix (section 19.2.5 of ECMA-262) and decimal numerals |
| `JsArray` | JsArray.dfy | `find`, `filter` and `map` over sequences |
| `TimelineTypes` | TimelineTypes.dfy | the records of `src/types/timeline.ts`, the update patch, and lookup by id |
| `TimelineCanvas` | TimelineCanvas.dfy | mapper, labels (a loop method), filter, rendered height, drag step, class `DragController` |
| `TimelineControls` | TimelineControls.dfy | the two pans |
| `ObjectPanel` | ObjectPanel.dfy | class `CreateForm` (trim guard, Enter key), duration coercion, palette, shown object, edits |
| `TimelineApp` | TimelineApp.dfy | creation defaults, shallow merge, update and delete as functions, class `Timeline` with the state cells |
| `PriceCalculator` | PriceCalculator.dfy | the tables, `Quote`, class `Calculator` with `CalculateCost` |

How the model is built:

- **Effects become values.** Each event handler returns the call it would make, as a value, instead of making it: a `CreateRequest`, a `Change`, or the id to select. An `Option` of these is `None` when the handler returns before making the call. The `Timeline` methods `Create`, `Commit` and `Select` then apply that value. `None` leaves the state as it was, so a mouse-down on an id that is not in the list keeps the selection (TimelineCanvas.tsx:62, 65).
- **Browser inputs become parameters.** The viewport height (`window.innerHeight - 200`), the canvas rectangle and the pointer position are passed in. A missing canvas is `rect == None`. The new object's id (`Date.now()` in the source) is passed in too.
- **Kinds.** An object's kind is `Passenger` (left lane) or `Vehicle` (right lane). The type declaration calls these "event" and "process"; the panel and the canvas call them "passenger" and "vehicle".
- **Number types.**
  - The time range is integral, since every range the widget reaches is: it starts at {0, 24} and moves by integer steps.
  - Durations are integers.
  - Pixel positions and start times are reals.
  - `parseInt` returns `Option<int>`, with `None` standing for NaN.
  - The calculator's cells are `Num = Int(n) | NaN`.

Where the code and its description disagree, this model follows the code:

- A drop exactly on the canvas midline is sent to the vehicle lane, because the lane test is `newX < rect.width / 2` (TimelineCanvas.tsx:86).
- Delete clears the selection every time (TimelineApp.tsx:45), not only when the deleted object was the selected one.
- The lanes agree with the kinds only on a canvas at least 360 pixels wide (TimelineCanvas.tsx:86-89). Below that, the vehicle anchor `width - 180` lies left of the midline. On a 300-pixel canvas a vehicle sits at x = 120, and a drag with no horizontal movement commits it as a passenger (`DragInPlaceOnNarrowCanvas`). `DragCommitSitsInLane` states the agreement for widths from 360 on.
- The canvas reads `filters.showPassengers` and `filters.showVehicles`, but `TimelineApp` never passes `filters` (TimelineApp.tsx:63-72). As wired, `filters` is undefined, so rendering the canvas throws at TimelineCanvas.tsx:156 before any object is drawn. The model takes the two flags as an input and describes the canvas as it would behave once they are passed.

## Model

| member | source | states |
|---|---|---|
| JsText.Trim | src/components/ObjectPanel.tsx:26-27 | the trimmed name is no longer than the input and neither starts nor ends with whitespace |
| JsText.TrimSlice | src/components/ObjectPanel.tsx:26-27 | `trim` keeps one contiguous slice, starting at the first non-whitespace character, and everything it drops is whitespace |
| JsText.TrimEmptyIff | src/components/ObjectPanel.tsx:26 | the trimmed name is empty exactly when every character of the name is whitespace |
| JsText.TrimIdempotent | src/components/ObjectPanel.tsx:26-27 | trimming a trimmed name changes nothing |
| JsNumber.ParseInt | src/App.tsx:130 | the definition of `parseInt` without a radix: skip leading whitespace, take one sign, switch to radix 16 on a 0x prefix, read the longest run of digits, NaN when there is none; its properties are stated by the lemmas below |
| JsNumber.ParseIntDecimalRoundTrip | src/components/ObjectPanel.tsx:109 | `parseInt` of the decimal numeral of any integer, negatives included, gives that integer back |
| JsNumber.ParseIntStopsAtNonDigit | src/App.tsx:130 | `parseInt` reads a decimal numeral followed by text that does not start with a digit, and ignores that text; the only exception is a lone "0" followed by 'x' or 'X', which starts a hex prefix |
| JsNumber.ParseIntSkipsLeadingWhitespace | src/App.tsx:130 | leading whitespace does not change what `parseInt` reads |
| JsNumber.ParseIntNaNExamples | src/components/ObjectPanel.tsx:109 | `parseInt` of "", "abc" and "-" is NaN |
| JsNumber.ParseIntIgnoresUnit | src/App.tsx:130 | `parseInt(" 42px")` is 42: leading space is skipped and reading stops at the first non-digit |
| JsNumber.ParseIntTruncatesFraction | src/App.tsx:130 | `parseInt("1.9")` is 1: a fractional volume is cut to its whole part |
| JsNumber.ParseIntHexExample | src/App.tsx:130 | `parseInt("-0x1A")` is -26 |
| JsArray.FindIndex | src/components/ObjectPanel.tsx:23 | the index found is the first that satisfies the predicate; none means no element does |
| JsArray.Find | src/App.tsx:126-127 | a found element is in the list and satisfies the predicate; nothing is found exactly when no element satisfies it |
| JsArray.FindAt | src/App.tsx:126-127 | the element at `i` is found when it matches and no earlier element does |
| JsArray.Filter | src/components/TimelineApp.tsx:44 | every kept element is in the input and satisfies the predicate; every element that satisfies it is kept |
| JsArray.FilterConcat | src/components/TimelineApp.tsx:44 | filtering a concatenation filters each part and keeps their order |
| JsArray.FilterDrops | src/components/TimelineApp.tsx:44 | one failing element makes the result strictly shorter |
| JsArray.FilterKeepsAll | src/components/TimelineApp.tsx:44 | when every element satisfies the predicate the list is unchanged |
| JsArray.Map | src/components/TimelineApp.tsx:37 | the result has the same length, and each position holds the function applied to the input at that position |
| TimelineTypes.FindById | src/components/TimelineCanvas.tsx:64 | the object found has the id and is the first with it; none is found exactly when no object has the id |
| TimelineCanvas.TimeToY | src/components/TimelineCanvas.tsx:39-44 | the range start maps to 0 and the range end maps to the viewport height |
| TimelineCanvas.YToTime | src/components/TimelineCanvas.tsx:46-49 | offset 0 maps to the range start and the viewport height to the range end |
| TimelineCanvas.YToTimeInvertsTimeToY | src/components/TimelineCanvas.tsx:39-49 | `yToTime(timeToY(t)) == t` whenever the range is non-empty and the viewport height is non-zero |
| TimelineCanvas.TimeToYInvertsYToTime | src/components/TimelineCanvas.tsx:39-49 | `timeToY(yToTime(y)) == y` under the same conditions |
| TimelineCanvas.TimeToYStrictlyIncreasing | src/components/TimelineCanvas.tsx:39-44 | a later time is lower on the screen when `end > start` and the height is positive |
| TimelineCanvas.TimeLabels | src/components/TimelineCanvas.tsx:51-57 | label k is `start + 2k`; every label is at most `end`; the next label would pass `end`; there are floor((end-start)/2)+1 labels, or none when `start > end` |
| TimelineCanvas.Shown | src/components/TimelineCanvas.tsx:172-178 | the definition of the lane test: an object is drawn unless its lane is switched off; its properties are stated through `Visible` below |
| TimelineCanvas.Visible | src/components/TimelineCanvas.tsx:171-178 | every object kept is from the list and its lane is switched on; every object whose lane is switched on is kept |
| TimelineCanvas.VisibleKeepsOrder | src/components/TimelineCanvas.tsx:171-178 | filtering a concatenation filters each part, so the order is kept |
| TimelineCanvas.VisibleAllLanes | src/components/TimelineCanvas.tsx:171-178 | with both lanes on, every object is shown |
| TimelineCanvas.VisibleHidesSwitchedOffLane | src/components/TimelineCanvas.tsx:173-176 | an object in a switched-off lane is not shown, so fewer objects are shown |
| TimelineCanvas.RenderedHeight | src/components/TimelineCanvas.tsx:191 | the height is at least 40 pixels and at least 20 per hour, and equals one of the two |
| TimelineCanvas.LaneOf | src/components/TimelineCanvas.tsx:86 | the passenger lane is chosen exactly when x is strictly left of the midline |
| TimelineCanvas.LaneAnchor | src/components/TimelineCanvas.tsx:87-89 | the definition of the lane anchors: x = 120 for the left lane, x = width - 180 for the right |
| TimelineCanvas.Grabbed | src/components/TimelineCanvas.tsx:82-83 | the definition of the raw drop point: pointer minus canvas origin minus grab offset |
| TimelineCanvas.AnchorInOwnLane | src/components/TimelineCanvas.tsx:86-89 | on a canvas at least 360 pixels wide, each lane's anchor is read back by the lane test as that lane |
| TimelineCanvas.NarrowCanvasVehicleAnchor | src/components/TimelineCanvas.tsx:86-89 | on a 300-pixel canvas the vehicle anchor is x = 120, the passenger anchor, and the lane test reads it as the passenger lane |
| TimelineCanvas.DragInPlaceOnNarrowCanvas | src/components/TimelineCanvas.tsx:59-98 | on a 300-pixel canvas, a vehicle at its anchor that is grabbed and moved with no horizontal movement is committed as a passenger |
| TimelineCanvas.ClampY | src/components/TimelineCanvas.tsx:91 | the clamped y is not negative; it is at most `height - 60` when `height >= 60`; an in-range y is kept; a y above the top, or any y on a canvas shorter than 60, gives 0; a y below `height - 60` gives `height - 60` |
| TimelineCanvas.DragPatch | src/components/TimelineCanvas.tsx:82-98 | the update gives exactly position, start time and kind; kind is passenger exactly when `newX < width/2`; passengers sit at x = 120 and vehicles at x = width - 180; y is `ClampY` of the raw drop y; the start time is `yToTime(y)` |
| TimelineCanvas.DragController.constructor | src/components/TimelineCanvas.tsx:35-36 | the drag state starts idle, with offset (0, 0) |
| TimelineCanvas.DragController.MouseDown | src/components/TimelineCanvas.tsx:59-73 | without a canvas, or for an id not in the list, nothing changes and nothing is selected; otherwise that id is dragged and selected, and the offset is pointer minus canvas origin minus object position |
| TimelineCanvas.DragController.MouseMove | src/components/TimelineCanvas.tsx:77-101 | an update is committed exactly when a non-empty id is dragged over a mounted canvas, and that update is the drag step for the dragged id |
| TimelineCanvas.DragController.MouseUp | src/components/TimelineCanvas.tsx:103-105 | back to idle; nothing is committed (also bound to mouse-leave, lines 112-113) |
| TimelineControls.PanLeft | src/components/TimelineControls.tsx:35-39 | each end moves 4 hours earlier, except that start stops at 0 (when start <= 4) and end at 4 (when end <= 8); `start < end` is kept |
| TimelineControls.PanRight | src/components/TimelineControls.tsx:46-50 | start moves by 4 and the width is kept, so `start < end` is kept |
| TimelineControls.PanLeftNarrows | src/components/TimelineControls.tsx:37-38 | near zero, pan left shrinks the range; {0, 24} becomes {0, 20} |
| TimelineControls.PanRightThenLeft | src/components/TimelineControls.tsx:37-49 | pan right then pan left restores the range when start >= 0 and end >= 4 |
| TimelineControls.PanLeftFixedPoint | src/components/TimelineControls.tsx:37-38 | {0, 4} is a fixed point of pan left |
| TimelineControls.NavigateKeepsRangeValid | src/components/TimelineControls.tsx:37-49 | any sequence of pans keeps `0 <= start < end`, which is the mapper's precondition |
| ObjectPanel.CreateForm.constructor | src/components/ObjectPanel.tsx:22 | the name field starts empty |
| ObjectPanel.CreateForm.Input | src/components/ObjectPanel.tsx:47 | typing sets the name field to the text as typed |
| ObjectPanel.CreateForm.HandleCreate | src/components/ObjectPanel.tsx:25-30 | a name that is not blank creates an object with the trimmed name and clears the field; a blank name creates nothing and leaves the field as it is |
| ObjectPanel.CreateForm.KeyPress | src/components/ObjectPanel.tsx:49 | Enter attempts a passenger create; any other key does nothing |
| ObjectPanel.CreateDisabled | src/components/ObjectPanel.tsx:56-64 | both create buttons are disabled exactly when the name is all whitespace |
| ObjectPanel.SelectedObject | src/components/ObjectPanel.tsx:23 | the shown object is the first in the list with the selected id; there is none exactly when nothing is selected or no object has that id |
| ObjectPanel.CoerceDuration | src/components/ObjectPanel.tsx:109 | the result is never 0; NaN and 0 become 1; every other parsed integer passes through |
| ObjectPanel.CoerceDecimal | src/components/ObjectPanel.tsx:109 | a typed integer is kept unless it is 0, which becomes 1 |
| ObjectPanel.CoerceEmpty | src/components/ObjectPanel.tsx:109 | an emptied field gives duration 1 |
| ObjectPanel.NameEdit | src/components/ObjectPanel.tsx:90-92 | a name edit sends only the name, exactly as typed, for the shown object's id; `PanelEditsAreNarrow` shows the store then changes only the name |
| ObjectPanel.DurationEdit | src/components/ObjectPanel.tsx:107-110 | a duration edit sends only a duration, for the shown object's id, and that duration is not 0 |
| ObjectPanel.ColorClick | src/components/ObjectPanel.tsx:119-123 | a colour click sends only a colour, from the five-colour palette |
| ObjectPanel.ListItemClick | src/components/ObjectPanel.tsx:155-157 | a list item click sends nothing |
| TimelineApp.PanelTag | src/components/ObjectPanel.tsx:49-63 | the panel passes "passenger" for the left lane and "vehicle" for the right, never "event" |
| TimelineApp.DeclaredTag | src/types/timeline.ts:3 | the declared tags are "event" for the left lane and "process" for the right |
| TimelineApp.DurationForTag | src/components/TimelineApp.tsx:25 | as written, the default duration is 1 exactly when the tag is "event", and 3 otherwise |
| TimelineApp.ColorForTag | src/components/TimelineApp.tsx:26 | as written, the default colour is #9b87f5 exactly when the tag is "event", and #0EA5E9 otherwise |
| TimelineApp.PanelCreatesGetProcessDefaults | src/components/TimelineApp.tsx:25-26 | as wired, every object the panel creates gets duration 3 and colour #0EA5E9, passengers included |
| TimelineApp.DefaultDuration | src/components/TimelineApp.tsx:25 | corrected: the duration is 1 for a passenger and 3 for a vehicle |
| TimelineApp.DefaultColor | src/components/TimelineApp.tsx:26 | corrected: the colour is #9b87f5 for a passenger and #0EA5E9 for a vehicle, both from the palette |
| TimelineApp.DefaultsFollowDeclaredTag | src/components/TimelineApp.tsx:25-26 | the corrected defaults are what the handler's test gives when applied to the kind's declared tag |
| TimelineApp.NewObject | src/components/TimelineApp.tsx:20-28 | the new object has the given id, kind and name; it starts two hours after the range start at (100, 60) with its kind's defaults; it has no description or priority |
| TimelineApp.Merge | src/components/TimelineApp.tsx:37 | shallow merge: every field the patch gives is taken, every absent field keeps its value, and the id is kept |
| TimelineApp.MergeNoChange | src/components/TimelineApp.tsx:37 | an empty patch changes nothing |
| TimelineApp.MergeIdempotent | src/components/TimelineApp.tsx:37 | merging the same patch twice is the same as merging it once |
| TimelineApp.MergeThen | src/components/TimelineApp.tsx:37 | two merges are one merge of the combined patch, with the later patch winning |
| TimelineApp.Updated | src/components/TimelineApp.tsx:36-38 | length and order are kept; objects with the id are merged; all other objects are unchanged |
| TimelineApp.UpdatedKeepsIds | src/components/TimelineApp.tsx:37 | an update keeps the list of ids |
| TimelineApp.UpdatedKeepsUniqueIds | src/components/TimelineApp.tsx:37 | an update keeps ids unique |
| TimelineApp.UpdatedAbsent | src/components/TimelineApp.tsx:37 | an update for an id no object has leaves the list unchanged |
| TimelineApp.UpdatedThen | src/components/TimelineApp.tsx:37 | two updates of one id are one update with the combined patch |
| TimelineApp.Deleted | src/components/TimelineApp.tsx:44 | no object with the id remains; every object with another id remains |
| TimelineApp.DeletedAbsent | src/components/TimelineApp.tsx:44 | deleting an id no object has changes nothing |
| TimelineApp.DeletedKeepsOrder | src/components/TimelineApp.tsx:44 | the objects that remain keep their order |
| TimelineApp.DeletedShrinks | src/components/TimelineApp.tsx:44 | deleting an id that some object has shortens the list |
| TimelineApp.DeletedKeepsUniqueIds | src/components/TimelineApp.tsx:44 | delete keeps ids unique |
| TimelineApp.DeleteUndoesCreate | src/components/TimelineApp.tsx:29-44 | deleting an object right after creating it with a fresh id restores the list |
| TimelineApp.CreateKeepsUniqueIds | src/components/TimelineApp.tsx:29 | appending an object with a fresh id keeps ids unique |
| TimelineApp.DragCommitSitsInLane | src/components/TimelineCanvas.tsx:94-98 | after a drag commit the object sits at its kind's lane anchor, starts at the time its height denotes, and keeps its id, name, duration and colour; on a canvas at least 360 pixels wide the lane read back from its x is its kind |
| TimelineApp.PanelEditsAreNarrow | src/components/ObjectPanel.tsx:90-123 | a name edit changes only the name; a colour click changes only the colour; a duration edit changes only the duration, and never to 0 |
| TimelineApp.Timeline.constructor | src/components/TimelineApp.tsx:11-15 | the initial state: schedule mode, no objects, nothing selected, range {0, 24}, zoom 1 |
| TimelineApp.Timeline.CreateObject | src/components/TimelineApp.tsx:18-32 | exactly one new object is appended and the earlier ones are unchanged; with a fresh id the state stays valid |
| TimelineApp.Timeline.Create | src/components/ObjectPanel.tsx:27 | the panel's request, if there is one, is appended as a new object; with a fresh id the state stays valid |
| TimelineApp.Timeline.UpdateObject | src/components/TimelineApp.tsx:34-41 | the list becomes the updated list; the state stays valid |
| TimelineApp.Timeline.Commit | src/components/TimelineCanvas.tsx:94-98 | a drag commit, if there is one, becomes that update |
| TimelineApp.Timeline.DeleteObject | src/components/TimelineApp.tsx:43-46 | the id's objects are removed and the selection is cleared unconditionally; the state stays valid (also reached by the panel's delete button, ObjectPanel.tsx:137) |
| TimelineApp.Timeline.SelectObject | src/components/TimelineApp.tsx:70 | `setSelectedObject(id)`: the selection becomes the given id |
| TimelineApp.Timeline.Select | src/components/TimelineCanvas.tsx:59-73 | a mouse-down's select request, if there is one, becomes the selection; a mouse-down that returns early keeps the selection as it was |
| TimelineApp.Timeline.PanLeft | src/components/TimelineControls.tsx:35-39 | the range becomes its pan left, and `0 <= start < end` is kept |
| TimelineApp.Timeline.PanRight | src/components/TimelineControls.tsx:46-50 | the range becomes its pan right, and `0 <= start < end` is kept |
| TimelineApp.Timeline.LabelTop | src/components/TimelineCanvas.tsx:134-148 | in a valid state, an hour's label is drawn at offset 0 for the range start and, for a positive viewport height, below it for every later hour |
| TimelineApp.Timeline.SetZoom | src/components/TimelineApp.tsx:59 | the zoom becomes the slider's value |
| TimelineApp.Timeline.SetMode | src/components/TimelineApp.tsx:51 | the mode becomes the header button's value |
| PriceCalculator.FindMaterial | src/App.tsx:126 | a found material is in the table with that id; none exactly when no entry has it |
| PriceCalculator.FindDistance | src/App.tsx:127 | a found band is in the table with that id; none exactly when no entry has it |
| PriceCalculator.FindListedMaterial | src/App.tsx:33-76 | every listed material is found by its own id |
| PriceCalculator.FindListedDistance | src/App.tsx:78-83 | every listed band is found by its own id |
| PriceCalculator.ListedEntries | src/App.tsx:33-83 | every id in the tables is non-empty; material prices are at least 700 and band prices at least 500 |
| PriceCalculator.MaterialCost | src/App.tsx:130 | the material cost is NaN exactly when `parseInt` cannot read the volume, and otherwise the price times the number read |
| PriceCalculator.Plus | src/App.tsx:134 | the definition of the total: material cost plus delivery price, NaN when the material cost is NaN; `QuoteReadableVolume` and `QuoteUnreadableVolume` state both cases |
| PriceCalculator.ResultShown | src/App.tsx:360 | the definition of the result test `totalCost > 0`, false for NaN; stated through `QuoteReadableVolume` and `QuoteUnreadableVolume` |
| PriceCalculator.Quote | src/App.tsx:123-136 | there is no result exactly when a field is empty or a lookup fails; otherwise material cost is price × `parseInt(volume)`, delivery cost is the band's flat price (500, 750, 1000 or 1500, never the multiplier), and the total is their sum |
| PriceCalculator.QuoteListed | src/App.tsx:124-134 | a listed material and band with any non-empty volume give a quote built from their prices |
| PriceCalculator.ListedPrice | src/App.tsx:33-76 | every listed material costs at least 700 a unit |
| PriceCalculator.QuoteReadableVolume | src/App.tsx:129-134 | whenever a quote is made and `parseInt` reads the volume as a positive v, the material cost is price × v, the total is that plus the band price, and the result is shown |
| PriceCalculator.QuotePositiveVolume | src/App.tsx:129-134 | the same for a positive whole volume typed in decimal |
| PriceCalculator.QuoteUnreadableVolume | src/App.tsx:130-134 | a volume `parseInt` cannot read gives a NaN total, and no result is shown |
| PriceCalculator.Calculator.constructor | src/App.tsx:116-121 | the form starts empty and the three cells start at 0 |
| PriceCalculator.Calculator.SelectMaterial | src/App.tsx:292 | the material field becomes the chosen id |
| PriceCalculator.Calculator.InputVolume | src/App.tsx:321 | the volume field becomes the text as typed |
| PriceCalculator.Calculator.SelectDistance | src/App.tsx:331 | the distance field becomes the chosen band id |
| PriceCalculator.Calculator.CalculateCost | src/App.tsx:123-136 | with no quote, nothing changes; otherwise all three cells take the quote's values together; the form fields are never changed |

## Left out

- JSX rendering, styling, icons and the header's mode buttons. Everything they do is pass constants to a setter, which `Timeline.SetMode` models.
- Browser geometry (`window.innerHeight`, `getBoundingClientRect`) and the pointer events. These are parameters of the model.
- `Date.now()` id generation. The id is a parameter. A fresh id is assumed only where the uniqueness of ids is claimed.
- The "now" marker (`new Date().getHours()`, TimelineCanvas.tsx:167). It reads the clock.
- The zoom slider's `parseFloat` and its percentage display (TimelineControls.tsx:67, 72). This is float UI state that nothing else reads; `Timeline.SetZoom` only stores the value.
- `toLocaleString` and `Math.round` display formatting.
- IEEE floating point, and a zero viewport height. The mapper runs over reals. In the source, when `window.innerHeight` is 200 the mapper's height is 0. `yToTime` then divides by zero (TimelineCanvas.tsx:48), and a drag step commits a NaN start time (at y = 0) or an infinite one (TimelineCanvas.tsx:92-96). `YToTime`, `DragPatch` and `DragController.MouseMove` exclude this case with `requires viewHeight != 0.0`.
- JsNumber.ParseInt: integers are exact. Precision loss for values above 2^53 is not modelled, and neither is the Infinity that a numeral of more than 309 digits gives.
- PriceCalculator.Quote: `price * parseInt(volume)` and the sum with the delivery price are IEEE doubles in the source. They round once a value passes 2^53 and become Infinity for a volume numeral of more than about 305 digits. The model computes both exactly on integers.
- React hook scheduling and memoisation (`useCallback` dependency lists). State updates take effect at once, in the order the handler calls them.
- The static landing-page content: advantages, statistics and contacts. The material names, units and descriptions are also left out, since no computation reads them. The distance bands' `multiplier` is kept as a field of the table, but nothing reads it either.

## Findings

| source | as written | input that shows it | evidently intended | confidence | as-written member | corrected member |
|---|---|---|---|---|---|---|
| src/components/TimelineApp.tsx:25-26 | the defaults test `type === "event"`, but the panel passes "passenger" or "vehicle" (ObjectPanel.tsx:55, 63) | create "A" with the passenger button: duration 3, colour #0EA5E9 | a passenger gets duration 1 and colour #9b87f5, a vehicle gets duration 3 and colour #0EA5E9 | not executed; high that the test never matches, medium on the intent | TimelineApp.PanelCreatesGetProcessDefaults | TimelineApp.DefaultsFollowDeclaredTag |

The store (`NewObject`, `Timeline.CreateObject`) uses the corrected defaults, `DefaultDuration` and `DefaultColor`, keyed by `Kind`.
