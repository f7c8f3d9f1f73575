# HiCT contact-map viewer core, modelled in Dafny

This project models the core of the HiCT web viewer for Hi-C contact maps. The
viewer shows a pyramid of tile resolutions and keeps the genomic point under
the pointer fixed while the user zooms. The model covers five parts:

- **Wheel-zoom controller** (`wheel_zoom.dfy`, module `WheelZoom`, class
  `ContigMouseWheelZoom`). For each wheel event it:
  - captures a genomic anchor under the pointer. Pixel coordinates become bins
    (floor for x, floor then negate for y), the bins are clamped, and the
    clamped bins are converted to base pairs;
  - normalises the wheel delta;
  - classifies the device as a trackpad or a mouse wheel;
  - for a trackpad, zooms at once; for a wheel, adds the delta to an
    accumulator and re-arms a debounce timer.

  When the debounce timer fires, the controller clamps the accumulated delta
  and looks up the pyramid level before and after the zoom. When the level
  changes, it re-centres the view from the stored base-pair anchor. Then it
  resets the accumulator.
- **Resolution table** (`resolution_table.dfy`). A binary search in the
  descending table of pixel resolutions, following the convention of the
  `binary-search` npm package (`~insertionPoint` on a miss). It is checked
  against a reference definition: the number of entries coarser than the
  value.
- **Ruler** (`roulette.dfy`). The ruler's scroll and zoom state, the
  `Roulette` facade that drives it, its orientation helpers, and the tick
  layer. The tick layer lays out 31 evenly spaced ticks: period streaks every
  tenth tick, half streaks every other fifth tick, and plain ticks elsewhere.
- **BED track parser** (`bed_format_parser.dfy`). It keeps the lines of one
  chromosome in input order and names the extra columns in BED column order.
  The first matching line fixes the column count. The parser tracks the
  largest score and fails on input with no matching line.
- **Wire decoders** (`dto.dfy`, `response_dto.dfy`, `domain_common.dfy`).
  - The four enumeration decoders look up a small table by index.
  - The contig, scaffold and assembly descriptors are decoded, including
    JavaScript `Map` construction, where the last entry for a key wins.
  - The signal-range response fills sparse per-level arrays from key/value
    pairs, then takes the global minimum and maximum over the finite entries.

The JavaScript semantics these parts rely on are modelled explicitly. They
are in `js_number.dfy` (NaN and the infinities, `Math.min`/`Math.max`,
`Number(s)`, `Number.parseInt`) and `js_text.dfy` (white space, `trim`,
`split(/\s+/)`, `split(/\n/)`). Numbers are exact reals. IEEE-754 rounding
is not modelled.

The controller's collaborators are inputs to the model:

- the map, its view and its tile layers;
- the projection transform;
- browser detection (`FIREFOX`, `DEVICE_PIXEL_RATIO`);
- the dimension holder.

What the controller reads from them is passed in (`MapHost`, `Platform`,
`DimensionHolder`). What it asks of the view is returned as a list of
`ViewCall`s. The dimension holder is known only through the assumptions in
`ValidHolder`:

- clamping lands in `[0, bins)` on both axes;
- `getStartBpOfBin` never decreases as the bin grows.

`getBinContainingBp` is left uninterpreted.

Time is the parameter `now`. The two timers are the slots `settleTimer` and
`trackpadTimer`. `Settle` is the callback of the settle timer, and
`TrackpadTimerFires` is the callback of the trackpad timer.

Three behaviours of the code are worth stating outright:

- A wheel event whose normalised delta is zero still updates the anchor
  snapshot, because the capture happens before the delta is examined
  (src/ContigMouseWheelZoom.js:68-131).
- The BED parser's `maxScore` is not bounded below by 0. Every non-empty
  score passes through `Math.max`, so one non-numeric score makes it NaN
  (`BedFormat.MaxScoreBounds`).
- A settle may land on a level index equal to the table's length, when the
  new resolution is finer than every table entry. `resolutions[n]` is then
  `undefined`, and the source computes a centre from it. The model marks
  that animation `UndefinedCenter`.

## Model

| member | source | states |
|---|---|---|
| WheelZoom.HoveredLayer | src/ContigMouseWheelZoom.js:68-74 | The hovered layer exists exactly when some candidate tile layer has data at the pixel. It has the least z-index among the candidates and, by the stable sort, is the first candidate with that z-index. |
| WheelZoom.AnchorBins | src/ContigMouseWheelZoom.js:79-92 | The anchor bins (x floored, y floored then negated, both clamped at the layer's bin resolution) lie in `[0, bins)` on both axes. |
| WheelZoom.AnchorMonotone | src/ContigMouseWheelZoom.js:81-101 | When no clamping occurs, a pointer further right (or further down, where map y is smaller, since y is negated into bins) never anchors to an earlier base pair. This follows from the monotone bp mapping. |
| WheelZoom.CaptureAnchor | src/ContigMouseWheelZoom.js:68-111 | A snapshot is produced exactly when some tile layer has data under the pointer. It records the event's map coordinate and pixel and the centre pixel `round(size / 2)`. Its bp anchor is read on the hovered layer (least z-index, first among equals): the first base pairs of that layer's clamped bins, which lie in `[0, bins)` at the layer's bp resolution. |
| WheelZoom.NormalizeDelta | src/ContigMouseWheelZoom.js:116-125 | The delta is `deltaY`, divided by the device pixel ratio on Firefox in pixel mode and multiplied by exactly 40 in line mode. It is zero exactly when `deltaY` is zero, and otherwise has the sign of `deltaY`. |
| WheelZoom.ClassifyDevice | src/ContigMouseWheelZoom.js:139-144 | The device is reclassified as `|delta| < 4` when it is unclassified or more than `trackpadEventGap` ms have passed since the gesture start. Otherwise the previous class is kept. |
| WheelZoom.TimeLeft | src/ContigMouseWheelZoom.js:170 | The settle delay `max(timeout - (now - start), 0)` is never negative and is at most `timeout` once `now >= start`. It is zero exactly when the window is over. A positive delay ends exactly `timeout` ms after the start. |
| WheelZoom.WheelStepBranches | src/ContigMouseWheelZoom.js:133-176 | Trackpad branch: the total and the settle timer are unchanged, the start becomes `now`, and the trackpad timer is re-armed. The branch emits `BeginInteraction` exactly when no trackpad timer was pending. Wheel branch: the total grows by exactly `delta`, the trackpad timer is unchanged, and the settle delay lies in `[0, timeout]`. Both branches record `delta` as the last delta. |
| WheelZoom.DebounceCollapses | src/ContigMouseWheelZoom.js:147-176 | When every event of a run takes the wheel branch, the accumulated delta is the sum of all the deltas and an existing gesture start is kept. The one pending settle is the one armed by the last event. |
| WheelZoom.TrackpadBypassesAccumulator | src/ContigMouseWheelZoom.js:139-166 | On an unconstrained view, starting from a state not classified as a wheel, a run of small deltas (`|delta| < 4`) leaves the total and the settle timer untouched. It ends classified as a trackpad, with the start at the last event. |
| WheelZoom.ZoomDelta | src/ContigMouseWheelZoom.js:186-195 | The zoom delta lies in `[-maxDelta, maxDelta]`, or in {-1, 0, 1} when the resolution is constrained. Its sign is opposite to the total's. Within the bound it is exactly `-total / deltaPerZoom`. Unconstrained, a total at or beyond `maxDelta * deltaPerZoom` saturates to `-maxDelta`, and one at or below its negative saturates to `maxDelta`. |
| WheelZoom.AnchorStaysUnderPointer | src/ContigMouseWheelZoom.js:232-258 | After a level-crossing re-centre, the pointer pixel shows the map position of the anchored bin at the new level. This holds exactly for the rounded centre pixel, and within half a pixel for the true centre. |
| WheelZoom.ScaleRoundTrip | src/ContigMouseWheelZoom.js:244-247 | A bin scaled by a positive pixel resolution, with y negated, reads back as the same bin. |
| WheelZoom.TwoLevelScenario | src/ContigMouseWheelZoom.js:186-258 | Table [64, 16, 4, 1] with bin sizes [1000, 250, 50, 10], two deltas of -120 at 120 per level, and `maxDelta` 2. The zoom delta is +2; the default `maxDelta` of 1 would clamp it to +1. This is one worked example, not an all-inputs property. Moving from resolution 16 to resolution 1 crosses from level 1 to level 3 and re-centres at bin size 10. |
| WheelZoom.ContigMouseWheelZoom.constructor | src/ContigMouseWheelZoom.js:37-45 | Stores the collaborators and tables. The accumulator is neutral (total 0, no start, unclassified, no timers) and no anchor is set. |
| WheelZoom.ContigMouseWheelZoom.HandleEvent | src/ContigMouseWheelZoom.js:53-179 | A rejected or non-wheel event propagates and changes nothing. A wheel event is consumed and first records the anchor. A zero delta then leaves the accumulator and timers untouched and makes no view call. Any other delta moves the accumulator as one wheel step. |
| WheelZoom.ContigMouseWheelZoom.Accumulate | src/ContigMouseWheelZoom.js:127-178 | Classification, then the trackpad or the wheel branch, exactly as one wheel step. The anchor snapshot is not touched. |
| WheelZoom.ContigMouseWheelZoom.RecordAnchor | src/ContigMouseWheelZoom.js:68-112 | With anchoring on and a hovered layer, the snapshot becomes the captured one. Otherwise it is unchanged. The accumulator is never touched. |
| WheelZoom.ContigMouseWheelZoom.TrackpadTimerFires | src/ContigMouseWheelZoom.js:151-162 | The trackpad timer armed by the trackpad branch fires: the slot is emptied and the rest of the accumulator and the anchor are unchanged. The view ends its interaction in the direction of the last delta (1, -1, or 0 when there was none), with the stored anchor. |
| WheelZoom.ContigMouseWheelZoom.Settle | src/ContigMouseWheelZoom.js:181-274 | A view without a zoom aborts before the reset. Otherwise the total becomes 0 and the start, the settle timer and the mode are cleared, whether or not an anchor exists. One animation is requested exactly when an anchor snapshot exists: pinned at the anchor coordinate on the same level, re-centred from the bp anchor across levels. |
| ResolutionTable.BinarySearch | src/ContigMouseWheelZoom.js:211-225 | On a descending table, a non-negative result is an index holding the value. A negative result `~low` means the value is absent. Every entry before `low` is greater than the value and every entry from `low` on is smaller. |
| ResolutionTable.LevelOf | src/ContigMouseWheelZoom.js:211-230 | The decoded level is the number of entries coarser than the value, so it lies in `[0, n]`. It names an entry equal to the value exactly when the value is in the table. |
| ResolutionTable.LevelOfEntryAndGap | src/ContigMouseWheelZoom.js:211-230 | Looking up entry `i` gives level `i`. A value strictly between entries `i` and `i-1` gives level `i`. |
| Roulette.RouletteConfig.Visible | src/app/core/roulette/Roulette.ts:114-116 | The visible interval is `[0, visibleLength]`. |
| Roulette.RouletteConfig.Orient | src/app/core/roulette/Roulette.ts:118-122 | A distance `d` becomes `(d, 0)` on a horizontal ruler and `(0, d)` otherwise. |
| Roulette.TranslateAlongAxis | src/app/core/roulette/Roulette.ts:124-126 | `orient` is linear and the base shift is the visual position. `translate` moves only along the ruler's axis. |
| Roulette.RouletteState.constructor | src/app/core/roulette/Roulette.ts:134-138 | A fresh state has offset 0, factor 1 and interval (0, 0). |
| Roulette.RouletteState.Shift | src/app/core/roulette/Roulette.ts:152-155 | The interval moves by `d` and the offset by `-d`, so `interval.x + offset` is invariant. The factor is unchanged. |
| Roulette.RouletteState.Zoom | src/app/core/roulette/Roulette.ts:157-159 | The factor is multiplied by `d`. The interval and the offset are unchanged. |
| Roulette.RouletteState.Resize | src/app/core/roulette/Roulette.ts:161-163 | Only the interval's size changes. |
| Roulette.TickLayout | src/app/core/roulette/Roulette.ts:290-306 | Exactly 31 ticks. Tick `i` lies at `start + step*i` with `step = (end-start)/30`, and its kind is chosen by `i % 10` and `i % 5`. |
| Roulette.TickLayoutSpan | src/app/core/roulette/Roulette.ts:293-304 | The first tick is at `start`, the last exactly at `end`, and neighbours are a thirtieth of the interval apart. |
| Roulette.TickLayoutKinds | src/app/core/roulette/Roulette.ts:298-302 | The ticks are 4 period streaks, 3 half streaks and 24 plain ticks. |
| Roulette.KindsOfThirtyOne | src/app/core/roulette/Roulette.ts:298-305 | Any 31 ticks whose kinds follow the tick-type rule are 4 period streaks, 3 half streaks and 24 plain ticks. |
| Roulette.TicksRC.constructor | src/app/core/roulette/Roulette.ts:255-258 | The layer is named "ticks", shares the configuration and the state, and starts with no ticks. |
| Roulette.TicksRC.Init | src/app/core/roulette/Roulette.ts:290-306 | The old ticks are cleared. The new ticks are exactly the layout over the state's current interval. |
| Roulette.Roulette.constructor | src/app/core/roulette/Roulette.ts:417-423 | A fresh state (offset 0, factor 1, interval (0, 0)) and the ruler's configuration are shared with a fresh, empty tick layer. |
| Roulette.Roulette.Shift | src/app/core/roulette/Roulette.ts:439-441 | The shared state's interval moves by `d` and its offset by `-d`. The factor is unchanged. |
| Roulette.Roulette.MoveTo | src/app/core/roulette/Roulette.ts:443-445 | Afterwards the interval starts at `x` and keeps its size. `interval.x + offset` and the factor are unchanged. |
| Roulette.Roulette.Scale | src/app/core/roulette/Roulette.ts:447-451 | The factor is multiplied by `d`. Interval and offset are unchanged. |
| Roulette.Roulette.Zoom | src/app/core/roulette/Roulette.ts:453-459 | Moves to `s`, then multiplies the factor by `L / prevSize`, where `prevSize` is taken before the move. |
| Roulette.Roulette.Resize | src/app/core/roulette/Roulette.ts:461-463 | Only the interval's size changes. |
| JsText.SplitLines | src/app/ui/components/tracks_deprecated/ruler/bed-format-parser.ts:32 | `split(/\n/)` gives at least one piece, and no piece holds a line feed. |
| JsText.SplitLinesJoin | src/app/ui/components/tracks_deprecated/ruler/bed-format-parser.ts:32 | Joining the pieces with line feeds gives the text back. |
| JsText.SplitTokens | src/app/ui/components/tracks_deprecated/ruler/bed-format-parser.ts:33 | `trim().split(/\s+/)` gives the lone empty token exactly when the line is all white space. Otherwise it gives the line's words in order (`Words`), each non-empty and free of white space. |
| JsText.WordsSplit | src/app/ui/components/tracks_deprecated/ruler/bed-format-parser.ts:33 | The line is its gaps and words interleaved: gap, word, gap, ..., word, gap. There is one more gap than words, every gap is white space, and the inner gaps are non-empty. Since every word is non-empty and free of white space (`WordsAreWords`), the words are exactly the maximal white-space-free runs of the line. |
| JsText.NoWordsAllWhite | src/app/ui/components/tracks_deprecated/ruler/bed-format-parser.ts:33 | A line has no words exactly when it is all white space. |
| BedFormat.ExtraFieldsLookup | src/app/ui/components/tracks_deprecated/ruler/bed-format-parser.ts:45-48 | Each further token `k` (3 <= k < 12) is stored under `TRACK_NAMES[k]`. Tokens beyond the names go under "undefined", and the last of them wins. Chromosome, start and end are never overwritten. |
| BedFormat.NamesDistinct | src/app/ui/components/tracks_deprecated/ruler/bed-format-parser.ts:92-105 | The twelve column names are pairwise distinct and differ from "undefined". |
| BedFormat.KeyNamesDistinct | src/app/ui/components/tracks_deprecated/ruler/bed-format-parser.ts:47 | Two column keys are equal exactly when the property names they stand for are equal. |
| BedFormat.FieldCountOf | src/app/ui/components/tracks_deprecated/ruler/bed-format-parser.ts:45-56 | The column count of a line is 3 plus its extra tokens, so it is never below 3. |
| BedFormat.ParseTrack | src/app/ui/components/tracks_deprecated/ruler/bed-format-parser.ts:39-52 | The track holds token 0, the numbers of tokens 1 and 2, and the further tokens by name. The column index ends at the column count, which is at least 3, so the "Invalid .bed format" throw is unreachable. |
| BedFormat.MatchedItemsAppend | src/app/ui/components/tracks_deprecated/ruler/bed-format-parser.ts:32-37 | Filtering keeps input order. The matches of `a + b` are those of `a` followed by those of `b`. |
| BedFormat.MatchedItemsOfLine | src/app/ui/components/tracks_deprecated/ruler/bed-format-parser.ts:33-37 | A line is kept exactly when its first token equals the chromosome. |
| BedFormat.MatchedTracks | src/app/ui/components/tracks_deprecated/ruler/bed-format-parser.ts:32-48 | Every parsed track belongs to the requested chromosome. |
| BedFormat.MaxScoreBounds | src/app/ui/components/tracks_deprecated/ruler/bed-format-parser.ts:29-60 | `maxScore` is NaN exactly when some non-empty score is not a number. Otherwise it is at least 0 and at least every non-empty score, and it is 0 or one of those scores. |
| BedFormat.ScannedStep | src/app/ui/components/tracks_deprecated/ruler/bed-format-parser.ts:32-67 | A non-matching line leaves the parse state alone. A matching line appends its track (creating the holder), lets a non-empty score into the maximum, and fixes the column count only while it is still -1. |
| BedFormat.TracksHolder.constructor | src/app/ui/components/tracks_deprecated/ruler/bed-format-parser.ts:81-90 | A holder starts with no tracks and the given column count and maximum score. |
| BedFormat.TracksHolder.Push | src/app/ui/components/tracks_deprecated/ruler/bed-format-parser.ts:66 | The tracks are appended in order. |
| BedFormat.BedFormatParser.constructor | src/app/ui/components/tracks_deprecated/ruler/bed-format-parser.ts:17-25 | The column count starts at -1. |
| BedFormat.BedFormatParser.Absorb | src/app/ui/components/tracks_deprecated/ruler/bed-format-parser.ts:39-66 | One matching line: its track joins the holder, which is created on the first match. The column count is fixed if it is still -1. A non-empty score enters the maximum. |
| BedFormat.BedFormatParser.ScanLine | src/app/ui/components/tracks_deprecated/ruler/bed-format-parser.ts:32-67 | One loop turn keeps the scan invariant: the holder exists exactly when a line has matched and holds the matched tracks; `maxScore` is their maximum; the column count is the first match's. |
| BedFormat.BedFormatParser.Scan | src/app/ui/components/tracks_deprecated/ruler/bed-format-parser.ts:28-67 | After the loop, the scan invariant holds for all lines. |
| BedFormat.BedFormatParser.Parse | src/app/ui/components/tracks_deprecated/ruler/bed-format-parser.ts:27-78 | Fails with "Invalid empty .bed-file!" exactly when no line matches. Otherwise it returns a new holder with exactly the matched tracks in input order, the final column count and the largest score. The column count is fixed by the first matching line the parser ever sees, so later parse calls do not change it. |
| JsNumber.Max | src/app/ui/components/tracks_deprecated/ruler/bed-format-parser.ts:59 | `Math.max(a, b)` is NaN exactly when an argument is, and otherwise is the larger argument. |
| Dto.QueryLengthUnitFromDto | src/app/core/net/dto/dto.ts:27-34 | Defined exactly on the indices 0..2. There it gives the unit whose numeric value is the index. |
| Dto.ContigDirectionFromDto | src/app/core/net/dto/dto.ts:36-39 | Defined exactly on 0 and 1. 0 gives REVERSED and 1 gives FORWARD, so the decoded direction's value is the input. |
| Dto.ScaffoldDirectionFromDto | src/app/core/net/dto/dto.ts:41-47 | The same 0/1 decoding for scaffold directions. |
| Dto.ContigHideTypeFromDto | src/app/core/net/dto/dto.ts:49-57 | Defined exactly on 0..3. There it gives the hide type whose value is the index. Anything else is undefined. |
| Dto.DecodersRoundTrip | src/app/core/net/dto/dto.ts:27-57 | Decoding the numeric value of any enumeration constant gives that constant back. |
| Dto.MapSet | src/app/core/net/dto/dto.ts:65-71 | `Map.set` makes the key hold the new value, leaves every other key as it was, adds exactly that key, and keeps keys distinct. |
| Dto.MapOf | src/app/core/net/dto/dto.ts:65-71 | `new Map(entries)` has distinct keys, exactly the entries' keys. |
| Dto.MapOfLastWins | src/app/core/net/dto/dto.ts:65-71 | In `new Map(entries)`, the last entry with a key decides that key's value. |
| Dto.KeyedMap | src/app/core/net/dto/dto.ts:65-82 | A per-resolution map holds exactly the converted keys. Each holds the converted value of the last entry whose key converts to it. |
| Dto.ContigDescriptorToEntity | src/app/core/net/dto/dto.ts:59-88 | Id, name and length are carried over and the direction is decoded. A `null` or absent scaffold id becomes undefined, and a present one is kept. |
| Dto.ContigDescriptorMaps | src/app/core/net/dto/dto.ts:65-82 | Bin lengths and presence types are keyed by `Number` of the JSON keys, with the last entry of a key winning. Presence values are decoded as hide types. |
| Dto.ScaffoldBordersToEntity | src/app/core/net/dto/dto.ts:91-98 | Both border contig ids are carried over. |
| Dto.ScaffoldDescriptorToEntity | src/app/core/net/dto/dto.ts:100-116 | The borders are `null` exactly when the JSON field is falsy. Otherwise they name the same start and end contigs. The direction is decoded and the other fields are carried over. |
| Dto.ContigDescriptorsToEntity | src/app/core/net/dto/dto.ts:121-123 | One decoded descriptor per element, same length and order. |
| Dto.ScaffoldDescriptorsToEntity | src/app/core/net/dto/dto.ts:124-126 | One decoded descriptor per element, same length and order. |
| Dto.AssemblyInfoToEntity | src/app/core/net/dto/dto.ts:118-129 | Both lists are decoded element-wise, keeping lengths, order and ids. |
| JsNumber.ParseInt | src/app/core/net/dto/responseDTO.ts:13-15 | `Number.parseInt` gives NaN or an integer. |
| JsNumber.ParseIntSkipsWhiteSpace | src/app/core/net/dto/responseDTO.ts:13-15 | Leading white space does not change the result. |
| JsNumber.ParseIntSign | src/app/core/net/dto/responseDTO.ts:13-15 | A leading `-` negates the result of what follows, and a leading `+` leaves it unchanged. |
| JsNumber.ParseIntDigitPrefix | src/app/core/net/dto/responseDTO.ts:13-15 | A run of decimal digits followed by a non-digit or the end reads as the integer the run spells (`"2px"` is 2, `"1.5"` is 1). The exception is a lone `0` followed by `x` or `X`, which starts base 16. |
| JsNumber.ParseIntHex | src/app/core/net/dto/responseDTO.ts:13-15 | `0x` or `0X` followed by hexadecimal digits reads them in base 16, up to the first non-hex character. |
| JsNumber.ParseIntNoDigits | src/app/core/net/dto/responseDTO.ts:13-15 | Without a digit or a sign after the white space, the result is NaN. |
| JsNumber.ToNumberSignedInteger | src/app/ui/components/tracks_deprecated/ruler/bed-format-parser.ts:41-42 | `+s` of an optionally signed run of decimal digits is the integer it spells, negated after `-`. |
| JsNumber.ToNumberSignedDecimal | src/app/core/net/dto/dto.ts:69 | `Number(s)` of an optionally signed `w.f` is the digits `w + f` scaled down by `|f|` places, negated after `-`. |
| JsNumber.ToNumberBlank | src/app/ui/components/tracks_deprecated/ruler/bed-format-parser.ts:59 | A blank string converts to 0. |
| ResponseDto.Store | src/app/core/net/dto/responseDTO.ts:15 | `a[k] = v` sets element `k`, grows the array to `k + 1` with holes when needed, and leaves every other element as it was. |
| ResponseDto.ElementIndex | src/app/core/net/dto/responseDTO.ts:13-14 | A key addresses an element exactly when its `parseInt` is finite and an array index, and then it addresses that integer. |
| ResponseDto.FillLevels | src/app/core/net/dto/responseDTO.ts:10-25 | The filling loop computes the per-level array of the entries. |
| ResponseDto.LevelsPresent | src/app/core/net/dto/responseDTO.ts:11-17 | An element of the filled array is present exactly when some entry's key parses to its index. Entries whose key has no leading integer (`parseInt` is NaN), or names no array index, are skipped. |
| ResponseDto.LevelsLastWins | src/app/core/net/dto/responseDTO.ts:11-17 | The element at an index holds `parseInt` of the value of the last entry stored there, NaN included. |
| ResponseDto.LevelsLength | src/app/core/net/dto/responseDTO.ts:10-17 | The filled array ends with a present element. |
| ResponseDto.FiniteValues | src/app/core/net/dto/responseDTO.ts:30-33 | The filter keeps exactly the finite elements. Holes and NaN are left out. |
| ResponseDto.NaNLeftOut | src/app/core/net/dto/responseDTO.ts:29-34 | A stored NaN never affects the global extremes: removing it leaves the filtered values unchanged. |
| ResponseDto.MinOfAll | src/app/core/net/dto/responseDTO.ts:29-31 | `Math.min(...xs)` is +Infinity exactly for no arguments. Otherwise it is an argument no argument is below. |
| ResponseDto.MaxOfAll | src/app/core/net/dto/responseDTO.ts:32-34 | `Math.max(...xs)` is -Infinity exactly for no arguments. Otherwise it is an argument no argument is above. |
| ResponseDto.GlobalExtremes | src/app/core/net/dto/responseDTO.ts:29-34 | The global minimum is at most every finite element and equals one of them. It is +Infinity exactly when there is none. The maximum is dual, with -Infinity. |
| ResponseDto.SignalRangeToEntity | src/app/core/net/dto/responseDTO.ts:8-37 | Fills both arrays. The global minimum is at most every finite lower bound, and the global maximum at least every finite upper bound. |
| ResponseDto.TilePostToEntity | src/app/core/net/dto/responseDTO.ts:39-48 | The image is passed through unchanged and the ranges are decoded as a signal range. |
| ResponseDto.ConverterStatusToEntity | src/app/core/net/dto/responseDTO.ts:50-58 | The three fields are copied unchanged. |

## Left out

- Timers and the clock: `setTimeout`/`clearTimeout` become the two timer slots, and `Date.now()` becomes the parameter `now`. Timer scheduling is not modelled.
- The trackpad-end callback `endInteraction_` is defined by the base OpenLayers interaction, whose source is not part of this model. `TrackpadTimerFires` follows its documented behaviour: the timer slot is cleared and `view.endInteraction` is called with the sign of the last delta. The case of an interaction detached from its map is not modelled.
- OpenLayers is represented only by what the controller reads from it and the calls it returns. Left out are the view's animation, `adjustZoom`, `getConstrainedZoom` and `getResolutionForZoom` (uninterpreted functions), `TileLayer.getData`, the `ol/proj` transform, and browser detection.
- `ContigDimensionHolder` is not part of this model. It is known only through the assumed contracts in `ValidHolder`.
- The string form and the numeric form of a layer's `bpResolution` are modelled as one natural number, so both name the same resolution tier.
- WheelZoom.ContigMouseWheelZoom.Settle: the `isNaN(lastMouseCoord[0])` guard is not modelled, because coordinates are reals here and never NaN.
- Floating point is not modelled. Numbers are exact reals, so rounding drift between bp space and pixel space is outside the model.
- Roulette.Roulette.Zoom: requires a non-zero interval size before the move. The source would divide by zero and produce Infinity or NaN.
- Roulette.Roulette.Scale: the asynchronous `invalidate` of the components it triggers is not modelled.
- `Roulette.ts`:
  - `collapseLength` and the label text and colour of `createTick` are not modelled. They use logarithms, powers and `toFixed`.
  - The `draw` methods, `EmptyRC` and `RouletteComponent` are not modelled. They are canvas callbacks and async invalidation. `draw` iterates an `objects` list that is never filled.
  - The `RLN.register` decorator and its `glossary` are not modelled.
- `tuple.ts` is not part of this model. `Interval` and `Vector` are modelled minimally, as a start with a size and as a pair.
- ResponseDto.ElementIndex: a key that parses to a negative or oversized number sets an ordinary property on the array. That property is not modelled, because the elements, the length and the filter never see it.
- `Number.parseInt` of a digit string too long for a double (which gives Infinity) is not modelled. Integers are unbounded here.
- Bound values are given by their string form, which is what `parseInt` reads.
- Descriptor map values are taken to be JSON numbers, so `Number(value)` leaves them unchanged.
- JSON objects are given by their entries in `Object.entries` order. That order is not derived from the object.
- `OpenFileResponseDTO` and the abstract `InboundDTO`/`OutboundDTO` bases are not modelled. They are unchecked casts with no logic.
- The `NormalizationType` enumeration is not modelled, because no decoder uses it.
- `request.ts`, `RequestManager.ts`, `ContactMapManager.ts`, `visualizationOptionsStore.ts` and `vite.config.ts` are not part of this model. They are HTTP plumbing, map and DOM wiring, a store wrapper and build configuration.
