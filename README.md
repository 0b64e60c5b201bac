# FlipdotDisplay in Dafny

A Dafny model of the core of FlipdotDisplay, a web application that shows text
and pictures on a simulated split-flap dot display. The model covers:

- the canvas renderer `CanvasDisplay.jsx`. This covers the per-dot sweep
  timing, the jitter and variance tables, progress, face and squash, the
  pause-aware clock, the sound-cue gate, the snapshot timer, and the order its
  React effects run in;
- the DOM grid `DisplayGrid.jsx`;
- the colour helper `adjustColor`;
- the image and text samplers that turn a picture or a string into a bitmap;
- the bookkeeping of the `SoundManager` audio engine;
- the two content stores: the in-memory one under `api/` and the file-backed
  one under `server/`;
- the `createService` normaliser.

Modules, one per source component:

| module | models |
|---|---|
| `Wrappers` | `Option` |
| `Decimal` | `String(n)` of a non-negative integer |
| `GridIndex` | row-major index arithmetic |
| `JsValue` | JSON values, truthiness, object spread and shallow merge |
| `FlipTiming` | the pure per-dot arithmetic of one animation frame |
| `SweepTables` | the random row/column delay tables and per-dot modifiers |
| `ColorAdjust` | `adjustColor` |
| `CanvasDisplay` | the component's refs as a class; its effects, timer and frame loop as methods |
| `DisplayGrid` | grid items, their keys, and the column clicks |
| `ImageProcessing` | `processImage` thresholding |
| `TextProcessing` | `processText`: font fitting and centre sampling |
| `Sound` | the `SoundManager` class |
| `StoreOps` | filter, findIndex and merge, shared by both stores |
| `ApiStore` | the in-memory store |
| `ServerStore` | the file-backed store |
| `ServiceModel` | `createService` |

Conventions of the model:

- **Time and randomness.** Time is exact real milliseconds. `Date.now()`,
  `audioContext.currentTime` and every `Math.random()` draw are parameters.
  A draw is a real in [0, 1).
- **Floating point.** Progress uses JavaScript's division by zero:
  - a positive numerator over 0 clamps to 1, a negative one to 0;
  - 0 / 0 is NaN, which the clamps pass through.
- **Effect log.** React effects are methods, called in the order React runs
  them for one commit. Every call into the sound manager or the frame scheduler
  is appended to an event log.
- **Behaviours kept as the code has them.**
  - Elapsed time is not clamped at 0 (`CanvasDisplay.jsx:281`).
  - The server store reads only `settings` and `contentQueue` back from its
    file, never `services` (`server/store.js:25-26`).
  - The data effect's fallback writes modifiers with `speedMod` and without
    `randomFactor` (`CanvasDisplay.jsx:138-141`).
  - The snapshot timer always uses the horizontal sweep bound
    (`CanvasDisplay.jsx:202`).
  - A delay table for zero rows has one entry, because `delays[0] = 0` writes
    into an empty array (`CanvasDisplay.jsx:52-53`).

## Model

| member | source | states |
|---|---|---|
| Decimal.Dec | api/store.js:31 | an id written from a counter is a non-empty string of decimal digits, with a leading '0' only for 0 |
| Decimal.ParseDecDec | api/store.js:31 | reading a generated id as a decimal number gives back the counter value |
| Decimal.DecInjective | api/store.js:31 | two counter values with the same id string are equal |
| Decimal.DecInjectiveAll | api/store.js:31 | rendering counters as strings is injective on all of them |
| JsValue.IndexKeyed | server/store.js:65 | spreading an array gives exactly the keys "0".."n-1", each mapped to its element |
| JsValue.Truthy | server/store.js:26 | definition, no contract: JavaScript truthiness of a JSON value (null, false, 0 and "" are falsy) |
| JsValue.TruthyField | models/Service.js:13 | definition, no contract: truthiness of `o.key`, a missing property being falsy |
| JsValue.Spread | api/store.js:30-33 | spreading an object gives its properties; an array or a string gives exactly its index keys, each mapped to its element; any other value gives nothing |
| JsValue.Merge | api/store.js:21 | the merge has the keys of both sides: the right side's properties win wholesale, and the left side's other properties are kept |
| StoreOps.DefaultSettings | server/store.js:6-12 | the default settings have exactly the keys resolution, colors, timing, animationDirection and soundType |
| StoreOps.HasId | server/store.js:55 | definition, no contract: `item.id === id`, a missing id never matching; used by RemoveById, FindById and UpdateById |
| StoreOps.RemoveById | api/store.js:39 | an item stays in the queue iff it was there and does not carry the id; the list never grows |
| StoreOps.RemoveByIdConcat | api/store.js:39 | the filter works per item, so kept items keep their order |
| StoreOps.RemoveByIdIdempotent | server/store.js:55 | removing an id twice is the same as removing it once |
| StoreOps.RemoveByIdNoMatch | server/store.js:55 | removing an id no item carries leaves the queue as it was |
| StoreOps.FindById | server/store.js:73 | the result is the first index carrying the id, or -1 iff no item carries it |
| StoreOps.WithLeadingId | api/store.js:30-33 | the new item has the item's keys plus "id"; an id already in the item overrides the generated one |
| StoreOps.UpdateById | server/store.js:73-76 | no match iff no entry carries the id; otherwise only the first carrier is replaced, by its shallow merge with the updates, and the length is kept |
| StoreOps.UpdateFirstMatchOnly | api/store.js:60-62 | a later entry with the same id is left untouched by an update |
| StoreOps.GeneratedIdsDistinct | api/store.js:31 | distinct counter values give distinct id values |
| ApiStore.IssuedIdsDistinct | api/store.js:55 | ids handed out from an increasing counter are pairwise distinct |
| ApiStore.MemoryStore.constructor | api/store.js:4-14 | a new store has the default settings, empty queue and services, and the counter at 1 |
| ApiStore.MemoryStore.UpdateSettings | api/store.js:20-23 | settings become the shallow merge of the old settings and the new ones, and are returned |
| ApiStore.MemoryStore.AddToQueue | api/store.js:29-36 | appends the item under the id String(counter), increments the counter, keeps every issued id below it, and returns the new item |
| ApiStore.MemoryStore.RemoveFromQueue | api/store.js:38-40 | the queue becomes the id filter of the old queue |
| ApiStore.MemoryStore.UpdateQueue | api/store.js:42-44 | the queue is replaced wholesale |
| ApiStore.MemoryStore.AddService | api/store.js:54-58 | appends the service under an id from the same counter as the queue |
| ApiStore.MemoryStore.UpdateService | api/store.js:59-64 | returns null and changes nothing when no service has the id; otherwise merges into the first one and returns it |
| ServerStore.Get | server/store.js:25-26 | definition, no contract: `loaded.key`, a missing property or a non-object root reading as null |
| ServerStore.Load | server/store.js:14-30 | a missing, unparsable or null file keeps the defaults; file settings overlay the defaults; a saved list of objects is restored as the queue, a falsy queue loads as [], and the start-up fails to give a usable queue iff the queue is truthy and not a list of objects; services always start empty |
| ServerStore.LoadOverlaysDefaults | server/store.js:25 | a file with settings {soundType: "soft"} loads the defaults with only soundType changed |
| ServerStore.WithTrailingIdAndDate | server/store.js:65 | the new service has the data's keys plus id and createdAt, and the generated id and timestamp win over the data's own |
| ServerStore.FileStore.constructor | server/store.js:14-18 | the store starts from the loaded data with nothing saved yet |
| ServerStore.FileStore.SaveData | server/store.js:32-38 | one snapshot of the whole data is appended to the file log |
| ServerStore.FileStore.UpdateSettings | server/store.js:42-46 | settings become the shallow merge; exactly one save of the new data |
| ServerStore.FileStore.AddToQueue | server/store.js:48-53 | appends the item under the id Date.now().toString(), then exactly one save |
| ServerStore.FileStore.RemoveFromQueue | server/store.js:54-57 | the queue becomes the id filter of the old queue, then exactly one save |
| ServerStore.FileStore.UpdateQueue | server/store.js:58-61 | the queue is replaced wholesale, then exactly one save |
| ServerStore.FileStore.AddService | server/store.js:64-70 | appends the data with a trailing id and createdAt, then exactly one save |
| ServerStore.FileStore.UpdateService | server/store.js:71-79 | with no match it returns null and does not save; otherwise it merges into the first match, saves once and returns the entry |
| ServiceModel.OrElse | models/Service.js:13 | `data.key \|\| fallback` is one of its two operands; it is truthy iff the field or the fallback is; a truthy field always wins |
| ServiceModel.CreateService | models/Service.js:11-18 | a service has exactly id, name, hideBackButton and createdAt. Truthy fields are kept; otherwise the generated id, "Untitled Service", false or the clock are used; hideBackButton is kept only when it is a boolean |
| ServiceModel.CreatedFieldsTruthy | models/Service.js:13-16 | id and name are always truthy, hideBackButton is always a boolean, and createdAt is truthy with a non-zero clock |
| ServiceModel.CreateServiceIdempotent | models/Service.js:11-18 | normalising a normalised service returns it unchanged, whatever the clock reads |
| ServiceModel.EmptyBodyDefaults | models/Service.js:13-16 | an empty body gives the generated id, "Untitled Service", false and the current time |
| FlipTiming.AxisDelay | client/src/components/CanvasDisplay.jsx:298-314 | definition, no contract: `table[i] \|\| i * 2`; stated by AxisDelayFallback |
| FlipTiming.BaseDelay | client/src/components/CanvasDisplay.jsx:298-314 | definition, no contract: the four base delays of the direction switch; stated by the mirror lemmas and LeftRightDelayBound |
| FlipTiming.SpeedMultiplier | client/src/components/CanvasDisplay.jsx:319-320 | definition, no contract: `1 + (randomFactor * 2 - 1) * variance / 100`; stated by MultiplierRange |
| FlipTiming.EffectiveDuration | client/src/components/CanvasDisplay.jsx:321 | definition, no contract: flipDuration times the multiplier; stated by NoVarianceNoSpread and DurationPositive |
| FlipTiming.DurationPositive | client/src/components/CanvasDisplay.jsx:319-321 | with a positive flip duration, variance below 100 and a random factor in [0, 1), every dot's flip takes a positive time |
| FlipTiming.DotProgress | client/src/components/CanvasDisplay.jsx:292-324 | a numeric progress lies in [0, 1]; a dot with a `randomFactor` modifier, a positive flip duration and variance below 100 always has numeric progress |
| FlipTiming.Visual | client/src/components/CanvasDisplay.jsx:326-342 | definition, no contract: face, squash and flipping from the progress; stated by FaceSwitchesAtMidpoint, FlippingIffInFlight and ScaleYInUnitRange |
| FlipTiming.CellState | client/src/components/CanvasDisplay.jsx:287-342 | definition, no contract: everything the frame loop computes for one cell; stated by SpeedModDotSnapsToTarget and TwoByTwoExample |
| FlipTiming.MaxDelay | client/src/components/CanvasDisplay.jsx:107-113 | definition, no contract: the sweep's maximum delay estimate; stated by OppositeDirectionsShareBound and VerticalBoundIsTransposed |
| FlipTiming.SweepTotal | client/src/components/CanvasDisplay.jsx:115 | definition, no contract: the cue length, max delay plus one flip; stated by SweepBoundShape and SweepBoundCanBeExceeded |
| FlipTiming.SnapshotDelay | client/src/components/CanvasDisplay.jsx:202-203 | definition, no contract: the snapshot timer's delay; stated by SnapshotDelayIgnoresDirection |
| FlipTiming.ParseDirection | client/src/components/CanvasDisplay.jsx:298-314 | each of the three named strings selects its direction; every other string selects left-right |
| FlipTiming.RightLeftMirrorsLeftRight | client/src/components/CanvasDisplay.jsx:298-314 | the right-left delay of column c is the left-right delay of column cols-1-c |
| FlipTiming.BottomTopMirrorsTopBottom | client/src/components/CanvasDisplay.jsx:303-310 | the bottom-top delay of row r is the top-bottom delay of row rows-1-r |
| FlipTiming.AxisDelayFallback | client/src/components/CanvasDisplay.jsx:298-314 | a missing or zero table entry falls back to twice its index; a non-zero entry is used |
| FlipTiming.NoVarianceNoSpread | client/src/components/CanvasDisplay.jsx:319-321 | with variance 0 every dot flips in exactly flipDuration |
| FlipTiming.MultiplierRange | client/src/components/CanvasDisplay.jsx:319-321 | a random factor in [0, 1) scales the duration by a factor in [1 - v/100, 1 + v/100) |
| FlipTiming.ProgressAt | client/src/components/CanvasDisplay.jsx:323-324 | progress is in [0, 1], or NaN iff 0/0. With a positive duration it is 0 before the dot's delay, 1 after delay + duration, and the elapsed fraction in between |
| FlipTiming.ProgressMonotone | client/src/components/CanvasDisplay.jsx:323-324 | with a positive duration, progress never decreases as time advances |
| FlipTiming.FaceSwitchesAtMidpoint | client/src/components/CanvasDisplay.jsx:336-340 | the previous value's face shows below progress 0.5, the target's from 0.5 on (and for NaN) |
| FlipTiming.UnchangedDotKeepsFace | client/src/components/CanvasDisplay.jsx:336-340 | a dot whose old and new values agree shows the same face at every progress |
| FlipTiming.FlippingIffInFlight | client/src/components/CanvasDisplay.jsx:327-342 | a dot is flipping iff its progress is strictly between 0 and 1; a dot not flipping is unsquashed |
| FlipTiming.ScaleYInUnitRange | client/src/components/CanvasDisplay.jsx:331-333 | the squash factor stays in [0, 1] |
| FlipTiming.UnchangedDotStillFlutters | client/src/components/CanvasDisplay.jsx:331-342 | an unchanged dot still turns edge-on at its midpoint while keeping its face |
| FlipTiming.SpeedModDotSnapsToTarget | client/src/components/CanvasDisplay.jsx:320-342 | a dot whose modifier lacks randomFactor has NaN progress, so it shows its target face unsquashed and not flipping |
| FlipTiming.OppositeDirectionsShareBound | client/src/components/CanvasDisplay.jsx:109-115 | left-right and right-left share one cue length; so do top-bottom and bottom-top |
| FlipTiming.VerticalBoundIsTransposed | client/src/components/CanvasDisplay.jsx:183-191 | the vertical cue length is the horizontal one of the transposed grid |
| FlipTiming.SweepBoundShape | client/src/components/CanvasDisplay.jsx:181-191 | a 1x1 grid's cue lasts exactly one flip; on a non-empty grid the cue is at least one flip |
| FlipTiming.SnapshotDelayIgnoresDirection | client/src/components/CanvasDisplay.jsx:202-203 | the snapshot delay is always the horizontal bound, so for vertical sweeps on non-square grids it differs from their own bound |
| FlipTiming.TwoByTwoExample | client/src/components/CanvasDisplay.jsx:287-324 | on a 2x2 left-right grid at 150 ms the four delays are 0/100/200/300 and the progresses are 1/2, 1/6, 0 and 0 |
| SweepTables.DelayTable | client/src/components/CanvasDisplay.jsx:51-60 | a table has max(n, 1) entries and starts at 0 |
| SweepTables.GenerateDelays | client/src/components/CanvasDisplay.jsx:51-60 | the array loop produces exactly the specified delay table |
| SweepTables.DelayTablePrefix | client/src/components/CanvasDisplay.jsx:54-58 | a shorter table is a prefix of a longer one built from the same draws |
| SweepTables.DelayStepAt | client/src/components/CanvasDisplay.jsx:56-57 | each entry is the previous one plus 1 + 2·draw |
| SweepTables.DelayStepRange | client/src/components/CanvasDisplay.jsx:56-57 | every step lies in [1, 3) |
| SweepTables.DelayBounds | client/src/components/CanvasDisplay.jsx:51-58 | entry i lies in [i, 3i], strictly below 3i once i ≥ 1 |
| SweepTables.DelaysIncrease | client/src/components/CanvasDisplay.jsx:54-58 | tables strictly increase |
| SweepTables.JitterModifiers | client/src/components/CanvasDisplay.jsx:41-46 | one modifier per dot, with startOffset in [-0.2, 0.2) and randomFactor in [0, 1) |
| SweepTables.SpeedModModifiers | client/src/components/CanvasDisplay.jsx:137-142 | one modifier per dot, with startOffset in [-0.2, 0.2) and speedMod in [0.8, 1.2) |
| SweepTables.LeftRightDelayBound | client/src/components/CanvasDisplay.jsx:311-313 | with a generated row table, a left-right dot starts within (cols-1) + 3(rows-1) staggers |
| SweepTables.SweepBoundCanBeExceeded | client/src/components/CanvasDisplay.jsx:188-193 | the cue length is an estimate: with a row step of 2.8 a dot's flip ends after the cue does |
| ColorAdjust.AdjustColor | client/src/components/CanvasDisplay.jsx:215-217 | the result is one '#' followed by as many characters as the colour has after its own leading '#' |
| ColorAdjust.StripHash | client/src/components/CanvasDisplay.jsx:216 | definition, no contract: drops one leading '#' |
| ColorAdjust.AdjustRuns | client/src/components/CanvasDisplay.jsx:216 | definition, no contract: the `/../g` replacement, left to right; stated by AdjustRunsLength and AdjustHexRuns |
| ColorAdjust.ParseChannel | client/src/components/CanvasDisplay.jsx:216 | `parseInt` of a two-character run, when it is a number, lies in [-15, 255] |
| ColorAdjust.ChannelText | client/src/components/CanvasDisplay.jsx:216 | each run is replaced by exactly two characters |
| ColorAdjust.Hex2 | client/src/components/CanvasDisplay.jsx:216 | a channel in [0, 255] is written as exactly two characters; Hex2RoundTrip reads them back |
| ColorAdjust.Clamp | client/src/components/CanvasDisplay.jsx:216 | a channel is clamped into [0, 255], and values already in range are unchanged |
| ColorAdjust.Hex2RoundTrip | client/src/components/CanvasDisplay.jsx:216 | a channel written as two lower-case hex digits parses back to itself |
| ColorAdjust.AdjustRunsLength | client/src/components/CanvasDisplay.jsx:216 | run replacement keeps the length of the string |
| ColorAdjust.AdjustHexRuns | client/src/components/CanvasDisplay.jsx:216 | on an even hex string, run k becomes two lower-case hex digits reading as clamp(run k + amount) |
| ColorAdjust.AdjustColorChannels | client/src/components/CanvasDisplay.jsx:215-217 | "#rrggbb" becomes "#rrggbb" in lower-case digits, each channel being clamp(channel + amount) |
| ColorAdjust.AdjustByZeroKeepsChannels | client/src/components/CanvasDisplay.jsx:215-217 | adjusting by 0 keeps every channel value |
| ColorAdjust.NonNumericRun | client/src/components/CanvasDisplay.jsx:216 | a run that does not start a number becomes "aN" |
| CanvasDisplay.Elapsed | client/src/components/CanvasDisplay.jsx:279-281 | definition, no contract: now minus the start time minus the paused total; stated by ClockAdvancesWithTime |
| CanvasDisplay.PauseAt | client/src/components/CanvasDisplay.jsx:81 | definition, no contract: records the pause start; stated by PauseResumeFreezesClock |
| CanvasDisplay.ResumeAt | client/src/components/CanvasDisplay.jsx:85-86 | definition, no contract: adds the pause length to the paused total; stated by PauseResumeFreezesClock and InstantToggleKeepsClock |
| CanvasDisplay.Restart | client/src/components/CanvasDisplay.jsx:132-134 | definition, no contract: the clock reset on new data; stated by ClockAdvancesWithTime and ToggleRestartsSweep |
| CanvasDisplay.CueNeeded | client/src/components/CanvasDisplay.jsx:90-104 | definition, no contract: the `hasChanges` condition; stated by DetectChanges, RepeatIsSilent and CueIffSomeCellChanges |
| CanvasDisplay.CueEvents | client/src/components/CanvasDisplay.jsx:106-117 | a gate check emits at most one event, an animation sound with the display's sound type |
| CanvasDisplay.Zeros | client/src/components/CanvasDisplay.jsx:36 | the reset bitmap has rows·cols zero entries |
| CanvasDisplay.PauseResumeFreezesClock | client/src/components/CanvasDisplay.jsx:81-86 | a pause and a resume add the pause length to the paused total, so the clock reads on resume what it read at the pause |
| CanvasDisplay.InstantToggleKeepsClock | client/src/components/CanvasDisplay.jsx:81-86 | a pause and a resume at the same instant change no reading of the clock |
| CanvasDisplay.ClockAdvancesWithTime | client/src/components/CanvasDisplay.jsx:279-281 | while playing the clock advances exactly with wall time; after a restart it reads 0 |
| CanvasDisplay.DetectChanges | client/src/components/CanvasDisplay.jsx:90-104 | the early-exit loop answers exactly the cue predicate: any non-zero value without a full-size last bitmap, else any differing cell |
| CanvasDisplay.RepeatIsSilent | client/src/components/CanvasDisplay.jsx:161-176 | repeating the last sounded full-size bitmap plays no cue |
| CanvasDisplay.CueIffSomeCellChanges | client/src/components/CanvasDisplay.jsx:170-175 | with a same-size last bitmap, a cue plays iff the bitmap changed |
| CanvasDisplay.FrameCell | client/src/components/CanvasDisplay.jsx:287-289 | cell (r, c) of a frame sits at flat index r·cols + c |
| CanvasDisplay.Display.constructor | client/src/components/CanvasDisplay.jsx:20-31 | the refs start empty, the clock at 0, no frame or timer pending, and wasPlaying as the first prop |
| CanvasDisplay.Display.SizeEffect | client/src/components/CanvasDisplay.jsx:34-72 | each of the bitmap, the modifiers, the row table and the column table is rebuilt iff its length no longer fits the grid, and kept otherwise |
| CanvasDisplay.Display.PlayPauseEffect | client/src/components/CanvasDisplay.jsx:75-125 | no-op unless isPlaying changed. Pause: stop all sound, record the pause start, cancel a pending frame. Resume: the clock reads what it read at the pause, a frame is requested, and the gated cue plays and is recorded |
| CanvasDisplay.Display.DataEffect | client/src/components/CanvasDisplay.jsx:128-212 | cancels the old snapshot timer; empty data changes nothing else. Otherwise: restart the clock, refill missing tables, stop all sound then gate the cue while playing, and arm a snapshot of the data |
| CanvasDisplay.Display.SnapshotTimerFires | client/src/components/CanvasDisplay.jsx:205-207 | the captured bitmap becomes the previous bitmap |
| CanvasDisplay.Display.SizeChange | client/src/components/CanvasDisplay.jsx:136-153 | after a resize the data effect finds every table sized, so its speedMod fallback never writes |
| CanvasDisplay.Display.TogglePlaying | client/src/components/CanvasDisplay.jsx:212 | on any toggle with data, the clock ends restarted; on resume the stop-all comes after the resume cue, and, when the bitmap fills the grid, the data effect's own gate stays silent |
| CanvasDisplay.Display.SampleFrame | client/src/components/CanvasDisplay.jsx:279-342 | the nested loops produce every dot's visual state in row-major order |
| CanvasDisplay.Display.Animate | client/src/components/CanvasDisplay.jsx:241-507 | paused: nothing happens. Playing: one full frame, then the next frame is requested |
| CanvasDisplay.ToggleRestartsSweep | client/src/components/CanvasDisplay.jsx:132-134 | paused 500 ms in and resumed 1500 ms later, the intended clock reads 500 and the restarted one reads 0 |
| ImageProcessing.IsLit | client/src/utils/imageProcessing.js:30-33 | definition, no contract: alpha above 128 and luma above 128; stated by ScaledLuma, TransparentIsOff and BrighterStaysLit |
| ImageProcessing.PixelBit | client/src/utils/imageProcessing.js:30-37 | each pixel gives a dot value of 0 or 1 |
| ImageProcessing.ProcessImagePixels | client/src/utils/imageProcessing.js:20-38 | the stride-4 loop gives one dot per pixel, dot k being the threshold of pixel k |
| ImageProcessing.ScaledLuma | client/src/utils/imageProcessing.js:30-33 | a pixel is on iff alpha > 128 and 299R + 587G + 114B > 128000 |
| ImageProcessing.TransparentIsOff | client/src/utils/imageProcessing.js:33 | a pixel with alpha at most 128 is off whatever its colour |
| ImageProcessing.BrighterStaysLit | client/src/utils/imageProcessing.js:30-33 | raising any channel never turns a lit pixel off |
| ImageProcessing.ThresholdExamples | client/src/utils/imageProcessing.js:30-37 | opaque white and green are on; black, pure red and half-transparent white are off |
| TextProcessing.SampleIndex | client/src/utils/textProcessing.js:45-48 | definition, no contract: the byte offset of a cell's centre pixel; stated by SampleIsBlockCentre, SampleIndexInRange and SamplesDistinct |
| TextProcessing.FitFontSize | client/src/utils/textProcessing.js:18-28 | the size is at most the canvas height and at least 1 (0 for no rows). The text fits at it or it is 1, and every larger size up to the height overflows |
| TextProcessing.CenterBit | client/src/utils/textProcessing.js:52-56 | each cell reads a dot value of 0 or 1 |
| TextProcessing.SampleCells | client/src/utils/textProcessing.js:39-58 | grid cell k is the bit read at the centre of cell (k / cols, k % cols) |
| TextProcessing.ProcessText | client/src/utils/textProcessing.js:1-61 | the text fits 95% of the width at the returned size or the size is 1, no larger size up to the canvas height fits, and the grid samples the text rendered at that size; a canvas with no rows or no columns gives no grid, as `getImageData` throws on it |
| TextProcessing.SampleIsBlockCentre | client/src/utils/textProcessing.js:45-48 | cell (r, c) samples pixel (10c + 5, 10r + 5) of a 10·cols wide canvas |
| TextProcessing.SampleIndexInRange | client/src/utils/textProcessing.js:45-48 | the sampled offset is a whole pixel inside the rendered buffer |
| TextProcessing.CenterBitReadsBuffer | client/src/utils/textProcessing.js:48-56 | on a buffer of the rendered size each cell reads a real red byte against 128 |
| TextProcessing.SamplesDistinct | client/src/utils/textProcessing.js:45-48 | distinct cells sample distinct pixels |
| TextProcessing.GridCellIsCentre | client/src/utils/textProcessing.js:53 | cell (r, c) of the grid is the bit read at its centre |
| DisplayGrid.CellKey | client/src/components/DisplayGrid.jsx:37 | definition, no contract: the key `${r}-${c}`; stated by CellKeyInjective and CellKeysDiffer |
| DisplayGrid.CellItem | client/src/components/DisplayGrid.jsx:32-41 | definition, no contract: the element of flat cell k; stated by ItemOfCell |
| DisplayGrid.GridItems | client/src/components/DisplayGrid.jsx:28-47 | the loops give one element per cell in row-major order, each with its key, its activity and its column delay |
| DisplayGrid.DashAfterRow | client/src/components/DisplayGrid.jsx:37 | in the key "r-c" the first dash follows the digits of r |
| DisplayGrid.CellKeyInjective | client/src/components/DisplayGrid.jsx:37 | equal keys name the same cell |
| DisplayGrid.CellKeysDiffer | client/src/components/DisplayGrid.jsx:37 | distinct cells have distinct keys |
| DisplayGrid.FlatKeysDistinct | client/src/components/DisplayGrid.jsx:32-37 | distinct flat indices have distinct keys |
| DisplayGrid.ItemOfCell | client/src/components/DisplayGrid.jsx:32-41 | item r·cols + c has key "r-c", is active iff its bitmap entry is exactly 1, and is delayed by c·columnDelay |
| DisplayGrid.KeysDistinct | client/src/components/DisplayGrid.jsx:30-43 | no two grid elements share a React key |
| DisplayGrid.ColumnFlipDelays | client/src/components/DisplayGrid.jsx:16-25 | no clicks for empty data; otherwise one click per column, delayed by that column's transition delay |
| Sound.IndexOf | client/src/utils/SoundManager.js:76 | the first position of the source, or -1 iff it is absent |
| Sound.RemoveSource | client/src/utils/SoundManager.js:75-80 | an absent source leaves the list as it was; otherwise exactly one occurrence is removed |
| Sound.RemoveSourceKeepsOrder | client/src/utils/SoundManager.js:78 | the other sources keep their relative order |
| Sound.RemoveSourceDistinct | client/src/utils/SoundManager.js:75-80 | in a duplicate-free list the ended source is gone, and the list stays duplicate-free |
| Sound.VoiceRanges | client/src/utils/SoundManager.js:114-128 | each voice has rate in [0.9, 1.3), pan in [-0.5, 0.5) and start delay in [0, 0.02) s |
| Sound.Voices | client/src/utils/SoundManager.js:108-132 | one voice per requested source |
| Sound.SoundManager.constructor | client/src/utils/SoundManager.js:2-6 | no buffer, no live sources, no voices and no timer |
| Sound.SoundManager.CreateClickBuffer | client/src/utils/SoundManager.js:16-45 | the click buffer is synthesised once and the cached one is returned afterwards |
| Sound.SoundManager.PlayClick | client/src/utils/SoundManager.js:47-83 | a new source is started at now + time, at rate 1 + 0.3·draw in [1, 1.3), and appended to the live list |
| Sound.SoundManager.SourceEnded | client/src/utils/SoundManager.js:75-80 | the ended source is removed from the live list |
| Sound.SoundManager.PlayColumnFlip | client/src/utils/SoundManager.js:86-93 | one click at volume 0.08, within 10 ms after the column's delay, under the next source number; the click buffer is created if missing and kept otherwise |
| Sound.SoundManager.StopAnimationSound | client/src/utils/SoundManager.js:141-163 | every voice is faded out by now + 0.05, then the voices and the timer are cleared |
| Sound.SoundManager.PlayAnimationSound | client/src/utils/SoundManager.js:96-138 | the old voices are faded out, exactly 20 new voices are started, and the auto-stop timer is set to the duration |
| Sound.SoundManager.StopAll | client/src/utils/SoundManager.js:166-180 | every live click stops at once, the animation sound fades out, and all lists and the timer are cleared |

The remaining members are proof helpers and carry no row: `GridIndex.DivModUnique`, `GridIndex.MulAtLeast`, `GridIndex.MulMono`, `GridIndex.FlatIndex`, `GridIndex.CellOfIndex` and `GridIndex.CellsOfDistinctIndices`; `FlipTiming.DivBounds` and `FlipTiming.DivMonotone`; `ColorAdjust.DropRuns` and `ColorAdjust.AdjustHexHead`; `DisplayGrid.CellItemAt` and `DisplayGrid.GridPrefixGrows`; and `Sound.FadeOuts`, `Sound.VoiceStarts` and `Sound.StopNows`, which build the expected event lists.

## Left out

- Canvas painting and resizing (the lines around the frame loop in `CanvasDisplay.jsx`, 244-277 and 344-503) are not modelled. The model computes each dot's visual state and stops before drawing it.
- The canvas-missing early return of `animate` is left out: a frame is always computed while playing.
- `Math.cos(x·π)` is an opaque function parameter. Only its range [-1, 1], and cos(π/2) = 0 where stated, are assumed in a lemma's requires.
- Floating-point rounding is not modelled: all arithmetic is on exact reals. The luma threshold and the progress fractions are therefore exact.
- The frame-request effect at `CanvasDisplay.jsx:219-224` and every unmount cleanup are left out. Frame scheduling is only logged as events.
- `setTimeout` and `requestAnimationFrame` are not scheduled. A pending timer is state, and its firing is a separate method.
- An undefined `data` prop and the component's default props are left out; data is always an integer sequence.
- Modifier arrays and bitmaps are not shared by reference, so the model does not capture aliasing between refs.
- Waveform synthesis of the click buffer (`SoundManager.js:19-41`) is not modelled: the buffer is a count of how often it was synthesised.
- Audio-node wiring is not modelled, and neither is the gain 0.08/√20 of each voice.
- The filter-frequency draw of `playClick` is not modelled.
- Resuming a suspended audio context and the `await` in `playAnimationSound` are not modelled.
- The auto-stop timer of the animation sound is left out; when it fires it does exactly what `StopAnimationSound` does.
- `animationSources` is undefined before its first use. The model starts it as an empty list, which behaves the same.
- Sound.SoundManager.PlayAnimationSound: the `soundType` argument the canvas passes is not a parameter, because the sound manager ignores it.
- DOM rasterisation is not modelled. The text width at each font size and the rendered pixel buffer are parameters of `ProcessText`.
- Image loading is not modelled: the image sampler receives the RGBA bytes of an already scaled canvas.
- The store getters (`getSettings`, `getQueue`, `getServices`) are left out.
- In-place `push` on the stores' arrays is modelled as an append to a sequence field.
- ServerStore.FileStore.UpdateQueue and ApiStore.MemoryStore.UpdateQueue take a list of objects. The routes in `server/index.js:91-92` and `api/index.js:47-48` pass any array, so a queue holding non-object elements is outside the model.
- ServerStore.Load: a loaded `contentQueue` that is truthy but not a list of objects produces `QueueNotAList`, and no store is built from it. In the source, a truthy non-array (an object, a string, a number, `true`) makes `addToQueue` and `removeFromQueue` throw, because it has no `push` or `filter`. An array with a `null` element makes `removeFromQueue` throw when it reads `null.id`. An array whose other non-object elements are numbers, strings, booleans or arrays loads and works: `push` appends, and the id filter keeps those elements, whose `id` is undefined. The model does not capture such queues.
- The `!data.services` guards in `server/store.js` are unreachable: services always start as an empty list.
- Ids are modelled as strings only. An id taken from a request body with a non-string type is outside the model.
- File reading, JSON parsing and writing are not modelled: the file's content is a parameter, and each write is a logged snapshot.
- Express routing in `server/index.js` and `api/index.js` is not part of this model.
- The application shell `App.jsx` and the CSS-transition dot `FlipDot.jsx` are not part of this model.
- Key order of objects is not modelled: objects are maps. The order in which `JSON.stringify` writes the keys of `data.json` (`server/store.js:33`), and the order spreads and merges give them, are outside the model.
- NaN is not a JSON value here, so its falsiness is not modelled.
- Strings are sequences of Unicode scalar values, not UTF-16 code units. A character outside the Basic Multilingual Plane counts as one unit in `adjustColor` runs.

## Findings

| source | as written | input that shows it | evidently intended | confidence | as-written member | corrected member |
|---|---|---|---|---|---|---|
| client/src/components/CanvasDisplay.jsx:212 | the new-data effect lists `isPlaying` among its dependencies, so it runs again after the play/pause effect on every toggle. It restarts the clock, discarding the pause time added at lines 85-86. On resume its `stopAll` (line 158) silences the cue just played at line 116, and its own gate sees an unchanged bitmap and plays none | pause at 500 ms into a sweep, resume at 2000 ms: the clock reads 0 instead of 500, the sweep restarts, and the resume cue is stopped at once | a resume continues the sweep where it paused, with the resume cue playing | not executed | CanvasDisplay.Display.TogglePlaying | CanvasDisplay.Display.PlayPauseEffect |
