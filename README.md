# DarkMultiPlayer debug window, modelled in Dafny

The client of DarkMultiPlayer carries a debug overlay, `DebugWindow`. It is a
small state machine with these parts:

- a requested visibility `display`;
- a copy of it, `safeDisplay`, latched once per tick;
- a refresh gate: resample when strictly more than 0.2 s have passed since
  the last resample, or when fast mode is on;
- four cached panel texts that every resample rebuilds from scratch:
  - time synchronisation, 9 lines;
  - connection queues, 7 lines;
  - dynamic tick, 2 lines;
  - requested warp rates: the local player's line, then one line per peer;
- five toggles (fast mode and one per panel) that decide which cached texts
  are drawn.

This project models that state machine and proves what each operation does
to it.

Modules, one per file:

- `Lines` (`lines.dfy`): newline-terminated text and the lines a reader
  splits it into. It proves that appending `label + value + ending`, with
  one newline at the end, adds exactly one line.
- `NumberText` (`number_text.dfy`): the runtime's decimal text for an
  integer that is concatenated to a string. A parser is its partner, so the
  text reads back as the integer.
- `Sampling` (`sampling.dfy`): what one resample reads from the client's
  collaborators (`Readings`) and the text each reading becomes
  (`Snapshot`, built by `Format`).
  - Rates and times are rounded to three decimals.
  - The synchronisation error is scaled to milliseconds and rounded to
    whole units.
  - Tick counts are divided by 10000.
  - Integer statistics are written in decimal.
- `Panels` (`panels.dfy`): each fixed panel as a table of
  (label, reading, ending) lines in the order `Update` appends them, and the
  requested-rates text built by a loop over the skew list. There is one
  method per panel that builds its text statement by statement, as
  `Update` does, proved equal to the table's text.
- `Layout` (`layout.dfy`): the toggles, what one immediate-mode frame draws
  (a toggle button per toggle, and a panel's text under its button when the
  toggle is on), and the window frame.
- `DebugWindow` (`debug_window.dfy`): the `DebugWindow` class with the C#
  fields. It has the constructor, `Update`, `DrawContent` and `Draw`, plus a
  ghost record of the last sample. The invariant `Valid` says the cached
  texts are always the rendering of the most recent sample, or all empty
  before the first one.

Inputs the class cannot see become parameters:

- `now` replaces `UnityEngine.Time.realtimeSinceStartup`.
- A formatted `Snapshot` stands for the collaborators' readings.
- The set of toggles clicked in a frame stands for `GUILayout.Toggle`'s user
  input.

The gate compares real seconds against 0.2 with the strict `>` of the source.

The code has no sentinel for an unavailable statistic and no placeholder
for a non-finite number; it concatenates whatever the collaborator returns,
and so does the model. Visibility is latched at the top of `Update`, and
`Draw` reads the latched copy.

## Model

| member | source | states |
|---|---|---|
| DebugWindow.DebugWindow.constructor | Client/DebugWindow.cs:37-46 | `display` is false and the four cached texts are empty. `safeDisplay`, fast mode, every panel toggle and `lastUpdateTime` hold the runtime defaults (false, 0). No sample has been taken, and the invariant holds. |
| DebugWindow.DebugWindow.Update | Client/DebugWindow.cs:110-150 | `safeDisplay` becomes the value `display` had at the call, whether or not a resample happens. A resample happens exactly when `display` was on and either strictly more than 0.2 s have passed or fast mode is on. A resample sets `lastUpdateTime` to `now` and sets the texts to the rendering of the new snapshot, whatever they were before. Otherwise the texts, `lastUpdateTime` and the last sample are unchanged. `display` and the toggles never change, and the invariant is kept. |
| DebugWindow.DebugWindow.Resample | Client/DebugWindow.cs:117-147 | Sets `lastUpdateTime` to `now` and every cached text to the rendering of the snapshot. The result does not depend on the previous texts, so two resamples of one snapshot leave identical texts. Re-establishes the invariant for the new sample. |
| DebugWindow.ShouldResample | Client/DebugWindow.cs:115 | The refresh gate: strictly more than 0.2 s since the last resample, or fast mode on. `Update`'s contract is stated in terms of it. |
| DebugWindow.GateAtInterval | Client/DebugWindow.cs:115 | Exactly 0.2 s after the last resample the gate stays closed unless fast mode is on. Any longer delay opens it, and fast mode always opens it. |
| DebugWindow.BuildTexts | Client/DebugWindow.cs:119-147 | The four texts a resample builds are the rendering of the snapshot. |
| DebugWindow.DebugWindow.DrawContent | Client/DebugWindow.cs:82-108 | Each toggle flips exactly when it was clicked in this frame. The drawn content is the five toggle buttons in source order, each panel's cached text right under its button when that toggle is on (after the frame's clicks). The `modifies` clause names only the five toggle fields, so the texts, `lastUpdateTime`, `display` and `safeDisplay` are untouched. |
| DebugWindow.DebugWindow.Draw | Client/DebugWindow.cs:69-80 | With `safeDisplay` off: no window and no state change. With it on: the titled window holding the content `DrawContent` lays out. Only toggles change, either way. |
| Layout.ClickFlipsOnlyItsToggle | Client/DebugWindow.cs:86-102 | After a frame, a toggle is on exactly when it was on before or was clicked, but not both. No other toggle is affected by its click. |
| Layout.ClickTwiceRestores | Client/DebugWindow.cs:86-102 | Clicking the same toggles in two frames restores every toggle. |
| Layout.CaptionsDiffer | Client/DebugWindow.cs:86-102 | No two toggle buttons share a caption. |
| Layout.ContentUpToShows | Client/DebugWindow.cs:86-106 | Up to the first k panels, a toggle has a button exactly when it is fast mode or one of those panels. A panel's cached text is drawn under its button exactly when its toggle is on. |
| Layout.PanelShownIffOn | Client/DebugWindow.cs:87-106 | In the whole content, a panel's cached text is shown under its toggle if and only if that toggle is on, and nothing is shown under the fast-mode toggle. |
| Panels.BuildNtpText | Client/DebugWindow.cs:119-127 | The nine statements build exactly the time-synchronisation panel's table text. |
| Panels.BuildConnectionText | Client/DebugWindow.cs:130-136 | The seven statements build exactly the connection panel's table text. |
| Panels.BuildDynamicTickText | Client/DebugWindow.cs:139-140 | The two statements build exactly the dynamic-tick panel's table text. |
| Panels.BuildRequestedRateText | Client/DebugWindow.cs:143-147 | The loop over the skew list builds the local player's line followed by one line per peer, in skew-list order. |
| Panels.PrefixLines | Client/DebugWindow.cs:119-140 | When every append adds one line, the text after k appends splits into exactly those k lines, in order, and ends at the start of a line. |
| Panels.PanelPartsAreLines | Client/DebugWindow.cs:119-140 | When the readings a fixed panel shows hold no newline, every append of that panel adds exactly one line: one-line label and reading, then one newline. Nothing is required of readings the panel does not show. |
| Panels.FixedTextLines | Client/DebugWindow.cs:119-140 | When the readings a fixed panel shows hold no newline, its text splits into exactly its table lines: nine, seven and two, in source order and newline-terminated. |
| Panels.SnapshotValuesSingleLine | Client/DebugWindow.cs:119-140 | A snapshot whose texts are all one line gives every fixed panel one-line readings. |
| Panels.ConnectionLinesInOrder | Client/DebugWindow.cs:130-136 | The connection panel's seven lines, label by label. The stored-future-updates line has nothing after its count. |
| Panels.ConnectionLineEndsWithPeriod | Client/DebugWindow.cs:130-136 | Every connection line except the stored-future-updates one ends with a period. |
| Panels.StoredFutureUpdatesLineHasNoPeriod | Client/DebugWindow.cs:135 | For formatted readings, a connection line ends with a period if and only if it is not the stored-future-updates line. That line ends with the last digit of its count. |
| Panels.RequestedRateLines | Client/DebugWindow.cs:143-147 | One line for the local player first, then one `peer: rate x.` line per skew entry at position i + 1, so there are 1 + (number of peers) lines. |
| Panels.RequestedRateTextLines | Client/DebugWindow.cs:143-147 | The requested-rates text splits into exactly the local player's line and one line per peer in skew-list order. With no peers it is the local line alone. |
| Panels.RenderLines | Client/DebugWindow.cs:117-147 | When every text of the snapshot, names included, is one line, every panel text of a resample splits into that panel's lines. |
| Lines.AppendLabelledLine | Client/DebugWindow.cs:120-127 | Appending `label + value + ending` to a text that is at a line start adds exactly one line, `label + value + tail`, and leaves the text at a line start. |
| Panels.FormatRequestedRateLines | Client/DebugWindow.cs:143-146 | Starting from the raw readings: the requested-rates text of a resample splits into the local player's name with the requested rate rounded to three decimals, then one line per skew-list peer, in order, with that peer's rate rounded to three decimals. This assumes rounding never yields a newline and no name holds one. |
| Sampling.Format | Client/DebugWindow.cs:119-146 | Which reading each panel line shows, and how it becomes text. The rates, the universe time and the peer rates are rounded to three decimals. The synchronisation error is multiplied by 1000 and rounded to whole units. Latency, clock offset and server lag are divided by 10000 and rounded to three decimals. Integer statistics are written in decimal. |
| Sampling.FormatSingleLine | Client/DebugWindow.cs:119-146 | If rounding never produces a newline and no name holds one, every formatted reading fits on one line. |
| Sampling.FormatIntegersReadBack | Client/DebugWindow.cs:121-140 | The text of the current subspace (line 121) and of each integer statistic of lines 130-140 reads back as the value the collaborator reported. |
| NumberText.ParseIntToString | Client/DebugWindow.cs:121 | The decimal text of any integer, negative ones included, parses back to that integer. |
| NumberText.IntToStringShape | Client/DebugWindow.cs:135 | The decimal text of an integer is one line and ends with a digit. |

## Left out

- `InitGUI` is not modelled, nor the `initialized` flag, `windowRect`, `moveRect`, the styles and layout options, or the `WINDOW_WIDTH`/`WINDOW_HEIGHT` constants that only `InitGUI` uses. The Unity calls `GUILayout.Window`, `GUIUtility.GetControlID`, `GUI.DragWindow` and `GUILayout.BeginVertical`/`EndVertical` are left out too. They are rendering and window placement, with no state the texts or toggles depend on.
- `Math.Round` followed by the runtime's float-to-text conversion is a parameter `round` of type `(real, nat) -> string`. The same function is used throughout; its digits and tie-breaking are not modelled.
- The float32 arithmetic is modelled on reals: the elapsed-time subtraction, the `* 1000` scaling and the `/ 10000f` divisions.
- The collaborators `timeSyncer`, `networkWorker`, `vesselWorker`, `dynamicTickWorker`, `warpWorker`, `settings`, `Planetarium` and `Time.timeScale` are not part of this model. Their readings are the fields of `Readings`.
- `GetStatistics` results, `sendTickRate`, `maxSecondryVesselsPerTick` and `currentSubspace` are taken to be integers written in decimal.
- The `Dictionary` behind `clientSkewList` is a sequence in its iteration order.
- `DebugWindow.DebugWindow.Update` takes the already formatted `Snapshot`; `Sampling.Format` is the separate step that produces it. `Update` also takes `now` as a parameter instead of reading the clock.
- `GUILayout.Toggle` is modelled as "flips when clicked in this frame". Unity's event passes (layout, repaint, input) within one frame are folded into one `DrawContent` call with the frame's set of clicks.
- DebugWindow.DebugWindow.Update: collaborator reads are assumed not to throw. In the source, a throwing read (a null subspace at line 122, a null `warpWorker` at line 144) would leave `lastUpdateTime` advanced and a text half rebuilt; the model has no such path, and its invariant that the cached texts render the last sample relies on it. The source also reads `realtimeSinceStartup` twice, at line 115 for the gate and at line 117 for `lastUpdateTime`; one reading, `now`, stands for both.
- Other parts of the client write `display`. The model only reads it.
