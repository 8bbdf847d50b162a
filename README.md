# Ingestion and alerting path of the sensor mailer

This project models in Dafny the part of `mailer.py` that turns the serial byte stream of an
Arduino sensor board into readings, alerts and rate-limited alert mail, and proves properties of it:

- **Line framing** (`Framing`): the accumulator `buf` of `reader_thread`, which receives each
  chunk from the port and is split at its first `b"\n"` while it holds one. `LineFramer` is a
  class over a `seq<byte>` field; `Frame`/`Unframe` are its specification.
- **Sentinel gate and `nan` rewrite** (`Text`, `Telemetry`): Python's `str.strip()`, the gate
  of `parse_json_line` (stripped text must be non-empty and start with `{`), the
  `replace("nan", "null")` rewrite, and the classification of a decoded line as blank,
  diagnostic (`[SERIAL RAW]`) or telemetry. `json.loads` is an opaque, possibly failing decoder.
- **Windowed buffer** (`Window`): the eight `deque(maxlen=WINDOW_SEC)` channels as a class with
  one `seq` field per channel, appended together once per reading. A ghost history of every
  entry ties them to the `Window` function, which keeps the last `N` elements.
- **Alert engine** (`Alerts`): `check_alerts` as a pure function from a decoded payload to the
  alerts in check order, and `send_mail`'s choice of subject.
- **Cooldown gate** (`Cooldown`): `last_email` and `alert_history` as a class whose `Dispatch`
  method is the dispatch condition plus the update that follows it.
- **Reader loop** (`Ingest`): one pass of `reader_thread` for one chunk, as a class owning the
  framer, the channels and the gate. Its methods (`OnChunk`, `Drain`, `HandleNext`,
  `ProcessLine`, `Accept`) are proved against the pure fold `Run` of the per-line function `Step`.

Behaviour of `mailer.py` worth noting, all of it modelled as the code has it:

- `send_mail` catches its own transport errors, so `last_email = time.time()` runs after every
  dispatch, accepted or not (mailer.py:125-140, 209-211). Only `alert_history` records
  acceptance. The model therefore advances `lastEmail` on every dispatch.
- Nothing clears `buf` when the port reconnects (mailer.py:227-234), so a partial line would
  survive a reconnect. The model keeps `buf` across calls to `OnChunk`.
- `payload.get('gas', 0) > 300` raises `TypeError` when the field is JSON `null`, and so do
  sound and water. `CheckAlerts` returns `Failure` in that case.
- The `[DATA]` formatting raises when gas, sound or water is missing or `null`, or when another
  channel is `null` (mailer.py:217-223).
- Either exception is absorbed by the catch-all handler (mailer.py:235-236). That handler ends
  the `while b"\n" in buf` loop for the current chunk; the lines left in `buf` wait for the next
  non-empty chunk. `Run` stops after an aborting line, and `OnChunk` leaves the unread lines in
  `buf`.
- The formatting failure comes after the appends and after any mail. It happens for every reading
  that lacks gas, sound or water (`Ingest.ReadingAborts`), so such a reading always ends its pass.
- Chunk boundaries therefore matter to the reader loop, though not to the framer. If no line of
  a chunk aborts, handling two chunks equals handling their lines in one pass (`Ingest.RunAppend`).
  An aborting line ends its pass, and a line after it in the same chunk waits in `buf` for the
  next non-empty chunk, whereas a chunk boundary between them gets both handled
  (`Ingest.AbortEndsPass`, `Ingest.AbortDefersRest`).
- `if not data` also rejects an empty object `{}`, which is printed as raw text.
- Required channels default to 0 both for a missing key and for `null` (`or 0`). Temperature
  and humidity are `None` in both cases and never 0.

## Model

| member | source | states |
|---|---|---|
| Text.Strip | mailer.py:155 | definition of `str.strip()`; its properties are stated by StripSpec, StripEdges, StripBlank and StripIdempotent |
| Text.IsSpace | mailer.py:155 | definition of the characters Python's `str.isspace()` accepts: the C0 separators 9-13 and 28-32, U+0085, U+00A0, U+1680, U+2000-U+200A, U+2028, U+2029, U+202F, U+205F and U+3000; `strip()` here and at line 179 removes exactly these, as TrimStart, TrimEnd, StripSpec and StripBlank state |
| Text.TrimStart | mailer.py:155 | the result is the suffix left after removing leading whitespace: all removed characters are spaces and the result does not start with one |
| Text.TrimEnd | mailer.py:155 | symmetric to TrimStart for trailing whitespace |
| Text.StripSpec | mailer.py:155 | `strip()` yields a contiguous slice of its input with only whitespace cut off on each side |
| Text.StripEdges | mailer.py:155 | a non-empty stripped text starts and ends with a non-space character |
| Text.StripBlank | mailer.py:179-181 | the stripped text is empty exactly when every character of the input is whitespace |
| Text.StripIdempotent | mailer.py:155 | stripping again the text the reader loop already stripped changes nothing |
| Text.Contains | mailer.py:93-95 | definition of Python's `t in s` on strings (some index where `t` occurs); used by GasWord, VibrationWord, SoundWord, WaterWord and SeverityAny |
| Text.ReplaceNan | mailer.py:158 | the rewrite keeps the first character, so a line starting with `{` still does |
| Text.ReplaceNanFirst | mailer.py:158 | at the first `nan`, the text before it is kept, that `nan` becomes `null`, and the rewrite continues after it |
| Text.ReplaceNanRemovesAll | mailer.py:158 | after `replace("nan", "null")` no `nan` is left in the text |
| Text.ReplaceNanIdentity | mailer.py:158 | a text without `nan` passes the rewrite unchanged |
| Telemetry.Get | mailer.py:57 | `payload.get(key)` is some value exactly when the key is present, and then it is that value |
| Telemetry.Truncate | mailer.py:194-199 | `int()` of a float truncates toward zero, for negative values too |
| Telemetry.Required | mailer.py:191-193 | `float(get(key, 0) or 0)` is the number when one is present, else 0 |
| Telemetry.Level | mailer.py:194 | definition of `int(data.get(key, 0) or 0)`, for vibration here and motion at line 199, as the truncation of Required; stated by SampleDefaults and Truncate |
| Telemetry.Optional | mailer.py:195-198 | temperature/humidity is some value exactly when the field holds a number, and then that number |
| Telemetry.ToSample | mailer.py:190-200 | definition of the values appended for one reading; stated by Required, Optional, Truncate and SampleDefaults |
| Telemetry.SampleDefaults | mailer.py:190-200 | missing gas, sound, water, vibration and motion are stored as 0; a missing or `null` temperature or humidity is stored as "no data" and a present one as its value |
| Telemetry.DecoderInput | mailer.py:155-158 | the gate rejects exactly the lines whose stripped text is empty or does not start with `{`; the decoder then gets a text starting with `{` with no `nan` in it |
| Telemetry.DecoderInputWithoutNan | mailer.py:155-158 | a gated line without `nan` reaches the decoder exactly as stripped |
| Telemetry.ParseJsonLine | mailer.py:153-162 | a rejected line gives `None`; otherwise the result is the decoder's, including its failure |
| Telemetry.Classify | mailer.py:179-186 | blank exactly when the stripped text is empty; a gated line the decoder reads as a non-empty object is exactly that reading; every other non-blank line (gate rejected, decoder failure, empty object) is diagnostic text, namely the stripped line |
| Telemetry.DataLineFails | mailer.py:217-223 | definition of when formatting the `[DATA]` line raises; used by Ingest.ReadingAborts |
| Telemetry.NonTelemetryRejected | mailer.py:155-157 | a line the gate rejects is never a reading, whatever the decoder would do |
| Alerts.Label | mailer.py:58-84 | definition of the fixed text each alert message starts with: `HIGH GAS`, `HIGH SOUND`, `HIGH WATER`, `VIBRATION DETECTED`, `HIGH TEMP`, `LOW TEMP`, `HIGH HUMIDITY`, `LOW HUMIDITY`, `MOTION DETECTED`; which words they contain is stated by GasWord, VibrationWord, SoundWord and WaterWord |
| Alerts.IsSet | mailer.py:66 | definition of `payload.get(key, 0) == 1`, for vibration here and motion at line 83: the field holds the number 1; stated by LevelAlerts |
| Alerts.Band | mailer.py:69-81 | definition of the high/low check of temperature or humidity, with its exclusive `elif` and no alert without data; stated by TempAlerts and HumidityAlerts |
| Alerts.Above | mailer.py:57-64 | a strict threshold check yields `x` exactly when the field holds the number `x` above the limit |
| Alerts.Check | mailer.py:57-84 | each of the seven checks contributes at most one alert, of its own rank |
| Alerts.CheckAlerts | mailer.py:53-86 | the check raises exactly when gas, sound or water is `null` |
| Alerts.FromOwnCheck | mailer.py:55-86 | an alert is in the list exactly when the check of its kind raised it |
| Alerts.ThresholdAlerts | mailer.py:57-64 | HIGH GAS/SOUND/WATER carrying `x` is raised exactly when the field is `x` strictly above 300/500/300, so a value equal to the limit raises nothing |
| Alerts.LevelAlerts | mailer.py:66-84 | VIBRATION and MOTION are raised exactly when their field is 1 in this sample |
| Alerts.TempAlerts | mailer.py:69-74 | HIGH TEMP carrying `x` exactly when the temperature is `x` above 35, LOW TEMP exactly when it is `x` below 10, neither without data |
| Alerts.HumidityAlerts | mailer.py:76-81 | the same for humidity with 80 and 20 |
| Alerts.AlertsInCheckOrder | mailer.py:53-86 | alerts come in the order gas, sound, water, vibration, temperature, humidity, motion, at most one per check |
| Alerts.AlertsBounded | mailer.py:53-86 | at most seven alerts, never both temperature alerts and never both humidity alerts |
| Alerts.GasScenario | mailer.py:57-58 | gas 350 raises exactly HIGH GAS carrying 350; gas 300 raises nothing |
| Alerts.LevelScenario | mailer.py:66-74 | vibration with gas 10 raises exactly VIBRATION; temperature 5 without humidity raises exactly LOW TEMP |
| Alerts.CriticalText | mailer.py:93 | definition of `"GAS" in alert or "VIBRATION" in alert`; stated by SeverityAny, GasWord and VibrationWord |
| Alerts.WarningText | mailer.py:95 | definition of `"SOUND" in alert or "WATER" in alert`; stated by SeverityAny, SoundWord and WaterWord |
| Alerts.Subject | mailer.py:94-98 | definition of the three subject lines `CRITICAL ALERT - Multiple Sensors Triggered!`, `WARNING - Sensor Thresholds Exceeded!` and `Sensor Alert`; which one a mail gets is stated by SeverityByKind and CooldownGate.Dispatch |
| Alerts.SeverityOf | mailer.py:93-98 | definition of the subject choice, alert by alert; stated by SeverityAny and SeverityByKind |
| Alerts.SeverityAny | mailer.py:93-98 | the subject is critical exactly when some alert text contains GAS or VIBRATION, a warning exactly when none does and some contains SOUND or WATER, else plain |
| Alerts.GasWord | mailer.py:58-84 | of all alert texts only HIGH GAS contains GAS |
| Alerts.VibrationWord | mailer.py:58-84 | only VIBRATION DETECTED contains VIBRATION |
| Alerts.SoundWord | mailer.py:58-84 | only HIGH SOUND contains SOUND |
| Alerts.WaterWord | mailer.py:58-84 | only HIGH WATER contains WATER |
| Alerts.SeverityByKind | mailer.py:93-98 | any gas or vibration alert makes the subject critical; otherwise any sound or water alert makes it a warning; otherwise "Sensor Alert" |
| Cooldown.Configured | mailer.py:90 | definition of `FROM_EMAIL and APP_PASS`; the gate's `configured` flag is built from it |
| Cooldown.GateOpen | mailer.py:206-208 | definition of the dispatch condition; stated by Dispatch, DispatchSpacing and CooldownCycle |
| Cooldown.SpacedExtend | mailer.py:206-211 | a dispatch tested at least the cooldown after the previous `last_email` keeps the gate's spacing invariant |
| Cooldown.SentAtSpacing | mailer.py:206-211 | if the clock does not run backwards during a dispatch, the successive values of `last_email` are at least the cooldown apart |
| Cooldown.CooldownGate.constructor | mailer.py:50-51 | `last_email` starts at 0, no mail delivered, the gate invariant holds, and the gate counts as configured exactly when both credentials are set and non-empty |
| Cooldown.CooldownGate.Dispatch | mailer.py:205-214 | mail iff alerts are present, the cooldown has elapsed and credentials are set, with the subject of the alerts; `last_email` becomes the post-send time on every dispatch, accepted or not, and is otherwise unchanged; only an accepted mail joins `alert_history` |
| Cooldown.DispatchSpacing | mailer.py:205-211 | for any sequence of readings and any clock, each dispatch is tested at least the cooldown after the `last_email` set by the previous one (the first after the starting `last_email`); every dispatch carries alerts, and without alerts nothing dispatches |
| Cooldown.CooldownCycle | mailer.py:205-211 | the first reading with alerts dispatches; one within the cooldown of a dispatch does not; one after it does; no alerts or no credentials never dispatch |
| Framing.FirstNewline | mailer.py:178 | `split(b"\n", 1)` cuts at a newline with no newline before it |
| Framing.Frame | mailer.py:177-178 | definition of repeated splitting at the first newline; stated by FrameNewlineFree, UnframeFrame, FrameUnframe, FrameAppend and ChunkingIrrelevant |
| Framing.FrameNewlineFree | mailer.py:177-178 | no extracted line and no retained fragment holds a newline |
| Framing.UnframeFrame | mailer.py:176-178 | framing loses no byte: the lines with their newlines and the fragment rebuild the buffer |
| Framing.FrameUnframe | mailer.py:176-178 | conversely, newline-free lines and fragment are exactly what framing their concatenation yields |
| Framing.FrameAppend | mailer.py:176-178 | framing an extended buffer continues with the fragment of the prefix |
| Framing.ChunkingIrrelevant | mailer.py:174-178 | feeding any chunking of a stream yields the same lines and the same final buffer as framing the whole stream |
| Framing.LineFramer.constructor | mailer.py:168 | `buf` starts empty |
| Framing.LineFramer.Append | mailer.py:176 | `buf += chunk` |
| Framing.LineFramer.HasLine | mailer.py:177 | definition of `b"\n" in buf`, the loop condition; stated by Feed and Ingestion.Drain |
| Framing.LineFramer.PopLine | mailer.py:178 | the newline-free bytes before the first newline are removed with it, and the rest frames to the remaining lines |
| Framing.LineFramer.Feed | mailer.py:174-178 | the lines taken off are those of the accumulated bytes, in order; what stays is the newline-free fragment, and lines plus fragment rebuild the bytes |
| Window.Window | mailer.py:39-47 | definition of what a `deque(maxlen=N)` holds after a sequence of appends; stated by WindowShape, WindowAppend, Evicted and NewestLast |
| Window.WindowShape | mailer.py:39-47 | a deque holds `min(count, N)` elements, the newest ones, in insertion order |
| Window.WindowAppend | mailer.py:190-200 | appending to a bounded deque one element at a time equals bounding the whole history once |
| Window.Evicted | mailer.py:39-47 | after `N + k` appends the `k` oldest samples are gone |
| Window.NewestLast | mailer.py:190-200 | the newest element of a non-empty deque is the one appended last |
| Window.Zip | mailer.py:189-200 | reading the channels index by index gives one entry per timestamp holding each channel's element |
| Window.ZipAppend | mailer.py:189-200 | appending one reading to all eight bounded channels keeps them of equal length and reads back as the bounded entry history with the new entry last |
| Window.WindowedBuffer.constructor | mailer.py:39-47 | all eight channels start empty with capacity `WINDOW_SEC` |
| Window.WindowedBuffer.Append | mailer.py:189-200 | after a reading the channels stay aligned and hold the last `N` entries of the history, the new one last |
| Window.Bounded | mailer.py:39-47 | every channel holds at most `N` samples |
| Ingest.ReadingStep | mailer.py:188-223 | definition of how one reading is handled; stated by MailOnlyWithAlerts, ReadingAborts and Ingestion.Accept |
| Ingest.Step | mailer.py:179-223 | definition of how one complete line is handled; stated by GateRejectedInert, MailOnlyWithAlerts and Ingestion.ProcessLine |
| Ingest.Run | mailer.py:177-236 | the loop over the lines from `k` handles at most the lines left; its other properties are stated by RunShape, RunAppend, AbortEndsPass and Ingestion.Drain |
| Ingest.NextLast | mailer.py:209-211 | definition of `last_email` after one line: the post-send time when the line mailed, else unchanged; stated by MailOnlyWithAlerts, RunLastAfter and Ingestion.Drain |
| Ingest.Aborts | mailer.py:235-236 | definition of a line that raises and so reaches the catch-all handler; stated by RunShape, AbortEndsPass, ReadingAborts and Ingestion.Drain |
| Ingest.RunShape | mailer.py:177-236 | the loop handles at most the complete lines it has, only its last outcome can be an exception, and it stops before the last line only after one |
| Ingest.RunStep | mailer.py:177-186 | handling one line moves it from the pending lines to the handled ones |
| Ingest.RunLastAfter | mailer.py:209-211 | the `last_email` the loop leaves, as `RunLast` computes it, is the one its outcomes imply |
| Ingest.RunShift | mailer.py:177-178 | the loop over joined line lists, from inside the second list, is the loop over the second list alone |
| Ingest.RunPrefix | mailer.py:177-186 | while no line of the first list aborts, the loop runs through it into the second list with the `last_email` it left |
| Ingest.RunAppend | mailer.py:174-186 | if no line of the first chunk's lines aborts, handling both chunks' lines in one pass is handling the first, then the second from the `last_email` the first left |
| Ingest.AbortEndsPass | mailer.py:235-236 | a line that raises ends the pass; no later line is handled in it |
| Ingest.AbortDefersRest | mailer.py:177-236 | with a first line that raises, two lines in one chunk get one handled, while the same lines split across two chunks get both handled |
| Ingest.GateRejectedInert | mailer.py:179-186 | a blank or gate-rejected line is skipped or printed raw: it appends nothing, mails nothing, leaves `last_email` and never aborts the loop |
| Ingest.MailOnlyWithAlerts | mailer.py:203-214 | a line mails only as a reading with alerts while the cooldown has elapsed and credentials are set, and then with the subject its alerts select; only a mail moves `last_email` |
| Ingest.ReadingAborts | mailer.py:203-223 | a reading ends the pass exactly when its `[DATA]` line cannot be formatted, in particular whenever gas, sound or water is missing |
| Ingest.Ingestion.constructor | mailer.py:38-50 | empty buffer and channels, `last_email` 0, no mail delivered, and mail enabled exactly when both credentials are set |
| Ingest.Ingestion.Accept | mailer.py:188-214 | a reading is appended to the channels, checked, passed through the gate; the new state is the history with its entry, the `last_email` and the delivered mails its outcome implies |
| Ingest.Ingestion.ProcessLine | mailer.py:179-223 | one line's outcome is `Step` of it; blank and raw lines leave the channels and the gate unchanged |
| Ingest.Ingestion.HandleNext | mailer.py:177-223 | taking the next line off `buf` and handling it advances the pass by exactly one outcome of `Run` |
| Ingest.Ingestion.Drain | mailer.py:177-236 | the loop's outcomes are `Run` over the buffer's lines; the unread lines and the fragment stay in `buf`; channels, `last_email` and delivered mails follow from the outcomes |
| Ingest.Ingestion.OnChunk | mailer.py:172-236 | an empty chunk changes nothing; otherwise the chunk is appended and the lines of the whole buffer are handled as `Run` prescribes |

## Left out

- Serial port opening, retry, reconnection and the sleeps (mailer.py:142-151, 225-234) are I/O. The chunks read from the port are parameters of `OnChunk`.
- SMTP, TLS, MIME construction and the mail body text (mailer.py:100-140) are foreign library calls. Only the subject, the alerts and the payload of a mail are modelled, plus whether the transport accepted it (`Env.accepted`).
- `json.loads` (mailer.py:159-162) is the parameter `json`, a function that may fail. `bytes.decode(errors="ignore")` (mailer.py:179) is the parameter `decode`.
- JSON strings, arrays and nested objects as member values are not modelled, and neither are the errors `float()` raises on them. `true`/`false` behave as 1/0 and are folded into `Num`.
- `time.time()`, `datetime.now()` and `.env` loading (mailer.py:15-24, 49) are inputs. `Env` carries the three clock readings and the transport result of one line. The cooldown, `WINDOW_SEC` and the two credentials are constructor arguments, and `configured` is `Configured(fromEmail, appPass)`. The eight threshold constants are fixed at their values at mailer.py:27-36.
- The numeric rendering of values in alert texts and in the `[DATA]` line is not modelled. An alert carries its value and a fixed label. `DataLineFails` states only when formatting the `[DATA]` line raises.
- Floating point is modelled as `real`: NaN, infinities and rounding are not represented.
- The reader thread, its concurrency with the plot, and all plotting (mailer.py:238-350) are left out.
- `print` output is not modelled beyond the outcome recorded per line.
- Ingest.Ingestion.Drain: takes one `Env` (clock readings and transport result) per complete line in the buffer; lines the pass does not reach leave theirs unused.
- Ingest.Ingestion.OnChunk: takes one `Env` per complete line, in the same way.
- An exception raised by anything other than `check_alerts` or the `[DATA]` formatting is not modelled, for example a failure inside MIME construction.
