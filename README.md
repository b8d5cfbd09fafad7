# Interactive echo helpers of sonance.js-examples, modelled in Dafny

`interactive-cli-echo.js` streams audio from an input device to an output
device through the sonance.js library, after asking the user for the API,
the devices, the output channel count, the sample rate and the sample
format. Its own logic is a set of small helpers around that library:

- the **loudness bar** (`getLoudnessBarString` with its inner `replaceAt`):
  80 cells, one full block `█` per 5 units of loudness from the left, light
  shade `░` after. It is modelled as a method with the source's loop
  (module `LoudnessBar`). The method is proved equal to a cell-by-cell
  definition `Bar`, and the bar's shape, cell counts, quiet and loud
  extremes and monotonicity are proved about that definition;
- the **typed-array view** `getTypedArray` lays over each audio chunk,
  chosen by RtAudio sample format, with the RangeError cases of the
  JavaScript TypedArray constructor (module `SampleFormat`);
- the **prompt choices** of `getParameters`: which devices the input and
  output prompts list, their defaults, the descending channel-count
  entries, the sample rates both devices support with the 32000/48000
  default, the restart when there is none, and the format entries. One
  whole round of the parameter collection is modelled too, given the
  answers picked (module `Parameters`);
- the **stream options**: `bufferFrames = sampleRate / (1000 / 40)`, shared by
  the input and output streams (module `EchoStreams`);
- the **status line** `printPlaybackStatus` (colour, "(Running)" or
  "(Stopped)", and the bar, drawn empty while paused), and the **key
  handler** (Ctrl+C, `p`, `r`) as the list of library calls it makes
  (module `Playback`).

Module `JsBuiltins` gives the JavaScript semantics these helpers depend on:
`filter`, `map`, `findIndex`, `indexOf`, `find`, `Array(n).keys()`,
`reverse`, `substring` with its argument clamping, `${n}` for whole numbers below 10^21
and `new XArray(buffer, offset, length)`.

Inputs the program obtains from outside are parameters of the model: the
probed device list, the user's prompt answers, the loudness value, the
paused flag of the input stream, the pressed key and the chunk's buffer
geometry.

## Model

| member | source | states |
|---|---|---|
| `JsBuiltins.Filter` | interactive-cli-echo.js:81 | `filter` keeps exactly the elements satisfying the predicate, each as often as it occurs (multiset), in the original order (subsequence) |
| `JsBuiltins.FilterKeepsAll` | interactive-cli-echo.js:81 | filtering with a predicate every element satisfies gives the array back unchanged |
| `JsBuiltins.FindIndex` | interactive-cli-echo.js:155 | `findIndex` is the first index satisfying the predicate, or -1 exactly when none does |
| `JsBuiltins.IndexOf` | interactive-cli-echo.js:137 | `indexOf(x) !== -1` holds exactly when `x` occurs; a found index holds `x` and no earlier one does |
| `JsBuiltins.Find` | interactive-cli-echo.js:103-104 | `find` gives undefined exactly when no element matches, otherwise the FIRST matching element: it sits at a position before which nothing matches |
| `JsBuiltins.Map` | interactive-cli-echo.js:113-116 | `map` keeps the length and puts `f(s[i])` at position `i` |
| `JsBuiltins.Keys` | interactive-cli-echo.js:112 | `Array.from(Array(n).keys())` is `0, 1, ..., n - 1` |
| `JsBuiltins.Reverse` | interactive-cli-echo.js:112 | `reverse` keeps the length and puts element `|s|-1-i` at position `i` |
| `JsBuiltins.StrictEquals` | interactive-cli-echo.js:85 | `===` is false between values of different types (a number and an object or undefined), and compares numbers by value |
| `JsBuiltins.Clamp` | interactive-cli-echo.js:30 | `substring` clamps an argument below 0 to 0, above the length to the length, and keeps one in range |
| `JsBuiltins.Substring` | interactive-cli-echo.js:30 | `substring` of in-range arguments is the slice; its length follows the clamped, possibly swapped arguments |
| `JsBuiltins.DecimalString` | interactive-cli-echo.js:114 | `${n}` is a non-empty string of decimal digits without a leading zero |
| `JsBuiltins.DecimalStringValue` | interactive-cli-echo.js:114 | the digits `${n}` produces denote `n` |
| `JsBuiltins.LeadingNumberOfDecimal` | interactive-cli-echo.js:153 | a label `${n}` followed by nothing or a non-digit reads back as `n` |
| `JsBuiltins.LeadingNumberOfLabel` | interactive-cli-echo.js:166 | a label starting with the digits of `n` and then a non-digit reads as `n` |
| `JsBuiltins.NewTypedArray` | interactive-cli-echo.js:48 | the TypedArray constructor succeeds exactly when the offset is aligned to the element size and the view fits in the buffer, and then has the requested offset and length |
| `LoudnessBar.ReplaceAt` | interactive-cli-echo.js:29-31 | with an in-range index, `replaceAt` keeps the length and overwrites exactly the cells under the replacement, leaving every other cell as it was |
| `LoudnessBar.ReplaceAtPastEnd` | interactive-cli-echo.js:30 | with an index at or past the end, `replaceAt` appends the replacement |
| `LoudnessBar.ReplaceAtBeforeStart` | interactive-cli-echo.js:30 | with a replacement ending at or before index 0, `replaceAt` prepends it |
| `LoudnessBar.BarWidth` | interactive-cli-echo.js:37 | `barWidth` is at most 80, is 80 exactly from loudness 400 on, and below 80 it is `w` with `5w <= loudness < 5(w+1)` |
| `LoudnessBar.FilledCells` | interactive-cli-echo.js:37-40 | the number of blocks drawn is within 0..80, is 0 exactly below loudness 5, is 80 exactly from 400 on, and otherwise equals `barWidth` |
| `LoudnessBar.Repeat` | interactive-cli-echo.js:35 | the initial string has `n` cells, every one the given character |
| `LoudnessBar.GetLoudnessBarString` | interactive-cli-echo.js:27-43 | the bar has 80 cells, the first `barWidth` full and the rest light, for every loudness |
| `LoudnessBar.BarShape` | interactive-cli-echo.js:35-40 | the bar is FilledCells full blocks followed by 80 - FilledCells light cells |
| `LoudnessBar.BarCounts` | interactive-cli-echo.js:33-40 | the bar holds exactly FilledCells full blocks, 80 - FilledCells light cells, and no other character |
| `LoudnessBar.QuietBar` | interactive-cli-echo.js:37-40 | below loudness 5 (0 and negative included) the bar is 80 light cells |
| `LoudnessBar.FullBar` | interactive-cli-echo.js:37-40 | from loudness 400 on the bar is 80 full blocks |
| `LoudnessBar.BarMonotone` | interactive-cli-echo.js:37 | a louder input never draws fewer blocks and keeps every block of the quieter bar |
| `SampleFormat.ElementSize` | interactive-cli-echo.js:46-59 | every view's element width is 1, 2, 4 or 8 bytes (which format gets which: `ElementSizes`) |
| `SampleFormat.ElementSizes` | interactive-cli-echo.js:45-59 | element widths, each an if-and-only-if: 8 bytes exactly for FLOAT64, 1 exactly for SINT8, 4 exactly for FLOAT32 and SINT32, 2 exactly for SINT16 and the fallback |
| `SampleFormat.GetTypedArray` | interactive-cli-echo.js:45-59 | the view starts at the chunk's offset, uses the format's element width, and has as many elements as fit in the whole backing store |
| `SampleFormat.GetTypedArraySucceeds` | interactive-cli-echo.js:48-58 | the as-written view exists exactly when the offset is aligned and at most the backing length modulo the width; always at offset 0 |
| `SampleFormat.PooledChunkRangeError` | interactive-cli-echo.js:52 | a 3840-byte chunk at offset 8 of an 8192-byte backing store makes the 16-bit view throw |
| `SampleFormat.SharedBackingOverreads` | interactive-cli-echo.js:52 | the same chunk at offset 0 gets a 4096-sample view, more than the 1920 samples the chunk holds |
| `SampleFormat.ChunkTypedArray` | interactive-cli-echo.js:48-58 | the intended view (`buffer.byteLength / width` elements) ends inside the chunk; `ChunkTypedArrayInBounds` gives when it exists and how much it covers |
| `SampleFormat.ChunkTypedArrayInBounds` | interactive-cli-echo.js:45-59 | the chunk-sized view exists for every aligned chunk, lies inside the chunk and leaves out less than one element |
| `SampleFormat.ViewsAgreeOnOwnedBuffer` | interactive-cli-echo.js:48-58 | for a chunk that is its whole backing store the two views coincide and exist |
| `Parameters.DevicesFor` | interactive-cli-echo.js:81 | the input (output) prompt lists exactly the devices with input (output) channels, as often as probed, in probe order |
| `Parameters.DeviceChoices` | interactive-cli-echo.js:95 | the prompt has one entry per listed device, and entry `i` carries the name and id of listed device `i` |
| `Parameters.DeviceChoicesExact` | interactive-cli-echo.js:81-84 | an entry is offered exactly when some probed device with channels in that direction has that id and name |
| `Parameters.SelectedDevice` | interactive-cli-echo.js:103-104 | the device looked up by an answer has that id and is the first probed device with it; it is missing exactly when no probed device has the id |
| `Parameters.OfferedDeviceFound` | interactive-cli-echo.js:103-104 | every id a device prompt offers finds a device again |
| `Parameters.DefaultDeviceIndex` | interactive-cli-echo.js:85 | `findIndex` over the unfiltered probe list with `defaultDevice === id`: a position it returns is one where the probed default strictly equals the device's number id |
| `Parameters.DefaultIndexNeverFound` | interactive-cli-echo.js:85 | the probed default is a device record or undefined, never strictly equal to a number, so the as-written default is -1 for every probe list |
| `Parameters.InitialSelection` | interactive-cli-echo.js:85 | a list prompt starts on the numeric default when it is a position of the list, and on the first entry otherwise |
| `Parameters.DevicePromptStartsOnFirst` | interactive-cli-echo.js:85 | the input device prompt as written (and, at 99, the output prompt) starts on its first entry whatever the probed default |
| `Parameters.DefaultMicNotHighlighted` | interactive-cli-echo.js:81-85 | with two microphones, the second the default input, the prompt as written starts on the first microphone |
| `Parameters.DefaultChoiceIndex` | interactive-cli-echo.js:85 | the intended default is an entry whose value is the default id, or -1 exactly when no entry has it |
| `Parameters.DefaultChoiceIsDefaultDevice` | interactive-cli-echo.js:99 | the intended default highlights the default device, and there is none exactly when that device is not listed |
| `Parameters.IntendedDefaultIndex` | interactive-cli-echo.js:99 | the intended default (the probed default's id looked up among the entries) is a position of the prompt, or -1 |
| `Parameters.IntendedPromptStartsOnDefault` | interactive-cli-echo.js:81-85 | with the intended default, a prompt listing the probed default device starts on that device's entry |
| `Parameters.ChannelChoices` | interactive-cli-echo.js:112-115 | a device with `k` output channels gets `k` channel entries |
| `Parameters.ChannelChoicesDescending` | interactive-cli-echo.js:112-115 | entry `i` is `k - i`: strictly descending, every value in 1..k, each labelled with exactly its own digits |
| `Parameters.ChannelChoicesComplete` | interactive-cli-echo.js:112 | every count from 1 to `k` is offered |
| `Parameters.CommonSampleRates` | interactive-cli-echo.js:136-138 | the common rates are the input device's rates that the output device lists: membership in both, duplicates kept, input order |
| `Parameters.PreferredRateIndex` | interactive-cli-echo.js:155 | the default rate entry is the first 32000 or 48000, or -1 exactly when neither occurs |
| `Parameters.RateChoices` | interactive-cli-echo.js:151-154 | one entry per rate, in order, each answering that rate and labelled with exactly its digits |
| `Parameters.SampleRatePrompt` | interactive-cli-echo.js:136-157 | no common rate (collection restarts) exactly when the devices share none; otherwise one entry per common rate, in the same order with duplicates, each labelled by its value, and the default is `PreferredRateIndex` of the common rates |
| `Parameters.RatePromptEntries` | interactive-cli-echo.js:151-155 | every offered rate is listed by both devices and labelled by its value; the default is a 32000 or 48000 entry, or -1 exactly when no entry is either |
| `Parameters.FormatLabelsMatchViews` | interactive-cli-echo.js:165-172 | every label of the format prompt `FormatChoices` starts with 8 times its view's element width, no entry hits the fallback branch, and the default entry is 16-bit |
| `Parameters.FormatsOffered` | interactive-cli-echo.js:165-171 | the format prompt offers a format exactly when it is one of the five named RtAudio formats |
| `Parameters.FormatLabelsReadAsBits` | interactive-cli-echo.js:166-170 | each format label reads as its view's bit width |
| `Parameters.ParametersRound` | interactive-cli-echo.js:103-184 | a round fails on a missing device exactly when an answered id is not probed; it throws at the input-channel prompt only for an input device with more than one output channel; collected parameters are the first probed devices with the answered ids and the answered channel count, rate and format, with one input channel |
| `Parameters.RoundOutcome` | interactive-cli-echo.js:103-184 | with offered answers a round never hits a missing device; it throws at line 128 exactly when the input device reports more than one output channel; otherwise it restarts exactly when the devices share no rate; collected parameters are exactly the answers (devices, output channel count, rate, format) plus one input channel, and the rate is shared, the channel count available and the format offered |
| `EchoStreams.BufferFrames` | interactive-cli-echo.js:262 | `bufferFrames * 1000 == sampleRate * 40` and `bufferFrames * 25 == sampleRate` |
| `EchoStreams.BufferFramesAt48k` | interactive-cli-echo.js:254-262 | at 48000 Hz `bufferFrames` is 1920 |
| `EchoStreams.BufferFramesWhole` | interactive-cli-echo.js:262 | `bufferFrames` is a whole number exactly when the rate is a multiple of 25 |
| `EchoStreams.BufferFramesFractional` | interactive-cli-echo.js:262 | at 5512 Hz `bufferFrames` is 220.48 |
| `EchoStreams.InputStreamOptions` | interactive-cli-echo.js:257-265 | the input stream gets the collected API, sample rate and format, the input device and the input channel count, and `BufferFrames` of the rate: 40 ms of audio per buffer |
| `EchoStreams.OutputStreamOptions` | interactive-cli-echo.js:267-274 | the output stream gets the collected API, sample rate and format, the output device and the output channel count, and `BufferFrames` of the rate: 40 ms of audio per buffer |
| `EchoStreams.DuplexStreamsAgree` | interactive-cli-echo.js:257-274 | both streams get the same API, sample rate, `bufferFrames` and format; they differ only in device and channel count |
| `EchoStreams.CollectedStreamsFitDevices` | interactive-cli-echo.js:257-274 | after a collected round, capture is mono, the output channel count is one the device has, and the rate is listed by both devices |
| `Playback.PrintPlaybackStatus` | interactive-cli-echo.js:203-228 | grey and "(Stopped)" exactly when paused, green and "(Running)" otherwise; the bar is 80 light cells while paused and the loudness bar otherwise |
| `Playback.KeyPress` | interactive-cli-echo.js:304-334 | no call exactly for keys other than Ctrl+C, `p` and `r`; an exit is registered exactly on Ctrl+C and a restart exactly on `r`; `p` pauses exactly when running and resumes exactly when paused |
| `Playback.PausedAfter` | interactive-cli-echo.js:318-325 | the paused flag after a list of calls; its properties are the lemmas `PausedAfterUnchanged`, `PKeyFlips` and `PKeyToggles` |
| `Playback.PausedAfterUnchanged` | interactive-cli-echo.js:306 | calls other than pause and resume leave the paused flag alone |
| `Playback.OtherKeysIgnored` | interactive-cli-echo.js:304-335 | any key other than Ctrl+C, `p` and `r` does nothing |
| `Playback.CtrlCStops` | interactive-cli-echo.js:305-316 | Ctrl+C stops the audio, then exits once the pipeline has finished, and does not touch the paused flag |
| `Playback.RKeyRestarts` | interactive-cli-echo.js:327-334 | `r` registers the restart for the pipeline's end, then stops the audio; it never exits |
| `Playback.PKeyFlips` | interactive-cli-echo.js:318-325 | `p` turns paused into running and running into paused |
| `Playback.PKeyToggles` | interactive-cli-echo.js:318-325 | `p` flips the paused flag, redraws the status only when pausing, never stops the audio, and pressing it twice restores the flag |
| `Playback.KeyEffectsByKey` | interactive-cli-echo.js:304-334 | only `p` changes the paused flag, and the audio is stopped exactly on Ctrl+C or `r` |

## Left out

- The audio path itself: buffering, pausing and tearing down the audio are handed to the sonance.js `AudioInputStream`/`AudioOutputStream` and to Node's `stream.pipeline`, which are not part of this model.
- All other example apps (`simple-cli-echo.js`, `recording-app.js`, `playback-app.js`, `server.js`, `opus-record.js`): besides display arithmetic (memory in MB, the compression percentage in `opus-record.js`), their only computation is the same `bufferFrames` expression modelled here.
- The list prompt library (inquirer): `Parameters.InitialSelection` assumes that a numeric default outside the list's positions leaves the first entry highlighted. The library's code is not part of this model. The probed default is modelled as a device record or undefined, which is how every other example app reads `probeDevices`' result (`defaultInputDevice.id`, `.name`).
- `JsBuiltins.DecimalString`: models `${n}` only for whole numbers below 10^21. JavaScript writes larger numbers in exponent form and is not exact above 2^53. Every number the core formats (channel counts, sample rates, bit widths) is far below both bounds.
- String lengths: JavaScript's `length` and `substring` count UTF-16 code units, while Dafny strings count Unicode characters. Every character the bar draws (`█`, `░`) is a single code unit, so no result of the core differs.
- The audio streams, their pause state, `pauseAudio`/`resumeAudio`/`stopAudio`, `time` and `latency`, and the Node `pipeline`/`finished` calls: they belong to the sonance.js library and Node's streams, which are not part of this model. The key handler is modelled as the calls it makes, and `Playback.PausedAfter` assumes that only `pauseAudio` and `resumeAudio` change the paused flag.
- The RMS loudness formula (interactive-cli-echo.js:279): floating point over the samples; the loudness is an input of the bar.
- `LoudnessBar.BarWidth`: loudness is a `real`, so JavaScript's NaN and Infinity are not modelled (NaN draws an empty bar, +Infinity a full one).
- `EchoStreams.BufferFrames`: computed in exact rationals, not IEEE doubles. This is exact wherever the rate is a multiple of 25, and only approximate otherwise (5512 Hz). What the library does with a fractional `bufferFrames` is not part of this model.
- The input-channel prompt (interactive-cli-echo.js:121-133) is not modelled beyond its gate. When the input device reports more than one output channel, the prompt's choices read the undeclared variable `input` (line 128) and the round ends in a ReferenceError, modelled as `Parameters.InputUndeclared`. Otherwise the prompt is skipped and the input channel count is the 1 of line 119. What prompt was intended there is not evident from the code, so no corrected version is modelled.
- The API prompt and its default (63-71), the device probe itself, the answers' prompting and the recursion that restarts collection: a round of getParameters is modelled for given answers, and a restart is a result rather than a recursive call.
- `SampleFormat.GetTypedArray`: the numeric values of the RtAudio format constants are library-defined; formats are an enumeration, so a value equal to one of the five named constants cannot reach the fallback branch.
- All terminal output (cursor movement, clearing, the clock and latency text at 209), reading the library version from `package.json`, raw-mode stdin and process exit.

## Findings

| source | as written | input that shows it | evidently intended | confidence | as-written member | corrected member |
|---|---|---|---|---|---|---|
| interactive-cli-echo.js:85 | the default of the input (and, at 99, output) device prompt compares the probed default device, a record, with each device's number id using `===`, which never holds, so the default is -1 and the prompt ignores the system default | two input devices "Mic A" and "Mic B", with "Mic B" the default input: the prompt starts on "Mic A" | the position, among the listed entries, of the entry whose id is the probed default's `.id` | medium (depends on `probeDevices` returning the default as a device record, as every other example app reads it, and on how the prompt library treats -1), not executed | `Parameters.DefaultMicNotHighlighted` | `Parameters.IntendedPromptStartsOnDefault` |
| interactive-cli-echo.js:48-58 | the typed array over a chunk starts at the chunk's offset but has `buffer.buffer.byteLength / width` elements, the size of the whole backing store | a 3840-byte chunk at offset 8 of an 8192-byte pooled backing store, 16-bit format: RangeError; at offset 0: a 4096-sample view over a 1920-sample chunk | `buffer.byteLength / width` elements, covering exactly the chunk | medium (depends on how the library allocates chunks), not executed | `SampleFormat.PooledChunkRangeError` | `SampleFormat.ChunkTypedArrayInBounds` |
