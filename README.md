# Apple Music Lab step sequencer, modelled in Dafny

Apple Music Lab is a browser step sequencer. Its grid holds eight instruments:
piano, drums, bass, synth, guitar, strings, brass and percussion. Each has eight
rows, and each row has one on/off cell per step (32 steps in 8 bars to begin with).

The two core files are modelled here:

- `js/app.js`: the application object (`AppleMusicLab`). It keeps the instrument
  list, the grid, the step and bar counts and its own playing flag. It covers
  editing (toggle, clear, set bars / resize), playback control (play, stop,
  toggle, tempo), importing a sequence file, what a download hands out, and the
  conversion of a rendered buffer to a 16-bit PCM WAV file.
- `js/audio.js`: the `AudioEngine` class. It covers the lookahead scheduler
  (play, stop, one scheduler tick, scheduleNote, nextNote), the `playNote`
  dispatch with its fallbacks and filter table, `exportSequence`, and the offline
  render schedule (`generateAudioBuffer` with `playNoteOffline`).

Web Audio calls become records:

- the scheduler emits `Engine.Event`s: a `Note` per `playNote` call and a
  `StepCallback` per `onStepPlay` call;
- `playNote` returns the `Voices.Voice` it would start;
- the offline renderer returns a `Offline.Render`: the context's arguments and
  the `OfflineVoice`s scheduled into it.

Time is exact real arithmetic. The audio clock is an explicit `now` argument.

The modules follow the program:

| module | file | what it holds |
|---|---|---|
| `Instruments` | instruments.dfy | instrument ids; `Parse`/`Name` between ids and strings; the canonical key order |
| `Timbres` | timbres.dfy | the engine's instrument table |
| `Voices` | voices.dfy | `playNote` and its three renderers |
| `Grids` | grids.dfy | the grid type and the pure cell and row edits |
| `Timing` | timing.dfy | step duration, step times, the number of steps due before a horizon |
| `Engine` | engine.dfy | the `AudioEngine` class and its dispatch traces |
| `Offline` | offline.dfy | the offline render schedule |
| `SequenceFile` | seqfile.dfy | the parsed sequence file |
| `Export` | export.dfy | `exportSequence` |
| `Loader` | loader.dfy | the load step of `importSequence` |
| `RoundTrip` | roundtrip.dfy | loading an export into a blank grid gives the grid back |
| `Wav` | wav.dfy | `audioBufferToWav` |
| `App` | app.dfy | the `MusicLab` class (the application object) and import/download |

Where the code and the documented behaviour disagree, the model follows the code:

- `play` without an audio context throws. It does so after setting `isPlaying`
  and `currentStep`, so the engine is left "playing" with no tick armed.
- `nextNote` wraps at 32, and the offline render walks steps 0..31. Both hold
  whatever step count the caller passes; `totalSteps` in an export is always 32.
- The download passes the step count as the render's `duration`. So the audio
  file lasts `steps` seconds (for a non-zero step count) and not the length of the sequence.
- Offline, a pluck instrument sounds as a sine oscillator (`wave || 'sine'`),
  and noise instruments are silent.

## Model

| member | source | states |
|---|---|---|
| Instruments.Parse | js/audio.js:14-23 | a string resolves to the instrument with that id, and to nothing when it is no instrument's id |
| Instruments.ParseName | js/audio.js:14-23 | each instrument's id resolves back to that instrument |
| Instruments.NameInjective | js/app.js:12-21 | two instruments with the same id are the same instrument |
| Instruments.OrderIsEnumeration | js/app.js:11-22 | the key order lists every instrument exactly once |
| Instruments.OrderInKeyOrder | js/app.js:11-22 | the instrument list itself is in key order |
| Timbres.Lookup | js/audio.js:56-59 | the table has an entry exactly for the eight instrument ids, namely that instrument's synthesis |
| Timbres.TimbreOf | js/audio.js:14-23 | drums and percussion are noise, guitar is a pluck, every other instrument an oscillator, and only piano a sine |
| Timbres.TablesAreFull | js/audio.js:14-23 | every instrument's table holds eight positive frequencies or eight non-empty sample tags |
| Voices.FrequencyAt | js/audio.js:80 | a missing or zero frequency falls back to 440, so the result is never 0 |
| Voices.SampleAt | js/audio.js:107 | a missing or empty tag falls back to "kick", so the result is never empty |
| Voices.NoiseFilter | js/audio.js:137-154 | kick gives lowpass at 100 Hz, snare bandpass at 200 Hz with Q 0.5, hihat highpass at 8000 Hz, only snare sets Q, and any other tag gives bandpass at 1000 Hz |
| Voices.PlayTime | js/audio.js:58 | a given non-zero time is used, and a missing or zero time means now |
| Voices.OscillatorNote | js/audio.js:74-98 | an oscillator of the entry's wave at the row's frequency (440 when it is missing or 0), low-pass at 2000 + 200·row Hz with Q 1, from the start time for the duration |
| Voices.NoiseNote | js/audio.js:100-165 | a noise buffer of rate × duration frames with the row's tag ("kick" when it is missing or empty) and that tag's filter, from the start time for the duration |
| Voices.PluckNote | js/audio.js:167-202 | a pluck at the row's frequency (440 when missing or 0), delay 1/frequency, feedback 0.5, low-pass at twice the frequency; the burst stops after 0.1 s and the envelope ends after the duration |
| Voices.PlayNote | js/audio.js:55-72 | exactly one voice when there is a context and the name is an instrument, none otherwise; it starts at the given time, or now when that is missing or 0, and has the kind the instrument's synthesis calls for |
| Voices.PlayNoteFallback | js/audio.js:74-202 | a row outside the table sounds at 440 Hz (a pluck's delay is 1/440), or as "kick" with lowpass at 100 Hz |
| Voices.PlayNoteInRange | js/audio.js:74-202 | a row inside the table sounds at that row's frequency, or with that row's sample tag and its filter |
| Grids.BlankRow | js/app.js:45 | `steps` cells, all false |
| Grids.BlankRows | js/app.js:43-46 | `rows` rows of `steps` cells, all false |
| Grids.Resized | js/app.js:381-389 | the row has the new length, keeps its cells below both lengths in order, and any added cell is false |
| Grids.ResizeUpThenDown | js/app.js:377-393 | growing a row and resizing it back gives the row back |
| Grids.ResizeTwice | js/app.js:377-393 | two resizes equal one resize to the last length when the first cut nothing the second keeps |
| Grids.ResizedRows | js/app.js:380-390 | every row of an instrument is resized, and the row count is kept |
| Grids.ToggleValue | js/app.js:272 | a forced value is used as given; without one the cell flips |
| Grids.Toggled | js/app.js:272-274 | the toggled cell holds the toggle value; the keys and every other cell are unchanged |
| Grids.SetCell | js/app.js:274 | the written cell holds the value; every other cell, the keys and all lengths are unchanged |
| Grids.ToggleTwice | js/app.js:272-273 | toggling a cell twice without `force` restores the grid |
| Timing.StepDuration | js/audio.js:248-249 | one step lasts a positive time, with duration times tempo equal to 15 seconds |
| Timing.StepTimeIsLinear | js/audio.js:249 | after k advances the next note time is t0 + k times the step duration |
| Timing.StepTimeShift | js/audio.js:249 | advancing n times and then m times is advancing n + m times |
| Timing.TimesIncrease | js/audio.js:222-226 | successive note times increase strictly |
| Timing.DueCount | js/audio.js:223 | the scheduler loop runs exactly until the next note time reaches the horizon |
| Engine.RowNotes | js/audio.js:236-240 | one note for each row active at the step, in row order, and nothing else |
| Engine.KeyNotes | js/audio.js:235-241 | a note for each active cell at the step of each instrument of the keys the grid has, and nothing else |
| Engine.KeyNotesInOrder | js/audio.js:235-241 | for keys in key order the notes come instrument by instrument and row by row, so no cell is played twice |
| Engine.ScheduleNoteShape | js/audio.js:233-245 | a dispatch is its notes, with the given time and one step's duration, followed by exactly one step callback |
| Engine.ScheduleNoteSelects | js/audio.js:235-240 | a note for (instrument, row) is dispatched exactly when that cell exists and is active at the step |
| Engine.ScheduleNoteInOrder | js/audio.js:233-245 | a dispatch plays its notes in grid order, each cell at most once |
| Engine.CallbacksOfStep | js/audio.js:244 | a dispatch reports its own step exactly once |
| Engine.ModShift | js/audio.js:250 | advancing the step modulo 32 in two goes is advancing it once |
| Engine.DispatchCallbacks | js/audio.js:223-226 | n dispatches from step s0 report steps s0, s0 + 1, ... modulo 32 |
| Engine.DispatchNoteTimes | js/audio.js:223-226 | every dispatched note lasts one step and is timed at t0 plus one step per step callback before it |
| Engine.Tick | js/audio.js:222-226 | one tick reports the due steps, from the current step on, modulo 32 |
| Engine.DispatchSplit | js/audio.js:228-230 | a run split over two ticks equals one run: the second tick continues where the first stopped |
| Engine.AudioEngine.constructor | js/audio.js:3-12 | tempo 120, not playing, step 0, note time 0, no timer |
| Engine.AudioEngine.SetTempo | js/audio.js:45-47 | the tempo is the given value |
| Engine.AudioEngine.NextNote | js/audio.js:247-251 | the note time advances by one step duration, and the step becomes (step + 1) mod 32 |
| Engine.AudioEngine.Scheduler | js/audio.js:222-231 | the trace is the due dispatches from the current step and time; step and time advance that far; the next time reaches now + 0.1; the timer is re-armed at 25 ms |
| Engine.AudioEngine.Play | js/audio.js:204-212 | nothing while playing; without a context it throws after setting playing and step 0; otherwise it runs one tick from step 0 at `now` |
| Engine.AudioEngine.Stop | js/audio.js:214-220 | not playing, step 0, no timer pending, from any state |
| Engine.AudioEngine.TimerFires | js/audio.js:229 | the armed tick runs the scheduler and re-arms |
| Engine.AudioEngine.GenerateAudioBuffer | js/audio.js:288-314 | no render without a context; otherwise the render of steps 0..31 with the duration rule |
| Offline.VoiceSettings | js/audio.js:316-342 | a tonal voice starts at its time, lasts the step, has the row's frequency (440 when missing or 0) and a cutoff of 2000 + 200·row Hz, and a pluck sounds as a sine |
| Offline.RowVoices | js/audio.js:304-308 | a voice per row active at the step, for a tonal instrument only, and nothing else |
| Offline.RowVoicesInOrder | js/audio.js:304-308 | the voices come in strictly increasing row order |
| Offline.StepVoices | js/audio.js:303-309 | a voice per active cell of a tonal instrument at the step, and nothing else |
| Offline.StepVoicesInOrder | js/audio.js:303-309 | for keys in key order the voices come instrument by instrument and row by row, so no cell sounds twice |
| Offline.RenderOf | js/audio.js:288-296 | two channels, the live sample rate, gain 0.7, and the render length in seconds times the sample rate as the frame count |
| Offline.RenderSeconds | js/audio.js:289-291 | a truthy duration is used as given; otherwise 32 steps plus one second |
| Offline.ScheduleSound | js/audio.js:302-311 | every scheduled voice comes from an active tonal cell at some step k, at step k's time |
| Offline.ScheduleComplete | js/audio.js:302-311 | every active tonal cell at a rendered step gets its voice |
| Offline.NoiseIsSilent | js/audio.js:319-341 | no voice of a noise instrument is rendered |
| Offline.ScheduleWithin | js/audio.js:299-311 | every voice starts at or after 0 and stops within the rendered steps |
| Offline.RenderCoversFirstSteps | js/audio.js:302 | only steps 0..31 are rendered, whatever the grid's length, and every voice ends by 32 steps |
| Offline.DefaultLengthHoldsAllVoices | js/audio.js:290 | the default length leaves at least one second after the last voice |
| SequenceFile.Downloaded | js/app.js:459-462 | the definition of the file record: the export's tempo, totalSteps and instruments, the bar count and the enabled ids; what it means for an import is stated by App.DownloadFile and App.DownloadThenImport |
| Export.ExportFrequency | js/audio.js:270 | the row's table frequency, or 440 for a noise instrument; never 0 |
| Export.RowEntries | js/audio.js:264-274 | one note per active step, in ascending step order, and nothing else |
| Export.RowNotesNonEmpty | js/audio.js:275-280 | a row has notes exactly when it has an active cell |
| Export.RowGroups | js/audio.js:263-281 | one group per row with an active cell, in ascending row order, and nothing else |
| Export.PresentKeys | js/audio.js:261 | the instruments of the keys that the grid has, and nothing else; keys in key order give a result in key order |
| Export.ExportEntries | js/audio.js:261-282 | the definition of the entries: one per instrument, keyed by its id, holding its row groups; their properties are stated by Export.ExportKeys, Export.ExportKeysDistinct and RoundTrip.ExportMarks |
| Export.ExportSequence | js/audio.js:254-285 | the tempo as set and totalSteps 32; the entries are stated by Export.ExportKeys, Export.ExportKeysDistinct and RoundTrip.ExportMarks |
| Export.ExportKeys | js/audio.js:261-262 | every key is an instrument of the grid, and every instrument of the grid has a key |
| Export.ExportKeysDistinct | js/audio.js:261-262 | no key occurs twice |
| Export.ExportRows | js/audio.js:275-280 | a group for a row exists exactly when the row has an active cell |
| Export.ExportNotes | js/audio.js:265-273 | a note for step t exists exactly when cell t is active |
| Loader.MarkNotes | js/app.js:563-567 | the row keeps its length |
| Loader.MarkNotesCells | js/app.js:563-567 | a cell is set afterwards exactly when it was set, or its step is below the step count and a note is for it |
| Loader.LoadGroup | js/app.js:559-568 | one note group keeps the grid's shape |
| Loader.LoadGroups | js/app.js:559-568 | an entry's groups keep the grid's shape |
| Loader.LoadEntry | js/app.js:558-569 | an entry keeps the grid's shape |
| Loader.LoadEntries | js/app.js:557-570 | the whole load keeps the grid's shape |
| Loader.LoadGroupsThrow | js/app.js:560-567 | an entry's load throws exactly when a group has a negative row and a note below the step count |
| Loader.LoadGroupsCell | js/app.js:559-568 | a cell is set after a completed entry exactly when it was set, or its step is below the step count and a group for its row has a note for it |
| Loader.LoadEntriesThrow | js/app.js:557-570 | the load throws exactly when a throwing group belongs to an instrument of the grid |
| Loader.LoadEntriesCell | js/app.js:557-570 | a cell is set after a completed load exactly when it was set, or its step is below the step count and some entry keyed by its instrument marks it |
| RoundTrip.ExportNeverThrows | js/app.js:557-570 | loading an export never throws |
| RoundTrip.ExportIsMarked | js/audio.js:261-282 | an active cell is marked by its instrument's exported entry |
| RoundTrip.ExportMarkIsActive | js/audio.js:261-282 | a cell marked in the export is active in the grid |
| RoundTrip.ExportMarks | js/audio.js:261-282 | the export marks a cell exactly when the cell is active |
| RoundTrip.ExportThenLoad | js/app.js:554-570 | loading an export into a blank grid of the same shape gives the exported grid, when no row is longer than the step count |
| Wav.Ascii | js/app.js:591-595 | one byte per character, holding the code of each character below 256 |
| Wav.WavFile | js/app.js:583-622 | the file is 44 + L·C·2 bytes and starts with the header |
| Wav.U16 | js/app.js:602 | two bytes |
| Wav.U32 | js/app.js:598 | four bytes |
| Wav.U16ReadBack | js/app.js:602 | the two bytes read back little-endian as the value modulo 2^16 |
| Wav.U32ReadBack | js/app.js:598 | the four bytes read back little-endian as the value modulo 2^32 |
| Wav.Header | js/app.js:597-609 | 44 bytes |
| Wav.HeaderBytes | js/app.js:597-609 | the tags RIFF, WAVE, "fmt " and data and every field sit at their canonical offsets |
| Wav.HeaderSizes | js/app.js:598 | ChunkSize reads 36 + L·C·2 and Subchunk2Size reads L·C·2, modulo 2^32 |
| Wav.HeaderConstants | js/app.js:601-607 | fmt chunk size 16, PCM format 1 and 16 bits per sample |
| Wav.HeaderFormat | js/app.js:601-607 | C channels, rate R, byte rate R·C·2 and block align C·2, each modulo its field width |
| Wav.Clamp | js/app.js:615 | the sample is within [-1, 1], and unchanged when it was already |
| Wav.Trunc | js/app.js:616 | truncation toward zero |
| Wav.SampleWord | js/app.js:615-616 | the stored word is within ±0x7FFF |
| Wav.FrameBytes | js/app.js:614-618 | two bytes per channel |
| Wav.FramesLength | js/app.js:613-619 | k frames take two bytes per channel per frame |
| Wav.SampleAt | js/app.js:612-619 | sample i of channel c sits at data offset 2·(i·C + c) |
| Wav.FrameSampleAt | js/app.js:614-618 | within a frame, channel c sits at offset 2·c |
| Wav.FramesGrow | js/app.js:613-619 | fewer frames take no more bytes |
| Wav.AudioBufferToWav | js/app.js:583-622 | the fresh array holds exactly the header followed by the frames |
| Wav.WriteFrames | js/app.js:612-619 | the header bytes are kept and the rest holds every frame in order |
| Wav.WriteFrame | js/app.js:614-618 | the frame's samples are written after the prefix; the prefix and the bytes after the frame are kept |
| Wav.WriteBytes | js/app.js:597-609 | the header bytes are written at the start, and the bytes after them are kept |
| Wav.WriteSample | js/app.js:615-617 | the sample's two bytes are written at the offset and the rest is kept |
| App.ConfiguredIds | js/app.js:11-22 | the list's ids are the instruments in key order, eight rows each |
| App.BlankGrid | js/app.js:41-48 | every instrument has eight rows of `steps` false cells |
| App.BlankGridClear | js/app.js:41-48 | no cell of a blank grid is set |
| App.CeilQuarter | js/app.js:541 | the fewest bars of four steps that hold the step count |
| App.ImportSteps | js/app.js:533-544 | four steps per bar when bars are given, else `totalSteps` or 32 |
| App.ImportBars | js/app.js:533-544 | the file's bars, else the fewest bars that hold the step count |
| App.EnabledFrom | js/app.js:547-551 | an instrument is enabled exactly when its id is in the list; nothing else changes |
| App.EnabledIds | js/app.js:462 | the list holds exactly the ids of the enabled instruments |
| App.EnabledIdsOrdered | js/app.js:462 | from a list in key order, every id written resolves to an instrument, and the instruments come in strictly increasing key order, so each id once |
| App.EnabledIdsInOrder | js/app.js:462 | the application's instrument list gives each enabled id once, in the list's order |
| App.EnabledRoundTrip | js/app.js:547-551 | importing the written enabled list restores every flag |
| App.DownloadFile | js/app.js:456-462 | a download passes the import check and carries the tempo, totalSteps 32, the bar count, the export's entries and the enabled ids |
| App.ZeroBarsImport | js/app.js:533-541 | a download made at zero bars imports as 32 steps in 8 bars |
| App.DownloadThenImport | js/app.js:515-570 | importing a download restores tempo, steps, bars, enabled flags and grid when bars > 0 and the grid has four steps per bar |
| App.ImportedCells | js/app.js:554-570 | after an import that does not throw, a cell is set exactly when some entry marks it |
| App.MusicLab.constructor | js/app.js:3-24 | 32 steps, 8 bars, every instrument enabled, a blank grid, a fresh engine |
| App.MusicLab.InitSequence | js/app.js:41-48 | succeeds exactly when `steps` is an array length, and then the grid is blank; on failure the first instrument has no rows and nothing else changed |
| App.MusicLab.InitRows | js/app.js:42-47 | the instrument gets `rows` blank rows, or `[]` when `new Array(steps)` throws; no other instrument changes |
| App.MusicLab.ToggleCell | js/app.js:272-288 | the grid is the toggled grid; a preview is requested exactly when the cell is now active |
| App.MusicLab.Play | js/app.js:309-315 | keeps the two playing flags equal; nothing while the application's flag is set; otherwise the flag is set and the engine plays from step 0, or throws without a context |
| App.MusicLab.Stop | js/app.js:317-322 | keeps the two playing flags equal; the flag is cleared and the engine stops: step 0, no tick pending |
| App.MusicLab.TogglePlayback | js/app.js:301-307 | keeps the two playing flags equal; the flag flips; stopping is `stop()`: engine stopped at step 0, no tick pending, note time kept; playing is `play()`: a throw without a context, otherwise the first tick's trace, step and note time and an armed timer |
| App.MusicLab.PlaybackTick | js/audio.js:229 | a tick during playback plays the application's current grid, advances step and note time by the due steps and re-arms the timer |
| App.MusicLab.SetTempo | js/app.js:348-349 | the engine's tempo is the given value |
| App.MusicLab.ClearSequence | js/app.js:337-346 | as initSequence |
| App.MusicLab.SetBars | js/app.js:363-369 | bars as given, four steps per bar, and every row resized to that length |
| App.MusicLab.ResizeSequence | js/app.js:377-393 | every row of every instrument is resized to `steps`, and the keys are kept |
| App.MusicLab.ResizeRows | js/app.js:380-390 | one instrument's rows are resized, and nothing else changes |
| App.MusicLab.LoadSequence | js/app.js:557-570 | the grid is what loading the entries gives, and `threw` says whether it threw |
| App.MusicLab.LoadGroupsInto | js/app.js:559-568 | the grid is what loading the groups gives |
| App.MusicLab.LoadGroupInto | js/app.js:560-567 | the grid is what loading the group gives |
| App.MusicLab.ImportSequence | js/app.js:515-581 | an invalid file changes nothing; otherwise tempo, steps, bars and flags are set; the RangeError happens exactly for a bad step count; the grid is the load of the entries into a blank grid; the playing flag is not touched |
| App.MusicLab.SetEnabled | js/app.js:547-551 | every flag is set from the list |
| App.MusicLab.DownloadSequence | js/app.js:454-513 | the file for json and all; the render, with `steps` seconds as its duration, for wav, mp3 and all when there is a context |

## Left out

- DOM work: building the grid, highlighting, event listeners, sliders, dark mode,
  `localStorage`, alerts and the confirm dialog. `ClearSequence` is the confirmed path.
- File reading, `JSON.parse`, Blob/URL downloads and `setTimeout` revocation.
  These are I/O. The parsed file is the `SequenceFile.FileData` datatype.
- JSON values of other types than the model's. Numbers used as indices
  (`bars`, `totalSteps`, `noteIndex`, `step`) are integers, and `tempo` is a real.
  A non-array `instruments` value, a missing `notes` field, fractional or NaN
  numbers and duplicate JSON keys are not modelled.
- Keys such as `constructor` that JavaScript finds on an object's prototype. In
  the model a key is an instrument or it is nothing.
- Web Audio node creation, the gain envelopes, the pluck delay/feedback graph,
  the noise sample generation (`Math.random`) and `startRendering`. These are
  foreign calls or randomness. The model records each sound's settings and start
  and stop times, not the samples.
- `initAudio`, context resume and suspension. Whether a context exists is a
  constructor argument, and the clock is the `now` argument.
- `setVolume`. It is a float write into a foreign object.
- The play button's icon, the step highlight and the tempo display that the
  application's `play`, `stop` and `setTempo` update. They are DOM work.
- Floating-point rounding. Times, tempo and frequencies are exact reals, and
  buffer samples are reals.
- `Engine.AudioEngine.Scheduler`, `Engine.AudioEngine.Play`, `Engine.AudioEngine.TimerFires`,
  `Engine.AudioEngine.NextNote`, `Engine.AudioEngine.GenerateAudioBuffer` and
  `App.MusicLab.Play` and `App.MusicLab.PlaybackTick` require a positive tempo. With a
  negative imported tempo the source's scheduler loop never ends.
- App.MusicLab.SetBars: requires a non-negative bar count (the slider's range). With a
  negative count the source's `splice` would cut from the end.
- App.DownloadThenImport: requires a non-zero bar count. A download made at zero
  bars writes `bars: 0`, which `if (data.bars)` reads as absent; `App.ZeroBarsImport`
  shows that the import then sets 32 steps in 8 bars.
- Loader.MarkNotes: a note at or past the end of a row that is still below the step
  count, which JavaScript would accept by growing the array, is not written. Rows
  made by initSequence have exactly `steps` cells, so this does not arise on import.
- App.MusicLab.ToggleCell: requires an existing cell. The click handlers guarantee one
  only after a successful setupUI. An import that fails skips setupUI, so the old
  grid's handlers stay. After the RangeError a stale cell can name a missing row, and
  the source then throws a TypeError. After a change of step count a stale cell can
  lie past the end of a row, and JavaScript then grows the array. Neither is modelled.
- App.MusicLab.DownloadSequence: requires a non-zero tempo, and a positive one for the
  render. A zero tempo, which an import refuses, would make the export divide by zero;
  a negative imported tempo still downloads as json. It does not model a failed render's
  alert. The WAV conversion of the rendered buffer is
  `Wav.AudioBufferToWav` on a given buffer, because rendering itself is left out.
- OfflineAudioContext's own checks on its length and sample rate are not
  modelled: the render request is built for any length.
- Wav: the header is computed for any integer sample rate and channel count. A
  count above 65535, which DataView wraps, is modelled by the wrap-around and is
  not rejected.
