# Live transcription overlay — a Dafny model of its core

The service captures microphone audio, cuts it into clips of 1.5 seconds,
sends every clip to a speech engine, keeps the newest three transcript lines
in a shared store and pushes that store to every connected overlay page
whenever it changes. This project models the three sequential pieces of that
pipeline and proves their properties:

- **the segmenter** (`process_audio`): queued sample blocks are appended to a
  buffer, and once the buffer holds at least `SAMPLE_RATE * 1.5` samples it is
  handed on as one clip and emptied (`Segmentation`);
- **the line store update**: the engine's text is stripped of surrounding
  whitespace, appended with its timestamp when something is left, and the list
  is cut back to its newest `MAX_LINES` entries; engine failures and blank
  texts change nothing (`Transcriber`, `Lines`);
- **the change-detecting publisher** (`event_stream`): each poll takes a
  snapshot and sends it as a list of `{text, ts}` records only when it differs
  by value from the last snapshot sent (`Publisher`).

`Pipeline` puts them together as the body of the microphone loop and as the
loop over a finite run of queued blocks.

Modules, one file each: `Wrappers` (Option), `Config` (constants and the clip
threshold), `Transcriber` (engine outcome, Python's `str.strip`), `Lines`
(the `Line` record, the window and the `LineStore` class), `Segmentation`
(step and run functions and the `Segmenter` class), `Publisher` (payload,
the `EventStream` class and its trace), `Pipeline` (the microphone loop).

Abstractions:

- Samples are opaque integers; only their order and number matter.
- The capture queue is a sequence of blocks given as input, in queue order.
- The speech engine is a function from a clip to `Transcribed(text)` or
  `EngineFailed`; `EngineFailed` stands for every exception the loop's `try`
  catches (writing the WAV file, running the model, a missing `"text"`).
- Timestamps (`time.time()`) are a parameter: `ProcessBlock` takes `ts`, and
  `ProcessAudio` takes a clock from the clip's number to the reading taken
  for it.
- The lock makes each append-and-cut and each snapshot atomic; each is one
  method here.
- Both `while True` loops are modelled over a finite run (all blocks of a
  given queue, all snapshots of a given sequence of polls).
- The threshold test compares an integer length with the floating-point
  product `16000 * 1.5`; it is written over the reals and proved equal to
  `len >= 24000`.
- The source resets the buffer after the transcription attempt (line 159),
  outside the `try`; the model's `Segmenter.Push` resets it as it emits the
  clip. The buffer is local to the loop and the clip is passed by value, so
  the order does not matter: `ProcessBlock` proves the buffer is empty after a
  clip for every engine outcome.

## Model

| member | source | states |
|---|---|---|
| `Config.ClipReachedIff` | twitch_overlay.py:134 | the test `len(buffer) >= SAMPLE_RATE * 1.5` holds exactly when the buffer has at least 24000 samples |
| `Segmentation.Feed` | twitch_overlay.py:131-134 | one block: the emitted clip followed by the new buffer is the old buffer followed by the block; a clip is emitted iff the grown buffer reaches the threshold; then the buffer is empty and the clip is at least 24000 samples and shorter than 24000 plus the block's length |
| `Segmentation.Split` | twitch_overlay.py:130-134 | over a run of blocks from an empty buffer: the clips followed by the buffer are exactly all samples read, in order (none lost or duplicated); every clip reached the threshold; the buffer never has |
| `Segmentation.ClipsBoundedByBlocks` | twitch_overlay.py:132-134 | every clip is shorter than 24000 plus the largest block length |
| `Segmentation.FixedBlockClips` | twitch_overlay.py:17 | with 2048-sample blocks every clip is exactly 12 blocks (24576 samples), there is one clip per 12 blocks, and the buffer holds the blocks since the last clip |
| `Segmentation.Segmenter.constructor` | twitch_overlay.py:128 | the loop starts with an empty buffer |
| `Segmentation.Segmenter.Push` | twitch_overlay.py:131-134 | appends the block and emits and resets exactly as `Feed`; the buffer stays under the threshold between steps |
| `Transcriber.LeadingSpaces` | twitch_overlay.py:146 | the length of the whitespace run `strip` removes at the front: all of it whitespace, the next character not |
| `Transcriber.TrailingSpaces` | twitch_overlay.py:146 | the same for the whitespace run at the end |
| `Transcriber.Strip` | twitch_overlay.py:146 | `str.strip()` with Python's whitespace set: empty iff the text is all whitespace, otherwise starting and ending with a non-whitespace character |
| `Transcriber.StripCutsSpace` | twitch_overlay.py:146 | the stripped text is the part of the input after its leading whitespace, and every character outside it is whitespace |
| `Transcriber.StripTrimmed` | twitch_overlay.py:146 | a text without surrounding whitespace is left unchanged |
| `Transcriber.StripIdempotent` | twitch_overlay.py:146 | stripping a second time changes nothing |
| `Transcriber.Detected` | twitch_overlay.py:144-148 | a line is kept iff the engine succeeded and its text has a non-whitespace character; the kept text is the stripped text and is non-empty and trimmed; an engine failure keeps nothing |
| `Lines.Window` | twitch_overlay.py:153-154 | cutting to the last `MAX_LINES` entries never leaves more than `MAX_LINES` lines |
| `Lines.WindowNewest` | twitch_overlay.py:151-154 | the window is the newest min(`MAX_LINES`, n) lines of the history, oldest first, in insertion order |
| `Lines.WindowAppend` | twitch_overlay.py:152-154 | cutting after each append gives the same list as cutting the whole history once |
| `Lines.LineStore.constructor` | twitch_overlay.py:58 | the store starts empty with an empty history |
| `Lines.LineStore.Append` | twitch_overlay.py:151-154 | appends `(text, ts)` to the history and the store; the store is the window of the history afterwards |
| `Lines.LineStore.Record` | twitch_overlay.py:146-157 | the history gains exactly the line kept for the engine outcome; a failure or a blank text leaves the store unchanged |
| `Lines.LineStore.Snapshot` | twitch_overlay.py:113-114 | the snapshot is the current list, at most `MAX_LINES` long; with no append in between two snapshots are equal |
| `Publisher.Payload` | twitch_overlay.py:116-118 | one record per line, same length and order, the i-th record carrying the i-th line's text and timestamp |
| `Publisher.PayloadInjective` | twitch_overlay.py:115-118 | equal payloads come from equal snapshots |
| `Publisher.EventStream.constructor` | twitch_overlay.py:111 | a new connection has sent nothing (`prev = None`) |
| `Publisher.EventStream.Poll` | twitch_overlay.py:113-119 | emits iff the snapshot differs by value from the last one sent, the payload of that snapshot; afterwards the snapshot is the last one sent |
| `Publisher.EventLoop` | twitch_overlay.py:110-120 | the generator over a run of polls yields exactly the trace `Stream(None, snaps)` |
| `Publisher.StreamLatest` | twitch_overlay.py:111-119 | the first poll of a new connection always emits, and the last event sent is always the payload of the latest snapshot |
| `Publisher.StreamSteady` | twitch_overlay.py:113-119 | polling an unchanged snapshot emits at most once, and never when it was already sent |
| `Publisher.StreamNoRepeat` | twitch_overlay.py:115-119 | no two consecutive events carry the same payload |
| `Pipeline.TranscriptsDetected` | twitch_overlay.py:146-152 | at most one line per clip, and every appended line's text is non-empty and trimmed |
| `Pipeline.FailedClipSkipped` | twitch_overlay.py:156-159 | a clip whose engine call fails adds no line, and the next clip is still transcribed and its line appended |
| `Pipeline.ProcessBlock` | twitch_overlay.py:131-159 | one loop pass: the segmenter steps as `Feed`; after a clip the buffer is empty whatever the engine's outcome and the store has recorded that outcome; without a clip the store is untouched |
| `Pipeline.ProcessAudio` | twitch_overlay.py:126-159 | over a queue of blocks the store's history gains exactly the transcripts of the clips of `Split(queue)`, in order, and the store holds their newest `MAX_LINES` |
| `Pipeline.FourTranscriptions` | twitch_overlay.py:151-154 | four successful transcriptions a, b, c, d, with a blank result and a failure among them, leave exactly [b, c, d] |

## Left out

- The speech engine (`whisper.load_model`, `model.transcribe`, lines 40-42 and 144): an external model, given as a function from a clip to an outcome.
- The temporary WAV file (`os.makedirs`, the `wave` writes, lines 21-25 and 138-142): file I/O; its failures are part of `EngineFailed`.
- The float32 to int16 conversion (line 135): floating-point numerics; clips stay abstract sample sequences.
- Audio capture (`sounddevice`, `audio_callback` and its status logging, `queue.Queue`, lines 47-52 and 164-174): device and thread plumbing; the queue is an input sequence of blocks.
- Threads and the lock (lines 59, 113, 151, 181-182): each locked section is one atomic method; interleavings of the loop and the viewers are not modelled.
- The Flask routes, the index page, its template and the client-side fading (`FADE_TIME`, lines 19, 57, 60-106, 108-109, 121, 176-178): web and presentation layer.
- `time.time()`, `time.sleep(0.1)` and logging (lines 120, 149-150, 157): timestamps are parameters; polling latency is not modelled.
- `json.dumps` and the `data: ...\n\n` event framing (lines 116-118): only the mapping of a snapshot to its list of records is modelled.
- The unbounded `while True` loops (lines 112, 130): modelled as finite runs over given inputs.
