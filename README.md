# rust_radio in Dafny

A model of the streaming core of rust_radio, an internet-radio player. The
player fetches a Shoutcast/Icecast station over HTTP and splits the ICY
metadata out of the audio. It publishes the current song title and writes the
audio to a spool file in the temporary directory. A playback worker is then
told to decode and play that spool file.

The model covers three sequential state machines.

- **The ingest loop of `src/input.rs`.**
  - It validates the `content-type` and `icy-metaint` headers.
  - It demultiplexes the ICY stream byte by byte: `N` audio bytes, one length
    byte `L`, then a metadata block of `L*16` bytes, and so on.
  - It extracts `StreamTitle='…'` from each metadata block.
  - It runs the priming countdown. The playback worker is told to `Start` on
    the twenty-first chunk.
  - It handles the error paths and reconnects.
- **The older ingest loop `start_ratio` in `src/main.rs`.**
  - Its per-chunk handling of inbound commands: duplicate-station suppression,
    station switch, and forwarding of Play, Pause and Quit.
  - Its priming countdown, which sends `Start` on the eleventh chunk of each
    station.
- **The two playback workers.**
  - `src/output.rs`: the lazy open-and-start step and the Start, Volume, Play,
    Pause and Quit commands.
  - The older worker spawned by `start_ratio` (`src/main.rs`): it opens the
    spool directly when a Start arrives.

Each mutable loop is written twice:

- A specification on values: a step function over a state datatype, and a run
  over a sequence of inputs.
- An imperative version with the source's own locals: a `class` with
  `modifies` clauses for the demultiplexer and the two workers, and methods
  with `while` loops for the two ingest loops. Each imperative member is proved
  equal to its specification.

Lemmas about the specifications state what the source promises.

The environment is replaced by inputs and outputs:

- **The network.** A finite sequence of connection attempts. Each attempt is a
  failed connect, or a response given by its two headers and its chunks.
- **The command channels.**
  - Inbound: the command polled after each chunk or in each pass.
  - Outbound: the log of delivered commands, in the `sent` field.
- **The playback worker's receiver.** A flag saying whether it listens, fixed
  for the whole ingest task.
- **The published title.** A string that starts from a given value.
- **The error sentinel string.** A parameter.
- **Foreign calls.** Opening a file, building a decoder and creating a rodio
  sink are decided by a `Backend` value (success or failure of each call).
- **The rodio sink.** An abstract record: paused flag, volume, queued spool
  names.

## Modules

| file | module | what it holds |
|---|---|---|
| common.dfy | `Common` | bytes, `Option`, chunk flattening, `Repeat` |
| utf8.dfy | `Utf8` | `std::str::from_utf8` as a decoder, with an encoder as its partner |
| station.dfy | `Station` | spool key of a station name |
| stream_title.dfy | `StreamTitle` | `str::find`, the `StreamTitle='…'` lookup, the next published title |
| icy_demux.dfy | `IcyDemux` | demultiplexer specification, ICY framing lemmas, `class Demuxer` |
| headers.dfy | `Headers` | `content-type` check, `icy-metaint` parsing |
| priming.dfy | `Priming` | the shared countdown latch |
| input.dfy | `Input` | the ingest task of `src/input.rs` |
| audio_sink.dfy | `AudioSink` | abstract rodio sink and foreign-call outcomes |
| output.dfy | `Output` | `OutputCommands` and the worker of `src/output.rs` |
| sink_worker.dfy | `SinkWorker` | `SinkCommands` and the older worker of `src/main.rs` |
| start_ratio.dfy | `StartRatio` | the older ingest loop `start_ratio` |

## Model

| member | source | states |
|---|---|---|
| Utf8.Decode | src/input.rs:70 | `from_utf8`: a decoded text has at most one character per byte, and ASCII bytes decode one for one. |
| Utf8.DecodeEncode | src/input.rs:70 | Decoding the UTF-8 encoding of any string gives the string back. |
| Utf8.EncodeDecode | src/input.rs:70 | Every block that decodes is exactly the encoding of the decoded text. |
| Utf8.DecodeIffEncode | src/input.rs:70 | A block decodes to `s` if and only if `s` encodes to that block. |
| Station.Normalize | src/input.rs:8 | The spool key has the name's length and contains no space and no ASCII capital. A capital becomes its lower case, a space becomes `_`, and every other character is kept. |
| Station.NormalizeFixesKeys | src/main.rs:199 | Normalisation leaves a string unchanged exactly when it is already a spool key. |
| Station.NormalizeIdempotent | src/main.rs:216 | Normalising an already normalised name changes nothing. |
| StreamTitle.Find | src/input.rs:73 | The result is the first occurrence of the word. None means the word occurs nowhere. |
| StreamTitle.ExtractTitle | src/input.rs:71-77 | A title is found exactly when the first `StreamTitle='` is followed by a `'`. The title is the quote-free text up to that quote. Empty text yields nothing. |
| StreamTitle.ExtractWrittenTitle | src/input.rs:72-77 | Round trip: a quote-free title written after `StreamTitle='` and closed by `'` is read back, whatever quote-free text precedes it and whatever follows. |
| StreamTitle.NextTitleOfEncodedBlock | src/input.rs:70-80 | A block holding the UTF-8 encoding of such an entry publishes `Current Song: <title>`. |
| StreamTitle.NextTitleUnchanged | src/input.rs:70-82 | A block that is not valid UTF-8, or has no closed `StreamTitle='` entry, leaves the title as it was. |
| StreamTitle.BlockTitle | src/input.rs:70-77 | A title is found only in a block that is valid UTF-8. It holds no quote, and the block is long enough to hold the key, the title and the closing quote. |
| StreamTitle.NextTitle | src/input.rs:70-80 | The published title is either kept or replaced by `Current Song: ` and a quote-free title, and it is replaced only when the block carries a title. |
| IcyDemux.BlockSize | src/input.rs:59 | The block size is `(L mod 16)*16`, because `*byte * 16` wraps in `u8`. It equals `L*16` for `L < 16`. |
| IcyDemux.Next | src/input.rs:56-95 | One byte keeps the interval and the reachable-state invariant. It either leaves the spool alone or appends exactly that byte. |
| IcyDemux.Initial | src/input.rs:46-53 | A fresh spool starts empty in a reachable state with the title unchanged. A framed response starts by counting a full interval of audio. |
| IcyDemux.Run | src/input.rs:55-96 | A run keeps the interval and the invariant. The old spool is a prefix of the new one, which grows by at most the bytes fed. |
| IcyDemux.RunChunks | src/input.rs:54-96 | Chunk by chunk, the interval and the invariant are kept, and the spool only grows, by at most the body's bytes. |
| IcyDemux.UnframedIsAudio | src/input.rs:93-95 | With interval 0 every byte is appended to the spool in order, and nothing else (title included) changes. |
| IcyDemux.RunAppend | src/input.rs:49-55 | Feeding `a` then `b` equals feeding `a + b`: the state carries over. |
| IcyDemux.RunChunksIsRun | src/input.rs:54-55 | Feeding the chunks one by one equals feeding their concatenation. |
| IcyDemux.ChunkingIrrelevant | src/input.rs:49-55 | Two chunkings of the same bytes give the same spool, title and state. |
| IcyDemux.AudioBytes | src/input.rs:86-91 | While counting, up to `counter` bytes go to the spool and `counter` drops by as many. The `N`-th audio byte arms the length byte. |
| IcyDemux.PartialBlock | src/input.rs:65-67 | Bytes of an unfinished block are only accumulated: nothing reaches the spool and the title is unchanged. |
| IcyDemux.CompleteBlock | src/input.rs:65-85 | The byte that completes a block applies the title rule to the whole block, clears the accumulator and restarts counting at `N`. |
| IcyDemux.OneFrame | src/input.rs:56-92 | One frame (`N` audio bytes, `L`, a block of `BlockSize(L)` bytes) adds its audio to the spool and updates the title from its block. An empty block is skipped. Counting restarts afterwards. |
| IcyDemux.DemuxOfMux | src/input.rs:49-96 | Demultiplexing undoes ICY framing: the spool gets exactly the audio of all frames, never a length or metadata byte. The title follows the blocks in order. |
| IcyDemux.WrappedLengthLeaksBlock | src/input.rs:57-64 | A length byte that is a non-zero multiple of 16 announces an empty block, so the following block bytes are spooled as audio. |
| IcyDemux.Demuxer.constructor | src/input.rs:49-53 | The locals start at `counter = N`, with no flags, an empty accumulator and a freshly created (empty) spool. |
| IcyDemux.Demuxer.Step | src/input.rs:56-95 | The in-place update of one byte equals `Next`. |
| IcyDemux.Demuxer.Feed | src/input.rs:55-96 | The loop over a chunk equals `Run` on that chunk. |
| Headers.ContentTypeAccepted | src/input.rs:26-40 | A response is accepted exactly when `content-type` is present and is literally `audio/mpeg`. |
| Headers.ParseUsize | src/input.rs:42 | A parsed value is below `2^64`, and the text was neither empty nor a lone `+`. |
| Headers.MetaInterval | src/input.rs:41-45 | The interval is below `2^64`. A non-zero interval comes from a header that is visible ASCII and parses to it. |
| Headers.MetaIntervalOfDecimal | src/input.rs:41-45 | A decimal `icy-metaint` below `2^64`, with or without a leading `+`, gives its value. |
| Headers.MetaIntervalDefault | src/input.rs:41-45 | A missing header, or one that is not visible ASCII or not a `usize`, gives interval 0. |
| Priming.Tick | src/input.rs:97-109 | A chunk sends Start exactly when the latch is set and the countdown is 0, which clears the latch. Otherwise the latch is kept and the countdown never grows or underflows. |
| Priming.FiresOnce | src/input.rs:97-109 | Armed at `c`, the latch sends nothing in the first `c` chunks and exactly one Start in any longer run. |
| Priming.QuietOnceFired | src/input.rs:97-98 | A cleared latch never sends again. |
| Priming.FiresOnChunk | src/main.rs:235-244 | The chunk that sends Start is chunk number `c + 1` and no other. |
| Priming.TicksAdd | src/input.rs:10-11 | Counting `a` chunks then `b` more equals counting `a + b`. The latch does not care where the connections break. |
| Input.Fail | src/input.rs:16-40 | An error path ends the ingest task with the error title and leaves the spool and the countdown alone. It pauses the worker exactly when the worker listens. |
| Input.AfterChunk | src/input.rs:55-109 | The whole chunk goes through the demultiplexer before the countdown runs. Start is delivered exactly when the latch is set, the countdown is 0 and the worker listens. If the worker does not listen, that chunk fails the connection and the latch stays set. Otherwise the countdown steps. |
| Input.Chunks | src/input.rs:54-110 | Within a connection commands are only appended. The spool only grows, by at most the body's bytes. |
| Input.Connect | src/input.rs:16-110 | A failed connect or a rejected `content-type` ends the ingest task with the error title. The spool and the countdown are untouched. An accepted response truncates the spool and refills it with at most the body. |
| Input.Attempts | src/input.rs:15-111 | Commands are only appended, and the countdown never grows. A task that stops has published the error title, and a stopped task stays as it is. |
| Input.Ingestion | src/input.rs:7-112 | A task that has ended shows the error title, and the countdown stays within 20. |
| Input.ChunksShaped | src/input.rs:97-109 | Within a connection, nothing is delivered while the latch is set, and exactly one Start once it has cleared. A failed send leaves the latch set. |
| Input.AttemptsShaped | src/input.rs:15-111 | Across reconnects and error paths the delivered commands stay in step with the latch: at most one Start, and a Pause only when the ingest task ends. |
| Input.AtMostOneStart | src/input.rs:15-111 | The whole ingest task delivers one of `[]`, `[Start(key)]`, `[Pause]`, `[Start(key), Pause]`, the last two only when it has ended. `key` is the normalised station name. |
| Input.ChunksDelivered | src/input.rs:54-110 | With a listening worker, a response's chunks go through the demultiplexer in order. The countdown runs once per chunk, and every Start it sends is delivered. |
| Input.AttemptsDelivered | src/input.rs:15-111 | Accepted responses and a listening worker: the countdown runs over the chunks of all connections together, never restarting on reconnect. |
| Input.StartOnTwentyFirstChunk | src/input.rs:97-109 | For accepted responses and a listening worker, `Start(key)` is delivered exactly when more than twenty chunks arrived, counted across reconnects, and only once. |
| Input.ChunksUndelivered | src/input.rs:99-104 | With a worker that no longer listens, the chunk that should deliver the Start ends the connection, and nothing is delivered. |
| Input.AttemptsUndelivered | src/input.rs:97-109 | With a worker that no longer listens, the ingest task runs while the countdown lasts. The chunk that should deliver the Start publishes the error title and ends the ingest task. |
| Input.RejectedFirstAttempt | src/input.rs:16-40 | A failed first connect or rejected `content-type` delivers Pause (if the worker listens) and publishes the error title. The ingest task ends before any spool file exists. |
| Input.UnframedResponse | src/input.rs:41-48 | Without a usable `icy-metaint`, the spool holds the body unchanged and the title stays as it was. |
| Input.SpoolOfLastResponse | src/input.rs:46-53 | After a reconnect the spool holds only what the latest response demultiplexed to. |
| Input.Receive | src/input.rs:16-110 | One connection attempt, run in place with a `Demuxer` and the countdown locals, equals `Connect`. |
| Input.Input | src/input.rs:7-112 | The whole ingest task over the given attempts equals `Ingestion`. |
| Output.Init | src/output.rs:15-18 | The worker starts at volume 1.0, not started, with no path and nothing removed. |
| Output.TryStart | src/output.rs:20-34 | The worker becomes started exactly when it was not, a path is set, and open, decode and sink creation all succeed. The new sink is then unpaused, at the remembered volume, playing that one spool. Otherwise nothing changes. |
| Output.Handle | src/output.rs:35-67 | Quit alone ends the loop. Before start only Start and Quit have an effect. Start stops the sink, clears `has_started`, sets the new path, and removes the old spool only if it differs. Once started, Volume always leaves both volumes at the new level, and Play and Pause unpause and pause. The sink-plays-its-spool invariant is kept. |
| Output.Iterate | src/output.rs:19-68 | A pass ends the loop exactly when its command is Quit, and it keeps the invariant. |
| Output.Run | src/output.rs:19-69 | The loop ends exactly when some polled command is Quit, and it keeps the invariant. |
| Output.QuitIgnoresRest | src/output.rs:64-66 | Nothing polled after the Quit is handled. |
| Output.StopsAtQuit | src/output.rs:35-66 | The run equals the run of the passes up to and including the first Quit. |
| Output.RetriesUntilStarted | src/output.rs:20-34 | With a path set and no commands, the worker keeps retrying. It ends up playing exactly when some pass's open, decode and sink creation all succeeded. |
| Output.QuietKeepsPlaying | src/output.rs:20-35 | Once started, passes without commands change nothing. |
| Output.StartThenOpen | src/output.rs:20-47 | After a Start and a successful open, the new sink plays the new spool, unpaused, at the volume remembered before the Start. |
| Output.EarlyVolumeForgotten | src/output.rs:48-53 | A Volume polled before playback starts is discarded. The later sink gets the old volume. |
| Output.Worker.constructor | src/output.rs:15-18 | The fields start as `Init`. |
| Output.Worker.TryStartPlayback | src/output.rs:20-34 | The in-place open step equals `TryStart`. |
| Output.Worker.HandleCommand | src/output.rs:35-67 | The in-place command handling equals `Handle`. |
| Output.Worker.Tick | src/output.rs:19-68 | One pass in place equals `Iterate`. |
| Output.Worker.Serve | src/output.rs:19-69 | The loop in place equals `Run`. |
| SinkWorker.StartPlayback | src/main.rs:153-184 | The spool is queued only when open, decode and sink creation all succeed. A new sink is unpaused at full volume and replaces the old one. The previous spool is then removed, even when it is the same file, and the path is recorded only if the open succeeded. Without a new sink the old one is kept, stopped. |
| SinkWorker.Handle | src/main.rs:151-195 | Quit alone ends the loop. A Start whose sink creation succeeds always removes the previous spool, even the same file. It records the path only after the open succeeds. It queues the spool only when open, decode and sink creation all succeed. Without a new sink the old one is kept, stopped. Play and Pause act unconditionally. |
| SinkWorker.Run | src/main.rs:150-196 | The loop ends exactly when some polled command is Quit. |
| SinkWorker.QueueFromStart | src/main.rs:153-184 | What the worker plays at the end is at most one spool. It was queued by a Start of the run whose foreign calls all succeeded. |
| SinkWorker.LegacyWorker.constructor | src/main.rs:146-147 | A fresh sink and no path. |
| SinkWorker.LegacyWorker.Tick | src/main.rs:151-195 | One pass in place, with its early `continue`s, equals `Handle`. |
| SinkWorker.LegacyWorker.Serve | src/main.rs:150-196 | The loop in place equals `Run`. |
| StartRatio.Init | src/main.rs:199-202 | The station name starts normalised to a spool key, nothing is sent, and the countdown is armed at 10. |
| StartRatio.Prime | src/main.rs:235-244 | The countdown step changes neither station nor spool, and sends at most `Start(name, url)`. |
| StartRatio.OnChunk | src/main.rs:212-244 | See the list below the table. |
| StartRatio.Connection | src/main.rs:211-245 | Commands are only appended. The connection returns exactly when it forwarded a Quit, and forwards nothing after it. |
| StartRatio.ConnectionRestart | src/main.rs:215-224 | A connection keeps every spool file. It reconnects only because a polled Start named another station, which is then current with the countdown re-armed at 10. |
| StartRatio.Created | src/main.rs:205-207 | Creating the spool truncates the current station's file and leaves every other file and the loop's locals alone. |
| StartRatio.Session | src/main.rs:204-246 | Quit is forwarded at most once, and nothing follows it. |
| StartRatio.ForwardedArmed | src/main.rs:235-244 | Armed at `c`, the countdown forwards the polled commands with one `Start` inserted right after the command of chunk `c + 1`, if that chunk exists. |
| StartRatio.ForwardedAppend | src/main.rs:204-211 | The countdown carries over from one run of chunks to the next: forwarding over `a + b` is forwarding over `a`, then over `b` from where the countdown stood. |
| StartRatio.CountedConnection | src/main.rs:211-245 | With no Start or Quit polled, the station stays and the connection goes on to its end. The countdown runs once per chunk, and the Play, Pause and priming Start commands are sent as `Forwarded` gives them. |
| StartRatio.CountedSpool | src/main.rs:211-212 | With no Start or Quit polled, every chunk is appended to the current spool, in order. |
| StartRatio.PrimedOnEleventhChunk | src/main.rs:235-244 | With the countdown freshly armed (at start-up or after a switch) and no Start or Quit polled, `Start(name, url)` is sent once, right after the eleventh chunk's command, exactly when more than ten chunks arrive. A duplicate Start skips the countdown for its chunk (see `OnChunk`). |
| StartRatio.CountedSession | src/main.rs:204-246 | Across reconnects with no Start or Quit polled, the station stays and one countdown runs over the chunks of all connections together. |
| StartRatio.PrimedAcrossReconnects | src/main.rs:204-246 | A station that keeps playing gets one `Start`, right after its eleventh chunk counted across reconnects. The countdown is not re-armed when a response ends. |
| StartRatio.SwitchReconnects | src/main.rs:204-224 | After a switch the session goes on from the switched state, with the countdown re-armed at 10 and the new station named by a polled Start. The next connection starts the new station's spool empty and leaves the previous station's spool alone. |
| StartRatio.StartPerStation | src/main.rs:199-246 | After a switch, the new station gets its own single `Start`, right after its own eleventh chunk: one Start per station. |
| StartRatio.SpoolChunk | src/main.rs:212-244 | One chunk on the loop's locals, with its `continue` and `break`s, equals `OnChunk`. |
| StartRatio.SpoolResponse | src/main.rs:211-245 | The chunk loop equals `Connection`. |
| StartRatio.StartRatio | src/main.rs:199-246 | The whole loop over the given connections equals `Session`. |

`StartRatio.OnChunk` states the following.

- The chunk is written to the current spool before the command is examined.
- A Start of the current normalised name and url changes nothing else and skips
  the countdown.
- A Start of another station switches name and url, re-arms the countdown at
  10, sends nothing, and reconnects.
- Quit is forwarded and returns.
- Play and Pause are forwarded, possibly followed by the priming Start.
- Every chunk that polls nothing, Play or Pause steps the countdown once. The
  priming Start follows that chunk's command exactly when the countdown fires.

## Left out

- The eframe GUI (`Radio::update`), station discovery and creation (`get_stations`, `create_station`, `.pls` files): user interface and file I/O outside the streaming core.
- reqwest, tokio tasks, threads, `mpsc` channels and the `lazy_static` mutexes are not modelled as such. The network is a finite sequence of attempts. The channels are the polled command per chunk or pass plus the `sent` log. The title slot is a value threaded through. Interleaving between the ingest task and the workers is not modelled.
- The endless reconnect loops (`loop` in `input` and `start_ratio`, the worker loops) are modelled over a finite input sequence. The model stops when that input runs out.
- The busy-polling of `try_recv`: each pass of a worker loop is one `Poll`. The point at which a command becomes visible is chosen by the input.
- Panics from `expect` and `unwrap` are out-of-model aborts. This covers a failed `File::create`, a failed chunk read, a failed `write` or `write_all`, a failed `send(...).unwrap()` in `start_ratio`, a `reqwest` send failure in `start_ratio`, and a missing audio device. A debug build's overflow panic at `src/input.rs:59` is one too; the model follows the release build's wrap-around.
- Partial writes of `file.write(&chunk)` in `start_ratio`: the model writes the whole chunk.
- Audio decoding and rendering (rodio `Decoder`, `Sink`, `OutputStream`): the sink is an abstract record, and each foreign call's success is a `Backend` input. Draining of the sink's queue as playback proceeds is not modelled.
- Paths: `<temp_dir>/<name>` is modelled by `<name>`, so two paths are equal exactly when their names are. Failure of `fs::remove_file` is ignored by the source and not modelled; removals are recorded as requests.
- Volume is a `real` compared with `==`: f32 rounding and NaN (where `!=` is always true) are not modelled.
- `to_lowercase` is modelled for ASCII capitals only; other Unicode case mappings, which can change the length, are not.
- `HeaderValue` bytes are modelled as a string, and `to_str` accepts visible ASCII and tab. Header bytes that are not ASCII are not distinguished further.
- The model assumes a 64-bit target: `usize` parsing rejects values from `2^64` upwards. The `u8` countdown never exceeds 20 and is modelled as a `nat`.
- The playback worker's receiver in the ingest task of `src/input.rs` is one flag, listening or not, fixed for the whole ingest task. A worker that stops listening partway is not modelled. For example, it may drop its receiver after handling Quit (`src/output.rs:64-65`), between the delivered Start and a later Pause.
- `Output.Handle`: Volume's effect is stated for a worker whose invariant holds (the one `Init` starts and every operation keeps). For any other state only the remembered volume is covered.

Behaviour of the code worth noting:

- `start_ratio` on a station switch does not send Pause and does not clear the title. It only resets the countdown and reconnects.
- The countdown of `src/input.rs` is not re-armed when a connection ends and is re-established. A reconnect never primes again.
- The older worker's Play and Pause act even when nothing plays.
- The worker of `src/output.rs` removes the old spool as soon as a Start for a different file arrives, not after the new file exists.
