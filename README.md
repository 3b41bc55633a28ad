# Live transcription bookkeeping, in Dafny

This project models two pieces of sequential bookkeeping in a live speech transcription tool and proves properties of them.

1. **HLS stream ingestion** (`modules/stream_transcription_module.py`):
   - A stream task polls an HLS media playlist, with unbounded retry.
   - It downloads each segment it has not seen yet, retrying up to three times.
   - It names segment files `{task_id}_{counter:05d}_{md5}.ts`.
   - It buffers segment files until `segments_max` of them are present, then concatenates them into a chunk `{task_id}_combined_{counter}.ts` and puts the chunk on a queue.
   - A worker takes chunks from the queue in FIFO order until it reaches a `None` sentinel. For each chunk it transcribes, translates and forwards the text, then deletes the chunk.
   - At shutdown the temporary directory is emptied before the sentinel is queued.
2. **The per-sample state machines of `main()`** (`transcribe_audio.py`):
   - choosing the microphone;
   - moving the `--ram` flag down to fit the VRAM;
   - the phrase timeout and the `last_sample` buffer;
   - the `transcription` list;
   - the auto-language-lock counter;
   - the auto-model-swap counters;
   - where an iteration stops when a call raises.

Every piece has two forms:
- a specification written as functions on values, with lemmas about it;
- an imperative form with the loops and in-place updates of the Python code, proved equal to the specification.

The imperative form is either a `class` whose fields are the variables the Python closure shares, or a method with a loop.

External code becomes parameters:
- The network is a function from (URL, request number) to a response.
- Playlist loading is a finite script of fetch outcomes.
- The MD5 digest is a function field of the task configuration.
- The Whisper model is a set of functions of the audio bytes. In `main()` each `detect_language` and `transcribe` call is a function of the loaded model's name, the phrase audio, what is asked (including the language) and the call number. A call that raises returns `None`.
- The file system is a map from path to bytes.
- Times are integer ticks, and VRAM is in whole megabytes.

Modules:
- `Common`: bytes, files, `Option`, concatenation, decimal strings, substring tests.
- `Naming`: `os.path.join`, directory membership, and the two file-name schemes.
- `Download`: the retry loop of `download_segment`.
- `Combine`: `combine_audio_segments`.
- `Worker`:
  - `process_audio`;
  - the `process_audio_thread` drain;
  - the cleanup.
- `Ingest`:
  - the producer state and its invariant;
  - the segment step;
  - the manifest pass;
  - `load_m3u8_with_retry`;
  - the `while not shutdown_flag` loop.
- `StreamTasks`: class `StreamTask`, one call of `start_stream_transcription`, with one method per nested function.
- `RamFlag`: the VRAM downgrade loop.
- `Microphone`: `get_microphone_source`.
- `SampleRules`:
  - phrase completion;
  - the transcription list;
  - the language lock;
  - the model swap, both as written and corrected.
- `Iterations`: one iteration of the `while True` loop of `main()` as a function of the loop state. It either finishes, or it raises and stops at the `except Exception` of line 571.
- `Sessions`: class `Session`, the loop state of `main()`, and one iteration of its loop proved equal to `Iterations.Iteration`.

## Model

| member | source | states |
|---|---|---|
| Download.AttemptsFrom | modules/stream_transcription_module.py:56-94 | At most `max_retries + 1` attempts. Only the output path can change. True only after a 200 whose body is the file content. The `kill` flag only after a 401, which also ends the attempts. |
| Download.DownloadContract | modules/stream_transcription_module.py:56-102 | Between 1 and `max_retries + 1` requests. True only after a 200 whose body is the whole output file. False leaves no file at `output_path`. No other file changes, and `kill` is never cleared. |
| Download.FirstDecisiveResponse | modules/stream_transcription_module.py:70-94 | The first response that is not retryable decides the outcome: a 200 succeeds, a 401 sets `kill`, anything else stops. The request count is its index plus one. |
| Download.AllRetryableExhausts | modules/stream_transcription_module.py:83-91 | Other statuses and `RequestException`s go on to the next attempt until all `max_retries + 1` are used. |
| Download.RetryBound | modules/stream_transcription_module.py:56-102 | When every response is retryable: exactly `max_retries + 1` requests, False, no output file, `kill` unchanged. |
| Download.UnauthorizedStops | modules/stream_transcription_module.py:76-102 | A 401 is caught by the generic handler. No further request is made for the segment, `kill` is set, the partial file is removed and False is returned. |
| StreamTasks.StreamTask.RequestOnce | modules/stream_transcription_module.py:57-94 | One request of the retry loop, which counts the request. It either finishes the download exactly as `AttemptsFrom` does or leaves the rest of the attempts to the next retry. |
| StreamTasks.StreamTask.RequestAttempts | modules/stream_transcription_module.py:56-94 | The `for retry_count` loop, equal to `AttemptsFrom` in the result, files, `kill` and request count. |
| StreamTasks.StreamTask.DownloadSegment | modules/stream_transcription_module.py:50-102 | The whole call, equal to `Download.DownloadSegment`. |
| Naming.ZeroPad5Value | modules/stream_transcription_module.py:125 | `{counter:05d}` has at least five digits and reads back as the counter. |
| Naming.SegmentFileNameInjective | modules/stream_transcription_module.py:123-125 | Two segment paths of a task are equal only with the same counter and the same URL hash. |
| Naming.SegmentSuffixInjective | modules/stream_transcription_module.py:125 | The name part after the task id determines the counter and the hash. |
| Naming.SegmentIsNotCombined | modules/stream_transcription_module.py:123-125 | A segment path is never a chunk path of the same task. |
| Naming.CombinedFileNameInjective | modules/stream_transcription_module.py:277-279 | Chunk paths of a task differ for different counters. |
| Naming.SegmentFileInDir | modules/stream_transcription_module.py:123-125 | A segment file of a task whose id and hash contain no '/' is listed by `os.listdir(temp_dir)`. |
| Naming.CombinedFileInDir | modules/stream_transcription_module.py:277-279 | A chunk file of a task whose id has no '/' is listed by `os.listdir(temp_dir)`. |
| Combine.CombineLoopContents | modules/stream_transcription_module.py:129-136 | The loop appends the existing inputs, in order, to the output and deletes them. Missing inputs are skipped. Other files are kept. |
| Combine.CombineContract | modules/stream_transcription_module.py:127-138 | The chunk is exactly the in-order concatenation of the inputs that exist. Consumed inputs are deleted. Other files are kept. |
| Combine.PresentAll | modules/stream_transcription_module.py:129-135 | When every input exists, all of them are in the chunk, in order. |
| Combine.TwoSegmentChunk | modules/stream_transcription_module.py:127-138 | Two segments give a chunk of the first's bytes followed by the second's, and both are deleted. |
| StreamTasks.StreamTask.CombineAudioSegments | modules/stream_transcription_module.py:127-138 | The loop with in-place file updates equals `Combine.CombineAudioSegments`. |
| Worker.OriginalStageKinds | modules/stream_transcription_module.py:183-198 | The original-text stage only prints and updates the heard header, the latter exactly when enabled and the text is not blank. |
| Worker.TranslationStageKinds | modules/stream_transcription_module.py:200-211 | A translation reaches the webhook or the header only when it is not empty and these are enabled. |
| Worker.TranscriptionStageKinds | modules/stream_transcription_module.py:213-229 | A transcription reaches the webhook only when it is not empty, and the header only when it is not blank. |
| Worker.ProcessAudioForwarding | modules/stream_transcription_module.py:176-234 | `process_audio` on an existing chunk: exactly when each output is sent, and the chunk, and only it, is deleted. |
| Worker.ProcessMissing | modules/stream_transcription_module.py:177-179 | A missing chunk is skipped with no output and no file change. |
| Worker.DrainStopsAtSentinel | modules/stream_transcription_module.py:237-242 | For any processing function, the worker consumes entries in FIFO order and stops right after the first sentinel, leaving what follows it. With no sentinel it consumes all entries and then waits. |
| Worker.DrainAppend | modules/stream_transcription_module.py:237-242 | For any processing function, draining entries that arrive later continues exactly where the earlier drain stopped. |
| Worker.Cleanup | modules/stream_transcription_module.py:296-297 | Afterwards nothing is left in the temporary directory, and every other file is kept. |
| Worker.WakeAgrees | modules/stream_transcription_module.py:237-242 | While the flag is clear, a worker woken from `get()` does what the loop does with the entry already queued. |
| Worker.WorkerAtShutdown | modules/stream_transcription_module.py:295-299 | The cleanup runs with `shutdown_flag` set. A worker at the loop test leaves without taking anything. A worker blocked in `get()` takes the sentinel, or one now-missing chunk and then leaves. Either way there is no output and no file changes. |
| StreamTasks.StreamTask.ProcessAudio | modules/stream_transcription_module.py:176-234 | Equal to `Worker.ProcessAudio` in files and emitted events. |
| StreamTasks.StreamTask.ProcessAudioThread | modules/stream_transcription_module.py:237-242 | The `while not shutdown_flag` loop equals `Worker.Drain`. |
| StreamTasks.StreamTask.ResumeThread | modules/stream_transcription_module.py:237-242 | The thread returning from a blocked `get()` equals `Worker.Wake`. |
| StreamTasks.StreamTask.ProcessThenLoop | modules/stream_transcription_module.py:238-242 | Processing the chunk just taken, then going on with the loop, adds the files and output of `Worker.ProcessAudio` followed by those of `Worker.Drain`. |
| Ingest.SegmentAttempted | modules/stream_transcription_module.py:261-274 | A seen URI is skipped with no request. An unseen URI increments the counter and makes 1 to 4 requests. A failed one is not recorded, leaves no file and stays eligible for the next poll. |
| Ingest.KilledStepChangesNothing | modules/stream_transcription_module.py:270-272 | Once `kill` is set, nothing more is recorded, buffered or queued. |
| Ingest.AttemptedInv | modules/stream_transcription_module.py:265-270 | A download attempt keeps the producer invariant. |
| Ingest.BufferInv | modules/stream_transcription_module.py:273-274 | Buffering below the threshold keeps the invariant. |
| Ingest.FlushInv | modules/stream_transcription_module.py:276-284 | A flush keeps the invariant: each queued chunk accounts for one batch of recorded URIs. |
| Ingest.SegmentStepInv | modules/stream_transcription_module.py:261-287 | Every segment step keeps the producer invariant: distinct, existing buffered files, fewer than a batch of them, and recorded URIs = batch × chunks + buffered. |
| Ingest.FlushContents | modules/stream_transcription_module.py:276-284 | The flush combines the buffer, in order, into the chunk named with the current counter. It queues that chunk, empties the buffer and deletes the segment files. |
| Ingest.ChunkAtThreshold | modules/stream_transcription_module.py:262-284 | A chunk is queued exactly when an unseen URI downloads with `kill` clear and fills the buffer to `segments_max`. The chunk is named with the post-increment counter and holds the batch's bytes. |
| Ingest.ManifestPass | modules/stream_transcription_module.py:261-287 | The `for segment` loop, with its `kill` break, keeps the invariant. |
| Ingest.RepollIsIdle | modules/stream_transcription_module.py:261-263 | A manifest whose URIs were all downloaded before causes no request and no change. |
| Ingest.KilledPassChangesNothing | modules/stream_transcription_module.py:270-272 | A killed task records and queues nothing in a whole manifest pass. |
| Ingest.LoadWithRetry | modules/stream_transcription_module.py:104-121 | Failures are retried without limit. `None` only when every remaining fetch fails up to the shutdown. Otherwise it returns the first manifest that loads, after only failures. |
| Ingest.RunFrom | modules/stream_transcription_module.py:255-287 | The `while not shutdown_flag` loop keeps the invariant. |
| Ingest.KilledRunChangesNothing | modules/stream_transcription_module.py:255-287 | Once `kill` is set, no URI is recorded and no chunk is produced for the rest of the run. |
| Ingest.InitialInv | modules/stream_transcription_module.py:251-253 | The initial empty set, zero counter and empty buffer satisfy the invariant. |
| Ingest.QueuedChunksInDir | modules/stream_transcription_module.py:277-283 | Every queued chunk is in the temporary directory, and the producer never queues a sentinel. |
| StreamTasks.StreamTask.constructor | modules/stream_transcription_module.py:251-253 | The initial state satisfies the invariant. |
| StreamTasks.StreamTask.StopTranscription | modules/stream_transcription_module.py:302-304 | Sets the shutdown flag and nothing else. |
| StreamTasks.StreamTask.LoadM3u8WithRetry | modules/stream_transcription_module.py:104-121 | The polling loop equals `LoadWithRetry`, and returns `None` exactly when the shutdown flag is set. |
| StreamTasks.StreamTask.RecordSegment | modules/stream_transcription_module.py:273-284 | Recording, buffering and flushing equal `Ingest.Accumulate`. |
| StreamTasks.StreamTask.IngestSegment | modules/stream_transcription_module.py:262-287 | The body of the segment loop equals `Ingest.SegmentStep` and keeps the invariant. |
| StreamTasks.StreamTask.IngestManifest | modules/stream_transcription_module.py:261-287 | The segment loop equals `Ingest.ManifestPass`. |
| StreamTasks.StreamTask.IngestStream | modules/stream_transcription_module.py:255-259 | The producer loop equals `Ingest.RunFrom` and ends with the shutdown flag set. |
| StreamTasks.StreamTask.CleanupTempDir | modules/stream_transcription_module.py:296-297 | Removing every listed file equals `Worker.Cleanup`. |
| StreamTasks.StreamTask.StartStreamTranscription | modules/stream_transcription_module.py:250-298 | Ingestion, then cleanup, then the sentinel appended to the queue. |
| RamFlag.DowngradeRamFlag | transcribe_audio.py:222-243 | The loop with its two `break`s equals `RamDowngrade`. |
| RamFlag.OtherFlagsUnchanged | transcribe_audio.py:226-237 | A starting flag other than "12gb" is kept with no warning, even if it does not fit. |
| RamFlag.ScanFindsFirstFit | transcribe_audio.py:226-237 | From an option, the scan stops at the first later option that fits. |
| RamFlag.DowngradeToFirstFit | transcribe_audio.py:222-243 | From "12gb", the flag ends at the largest option that fits. A change is reported with that option's requirement plus 200 MB. |
| RamFlag.ScanNothingFits | transcribe_audio.py:226-234 | When nothing fits, the scan ends at "1gb" with the last-option break. |
| RamFlag.NothingFits | transcribe_audio.py:228-241 | Below 1224 MB the flag stays "1gb", the device becomes the CPU, `found` stays false, and both warnings are printed. |
| RamFlag.DowngradeIsAnOption | transcribe_audio.py:222-241 | From "12gb" the result is always one of the options. `found` holds exactly when some option fits, and the CPU is chosen exactly when none does. |
| Microphone.FirstInput | transcribe_audio.py:97-99 | The first input device, or proof that there is none. |
| Microphone.FirstNamedInput | transcribe_audio.py:93-95 | The first input device with the given name, or proof that there is none. |
| Microphone.GetMicrophoneSource | transcribe_audio.py:74-101 | The function with its two loops equals `MicrophoneSource`. |
| Microphone.ChosenIsInput | transcribe_audio.py:74-101 | A chosen device is always an input device of the list. |
| Microphone.DigitNameSelectsIndex | transcribe_audio.py:85-91 | A name made of digits selects by index. The program exits unless that index is an input device. |
| Microphone.UnmatchedNameFallsBack | transcribe_audio.py:93-101 | An unmatched non-numeric name falls back to the first input device, labelled "system default". With no input device, `ValueError`. |
| Microphone.NamedInputChosen | transcribe_audio.py:93-95 | A matching name picks the first input device that carries it, labelled with that name. |
| SampleRules.UpdateTranscriptionShape | transcribe_audio.py:518-521 | The list is never empty, grows by at most one per sample and ends with the new row. Earlier rows are kept. |
| SampleRules.SampleKeepsTranscriptionShape | transcribe_audio.py:518-521 | An iteration that reaches line 518 keeps the list's shape: `['']` while `phrase_time` is unset, and a `''` entry, if any, only at the head. |
| SampleRules.PlaceholderSurvives | transcribe_audio.py:518-542 | After line 518 a `''` entry is left exactly when it was at the head and was not overwritten, and then rows follow it. |
| SampleRules.LockedLanguageStays | transcribe_audio.py:387-388 | Once `args.language` is set, every later sample takes it and the lock state never changes again. |
| SampleRules.ResolveRunTrail | transcribe_audio.py:401-410 | While unlocked, the last `english_counter + 1` detections equal `last_detected_language`. |
| SampleRules.LockNeedsSixInARow | transcribe_audio.py:401-410 | From the start, a language is locked only after six detections of it in a row: the first sighting and five repeats. |
| SampleRules.SameDetectionCounts | transcribe_audio.py:401-408 | Repeated equal detections count up until the lock. |
| SampleRules.SixInARowLocks | transcribe_audio.py:401-408 | From any unlocked state, six equal (non-empty) detections lock that language. |
| SampleRules.SwapStepAgrees | transcribe_audio.py:553-570 | Wherever the code as written does not raise, the corrected swap does the same. |
| SampleRules.SwapCountsRuns | transcribe_audio.py:553-558 | The counter of the latest language is the length of its current run. |
| SampleRules.SwapReloadsAtFifth | transcribe_audio.py:553-570 | A reload happens only on the fifth consecutive detection: 'base' for 'en', 'large' for anything else. |
| SampleRules.SwapReloadsWhenFifth | transcribe_audio.py:560-570 | On the fifth consecutive detection the loaded model becomes 'base' for 'en' and 'large' for anything else. |
| SampleRules.EnglishLabelLoadsLarge | transcribe_audio.py:553-570 | An English-only model labels samples "English", which is not 'en', so five samples load 'large'. |
| SampleRules.LockThenSwapRaises | transcribe_audio.py:401-558 | As written, with both features on, every sample raises `KeyError`, and neither the counters nor the model ever change. |
| SampleRules.NoDotIsMultilingual | transcribe_audio.py:381 | A model name with no '.' is not English-only. |
| SampleRules.FirstSampleRaises | transcribe_audio.py:553-558 | As written, the very first sample of such a session raises. |
| Common.Strip | transcribe_audio.py:450 | `str.strip()`: empty exactly for blank text, and otherwise starts and ends with a non-space. |
| Common.StripIsInfix | transcribe_audio.py:450 | The stripped text is a slice of the input with only whitespace around it. |
| Iterations.IterationKeepsShape | transcribe_audio.py:355-571 | Every iteration, whether it finishes or raises, keeps the shape of `transcription`. One that finishes leaves no `''` entry. |
| Iterations.AfterDetectionKeepsShape | transcribe_audio.py:387-571 | The same from the language lock on. |
| Iterations.StuckPlaceholderBlocksSwap | transcribe_audio.py:518-570 | Once a `''` entry has rows behind it, every iteration raises, at the latest in the display loops of lines 526 and 542. The entry stays and the model swap never runs again. |
| Iterations.CompletePhraseAfterAbortSticks | transcribe_audio.py:361-542 | After a first iteration that raised before line 518, the next complete phrase that reaches line 518 is appended behind `''` and raises in the display. |
| Iterations.RetryWithoutWebhookRaises | transcribe_audio.py:434-438 | With `--retry` and no `--discord_webhook`, an empty first transcription raises at line 438, where `webhook_url` was never assigned. |
| Iterations.RecogniseRaisesOnlyOnRetry | transcribe_audio.py:427-500 | If no engine call raises and the retries cannot fail on `webhook_url`, recognition produces all three texts. |
| Iterations.TranslationFollowsLanguage | transcribe_audio.py:452-478 | With `--translate`, the translation is "" for the language 'en'. Otherwise it is the stripped text of a call that translates from the sample's language. |
| Sessions.Session.constructor | transcribe_audio.py:320-339 | `phrase_time` unset, empty `last_sample`, `transcription == ['']`, counters zero and empty. |
| Sessions.Session.RecordCallback | transcribe_audio.py:65-67 | A recorded chunk is appended to the data queue. |
| Sessions.Session.TakePhrase | transcribe_audio.py:361-369 | Complete iff a previous phrase time is more than the timeout old. The buffer is reset first if so, then the whole queue is appended in order. |
| Sessions.Session.ResolveLanguage | transcribe_audio.py:381-410 | The language of the sample and the lock update, equal to `SampleRules.ResolveLanguage`. |
| Sessions.Session.TranscribeWithRetry | transcribe_audio.py:434-450 | One `transcribe` call and its retry, equal to `Iterations.WithRetry`. |
| Sessions.Session.RecogniseTexts | transcribe_audio.py:426-505 | The three texts of the phrase in the sample's language, equal to `Iterations.Recognise`. |
| Sessions.Session.UpdateTranscription | transcribe_audio.py:518-521 | Equal to `SampleRules.UpdateTranscription`. |
| Sessions.Session.AutoModelSwap | transcribe_audio.py:553-570 | The corrected swap, equal to `SampleRules.SwapStep`. |
| Sessions.Session.Respond | transcribe_audio.py:387-570 | From the lock on, equal to `Iterations.AfterDetection`, including where it raises. |
| Sessions.Session.Sample | transcribe_audio.py:355-571 | One iteration equals `Iterations.Iteration`: idle on an empty queue, or stopped where it raised, or finished. It keeps `Valid()`. |

## Left out

- Whisper, torch and CUDA are not modelled. The transcription engine is given as functions, and a call that raises is a `None` result. In the stream worker it becomes "" or "n/a", as `transcribe_audio` and `detect_language` do. In `main()` it ends the iteration at line 571.
- `Iterations.Iteration`: the WAV write to the temporary file and `whisper.load_audio` (lines 371-379) are taken to succeed. An error there would end the iteration like a failed detection.
- `Iterations.Settings`: `device == "cuda"` at lines 427, 455 and 483 is a flag of the settings; whether a `torch.device` equals that string is not modelled.
- `Common.IsSpace`: `str.strip()` and the blank tests are modelled on ASCII whitespace only. Python also strips the other Unicode whitespace characters.
- `StreamTasks.StreamTask.CombineAudioSegments`: I/O errors while combining are not modelled. The caught `except Exception` of lines 137-138 would leave that segment file in place and its bytes out of the chunk.
- `StreamTasks.StreamTask.IngestSegment`: the `except Exception` around the segment step (lines 285-287) is not modelled. No modelled step raises there: file writes cannot fail in the model.
- `Worker.WorkerConfig`: `streamLanguage` stands both for `args.stream_language` (tested at line 184) and for the `stream_language` parameter (used at line 185). The code reads them separately; the model takes them to agree.
- Mel spectrograms, `pad_or_trim`, `load_model`, the `12gb-v3` mel size and the confidence percentage are not modelled. They are numeric work of the engine or printing only.
- HTTP, cookies and the stream-key parameters are not modelled. Each request's response comes from a network function indexed by URL and request number.
- The 401 `input()` prompt is treated as returning.
- Playlist parsing is not modelled. A manifest is a sequence of (uri, absolute uri) pairs, and each `m3u8.load` is one entry of a finite script of outcomes.
- `stop_transcription` happens at a point the model chooses. When the script is used up, the shutdown flag is treated as set, which is what makes the producer loop finish.
- Concurrency is left out:
  - the download semaphore;
  - the daemon worker thread and `join`;
  - the process-wide globals.

  The worker is a sequential drain of the queue. An empty queue stands for the thread blocking in `get()`, and `Worker.Wake` for that thread returning with the next entry put.
- The `time.sleep` delays are left out. They do not change any state.
- `Microphone.GetMicrophoneSource`: the names from `list_microphone_names()` and the devices counted by `get_device_count()` are taken to be the same list.
- `Microphone.IsDigits`: `str.isdigit` is modelled on ASCII digits only.
- `RamFlag.DowngradeRamFlag`: the VRAM is an integer number of MB. For the integer bounds used, comparing the float value is the same as comparing its floor.
- The `phrase_timeout` clamp is left out. Its error message reads a variable that is assigned only later in `main()`.
- Printing, colours and the console clearing are left out. Of the display of the transcription list, only its failure to unpack a `''` entry is modelled.
- Of the outputs, only those whose conditions the code tests are recorded as events: result texts, webhook messages and header updates.
- `error_report.txt` and the transcript file written at exit (lines 574-600) are not modelled. With a `''` entry left in the list, the unpacking at line 596 raises there too.
- The KeyboardInterrupt handlers are left out.
- The `exit(0)` on an unexpected exception around the producer loop is left out. No modelled step of that loop raises outside the caught `try`.
- The MD5 digest is an uninterpreted function of the URI.
- The path lemmas assume no '/' in the task id or the digest. A hex digest never contains one.
- modules/checkenv.py is not part of this model: environment detection only.
- modules/sub_gen.py is not part of this model: a wrapper over the engine.
- The argument parsing, the model-name selection and the rest of `main()` around the listed state machines are not part of this model.

## Findings

| source | as written | input that shows it | evidently intended | confidence | as-written member | corrected member |
|---|---|---|---|---|---|---|
| transcribe_audio.py:401-558 | The lock and the swap share `last_detected_language`, and `language_counters[detected_language] += 1` assumes the key exists. The lock has already set `last_detected_language` to the sample's language, so the swap takes its increment branch on a key it never created and raises `KeyError` on every sample. | `--auto_language_lock --auto_model_swap`, a multilingual model such as "small", no `--language`, first sample detected as "en" | The swap counts consecutive detections of a language and reloads at five | not executed | SampleRules.FirstSampleRaises | SampleRules.SwapReloadsAtFifth |

The corrected swap, `SampleRules.SwapStep`, keeps its own previous language and counts a new language from zero. `Sessions.Session` uses it. `SampleRules.SwapStepAgrees` shows that it matches the code as written wherever that code does not raise.
