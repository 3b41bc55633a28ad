/** The consumer side of the stream module: `process_audio`, the
    `process_audio_thread` loop over the task's queue, and the deletion of
    the temporary directory at shutdown. */
module Worker {
  import opened Common
  import opened Naming

  /** The transcription engine, as functions of the audio bytes. `None` is a
      call that raised `RuntimeError`. */
  datatype Engine = Engine(
    detectLanguage: Bytes -> Option<string>,
    transcribe: (Bytes, Option<string>) -> Option<string>,
    translate: (Bytes, Option<string>) -> Option<string>)

  /** The settings `process_audio` reads. `streamLanguage` is both what
      `args.stream_language` tests and the `stream_language` passed on;
      `liveHeaders` is `args.portnumber` being set. */
  datatype WorkerConfig = WorkerConfig(
    streamOriginalText: bool,
    streamLanguage: Option<string>,
    doTranslate: bool,
    doTranscribe: bool,
    targetLanguage: Option<string>,
    webhookUrl: Option<string>,
    liveHeaders: bool)

  /** What reaches the outside world: the printed result texts, Discord
      webhook messages and the three live-status header updates. */
  datatype Event =
    | Console(text: string)
    | Webhook(url: string, message: string)
    | HeardHeader(text: string)
    | TranslatedHeader(text: string)
    | TranscribedHeader(text: string)

  /** A queue entry: a chunk path, or the `None` that stops the worker. */
  datatype Entry = Chunk(path: string) | Sentinel

  datatype Processed = Processed(fs: FileSystem, events: seq<Event>)

  /** Python's f-string rendering of an optional language. */
  function LanguageLabel(s: Option<string>): string
  {
    if s.Some? then s.value else "None"
  }

  /** `translate_audio` / `transcribe_audio`: a `RuntimeError` becomes "". */
  function TextOrEmpty(r: Option<string>): string
  {
    if r.Some? then r.value else ""
  }

  /** `detect_language`: a `RuntimeError` becomes "n/a". */
  function LanguageOrNa(r: Option<string>): string
  {
    if r.Some? then r.value else "n/a"
  }

  /** The language the original-text stage transcribes in. */
  function OriginalLanguage(cfg: WorkerConfig, engine: Engine, audio: Bytes): string
  {
    if Truthy(cfg.streamLanguage) then cfg.streamLanguage.value
    else LanguageOrNa(engine.detectLanguage(audio))
  }

  function OriginalText(cfg: WorkerConfig, engine: Engine, audio: Bytes): string
  {
    TextOrEmpty(engine.transcribe(audio, Some(OriginalLanguage(cfg, engine, audio))))
  }

  function TranslationText(cfg: WorkerConfig, engine: Engine, audio: Bytes): string
  {
    TextOrEmpty(engine.translate(audio, cfg.streamLanguage))
  }

  function TargetText(cfg: WorkerConfig, engine: Engine, audio: Bytes): string
  {
    TextOrEmpty(engine.transcribe(audio, cfg.targetLanguage))
  }

  /** Stage 1 (`args.stream_original_text`): print the transcription and, when
      it is not blank, update the "heard" header. */
  function OriginalStage(cfg: WorkerConfig, engine: Engine, audio: Bytes): seq<Event>
  {
    if !cfg.streamOriginalText then []
    else
      var text := OriginalText(cfg, engine, audio);
      [Console(text)] + (if cfg.liveHeaders && !IsBlank(text) then [HeardHeader(text)] else [])
  }

  /** Stage 2 (`tasktranslate_task`): a non-empty translation is printed,
      sent to the webhook and shown in the "translated" header. */
  function TranslationStage(cfg: WorkerConfig, engine: Engine, audio: Bytes): seq<Event>
  {
    if !cfg.doTranslate then []
    else
      var text := TranslationText(cfg, engine, audio);
      if text == "" then []
      else
        [Console(text)]
        + (if Truthy(cfg.webhookUrl)
           then [Webhook(cfg.webhookUrl.value, "Stream EN Translation:\n" + text + "\n")] else [])
        + (if cfg.liveHeaders then [TranslatedHeader(text)] else [])
  }

  /** Stage 3 (`tasktranscribe_task`): a non-empty transcription in the
      target language is printed, sent to the webhook and, when not blank,
      shown in the "transcribed" header. */
  function TranscriptionStage(cfg: WorkerConfig, engine: Engine, audio: Bytes): seq<Event>
  {
    if !cfg.doTranscribe then []
    else
      var text := TargetText(cfg, engine, audio);
      if text == "" then []
      else
        [Console(text)]
        + (if Truthy(cfg.webhookUrl)
           then [Webhook(cfg.webhookUrl.value,
                         "Stream " + LanguageLabel(cfg.targetLanguage) + " Transcription:\n" + text + "\n")]
           else [])
        + (if cfg.liveHeaders && !IsBlank(text) then [TranscribedHeader(text)] else [])
  }

  /** `process_audio(file_path, model)`: a missing file is skipped without
      any effect; otherwise the three stages run on its bytes and the file
      is deleted. */
  function ProcessAudio(cfg: WorkerConfig, engine: Engine, fs: FileSystem, path: string): Processed
  {
    if path !in fs then Processed(fs, [])
    else
      var audio := fs[path];
      Processed(fs - {path},
                OriginalStage(cfg, engine, audio) + TranslationStage(cfg, engine, audio)
                + TranscriptionStage(cfg, engine, audio))
  }

  datatype Kind = ConsoleKind | WebhookKind | HeardKind | TranslatedKind | TranscribedKind

  function KindOf(e: Event): Kind
  {
    match e
    case Console(_) => ConsoleKind
    case Webhook(_, _) => WebhookKind
    case HeardHeader(_) => HeardKind
    case TranslatedHeader(_) => TranslatedKind
    case TranscribedHeader(_) => TranscribedKind
  }

  /** Some event of kind `k` was emitted. */
  predicate Has(ev: seq<Event>, k: Kind)
  {
    exists i :: 0 <= i < |ev| && KindOf(ev[i]) == k
  }

  lemma HasConcat(a: seq<Event>, b: seq<Event>, k: Kind)
    ensures Has(a + b, k) <==> Has(a, k) || Has(b, k)
  {
    if Has(a, k) {
      var i :| 0 <= i < |a| && KindOf(a[i]) == k;
      assert (a + b)[i] == a[i];
    }
    if Has(b, k) {
      var i :| 0 <= i < |b| && KindOf(b[i]) == k;
      assert (a + b)[|a| + i] == b[i];
    }
    if Has(a + b, k) {
      var i :| 0 <= i < |a + b| && KindOf((a + b)[i]) == k;
      if i < |a| {
        assert a[i] == (a + b)[i];
      } else {
        assert b[i - |a|] == (a + b)[i];
      }
    }
  }

  lemma OriginalStageKinds(cfg: WorkerConfig, engine: Engine, audio: Bytes)
    ensures var o := OriginalStage(cfg, engine, audio);
      && !Has(o, WebhookKind) && !Has(o, TranslatedKind) && !Has(o, TranscribedKind)
      && (Has(o, HeardKind) <==>
            cfg.streamOriginalText && cfg.liveHeaders && !IsBlank(OriginalText(cfg, engine, audio)))
  {
    var o := OriginalStage(cfg, engine, audio);
    if cfg.streamOriginalText && cfg.liveHeaders && !IsBlank(OriginalText(cfg, engine, audio)) {
      assert KindOf(o[1]) == HeardKind;
    }
  }

  lemma TranslationStageKinds(cfg: WorkerConfig, engine: Engine, audio: Bytes)
    ensures var t := TranslationStage(cfg, engine, audio);
      var tr := TranslationText(cfg, engine, audio);
      && !Has(t, HeardKind) && !Has(t, TranscribedKind)
      && (Has(t, WebhookKind) <==> Truthy(cfg.webhookUrl) && cfg.doTranslate && tr != "")
      && (Has(t, TranslatedKind) <==> cfg.liveHeaders && cfg.doTranslate && tr != "")
  {
    var t := TranslationStage(cfg, engine, audio);
    if cfg.doTranslate && TranslationText(cfg, engine, audio) != "" {
      if Truthy(cfg.webhookUrl) {
        assert KindOf(t[1]) == WebhookKind;
      }
      if cfg.liveHeaders {
        assert KindOf(t[|t| - 1]) == TranslatedKind;
      }
    }
  }

  lemma TranscriptionStageKinds(cfg: WorkerConfig, engine: Engine, audio: Bytes)
    ensures var s := TranscriptionStage(cfg, engine, audio);
      var tx := TargetText(cfg, engine, audio);
      && !Has(s, HeardKind) && !Has(s, TranslatedKind)
      && (Has(s, WebhookKind) <==> Truthy(cfg.webhookUrl) && cfg.doTranscribe && tx != "")
      && (Has(s, TranscribedKind) <==> cfg.liveHeaders && cfg.doTranscribe && !IsBlank(tx))
  {
    var s := TranscriptionStage(cfg, engine, audio);
    var tx := TargetText(cfg, engine, audio);
    if cfg.doTranscribe && tx != "" {
      if Truthy(cfg.webhookUrl) {
        assert KindOf(s[1]) == WebhookKind;
      }
      if cfg.liveHeaders && !IsBlank(tx) {
        assert KindOf(s[|s| - 1]) == TranscribedKind;
      }
    }
    if cfg.doTranscribe && tx == "" {
      assert IsBlank(tx);
    }
  }

  /** When each stage forwards its result: the webhook only gets non-empty
      translations and transcriptions (engine errors count as empty), the
      headers only what the configuration enables; the chunk file is deleted
      and no other file changes. */
  lemma ProcessAudioForwarding(cfg: WorkerConfig, engine: Engine, fs: FileSystem, path: string)
    requires path in fs
    ensures var p := ProcessAudio(cfg, engine, fs, path);
      var audio := fs[path];
      var tr := TranslationText(cfg, engine, audio);
      var tx := TargetText(cfg, engine, audio);
      && p.fs == fs - {path}
      && (Has(p.events, WebhookKind) <==>
            Truthy(cfg.webhookUrl) && ((cfg.doTranslate && tr != "") || (cfg.doTranscribe && tx != "")))
      && (Has(p.events, TranslatedKind) <==> cfg.liveHeaders && cfg.doTranslate && tr != "")
      && (Has(p.events, TranscribedKind) <==> cfg.liveHeaders && cfg.doTranscribe && !IsBlank(tx))
      && (Has(p.events, HeardKind) <==>
            cfg.streamOriginalText && cfg.liveHeaders && !IsBlank(OriginalText(cfg, engine, audio)))
  {
    var audio := fs[path];
    var o, t, s := OriginalStage(cfg, engine, audio), TranslationStage(cfg, engine, audio),
                   TranscriptionStage(cfg, engine, audio);
    OriginalStageKinds(cfg, engine, audio);
    TranslationStageKinds(cfg, engine, audio);
    TranscriptionStageKinds(cfg, engine, audio);
    forall k: Kind
      ensures Has(o + t + s, k) <==> Has(o, k) || Has(t, k) || Has(s, k)
    {
      HasConcat(o, t, k);
      HasConcat(o + t, s, k);
    }
  }

  /** A chunk that no longer exists is skipped: no output, no file change. */
  lemma ProcessMissing(cfg: WorkerConfig, engine: Engine, fs: FileSystem, path: string)
    requires path !in fs
    ensures ProcessAudio(cfg, engine, fs, path) == Processed(fs, [])
  {
  }

  /** How `process_audio_thread` left its loop. */
  datatype Exit = SawSentinel | SawShutdown | Blocked

  datatype WorkerRun = WorkerRun(fs: FileSystem, events: seq<Event>, rest: seq<Entry>, exit: Exit)

  /** The processing of one chunk path, given the files. */
  type Processor = (FileSystem, string) -> Processed

  /** `process_audio(file_path, model_name)` with the task's settings. */
  function TaskProcessor(cfg: WorkerConfig, engine: Engine): Processor
  {
    (fs: FileSystem, path: string) => ProcessAudio(cfg, engine, fs, path)
  }

  /** `process_audio_thread`: `while not shutdown_flag`, take the oldest
      entry; stop at the sentinel, otherwise process the chunk. An empty
      queue is where the real thread blocks in `get()`. */
  function Drain(process: Processor, fs: FileSystem, queue: seq<Entry>, shutdown: bool): WorkerRun
    decreases |queue|
  {
    if shutdown then WorkerRun(fs, [], queue, SawShutdown)
    else if queue == [] then WorkerRun(fs, [], [], Blocked)
    else match queue[0]
      case Sentinel => WorkerRun(fs, [], queue[1..], SawSentinel)
      case Chunk(p) =>
        var step := process(fs, p);
        var w := Drain(process, step.fs, queue[1..], false);
        w.(events := step.events + w.events)
  }

  /** The entries before the first sentinel. */
  function BeforeSentinel(queue: seq<Entry>): (r: seq<Entry>)
  {
    if queue == [] || queue[0] == Sentinel then [] else [queue[0]] + BeforeSentinel(queue[1..])
  }

  /** The worker consumes entries strictly in FIFO order and stops right
      after the first sentinel: what it leaves is exactly what follows it,
      and it stops at a sentinel exactly when the queue holds one. */
  lemma {:induction false} DrainStopsAtSentinel(process: Processor, fs: FileSystem, queue: seq<Entry>)
    ensures var w := Drain(process, fs, queue, false);
      && (w.exit == SawSentinel <==> Sentinel in queue)
      && (w.exit == Blocked <==> Sentinel !in queue)
      && (Sentinel in queue ==> queue == BeforeSentinel(queue) + [Sentinel] + w.rest)
      && (Sentinel !in queue ==> w.rest == [] && BeforeSentinel(queue) == queue)
    decreases |queue|
  {
    if queue != [] && queue[0] != Sentinel {
      var rest := queue[1..];
      var step := process(fs, queue[0].path);
      var w := Drain(process, step.fs, rest, false);
      assert Drain(process, fs, queue, false) == w.(events := step.events + w.events);
      assert queue == [queue[0]] + rest;
      assert Sentinel in queue <==> Sentinel in rest;
      assert BeforeSentinel(queue) == [queue[0]] + BeforeSentinel(rest);
      DrainStopsAtSentinel(process, step.fs, rest);
      if Sentinel in rest {
        assert queue == [queue[0]] + (BeforeSentinel(rest) + [Sentinel] + w.rest);
      }
    }
  }

  /** FIFO composition: draining entries that arrive later continues exactly
      where the earlier drain blocked. */
  lemma {:induction false} DrainAppend(process: Processor, fs: FileSystem, q1: seq<Entry>, q2: seq<Entry>)
    requires Sentinel !in q1
    ensures var w1 := Drain(process, fs, q1, false);
      var w2 := Drain(process, w1.fs, q2, false);
      Drain(process, fs, q1 + q2, false) == w2.(events := w1.events + w2.events)
    decreases |q1|
  {
    if q1 == [] {
      assert q1 + q2 == q2;
    } else {
      assert q1[0] in q1;
      var p, rest := q1[0].path, q1[1..];
      assert q1 == [Chunk(p)] + rest;
      assert q1 + q2 == [Chunk(p)] + (rest + q2);
      DrainChunk(process, fs, p, rest);
      DrainChunk(process, fs, p, rest + q2);
      assert Sentinel !in rest;
      var step := process(fs, p);
      DrainAppend(process, step.fs, rest, q2);
      var w1 := Drain(process, step.fs, rest, false);
      var w2 := Drain(process, w1.fs, q2, false);
      assert step.events + (w1.events + w2.events) == (step.events + w1.events) + w2.events;
    }
  }

  /** One chunk at the head of the queue is processed before the rest. */
  lemma DrainChunk(process: Processor, fs: FileSystem, p: string, rest: seq<Entry>)
    ensures var step := process(fs, p);
      var w := Drain(process, step.fs, rest, false);
      Drain(process, fs, [Chunk(p)] + rest, false) == w.(events := step.events + w.events)
  {
    assert ([Chunk(p)] + rest)[1..] == rest;
  }

  /** The cleanup loop `for file in os.listdir(temp_dir): os.remove(...)`:
      nothing is left in the temporary directory and every file elsewhere is
      kept. */
  function Cleanup(fs: FileSystem, dir: string): (r: FileSystem)
    ensures forall p :: p in r ==> !InDir(p, dir)
    ensures forall p :: p in fs && !InDir(p, dir) ==> p in r && r[p] == fs[p]
  {
    map p | p in fs && !InDir(p, dir) :: fs[p]
  }

  predicate ChunksIn(queue: seq<Entry>, dir: string)
  {
    forall i :: 0 <= i < |queue| && queue[i].Chunk? ==> InDir(queue[i].path, dir)
  }

  /** A worker blocked in `audio_queue.get()` (line 239) on an empty queue
      wakes with the first entry put after it blocked, whatever the flag
      says: it stops at the sentinel, or processes the chunk and goes back
      to the test of line 238. */
  function Wake(process: Processor, fs: FileSystem, queue: seq<Entry>, shutdown: bool): WorkerRun
    requires queue != []
  {
    match queue[0]
      case Sentinel => WorkerRun(fs, [], queue[1..], SawSentinel)
      case Chunk(p) =>
        var step := process(fs, p);
        var w := Drain(process, step.fs, queue[1..], shutdown);
        w.(events := step.events + w.events)
  }

  /** While the flag is clear, waking is what the loop would have done had
      the entry been there already. */
  lemma WakeAgrees(process: Processor, fs: FileSystem, queue: seq<Entry>)
    requires queue != []
    ensures Wake(process, fs, queue, false) == Drain(process, fs, queue, false)
  {
  }

  /** The shutdown sequence (lines 295-299) runs with `shutdown_flag` set,
      after the temporary directory was emptied and before the sentinel is
      queued. A worker at the test of line 238 leaves at once, taking
      nothing; a worker blocked in `get()` takes the first entry: the
      sentinel, or a chunk that is now missing, after which it leaves. In
      both cases there is no engine output and no file is touched. */
  lemma {:induction false} WorkerAtShutdown(cfg: WorkerConfig, engine: Engine, fs: FileSystem,
                                            queue: seq<Entry>, dir: string)
    requires Sentinel !in queue && ChunksIn(queue, dir)
    requires forall p :: p in fs ==> !InDir(p, dir)
    ensures Drain(TaskProcessor(cfg, engine), fs, queue + [Sentinel], true)
            == WorkerRun(fs, [], queue + [Sentinel], SawShutdown)
    ensures Wake(TaskProcessor(cfg, engine), fs, queue + [Sentinel], true)
            == if queue == [] then WorkerRun(fs, [], [], SawSentinel)
               else WorkerRun(fs, [], queue[1..] + [Sentinel], SawShutdown)
  {
    if queue == [] {
      assert queue + [Sentinel] == [Sentinel];
    } else {
      assert queue[0] in queue;
      assert (queue + [Sentinel])[0] == queue[0];
      assert (queue + [Sentinel])[1..] == queue[1..] + [Sentinel];
      assert queue[0].path !in fs;
    }
  }
}
