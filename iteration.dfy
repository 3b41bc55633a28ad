/** One iteration of the `while True` loop of `main()` (lines 355-571), as a
    function of the loop state. The recognition model is a parameter: each
    `detect_language` and `transcribe` call is a function of the loaded
    model's name, the phrase audio and what is asked, and `None` is a call
    that raised. Any exception ends the iteration at the `except Exception`
    of line 571 with whatever the iteration had changed so far. */
module Iterations {
  import opened Common
  import opened SampleRules

  /** What a `transcribe` call asks for: the plain transcription of lines
      427-430 (given the language only on a "cuda" device), the English
      translation from the sample's language (455-458) or the transcription
      into the target language (483-486). */
  datatype Task =
    | Speech(language: Option<string>)
    | TranslateFrom(source: string)
    | TranscribeTo(target: string)

  /** `result['text']` of call number `attempt` (0, or 1 for the retry) of
      `task` on the model of that name and the phrase audio. */
  type Engine = (string, Bytes, Task, nat) -> Option<string>

  /** The most probable language of `detect_language`. */
  type Detector = (string, Bytes) -> Option<string>

  /** The flags of `main()` the iteration reads. `webhook` is
      `args.discord_webhook` being set, the only case in which line 323
      assigns `webhook_url`; `cuda` is the test `device == "cuda"`. */
  datatype Settings = Settings(
    phraseTimeout: int,
    autoLanguageLock: bool,
    autoModelSwap: bool,
    translate: bool,
    transcribe: bool,
    retry: bool,
    webhook: bool,
    cuda: bool,
    targetLanguage: string,
    detect: Detector,
    engine: Engine)

  /** `text`, `translated_text` and `transcribed_text`, stripped. */
  datatype Texts = Texts(text: string, translated: string, transcribed: string)

  /** One `transcribe` call and, when its text is empty and `--retry` is
      set, the second call of lines 434-450, 461-470 or 491-500. The first
      of these tests the unstripped text (`raw`), the others the stripped
      one. Before the second call the code sends a webhook message to
      `webhook_url`, which raises when it was never assigned. */
  function WithRetry(s: Settings, model: string, audio: Bytes, task: Task, raw: bool): Option<string>
  {
    var first := s.engine(model, audio, task, 0);
    if first.None? then None
    else if (if raw then first.value else Strip(first.value)) != "" || !s.retry then Some(Strip(first.value))
    else if !s.webhook then None
    else
      var second := s.engine(model, audio, task, 1);
      if second.None? then None else Some(Strip(second.value))
  }

  /** Lines 427-500 for a sample in language `lang`: the three texts, or
      `None` when the iteration raises there. The translation is "" for
      'en' and is asked from `lang` otherwise. */
  function Recognise(s: Settings, model: string, audio: Bytes, lang: string): Option<Texts>
  {
    var text := WithRetry(s, model, audio, Speech(if s.cuda then Some(lang) else None), true);
    var translated := if !s.translate || lang == "en" then Some("")
                      else WithRetry(s, model, audio, TranslateFrom(lang), false);
    var transcribed := if s.transcribe then WithRetry(s, model, audio, TranscribeTo(s.targetLanguage), false)
                       else Some("");
    if text.None? || translated.None? || transcribed.None? then None
    else Some(Texts(text.value, translated.value, transcribed.value))
  }

  /** The tuple of lines 519 and 521. */
  function RowOf(s: Settings, texts: Texts, lang: string): Row
  {
    Row(texts.text, if s.translate then Some(texts.translated) else None,
        if s.transcribe then Some(texts.transcribed) else None, lang)
  }

  /** The variables `main()` keeps across iterations. The loaded model is
      `swap.model`. */
  datatype LoopState = LoopState(
    phraseTime: Option<int>,
    lastSample: Bytes,
    queue: seq<Bytes>,
    transcription: seq<Row>,
    lock: LockState,
    swap: SwapState)

  /** Where an iteration that raised stopped: at language detection (lines
      371-385), in recognition (427-516) or in the display loops (524-550),
      which cannot unpack a `''` entry. */
  datatype Stage = AtDetection | AtRecognition | AtDisplay

  datatype Outcome = Idle | Raised(stage: Stage) | Done

  /** Lines 381-385: an English-only model is not asked. */
  function Detect(s: Settings, model: string, audio: Bytes): Option<string>
  {
    if EnglishOnly(model) then Some("English") else s.detect(model, audio)
  }

  /** Lines 387-570, once the phrase `st.lastSample` is taken (and
      complete or not) and its language detected. */
  function AfterDetection(s: Settings, st: LoopState, complete: bool, detection: string): (LoopState, Outcome)
    requires |st.transcription| > 0
  {
    var resolved := ResolveLanguage(st.lock, EnglishOnly(st.swap.model), s.autoLanguageLock, detection);
    var lang := resolved.1;
    var texts := Recognise(s, st.swap.model, st.lastSample, lang);
    if texts.None? then (st.(lock := resolved.0), Raised(AtRecognition))
    else
      var t := UpdateTranscription(st.transcription, complete, RowOf(s, texts.value, lang));
      var shown := st.(lock := resolved.0, transcription := t);
      if Placeholder in t then (shown, Raised(AtDisplay))
      else (shown.(swap := if s.autoModelSwap then SwapStep(st.swap, lang) else st.swap), Done)
  }

  function Iteration(s: Settings, st: LoopState, now: int): (LoopState, Outcome)
    requires |st.transcription| > 0
  {
    if st.queue == [] then (st, Idle)
    else
      var complete := PhraseComplete(st.phraseTime, now, s.phraseTimeout);
      var audio := (if complete then [] else st.lastSample) + Flatten(st.queue);
      var taken := st.(phraseTime := Some(now), lastSample := audio, queue := []);
      var detection := Detect(s, st.swap.model, audio);
      if detection.None? then (taken, Raised(AtDetection))
      else AfterDetection(s, taken, complete, detection.value)
  }

  lemma AfterDetectionKeepsShape(s: Settings, st: LoopState, complete: bool, detection: string,
                                 phraseTime: Option<int>, now: int)
    requires TranscriptionShape(phraseTime, st.transcription)
    requires complete == PhraseComplete(phraseTime, now, s.phraseTimeout)
    ensures TranscriptionShape(Some(now), AfterDetection(s, st, complete, detection).0.transcription)
    ensures AfterDetection(s, st, complete, detection).1 == Done ==>
              Placeholder !in AfterDetection(s, st, complete, detection).0.transcription
  {
    var lang := ResolveLanguage(st.lock, EnglishOnly(st.swap.model), s.autoLanguageLock, detection).1;
    var texts := Recognise(s, st.swap.model, st.lastSample, lang);
    if texts.Some? {
      SampleKeepsTranscriptionShape(phraseTime, now, s.phraseTimeout, st.transcription,
                                    RowOf(s, texts.value, lang));
    }
  }

  /** Every iteration keeps the shape of `transcription`; one that finishes
      leaves no `''` entry. */
  lemma IterationKeepsShape(s: Settings, st: LoopState, now: int)
    requires TranscriptionShape(st.phraseTime, st.transcription)
    ensures TranscriptionShape(Iteration(s, st, now).0.phraseTime, Iteration(s, st, now).0.transcription)
    ensures Iteration(s, st, now).1 == Done ==> Placeholder !in Iteration(s, st, now).0.transcription
  {
    if st.queue != [] {
      var complete := PhraseComplete(st.phraseTime, now, s.phraseTimeout);
      var audio := (if complete then [] else st.lastSample) + Flatten(st.queue);
      var taken := st.(phraseTime := Some(now), lastSample := audio, queue := []);
      var detection := Detect(s, st.swap.model, audio);
      if detection.Some? {
        AfterDetectionKeepsShape(s, taken, complete, detection.value, st.phraseTime, now);
      }
    }
  }

  /** Once a `''` entry is followed by another one, every later iteration
      raises (at the latest in the display loops), the entry stays, and the
      model swap of lines 553-570 never runs again. */
  lemma StuckPlaceholderBlocksSwap(s: Settings, st: LoopState, now: int)
    requires TranscriptionShape(st.phraseTime, st.transcription)
    requires st.transcription[0] == Placeholder && |st.transcription| > 1
    ensures var (r, outcome) := Iteration(s, st, now);
      && outcome != Done && r.swap == st.swap
      && r.transcription[0] == Placeholder && |r.transcription| > 1
  {
    if st.queue != [] {
      var complete := PhraseComplete(st.phraseTime, now, s.phraseTimeout);
      var audio := (if complete then [] else st.lastSample) + Flatten(st.queue);
      var detection := Detect(s, st.swap.model, audio);
      if detection.Some? {
        var lang := ResolveLanguage(st.lock, EnglishOnly(st.swap.model), s.autoLanguageLock, detection.value).1;
        var texts := Recognise(s, st.swap.model, audio, lang);
        if texts.Some? {
          PlaceholderSurvives(st.transcription, complete, RowOf(s, texts.value, lang));
        }
      }
    }
  }

  /** The way in: an iteration that raises before line 518 on the first
      phrase leaves `['']` with `phrase_time` set, and the next complete
      phrase that reaches line 518 appends behind it and raises. */
  lemma CompletePhraseAfterAbortSticks(s: Settings, st: LoopState, now: int)
    requires st.phraseTime.Some? && st.transcription == [Placeholder] && st.queue != []
    requires PhraseComplete(st.phraseTime, now, s.phraseTimeout)
    requires Iteration(s, st, now).1 !in {Raised(AtDetection), Raised(AtRecognition)}
    ensures var (r, outcome) := Iteration(s, st, now);
      && outcome == Raised(AtDisplay) && r.swap == st.swap
      && r.transcription[0] == Placeholder && |r.transcription| == 2
  {
  }

  /** With `--retry` but no `--discord_webhook`, an empty first
      transcription raises at line 438. */
  lemma RetryWithoutWebhookRaises(s: Settings, model: string, audio: Bytes, lang: string)
    requires s.retry && !s.webhook
    requires s.engine(model, audio, Speech(if s.cuda then Some(lang) else None), 0) == Some("")
    ensures Recognise(s, model, audio, lang).None?
  {
  }

  /** Conversely, when no engine call raises, recognition raises only
      through the missing `webhook_url` of a retry. */
  lemma RecogniseRaisesOnlyOnRetry(s: Settings, model: string, audio: Bytes, lang: string)
    requires forall task, k :: s.engine(model, audio, task, k).Some?
    requires !s.retry || s.webhook
    ensures Recognise(s, model, audio, lang).Some?
  {
  }

  /** The translation follows the sample's language: "" for 'en',
      otherwise the stripped text of a call that translates from it. */
  lemma TranslationFollowsLanguage(s: Settings, model: string, audio: Bytes, lang: string)
    requires s.translate && Recognise(s, model, audio, lang).Some?
    ensures var tr := Recognise(s, model, audio, lang).value.translated;
      && (lang == "en" ==> tr == "")
      && (lang != "en" ==>
            || (s.engine(model, audio, TranslateFrom(lang), 0).Some?
                && tr == Strip(s.engine(model, audio, TranslateFrom(lang), 0).value))
            || (s.engine(model, audio, TranslateFrom(lang), 1).Some?
                && tr == Strip(s.engine(model, audio, TranslateFrom(lang), 1).value)))
  {
  }
}
