/** The state `main()` keeps across iterations of its `while True` loop,
    and one iteration of that loop, proved equal to `Iterations.Iteration`.
    The recognition model is a parameter: `settings.detect` and
    `settings.engine` stand for the loaded model's `detect_language` and
    `transcribe` calls. */
module Sessions {
  import opened Common
  import opened SampleRules
  import opened Iterations

  class Session {
    /** The flags of `main()`, `phrase_timeout` in the ticks `now` is
        measured in, and the recognition calls. */
    const settings: Settings

    var phraseTime: Option<int>
    var lastSample: Bytes
    /** `data_queue`, filled by `record_callback`. */
    var dataQueue: seq<Bytes>
    var transcription: seq<Row>
    var englishCounter: int
    var lastDetectedLanguage: Option<string>
    /** `args.language`, which the lock may set. */
    var language: Option<string>
    /** The previous language as the model swap sees it (kept apart from
        the lock's record; see `SampleRules.LockThenSwapRaises`). */
    var lastSwapLanguage: Option<string>
    var languageCounters: map<string, int>
    var model: string

    function Lock(): LockState
      reads this`englishCounter, this`lastDetectedLanguage, this`language
    {
      LockState(englishCounter, lastDetectedLanguage, language)
    }

    function Swap(): SwapState
      reads this`lastSwapLanguage, this`languageCounters, this`model
    {
      SwapState(lastSwapLanguage, languageCounters, model)
    }

    function State(): LoopState
      reads this`phraseTime, this`lastSample, this`dataQueue, this`transcription
      reads this`englishCounter, this`lastDetectedLanguage, this`language
      reads this`lastSwapLanguage, this`languageCounters, this`model
    {
      LoopState(phraseTime, lastSample, dataQueue, transcription, Lock(), Swap())
    }

    ghost predicate Valid()
      reads this`phraseTime, this`transcription
    {
      TranscriptionShape(phraseTime, transcription)
    }

    constructor(settings: Settings, language: Option<string>, model: string)
      ensures Valid()
      ensures this.settings == settings
      ensures State() == LoopState(None, [], [], [Placeholder], LockState(0, None, language), SwapInit(model))
    {
      this.settings := settings;
      phraseTime := None;
      lastSample := [];
      dataQueue := [];
      transcription := [Placeholder];
      englishCounter := 0;
      lastDetectedLanguage := None;
      this.language := language;
      lastSwapLanguage := None;
      languageCounters := map[];
      this.model := model;
    }

    /** `record_callback`: queue the raw bytes of a recorded chunk. */
    method RecordCallback(data: Bytes)
      modifies this`dataQueue
      ensures dataQueue == old(dataQueue) + [data]
    {
      dataQueue := dataQueue + [data];
    }

    /** Lines 361-369: decide whether the phrase is complete, then drain
        the queue onto the phrase audio. */
    method TakePhrase(now: int) returns (complete: bool)
      modifies this`phraseTime, this`lastSample, this`dataQueue
      ensures complete == PhraseComplete(old(phraseTime), now, settings.phraseTimeout)
      ensures phraseTime == Some(now)
      ensures lastSample == (if complete then [] else old(lastSample)) + Flatten(old(dataQueue))
      ensures dataQueue == []
    {
      complete := false;
      if phraseTime.Some? && now - phraseTime.value > settings.phraseTimeout {
        lastSample := [];
        complete := true;
      }
      phraseTime := Some(now);
      ghost var start := lastSample;
      while dataQueue != []
        invariant phraseTime == Some(now)
        invariant lastSample + Flatten(dataQueue) == start + Flatten(old(dataQueue))
        decreases |dataQueue|
      {
        var data := dataQueue[0];
        FlattenCons(data, dataQueue[1..]);
        assert [data] + dataQueue[1..] == dataQueue;
        dataQueue := dataQueue[1..];
        lastSample := lastSample + data;
      }
    }

    /** Lines 381-410: the language of this sample, and the lock. */
    method ResolveLanguage(detection: string) returns (lang: string)
      modifies this`englishCounter, this`lastDetectedLanguage, this`language
      ensures (Lock(), lang) == SampleRules.ResolveLanguage(old(Lock()), EnglishOnly(model), settings.autoLanguageLock, detection)
    {
      if language.Some? && language.value != "" {
        lang := language.value;
      } else if EnglishOnly(model) {
        lang := "English";
      } else {
        lang := detection;
        if settings.autoLanguageLock {
          if lastDetectedLanguage == Some(detection) {
            englishCounter := englishCounter + 1;
            if englishCounter >= 5 {
              language := Some(detection);
            }
          } else {
            englishCounter := 0;
            lastDetectedLanguage := Some(detection);
          }
        }
      }
    }

    /** Lines 518-521. */
    method UpdateTranscription(complete: bool, row: Row)
      requires |transcription| > 0
      modifies this`transcription
      ensures transcription == SampleRules.UpdateTranscription(old(transcription), complete, row)
    {
      if complete {
        transcription := transcription + [row];
      } else {
        transcription := transcription[..|transcription| - 1] + [row];
      }
    }

    /** Lines 553-570, with the swap's own previous language and a count
        that starts from zero for a new language. */
    method AutoModelSwap(lang: string)
      modifies this`lastSwapLanguage, this`languageCounters, this`model
      ensures Swap() == SwapStep(old(Swap()), lang)
    {
      if lastSwapLanguage != Some(lang) {
        lastSwapLanguage := Some(lang);
        languageCounters := languageCounters[lang := 1];
      } else {
        var count := if lang in languageCounters then languageCounters[lang] else 0;
        languageCounters := languageCounters[lang := count + 1];
      }
      if languageCounters[lang] == 5 {
        if lang == "en" && model != "base" {
          model := "base";
        } else if lang != "en" && model != "large" {
          model := "large";
        }
      }
    }

    /** One `transcribe` call of `task` on the phrase, and its retry. */
    method TranscribeWithRetry(task: Task, raw: bool) returns (r: Option<string>)
      ensures r == WithRetry(settings, model, lastSample, task, raw)
    {
      var result := settings.engine(model, lastSample, task, 0);
      if result.None? {
        return None;
      }
      var empty := if raw then result.value == "" else Strip(result.value) == "";
      if empty && settings.retry {
        if !settings.webhook {
          return None;
        }
        result := settings.engine(model, lastSample, task, 1);
        if result.None? {
          return None;
        }
      }
      r := Some(Strip(result.value));
    }

    /** Lines 427-500: the three texts of the phrase in language `lang`. */
    method RecogniseTexts(lang: string) returns (texts: Option<Texts>)
      ensures texts == Recognise(settings, model, lastSample, lang)
    {
      var text := TranscribeWithRetry(Speech(if settings.cuda then Some(lang) else None), true);
      if text.None? {
        return None;
      }
      var translated := "";
      if settings.translate && lang != "en" {
        var t := TranscribeWithRetry(TranslateFrom(lang), false);
        if t.None? {
          return None;
        }
        translated := t.value;
      }
      var transcribed := "";
      if settings.transcribe {
        var t := TranscribeWithRetry(TranscribeTo(settings.targetLanguage), false);
        if t.None? {
          return None;
        }
        transcribed := t.value;
      }
      texts := Some(Texts(text.value, translated, transcribed));
    }

    /** Lines 387-570 once the phrase is taken and its language detected. */
    method Respond(complete: bool, detection: string) returns (outcome: Outcome)
      requires |transcription| > 0
      modifies this`transcription, this`englishCounter, this`lastDetectedLanguage, this`language
      modifies this`lastSwapLanguage, this`languageCounters, this`model
      ensures (State(), outcome) == AfterDetection(settings, old(State()), complete, detection)
    {
      var lang := ResolveLanguage(detection);
      var texts := RecogniseTexts(lang);
      if texts.None? {
        return Raised(AtRecognition);
      }
      UpdateTranscription(complete, RowOf(settings, texts.value, lang));
      if Placeholder in transcription {
        return Raised(AtDisplay);
      }
      if settings.autoModelSwap {
        AutoModelSwap(lang);
      }
      return Done;
    }

    /** One iteration of the loop: nothing happens while the queue is
        empty; otherwise the phrase audio is taken, its language detected,
        and the rest follows until it finishes or raises. */
    method Sample(now: int) returns (outcome: Outcome)
      requires Valid()
      modifies this`phraseTime, this`lastSample, this`dataQueue, this`transcription
      modifies this`englishCounter, this`lastDetectedLanguage, this`language
      modifies this`lastSwapLanguage, this`languageCounters, this`model
      ensures Valid()
      ensures (State(), outcome) == Iteration(settings, old(State()), now)
    {
      IterationKeepsShape(settings, State(), now);
      if dataQueue == [] {
        return Idle;
      }
      var complete := TakePhrase(now);
      var detection := if EnglishOnly(model) then Some("English") else settings.detect(model, lastSample);
      if detection.None? {
        return Raised(AtDetection);
      }
      outcome := Respond(complete, detection.value);
    }
  }
}
