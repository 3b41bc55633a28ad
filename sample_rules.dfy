/** The per-sample rules of the `while True` loop in `main()`: phrase
    completion, the `transcription` list, the auto-language-lock counter and
    the auto-model-swap counters, as functions of the previous state. */
module SampleRules {
  import opened Common

  /** An entry of `transcription`: the initial `''`, or the tuple
      `(text, translated_text | None, transcribed_text | None, detected_language)`. */
  datatype Row =
    | Placeholder
    | Row(text: string, translated: Option<string>, transcribed: Option<string>, language: string)

  /** `phrase_time and now - phrase_time > timedelta(seconds=phrase_timeout)`,
      with times and the timeout in integer ticks. */
  predicate PhraseComplete(phraseTime: Option<int>, now: int, timeout: int)
  {
    phraseTime.Some? && now - phraseTime.value > timeout
  }

  /** Lines 518-521: a completed phrase appends a row, otherwise the last
      row is overwritten. */
  function UpdateTranscription(t: seq<Row>, complete: bool, row: Row): seq<Row>
    requires |t| > 0
  {
    if complete then t + [row] else t[..|t| - 1] + [row]
  }

  /** The list is never empty, grows by at most one row per sample, ends
      with the new row, and keeps every earlier row but the overwritten one. */
  lemma UpdateTranscriptionShape(t: seq<Row>, complete: bool, row: Row)
    requires |t| > 0
    ensures var r := UpdateTranscription(t, complete, row);
      && |r| == |t| + (if complete then 1 else 0)
      && r[|r| - 1] == row
      && (forall i :: 0 <= i < |t| - 1 ==> r[i] == t[i])
      && (complete ==> r[|t| - 1] == t[|t| - 1])
  {
  }

  /** The shape of `transcription` between iterations: the single initial
      `''` until a phrase is first taken (while `phrase_time` is unset);
      afterwards `''` can be left only at the head, by an iteration that
      raised between line 365 and line 518. */
  ghost predicate TranscriptionShape(phraseTime: Option<int>, t: seq<Row>)
  {
    && |t| > 0
    && (phraseTime.None? ==> t == [Placeholder])
    && (forall i :: 0 < i < |t| ==> t[i] != Placeholder)
  }

  /** An iteration that reaches line 518 keeps that shape. */
  lemma SampleKeepsTranscriptionShape(phraseTime: Option<int>, now: int, timeout: int, t: seq<Row>, row: Row)
    requires TranscriptionShape(phraseTime, t) && row.Row?
    ensures TranscriptionShape(Some(now), UpdateTranscription(t, PhraseComplete(phraseTime, now, timeout), row))
  {
  }

  /** After line 518 a `''` entry is left exactly when it was at the head
      and is not the entry overwritten: the phrase is complete, or earlier
      phrases follow it. The display loops of lines 526 and 542 then fail
      to unpack it. */
  lemma {:induction false} PlaceholderSurvives(t: seq<Row>, complete: bool, row: Row)
    requires |t| > 0 && (forall i :: 0 < i < |t| ==> t[i] != Placeholder) && row.Row?
    ensures var r := UpdateTranscription(t, complete, row);
      && (Placeholder in r <==> t[0] == Placeholder && (complete || |t| > 1))
      && (Placeholder in r ==> r[0] == Placeholder && |r| > 1)
  {
    var r := UpdateTranscription(t, complete, row);
    if t[0] == Placeholder && (complete || |t| > 1) {
      assert r[0] == t[0];
    }
    if Placeholder in r {
      var k :| 0 <= k < |r| && r[k] == Placeholder;
      assert k < |t| && r[k] == t[k];
    }
  }

  /** `".en" in model`: the model is English-only. */
  function EnglishOnly(model: string): bool
  {
    ContainsFrom(model, ".en", 0)
  }

  /** `english_counter`, `last_detected_language` and `args.language`. */
  datatype LockState = LockState(counter: int, last: Option<string>, language: Option<string>)

  /** Lines 381-410: the language of a sample, given what `detect_language`
      reported (not consulted for an English-only model), and the lock
      bookkeeping. */
  function ResolveLanguage(st: LockState, englishOnly: bool, autoLock: bool, detection: string): (LockState, string)
  {
    if Truthy(st.language) then (st, st.language.value)
    else if englishOnly then (st, "English")
    else if autoLock then
      if st.last == Some(detection) then
        var counter := st.counter + 1;
        (st.(counter := counter, language := if counter >= 5 then Some(detection) else st.language), detection)
      else (st.(counter := 0, last := Some(detection)), detection)
    else (st, detection)
  }

  /** The lock state after a run of samples, oldest first. */
  function ResolveRun(st: LockState, englishOnly: bool, autoLock: bool, detections: seq<string>): LockState
    decreases |detections|
  {
    if detections == [] then st
    else ResolveLanguage(ResolveRun(st, englishOnly, autoLock, detections[..|detections| - 1]),
                         englishOnly, autoLock, detections[|detections| - 1]).0
  }

  /** Once `args.language` is set, every later sample takes that language and
      the lock state never changes again. */
  lemma {:induction false} LockedLanguageStays(st: LockState, englishOnly: bool, autoLock: bool,
                                               detections: seq<string>)
    requires Truthy(st.language)
    ensures ResolveRun(st, englishOnly, autoLock, detections) == st
    ensures forall d :: ResolveLanguage(st, englishOnly, autoLock, d) == (st, st.language.value)
    decreases |detections|
  {
    if detections != [] {
      LockedLanguageStays(st, englishOnly, autoLock, detections[..|detections| - 1]);
    }
  }

  /** `detections[k..k + 6]` are all `x`. */
  ghost predicate SixInARow(detections: seq<string>, x: string, k: int)
  {
    0 <= k && k + 6 <= |detections| && forall i :: k <= i < k + 6 ==> detections[i] == x
  }

  /** What a run from the start state tells about the lock: while unlocked,
      the last `counter + 1` detections equal `last_detected_language`;
      once locked, the locked language was detected six times in a row. */
  ghost predicate LockTrail(detections: seq<string>, st: LockState)
  {
    && (!Truthy(st.language) ==>
          && 0 <= st.counter
          && (st.last.None? ==> detections == [])
          && (st.last.Some? ==> st.counter + 1 <= |detections|
                                && forall i :: |detections| - st.counter - 1 <= i < |detections| ==> detections[i] == st.last.value))
    && (Truthy(st.language) ==> exists k :: SixInARow(detections, st.language.value, k))
  }

  lemma {:induction false} ResolveRunTrail(detections: seq<string>)
    ensures LockTrail(detections, ResolveRun(LockState(0, None, None), false, true, detections))
    decreases |detections|
  {
    if detections != [] {
      var prefix := detections[..|detections| - 1];
      var d := detections[|detections| - 1];
      var st := ResolveRun(LockState(0, None, None), false, true, prefix);
      ResolveRunTrail(prefix);
      var r := ResolveLanguage(st, false, true, d).0;
      if Truthy(st.language) {
        var k :| SixInARow(prefix, st.language.value, k);
        assert SixInARow(detections, st.language.value, k);
      } else if st.last == Some(d) && Truthy(r.language) {
        assert SixInARow(detections, d, |detections| - 6);
      }
    }
  }

  /** With auto-lock on, no `--language` and a multilingual model, a language
      is locked only after it was detected six times in a row: a first
      sighting and five repeats. */
  lemma LockNeedsSixInARow(detections: seq<string>)
    requires Truthy(ResolveRun(LockState(0, None, None), false, true, detections).language)
    ensures exists k :: SixInARow(detections, ResolveRun(LockState(0, None, None), false, true, detections).language.value, k)
  {
    var st := ResolveRun(LockState(0, None, None), false, true, detections);
    ResolveRunTrail(detections);
    var k :| SixInARow(detections, st.language.value, k);
    assert SixInARow(detections, st.language.value, k);
  }

  lemma {:induction false} SameDetectionCounts(st: LockState, d: string, n: nat)
    requires !Truthy(st.language) && 0 <= st.counter && d != ""
    requires 1 <= n <= 6
    ensures var r := ResolveRun(st, false, true, seq(n, _ => d));
      || r.language == Some(d)
      || (r.last == Some(d) && n - 1 <= r.counter < 5 && !Truthy(r.language))
    decreases n
  {
    var ds := seq(n, _ => d);
    assert ds[..n - 1] == seq(n - 1, _ => d);
    if n > 1 {
      SameDetectionCounts(st, d, n - 1);
      var p := ResolveRun(st, false, true, seq(n - 1, _ => d));
      if p.language == Some(d) {
        LockedLanguageStays(p, false, true, [d]);
        assert ResolveRun(p, false, true, [d]) == ResolveLanguage(p, false, true, d).0;
      }
    }
  }

  /** Conversely, from any unlocked state six equal detections in a row
      lock that language. */
  lemma SixInARowLocks(st: LockState, d: string)
    requires !Truthy(st.language) && 0 <= st.counter && d != ""
    ensures ResolveRun(st, false, true, seq(6, _ => d)).language == Some(d)
  {
    SameDetectionCounts(st, d, 6);
  }

  /** `last_detected_language` (of the swap), `language_counters` and `model`. */
  datatype SwapState = SwapState(last: Option<string>, counters: map<string, int>, model: string)

  function SwapInit(model: string): SwapState
  {
    SwapState(None, map[], model)
  }

  /** Lines 560-570: at a count of exactly five, reload 'base' for 'en' and
      'large' for any other language, unless that model is already loaded. */
  function Reload(st: SwapState, lang: string): SwapState
    requires lang in st.counters
  {
    if st.counters[lang] == 5 then
      if lang == "en" && st.model != "base" then st.(model := "base")
      else if lang != "en" && st.model != "large" then st.(model := "large")
      else st
    else st
  }

  /** The outcome of lines 553-570 as written: the new state, or the
      `KeyError` raised by `language_counters[detected_language] += 1`. */
  datatype SwapOutcome = Swapped(st: SwapState) | KeyError(key: string)

  function SwapAsWritten(st: SwapState, lang: string): SwapOutcome
  {
    if st.last != Some(lang) then Swapped(Reload(st.(last := Some(lang), counters := st.counters[lang := 1]), lang))
    else if lang !in st.counters then KeyError(lang)
    else Swapped(Reload(st.(counters := st.counters[lang := st.counters[lang] + 1]), lang))
  }

  /** The swap as intended: its own record of the previous language, and a
      count that starts from zero for a language not seen before. */
  function SwapStep(st: SwapState, lang: string): SwapState
  {
    var count := if st.last != Some(lang) then 1
                 else (if lang in st.counters then st.counters[lang] else 0) + 1;
    Reload(SwapState(Some(lang), st.counters[lang := count], st.model), lang)
  }

  /** Wherever the code as written does not raise, the intended swap does
      the same. */
  lemma SwapStepAgrees(st: SwapState, lang: string)
    requires SwapAsWritten(st, lang).Swapped?
    ensures SwapStep(st, lang) == SwapAsWritten(st, lang).st
  {
  }

  function SwapRun(st: SwapState, langs: seq<string>): SwapState
    decreases |langs|
  {
    if langs == [] then st else SwapStep(SwapRun(st, langs[..|langs| - 1]), langs[|langs| - 1])
  }

  /** The length of the run of equal languages that `langs` ends with. */
  function TrailingRun(langs: seq<string>): nat
    decreases |langs|
  {
    if langs == [] then 0
    else if |langs| >= 2 && langs[|langs| - 2] == langs[|langs| - 1] then TrailingRun(langs[..|langs| - 1]) + 1
    else 1
  }

  /** The counter of the latest language is the length of its current run. */
  lemma {:induction false} SwapCountsRuns(model: string, langs: seq<string>)
    ensures var st := SwapRun(SwapInit(model), langs);
      && (langs == [] ==> st.last.None?)
      && (langs != [] ==> && st.last == Some(langs[|langs| - 1])
                          && langs[|langs| - 1] in st.counters
                          && st.counters[langs[|langs| - 1]] == TrailingRun(langs))
    decreases |langs|
  {
    if langs != [] {
      var prefix := langs[..|langs| - 1];
      SwapCountsRuns(model, prefix);
      if prefix != [] {
        assert langs[|langs| - 2] == prefix[|prefix| - 1];
      }
    }
  }

  /** The intended rule: a model is reloaded only on the sample that makes
      five detections of one language in a row, and then it is 'base' for
      'en' and 'large' for any other language. */
  lemma SwapReloadsAtFifth(model: string, langs: seq<string>, lang: string)
    ensures var st := SwapRun(SwapInit(model), langs);
      var r := SwapStep(st, lang);
      && r.counters[lang] == TrailingRun(langs + [lang])
      && (r.model != st.model ==> TrailingRun(langs + [lang]) == 5
                                  && r.model == (if lang == "en" then "base" else "large"))
  {
    SwapCountsRuns(model, langs);
    SwapCountsRuns(model, langs + [lang]);
    assert (langs + [lang])[..|langs|] == langs;
  }

  /** Conversely, the sample that makes five detections of one language in
      a row reloads, 'base' for 'en' and 'large' otherwise, unless that
      model is already loaded. */
  lemma SwapReloadsWhenFifth(model: string, langs: seq<string>, lang: string)
    requires TrailingRun(langs + [lang]) == 5
    ensures var st := SwapRun(SwapInit(model), langs);
      var target := if lang == "en" then "base" else "large";
      SwapStep(st, lang).model == target
  {
    SwapCountsRuns(model, langs + [lang]);
    assert (langs + [lang])[..|langs|] == langs;
  }

  /** An English-only model labels every sample "English", which is not
      'en': five samples in a row load the 'large' model. */
  lemma EnglishLabelLoadsLarge(model: string)
    requires model != "large"
    ensures SwapRun(SwapInit(model), ["English", "English", "English", "English", "English"]).model == "large"
  {
    var e := "English";
    var ls := [e, e, e, e, e];
    assert ls[..4] == [e, e, e, e] && ls[..4][..3] == [e, e, e];
    assert ls[..4][..3][..2] == [e, e] && ls[..4][..3][..2][..1] == [e] && ls[..4][..3][..2][..1][..0] == [];
    assert [e][..0] == [];
    assert SwapRun(SwapInit(model), []) == SwapInit(model);
    var s1 := SwapRun(SwapInit(model), [e]);
    assert s1 == SwapStep(SwapInit(model), e);
    assert s1 == SwapState(Some(e), map[e := 1], model);
    var s2 := SwapRun(SwapInit(model), [e, e]);
    assert s2 == SwapState(Some(e), map[e := 2], model);
    var s3 := SwapRun(SwapInit(model), [e, e, e]);
    assert s3 == SwapState(Some(e), map[e := 3], model);
    var s4 := SwapRun(SwapInit(model), [e, e, e, e]);
    assert s4 == SwapState(Some(e), map[e := 4], model);
  }

  /** The detection state of the loop as written, where the lock and the
      swap share `last_detected_language`. */
  datatype Detection = Detection(counter: int, last: Option<string>, language: Option<string>,
                                 counters: map<string, int>, model: string)

  /** Lines 381-410 then 553-570 as written: the new state, the language of
      the sample, and whether the swap raised `KeyError` (caught at line
      571, which ends the iteration). */
  function SampleAsWritten(st: Detection, autoLock: bool, autoSwap: bool, detection: string): (Detection, string, bool)
  {
    var (lock, lang) := ResolveLanguage(LockState(st.counter, st.last, st.language), EnglishOnly(st.model), autoLock, detection);
    var st1 := st.(counter := lock.counter, last := lock.last, language := lock.language);
    if !autoSwap then (st1, lang, false)
    else match SwapAsWritten(SwapState(st1.last, st1.counters, st1.model), lang)
      case KeyError(_) => (st1, lang, true)
      case Swapped(s) => (st1.(last := s.last, counters := s.counters, model := s.model), lang, false)
  }

  /** With both automatic features on, a multilingual model and no
      `--language`, the lock has already recorded the sample's language as
      `last_detected_language` when the swap runs, so the swap takes its
      increment branch on a key it never created: every sample raises
      `KeyError`, no counter is ever stored, and the model is never changed. */
  lemma LockThenSwapRaises(st: Detection, detection: string)
    requires !EnglishOnly(st.model) && st.counters == map[]
    requires Truthy(st.language) ==> st.last == Some(st.language.value)
    ensures var (r, lang, raised) := SampleAsWritten(st, true, true, detection);
      && raised && r.counters == map[] && r.model == st.model
      && (Truthy(r.language) ==> r.last == Some(r.language.value))
  {
  }

  /** A model name without a dot is multilingual. */
  lemma NoDotIsMultilingual(model: string)
    requires forall i :: 0 <= i < |model| ==> model[i] != '.'
    ensures !EnglishOnly(model)
  {
    forall k | 0 <= k <= |model| - 3
      ensures !OccursAt(model, ".en", k)
    {
      assert model[k..k + 3][0] == model[k];
    }
  }

  /** The first sample of such a run already raises. */
  lemma FirstSampleRaises()
    ensures SampleAsWritten(Detection(0, None, None, map[], "small"), true, true, "en").2
  {
    NoDotIsMultilingual("small");
    LockThenSwapRaises(Detection(0, None, None, map[], "small"), "en");
  }
}
