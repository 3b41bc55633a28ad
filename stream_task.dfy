/** One call of `start_stream_transcription` as an object: the variables its
    nested functions share (the files, the global `kill` and `shutdown_flag`,
    `downloaded_segments`, `counter`, `accumulated_segments`, `audio_queue`)
    are fields, and each nested function is a method that updates them as
    the Python code does. Every method is proved against the functions of
    modules `Download`, `Combine`, `Worker` and `Ingest`. */
module StreamTasks {
  import opened Common
  import opened Naming
  import opened Download
  import opened Combine
  import opened Worker
  import opened Ingest

  class StreamTask {
    const cfg: TaskConfig
    const net: Network
    /** The outcomes of the successive `m3u8.load` calls; once they are used
        up, `stop_transcription` has been called. */
    const script: seq<Fetch>
    const wcfg: WorkerConfig
    const engine: Engine

    var fs: FileSystem
    var kill: bool
    var shutdown: bool
    var downloaded: set<string>
    var counter: nat
    var accumulated: seq<string>
    var queue: seq<Entry>
    var requests: nat
    var polls: nat
    var events: seq<Event>

    /** The producer's part of the state. */
    function State(): Ingest
      reads this
    {
      Ingest(fs, kill, downloaded, counter, accumulated, queue, requests)
    }

    ghost predicate Valid()
      reads this
    {
      Inv(cfg, State()) && polls <= |script|
    }

    constructor(cfg: TaskConfig, net: Network, script: seq<Fetch>, wcfg: WorkerConfig, engine: Engine,
                fs: FileSystem, kill: bool)
      ensures Valid()
      ensures this.cfg == cfg && this.net == net && this.script == script
      ensures this.wcfg == wcfg && this.engine == engine
      ensures State() == Initial(fs, kill) && polls == 0 && !shutdown && events == []
    {
      this.cfg := cfg;
      this.net := net;
      this.script := script;
      this.wcfg := wcfg;
      this.engine := engine;
      this.fs := fs;
      this.kill := kill;
      shutdown := false;
      downloaded := {};
      counter := 0;
      accumulated := [];
      queue := [];
      requests := 0;
      polls := 0;
      events := [];
    }

    /** `stop_transcription()`: sets the shutdown flag and nothing else. */
    method StopTranscription()
      modifies this`shutdown
      ensures shutdown
    {
      shutdown := true;
    }

    /** The `for retry_count in range(max_retries + 1)` loop of
        `download_segment`: one request per iteration; a 200 writes the body
        and succeeds, a 401 sets `kill` and stops, another status or a
        `RequestException` goes on, any other exception stops. */
    method RequestAttempts(url: string, path: string) returns (ok: bool)
      modifies this`fs, this`kill, this`requests
      ensures var run := AttemptsFrom(Responses(net, url, old(requests)), 0, MaxRetries, old(fs), path);
        && ok == run.ok && fs == run.fs && kill == (old(kill) || run.unauthorized)
        && requests == old(requests) + run.attempts
    {
      ghost var resp := Responses(net, url, requests);
      ghost var run := AttemptsFrom(resp, 0, MaxRetries, fs, path);
      for retryCount := 0 to MaxRetries + 1
        invariant requests == old(requests) + retryCount
        invariant kill == old(kill)
        invariant AttemptsFrom(resp, retryCount, MaxRetries, fs, path) == run
      {
        var done;
        done, ok := RequestOnce(url, path, resp, retryCount, run);
        if done {
          return;
        }
      }
      return false;
    }

    /** One pass of the `try` block: one request; a 200 writes the body and
        returns True, a 401 sets `kill` and (through the generic handler)
        ends the loop, another status or a `RequestException` goes on, any
        other exception ends the loop. `done` is false when the loop goes
        on to its next attempt. */
    method RequestOnce(url: string, path: string, ghost resp: nat -> Response, ghost retryCount: nat,
                       ghost run: Outcome) returns (done: bool, ok: bool)
      requires retryCount <= MaxRetries
      requires resp(retryCount) == net(url, requests)
      requires AttemptsFrom(resp, retryCount, MaxRetries, fs, path) == run
      modifies this`fs, this`kill, this`requests
      ensures requests == old(requests) + 1
      ensures done ==> && ok == run.ok && fs == run.fs && kill == (old(kill) || run.unauthorized)
                       && run.attempts == retryCount + 1
      ensures !done ==> kill == old(kill) && AttemptsFrom(resp, retryCount + 1, MaxRetries, fs, path) == run
    {
      var response := net(url, requests);
      requests := requests + 1;
      match response
      case Status(code, body) =>
        if code == 200 {
          fs := fs[path := body];
          return true, true;
        } else if code == 401 {
          kill := true;
          return true, false;
        }
        return false, false;
      case RequestFailure(written) =>
        fs := WritePartial(fs, path, written);
        return false, false;
      case OtherFailure(written) =>
        fs := WritePartial(fs, path, written);
        return true, false;
    }

    /** `download_segment(segment_url, output_path)` with its default three
        retries: the request loop, then removal of any file left at
        `output_path` when no attempt succeeded. */
    method DownloadSegment(url: string, path: string) returns (ok: bool)
      modifies this`fs, this`kill, this`requests
      ensures var d := Download.DownloadSegment(Responses(net, url, old(requests)), MaxRetries,
                                                old(fs), path, old(kill));
        ok == d.ok && fs == d.fs && kill == d.unauthorized && requests == old(requests) + d.attempts
    {
      ok := RequestAttempts(url, path);
      if ok {
        return;
      }
      if path in fs {
        fs := fs - {path};
      }
    }

    /** `combine_audio_segments(segment_paths, output_path)`. */
    method CombineAudioSegments(paths: seq<string>, out: string)
      requires out !in paths
      modifies this`fs
      ensures fs == Combine.CombineAudioSegments(old(fs), paths, out)
    {
      fs := fs[out := []];
      for i := 0 to |paths|
        invariant out in fs
        invariant CombineLoop(fs, paths[i..], out) == Combine.CombineAudioSegments(old(fs), paths, out)
      {
        assert paths[i..][1..] == paths[i + 1..];
        var p := paths[i];
        if p !in fs {
          continue;
        }
        fs := fs[out := fs[out] + fs[p]];
        fs := fs - {p};
      }
    }

    /** `load_m3u8_with_retry(hls_url)`: polls until a manifest loads; only
        the shutdown flag ends the retries. */
    method LoadM3u8WithRetry() returns (m: Option<seq<Segment>>)
      requires polls <= |script|
      modifies this`polls, this`shutdown
      ensures polls <= |script|
      ensures old(shutdown) ==> m.None? && polls == old(polls) && shutdown
      ensures !old(shutdown) ==> (m, polls) == LoadWithRetry(script, old(polls))
      ensures shutdown <==> m.None?
    {
      while !shutdown
        invariant old(polls) <= polls <= |script|
        invariant old(shutdown) ==> polls == old(polls)
        invariant !old(shutdown) ==> LoadWithRetry(script, polls) == LoadWithRetry(script, old(polls))
        invariant shutdown && !old(shutdown) ==> polls == |script|
        decreases |script| - polls, !shutdown
      {
        if polls == |script| {
          StopTranscription();
        } else {
          var attempt := script[polls];
          polls := polls + 1;
          if attempt.Fetched? {
            return Some(attempt.segments);
          }
        }
      }
      if !old(shutdown) {
        assert LoadWithRetry(script, polls) == (None, polls);
      }
      return None;
    }

    /** After a successful download with `kill` clear: record the URI,
        buffer the path, and at `segments_max` buffered segments combine
        them into a chunk named with the current counter, queue it and
        empty the buffer. */
    method RecordSegment(uri: string, path: string)
      requires SegmentPathsBelow(cfg, accumulated + [path], counter)
      modifies this`fs, this`downloaded, this`accumulated, this`queue
      ensures State() == Accumulate(cfg, old(State()), uri, path)
    {
      downloaded := downloaded + {uri};
      accumulated := accumulated + [path];
      if |accumulated| >= cfg.segmentsMax {
        var combinedPath := ChunkPath(cfg, counter);
        NotAChunk(cfg, accumulated, counter, counter);
        CombineAudioSegments(accumulated, combinedPath);
        queue := queue + [Chunk(combinedPath)];
        accumulated := [];
      }
    }

    /** The body of `for segment in m3u8_obj.segments`; `brk` is the
        `if kill: break`. */
    method IngestSegment(seg: Segment) returns (brk: bool)
      requires Valid()
      modifies this`fs, this`kill, this`downloaded, this`counter, this`accumulated, this`queue, this`requests
      ensures Valid()
      ensures (State(), brk) == SegmentStep(cfg, net, old(State()), seg)
    {
      ghost var st := State();
      SegmentStepInv(cfg, net, st, seg);
      brk := false;
      if seg.uri in downloaded {
        return;
      }
      var path := SegmentPath(cfg, seg.uri, counter);
      counter := counter + 1;
      var ok := DownloadSegment(seg.absoluteUri, path);
      assert State() == Attempted(st, Attempt(cfg, net, st, seg));
      if ok {
        if kill {
          return true;
        }
        BelowGrows(cfg, st.accumulated, st.counter, seg.uri);
        RecordSegment(seg.uri, path);
      }
    }

    /** One pass of the segment loop over a loaded manifest. */
    method IngestManifest(segs: seq<Segment>)
      requires Valid()
      modifies this`fs, this`kill, this`downloaded, this`counter, this`accumulated, this`queue, this`requests
      ensures Valid()
      ensures State() == ManifestPass(cfg, net, old(State()), segs)
    {
      for i := 0 to |segs|
        invariant Valid()
        invariant ManifestPass(cfg, net, State(), segs[i..]) == ManifestPass(cfg, net, old(State()), segs)
      {
        assert segs[i..][1..] == segs[i + 1..];
        var brk := IngestSegment(segs[i]);
        if brk {
          break;
        }
      }
    }

    /** The `while not shutdown_flag` loop of the producer. */
    method IngestStream()
      requires Valid()
      modifies this`fs, this`kill, this`downloaded, this`counter, this`accumulated, this`queue, this`requests,
               this`polls, this`shutdown
      ensures Valid() && shutdown
      ensures old(shutdown) ==> State() == old(State()) && polls == old(polls)
      ensures !old(shutdown) ==> State() == RunFrom(cfg, net, script, old(polls), old(State()))
                                 && polls == |script|
    {
      while !shutdown
        invariant Valid()
        invariant shutdown == old(shutdown)
        invariant !shutdown ==>
                    RunFrom(cfg, net, script, polls, State()) == RunFrom(cfg, net, script, old(polls), old(State()))
        invariant shutdown ==> State() == old(State()) && polls == old(polls)
        decreases |script| - polls, !shutdown
      {
        ghost var st := State();
        ghost var p := polls;
        var m := LoadM3u8WithRetry();
        if m.None? {
          assert RunFrom(cfg, net, script, p, st) == st;
          break;
        }
        IngestManifest(m.value);
      }
    }

    /** The cleanup: every file `os.listdir(temp_dir)` lists is removed. */
    method CleanupTempDir()
      modifies this`fs
      ensures fs == Cleanup(old(fs), cfg.tempDir)
    {
      var listing := set p | p in fs && InDir(p, cfg.tempDir);
      while listing != {}
        invariant forall p :: p in listing ==> p in old(fs) && InDir(p, cfg.tempDir)
        invariant forall p :: p in fs <==> p in old(fs) && (!InDir(p, cfg.tempDir) || p in listing)
        invariant forall p :: p in fs ==> fs[p] == old(fs)[p]
        decreases |listing|
      {
        var file :| file in listing;
        fs := fs - {file};
        listing := listing - {file};
      }
      assert fs.Keys == Cleanup(old(fs), cfg.tempDir).Keys;
    }

    /** `start_stream_transcription` from the producer loop on: ingest until
        shut down, empty the temporary directory, then queue the sentinel
        for the worker. */
    method StartStreamTranscription()
      requires Valid() && !shutdown
      modifies this`fs, this`kill, this`downloaded, this`counter, this`accumulated, this`queue, this`requests,
               this`polls, this`shutdown
      ensures var r := RunFrom(cfg, net, script, old(polls), old(State()));
        && fs == Cleanup(r.fs, cfg.tempDir)
        && queue == r.queue + [Sentinel]
        && kill == r.kill && downloaded == r.downloaded && accumulated == r.accumulated
        && shutdown
    {
      IngestStream();
      CleanupTempDir();
      queue := queue + [Sentinel];
    }

    /** `process_audio(file_path, model)`. */
    method ProcessAudio(path: string)
      modifies this`fs, this`events
      ensures var p := Worker.ProcessAudio(wcfg, engine, old(fs), path);
        fs == p.fs && events == old(events) + p.events
    {
      if path !in fs {
        return;
      }
      var audio := fs[path];
      var original := OriginalStage(wcfg, engine, audio);
      var translation := TranslationStage(wcfg, engine, audio);
      var transcription := TranscriptionStage(wcfg, engine, audio);
      events := events + (original + translation + transcription);
      fs := fs - {path};
    }

    /** `process_audio_thread()`: take entries in FIFO order until the
        sentinel or the shutdown flag; an empty queue is where the thread
        would block. */
    method ProcessAudioThread() returns (exit: Exit)
      modifies this`fs, this`events, this`queue
      ensures var w := Drain(TaskProcessor(wcfg, engine), old(fs), old(queue), old(shutdown));
        fs == w.fs && events == old(events) + w.events && queue == w.rest && exit == w.exit
    {
      ghost var process := TaskProcessor(wcfg, engine);
      ghost var w0 := Drain(process, fs, queue, shutdown);
      while !shutdown
        invariant var w := Drain(process, fs, queue, shutdown);
          w.fs == w0.fs && w.rest == w0.rest && w.exit == w0.exit
          && old(events) + w0.events == events + w.events
        decreases |queue|
      {
        if queue == [] {
          return Blocked;
        }
        var entry := queue[0];
        ghost var before := queue;
        queue := queue[1..];
        if entry == Sentinel {
          return SawSentinel;
        }
        ghost var step := process(fs, entry.path);
        ghost var w := Drain(process, step.fs, queue, false);
        assert Drain(process, fs, before, false) == w.(events := step.events + w.events);
        ghost var evBefore := events;
        assert step == Worker.ProcessAudio(wcfg, engine, fs, entry.path);
        ProcessAudio(entry.path);
        assert evBefore + (step.events + w.events) == events + w.events;
      }
      return SawShutdown;
    }

    /** `process_audio_thread()` returning from a `get()` it was blocked in,
        with `queue` holding what was put since it blocked. */
    method ResumeThread() returns (exit: Exit)
      requires queue != []
      modifies this`fs, this`events, this`queue
      ensures var w := Wake(TaskProcessor(wcfg, engine), old(fs), old(queue), old(shutdown));
        fs == w.fs && events == old(events) + w.events && queue == w.rest && exit == w.exit
    {
      var entry := queue[0];
      queue := queue[1..];
      if entry == Sentinel {
        return SawSentinel;
      }
      ghost var ev0 := events;
      exit := ProcessThenLoop(entry.path);
      ghost var step := Worker.ProcessAudio(wcfg, engine, old(fs), entry.path);
      ghost var w := Drain(TaskProcessor(wcfg, engine), step.fs, old(queue)[1..], old(shutdown));
      assert ev0 + step.events + w.events == ev0 + (step.events + w.events);
    }

    /** Lines 242 then 238-242 again: the chunk taken is processed, then the
        loop goes on. */
    method ProcessThenLoop(path: string) returns (exit: Exit)
      modifies this`fs, this`events, this`queue
      ensures var step := Worker.ProcessAudio(wcfg, engine, old(fs), path);
        var w := Drain(TaskProcessor(wcfg, engine), step.fs, old(queue), old(shutdown));
        fs == w.fs && events == old(events) + step.events + w.events && queue == w.rest && exit == w.exit
    {
      ProcessAudio(path);
      exit := ProcessAudioThread();
    }
  }
}
