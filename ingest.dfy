/** The producer side of `start_stream_transcription`: manifest polling with
    unbounded retry, and the deduplicate / download / accumulate / combine
    loop over each manifest's segments. */
module Ingest {
  import opened Common
  import opened Naming
  import opened Download
  import opened Combine
  import opened Worker

  /** `download_segment` is called with its default `max_retries`. */
  const MaxRetries: nat := 3

  /** A manifest entry, as the playlist parser gives it. */
  datatype Segment = Segment(uri: string, absoluteUri: string)

  /** One `m3u8.load(hls_url)` attempt: a parsed manifest, or an exception
      (network, parse or any other: all are logged and retried). */
  datatype Fetch = Fetched(segments: seq<Segment>) | FetchFailed

  /** The parameters of one stream task. `digest` stands for
      `hashlib.md5(url.encode()).hexdigest()`. */
  datatype TaskConfig = TaskConfig(
    taskId: string,
    tempDir: string,
    segmentsMax: int,
    digest: string -> string)

  /** The state the producer loop updates: the files, the global `kill`
      flag, `downloaded_segments`, `counter`, `accumulated_segments`, the
      entries put on `audio_queue`, and the number of HTTP requests made
      so far (which indexes the network's responses). */
  datatype Ingest = Ingest(
    fs: FileSystem,
    kill: bool,
    downloaded: set<string>,
    counter: nat,
    accumulated: seq<string>,
    queue: seq<Entry>,
    requests: nat)

  /** The network: the response to request number `n`, made for `url`. */
  type Network = (string, nat) -> Response

  function Initial(fs: FileSystem, kill: bool): Ingest
  {
    Ingest(fs, kill, {}, 0, [], [], 0)
  }

  function SegmentPath(cfg: TaskConfig, uri: string, counter: nat): string
  {
    SegmentFileName(cfg.tempDir, cfg.taskId, cfg.digest(uri), counter)
  }

  function ChunkPath(cfg: TaskConfig, counter: nat): string
  {
    CombinedFileName(cfg.tempDir, cfg.taskId, counter)
  }

  /** How many segments go into one chunk: `len(accumulated_segments) >=
      segments_max` holds after every append when `segments_max < 1`. */
  function BatchSize(cfg: TaskConfig): nat
  {
    if cfg.segmentsMax >= 1 then cfg.segmentsMax else 1
  }

  /** The responses seen by one `download_segment` call. */
  function Responses(net: Network, url: string, base: nat): nat -> Response
  {
    (i: nat) => net(url, base + i)
  }

  /** Every accumulated path is a segment file of this task with a counter
      already used. */
  ghost predicate SegmentPathsBelow(cfg: TaskConfig, paths: seq<string>, counter: nat)
  {
    forall i :: 0 <= i < |paths| ==>
      exists u: string, c: nat :: c < counter && paths[i] == SegmentPath(cfg, u, c)
  }

  /** Every queued entry is a chunk of this task. */
  ghost predicate QueuedChunks(cfg: TaskConfig, queue: seq<Entry>)
  {
    forall i :: 0 <= i < |queue| ==> exists c: nat :: queue[i] == Chunk(ChunkPath(cfg, c))
  }

  /** The producer's invariant: the buffer holds fewer than one batch of
      distinct segment files, all still on disk; every successfully
      downloaded URI is in exactly one place, a queued chunk or the buffer. */
  ghost predicate Inv(cfg: TaskConfig, st: Ingest)
  {
    && SegmentPathsBelow(cfg, st.accumulated, st.counter)
    && Distinct(st.accumulated)
    && (forall i :: 0 <= i < |st.accumulated| ==> st.accumulated[i] in st.fs)
    && |st.accumulated| < BatchSize(cfg)
    && QueuedChunks(cfg, st.queue)
    && |st.downloaded| == |st.queue| * BatchSize(cfg) + |st.accumulated|
  }

  /** The download of `seg` made by a segment step from `st`. */
  function Attempt(cfg: TaskConfig, net: Network, st: Ingest, seg: Segment): Outcome
  {
    DownloadSegment(Responses(net, seg.absoluteUri, st.requests), MaxRetries, st.fs,
                    SegmentPath(cfg, seg.uri, st.counter), st.kill)
  }

  /** The state after a download attempt: `counter += 1` happened before the
      call, and the call may have written or removed the segment file and
      set `kill`. */
  function Attempted(st: Ingest, d: Outcome): Ingest
  {
    st.(fs := d.fs, kill := d.unauthorized, counter := st.counter + 1, requests := st.requests + d.attempts)
  }

  /** After a successful download: record the URI, buffer the path, and
      when the buffer reaches `segments_max` combine it into the chunk
      named with the current counter, queue that chunk and empty the
      buffer. */
  function Accumulate(cfg: TaskConfig, st: Ingest, uri: string, path: string): Ingest
    requires SegmentPathsBelow(cfg, st.accumulated + [path], st.counter)
  {
    var acc := st.accumulated + [path];
    var downloaded := st.downloaded + {uri};
    if |acc| >= cfg.segmentsMax then
      var out := ChunkPath(cfg, st.counter);
      NotAChunk(cfg, acc, st.counter, st.counter);
      st.(fs := CombineAudioSegments(st.fs, acc, out), downloaded := downloaded,
          accumulated := [], queue := st.queue + [Chunk(out)])
    else st.(downloaded := downloaded, accumulated := acc)
  }

  /** One pass of the `for segment in m3u8_obj.segments` body. The boolean is
      true when the `if kill: break` fired. */
  function SegmentStep(cfg: TaskConfig, net: Network, st: Ingest, seg: Segment): (r: (Ingest, bool))
    requires SegmentPathsBelow(cfg, st.accumulated, st.counter)
  {
    if seg.uri in st.downloaded then (st, false)
    else
      var d := Attempt(cfg, net, st, seg);
      var st1 := Attempted(st, d);
      if !d.ok then (st1, false)
      else if st1.kill then (st1, true)
      else
        BelowGrows(cfg, st.accumulated, st.counter, seg.uri);
        (Accumulate(cfg, st1, seg.uri, SegmentPath(cfg, seg.uri, st.counter)), false)
  }

  /** Segment paths are never chunk paths. */
  lemma NotAChunk(cfg: TaskConfig, acc: seq<string>, bound: nat, counter: nat)
    requires SegmentPathsBelow(cfg, acc, bound)
    ensures ChunkPath(cfg, counter) !in acc
  {
    if ChunkPath(cfg, counter) in acc {
      var i :| 0 <= i < |acc| && acc[i] == ChunkPath(cfg, counter);
      var u: string, c: nat :| c < bound && acc[i] == SegmentPath(cfg, u, c);
      SegmentIsNotCombined(cfg.tempDir, cfg.taskId, cfg.digest(u), c, counter);
    }
  }

  /** The path of the segment being downloaded is not in the buffer. */
  lemma FreshSegmentPath(cfg: TaskConfig, st: Ingest, uri: string)
    requires SegmentPathsBelow(cfg, st.accumulated, st.counter)
    ensures SegmentPath(cfg, uri, st.counter) !in st.accumulated
  {
    if SegmentPath(cfg, uri, st.counter) in st.accumulated {
      var i :| 0 <= i < |st.accumulated| && st.accumulated[i] == SegmentPath(cfg, uri, st.counter);
      var u: string, c: nat :| c < st.counter && st.accumulated[i] == SegmentPath(cfg, u, c);
      SegmentFileNameInjective(cfg.tempDir, cfg.taskId, cfg.digest(u), c, cfg.digest(uri), st.counter);
    }
  }

  lemma AppendedStaysDistinct(acc: seq<string>, p: string)
    requires Distinct(acc) && p !in acc
    ensures Distinct(acc + [p])
  {
    var a := acc + [p];
    forall i, j | 0 <= i < j < |a|
      ensures a[i] != a[j]
    {
      if j == |acc| {
        assert a[i] == acc[i];
        assert acc[i] in acc;
      }
    }
  }

  lemma BelowGrows(cfg: TaskConfig, acc: seq<string>, counter: nat, uri: string)
    requires SegmentPathsBelow(cfg, acc, counter)
    ensures SegmentPathsBelow(cfg, acc, counter + 1)
    ensures SegmentPathsBelow(cfg, acc + [SegmentPath(cfg, uri, counter)], counter + 1)
  {
    var a := acc + [SegmentPath(cfg, uri, counter)];
    forall i | 0 <= i < |a|
      ensures exists u: string, c: nat :: c < counter + 1 && a[i] == SegmentPath(cfg, u, c)
    {
      if i < |acc| {
        var u: string, c: nat :| c < counter && acc[i] == SegmentPath(cfg, u, c);
        assert a[i] == SegmentPath(cfg, u, c);
      } else {
        assert a[i] == SegmentPath(cfg, uri, counter);
      }
    }
  }

  /** A URI already downloaded is skipped: nothing changes and nothing is
      requested. An unseen URI is attempted: the counter moves on by one
      and between one and `max_retries + 1` requests are made. If that
      download fails the URI is not recorded, the buffer and the queue are
      unchanged and no file is left at its path, so the next poll of a
      manifest listing it attempts it again. */
  lemma SegmentAttempted(cfg: TaskConfig, net: Network, st: Ingest, seg: Segment)
    requires SegmentPathsBelow(cfg, st.accumulated, st.counter)
    ensures var (st', brk) := SegmentStep(cfg, net, st, seg);
      && (seg.uri in st.downloaded ==> st' == st && !brk)
      && (seg.uri !in st.downloaded ==>
            && st'.counter == st.counter + 1
            && st.requests < st'.requests <= st.requests + MaxRetries + 1
            && (!Attempt(cfg, net, st, seg).ok ==>
                  && seg.uri !in st'.downloaded && st'.accumulated == st.accumulated
                  && st'.queue == st.queue && SegmentPath(cfg, seg.uri, st.counter) !in st'.fs))
  {
    if seg.uri !in st.downloaded {
      DownloadContract(Responses(net, seg.absoluteUri, st.requests), MaxRetries, st.fs,
                       SegmentPath(cfg, seg.uri, st.counter), st.kill);
    }
  }

  /** Once `kill` is set, the producer never records, buffers or queues
      anything again, and `kill` stays set. */
  lemma KilledStepChangesNothing(cfg: TaskConfig, net: Network, st: Ingest, seg: Segment)
    requires SegmentPathsBelow(cfg, st.accumulated, st.counter)
    requires st.kill
    ensures var (st', _) := SegmentStep(cfg, net, st, seg);
      && st'.kill && st'.downloaded == st.downloaded
      && st'.accumulated == st.accumulated && st'.queue == st.queue
  {
    if seg.uri !in st.downloaded {
      DownloadContract(Responses(net, seg.absoluteUri, st.requests), MaxRetries, st.fs,
                       SegmentPath(cfg, seg.uri, st.counter), st.kill);
    }
  }

  /** A failed download, or a successful one cut short by `kill`, keeps the
      invariant: the only file it touches is the fresh segment path. */
  lemma AttemptedInv(cfg: TaskConfig, st: Ingest, uri: string, d: Outcome)
    requires Inv(cfg, st)
    requires d.fs - {SegmentPath(cfg, uri, st.counter)} == st.fs - {SegmentPath(cfg, uri, st.counter)}
    ensures Inv(cfg, Attempted(st, d))
  {
    FreshSegmentPath(cfg, st, uri);
    BelowGrows(cfg, st.accumulated, st.counter, uri);
    forall i | 0 <= i < |st.accumulated|
      ensures st.accumulated[i] in d.fs
    {
      assert st.accumulated[i] in st.fs;
      assert st.accumulated[i] in st.fs - {SegmentPath(cfg, uri, st.counter)};
    }
  }

  /** What recording a fresh downloaded segment needs of the state. */
  ghost predicate Recordable(cfg: TaskConfig, st: Ingest, uri: string, path: string)
  {
    && Inv(cfg, st)
    && path in st.fs && path !in st.accumulated && uri !in st.downloaded
    && SegmentPathsBelow(cfg, st.accumulated + [path], st.counter)
  }

  /** Buffering a segment below the threshold keeps the invariant. */
  lemma BufferInv(cfg: TaskConfig, st: Ingest, uri: string, path: string)
    requires Recordable(cfg, st, uri, path)
    requires |st.accumulated| + 1 < cfg.segmentsMax
    ensures Inv(cfg, Accumulate(cfg, st, uri, path))
  {
    var acc := st.accumulated + [path];
    AppendedStaysDistinct(st.accumulated, path);
    assert |st.downloaded + {uri}| == |st.downloaded| + 1;
    forall i | 0 <= i < |acc|
      ensures acc[i] in st.fs
    {
      if i < |st.accumulated| {
        assert acc[i] == st.accumulated[i];
      }
    }
  }

  /** Flushing the buffer into a chunk keeps the invariant: one more queued
      chunk accounts for exactly one batch of recorded URIs. */
  lemma FlushInv(cfg: TaskConfig, st: Ingest, uri: string, path: string)
    requires Recordable(cfg, st, uri, path)
    requires |st.accumulated| + 1 >= cfg.segmentsMax
    ensures Inv(cfg, Accumulate(cfg, st, uri, path))
  {
    var out := ChunkPath(cfg, st.counter);
    var q := st.queue + [Chunk(out)];
    assert |st.downloaded + {uri}| == |st.downloaded| + 1;
    assert |st.accumulated| + 1 == BatchSize(cfg);
    assert (|st.queue| + 1) * BatchSize(cfg) == |st.queue| * BatchSize(cfg) + BatchSize(cfg);
    forall i | 0 <= i < |q|
      ensures exists c: nat :: q[i] == Chunk(ChunkPath(cfg, c))
    {
      if i == |st.queue| {
        assert q[i] == Chunk(ChunkPath(cfg, st.counter));
      } else {
        assert q[i] == st.queue[i];
      }
    }
  }

  /** Every segment step keeps the producer's invariant. */
  lemma SegmentStepInv(cfg: TaskConfig, net: Network, st: Ingest, seg: Segment)
    requires Inv(cfg, st)
    ensures Inv(cfg, SegmentStep(cfg, net, st, seg).0)
  {
    if seg.uri !in st.downloaded {
      var path := SegmentPath(cfg, seg.uri, st.counter);
      var d := Attempt(cfg, net, st, seg);
      DownloadContract(Responses(net, seg.absoluteUri, st.requests), MaxRetries, st.fs, path, st.kill);
      AttemptedInv(cfg, st, seg.uri, d);
      if d.ok && !d.unauthorized {
        var st1 := Attempted(st, d);
        FreshSegmentPath(cfg, st, seg.uri);
        BelowGrows(cfg, st.accumulated, st.counter, seg.uri);
        assert Recordable(cfg, st1, seg.uri, path);
        if |st1.accumulated| + 1 >= cfg.segmentsMax {
          FlushInv(cfg, st1, seg.uri, path);
        } else {
          BufferInv(cfg, st1, seg.uri, path);
        }
      }
    }
  }

  /** The flush: the chunk is named with the counter already incremented for
      the segment that completed it, holds the buffered segments' bytes in
      buffer order, is queued, and the buffered segment files are deleted. */
  lemma FlushContents(cfg: TaskConfig, st: Ingest, uri: string, path: string)
    requires Recordable(cfg, st, uri, path)
    requires |st.accumulated| + 1 >= cfg.segmentsMax
    ensures var r := Accumulate(cfg, st, uri, path);
      var acc := st.accumulated + [path];
      var out := ChunkPath(cfg, st.counter);
      && |acc| == BatchSize(cfg)
      && r.queue == st.queue + [Chunk(out)] && r.accumulated == []
      && out in r.fs && r.fs[out] == Flatten(Present(st.fs, acc))
      && |Present(st.fs, acc)| == |acc|
      && (forall i :: 0 <= i < |acc| ==> Present(st.fs, acc)[i] == st.fs[acc[i]] && acc[i] !in r.fs)
  {
    var acc := st.accumulated + [path];
    var out := ChunkPath(cfg, st.counter);
    NotAChunk(cfg, acc, st.counter, st.counter);
    forall q | q in acc
      ensures q in st.fs
    {
      var i :| 0 <= i < |acc| && acc[i] == q;
      if i < |st.accumulated| {
        assert acc[i] == st.accumulated[i];
      }
    }
    CombineContract(st.fs, acc, out);
    PresentAll(st.fs, acc);
    forall i | 0 <= i < |acc|
      ensures acc[i] !in CombineAudioSegments(st.fs, acc, out)
    {
      assert acc[i] in acc;
    }
  }

  /** The batch rule: a segment step queues a chunk exactly when it
      downloads an unseen URI successfully with `kill` clear and that
      download fills the buffer to one batch; the chunk then holds that
      batch's bytes (`FlushContents`). */
  lemma ChunkAtThreshold(cfg: TaskConfig, net: Network, st: Ingest, seg: Segment)
    requires Inv(cfg, st)
    ensures var (st', _) := SegmentStep(cfg, net, st, seg);
      var d := Attempt(cfg, net, st, seg);
      && (|st'.queue| > |st.queue| <==>
            seg.uri !in st.downloaded && d.ok && !st.kill && |st.accumulated| + 1 == BatchSize(cfg))
      && (|st'.queue| > |st.queue| ==>
            && st'.queue == st.queue + [Chunk(ChunkPath(cfg, st.counter + 1))]
            && st'.accumulated == []
            && st'.fs[ChunkPath(cfg, st.counter + 1)]
               == Flatten(Present(d.fs, st.accumulated + [SegmentPath(cfg, seg.uri, st.counter)])))
  {
    if seg.uri !in st.downloaded {
      var path := SegmentPath(cfg, seg.uri, st.counter);
      var d := Attempt(cfg, net, st, seg);
      DownloadContract(Responses(net, seg.absoluteUri, st.requests), MaxRetries, st.fs, path, st.kill);
      if d.ok && !d.unauthorized {
        var st1 := Attempted(st, d);
        AttemptedInv(cfg, st, seg.uri, d);
        FreshSegmentPath(cfg, st, seg.uri);
        BelowGrows(cfg, st.accumulated, st.counter, seg.uri);
        assert Recordable(cfg, st1, seg.uri, path);
        if |st1.accumulated| + 1 >= cfg.segmentsMax {
          FlushContents(cfg, st1, seg.uri, path);
        }
      }
    }
  }

  /** The `for` loop over one manifest's segments, stopping at the `kill` break. */
  function ManifestPass(cfg: TaskConfig, net: Network, st: Ingest, segs: seq<Segment>): (r: Ingest)
    requires Inv(cfg, st)
    ensures Inv(cfg, r)
    decreases |segs|
  {
    if segs == [] then st
    else
      SegmentStepInv(cfg, net, st, segs[0]);
      var (st1, brk) := SegmentStep(cfg, net, st, segs[0]);
      if brk then st1 else ManifestPass(cfg, net, st1, segs[1..])
  }

  /** Re-polling a manifest whose URIs were all downloaded before makes no
      request and changes nothing. */
  lemma {:induction false} RepollIsIdle(cfg: TaskConfig, net: Network, st: Ingest, segs: seq<Segment>)
    requires Inv(cfg, st)
    requires forall i :: 0 <= i < |segs| ==> segs[i].uri in st.downloaded
    ensures ManifestPass(cfg, net, st, segs) == st
    decreases |segs|
  {
    if segs != [] {
      RepollIsIdle(cfg, net, st, segs[1..]);
    }
  }

  /** A killed task keeps its recorded URIs, buffer and queue through a
      whole manifest pass. */
  lemma {:induction false} KilledPassChangesNothing(cfg: TaskConfig, net: Network, st: Ingest, segs: seq<Segment>)
    requires Inv(cfg, st) && st.kill
    ensures var r := ManifestPass(cfg, net, st, segs);
      r.kill && r.downloaded == st.downloaded && r.accumulated == st.accumulated && r.queue == st.queue
    decreases |segs|
  {
    if segs != [] {
      SegmentStepInv(cfg, net, st, segs[0]);
      KilledStepChangesNothing(cfg, net, st, segs[0]);
      var (st1, brk) := SegmentStep(cfg, net, st, segs[0]);
      if !brk {
        KilledPassChangesNothing(cfg, net, st1, segs[1..]);
      }
    }
  }

  /** `load_m3u8_with_retry(hls_url)` from poll number `polls` of the script
      of fetch outcomes. Failures are retried without limit; `None` is
      returned only when the script is used up, which stands for
      `shutdown_flag` having been set by `stop_transcription`. The second
      component is the number of fetches made so far. */
  function LoadWithRetry(script: seq<Fetch>, polls: nat): (r: (Option<seq<Segment>>, nat))
    requires polls <= |script|
    ensures polls <= r.1 <= |script|
    ensures r.0.None? <==> r.1 == |script| && (forall i :: polls <= i < |script| ==> script[i] == FetchFailed)
    ensures r.0.Some? ==> polls < r.1 && script[r.1 - 1] == Fetched(r.0.value)
                          && forall i :: polls <= i < r.1 - 1 ==> script[i] == FetchFailed
    decreases |script| - polls
  {
    if polls == |script| then (None, polls)
    else match script[polls]
      case Fetched(segs) => (Some(segs), polls + 1)
      case FetchFailed => LoadWithRetry(script, polls + 1)
  }

  /** The `while not shutdown_flag` loop: poll, then run the segment loop on
      the manifest; a `None` from the poller ends it. */
  function RunFrom(cfg: TaskConfig, net: Network, script: seq<Fetch>, polls: nat, st: Ingest): (r: Ingest)
    requires polls <= |script| && Inv(cfg, st)
    ensures Inv(cfg, r)
    decreases |script| - polls
  {
    var (m, next) := LoadWithRetry(script, polls);
    if m.None? then st
    else RunFrom(cfg, net, script, next, ManifestPass(cfg, net, st, m.value))
  }

  /** Over a whole run, once `kill` is set no URI is recorded, the buffer
      does not change and no chunk is produced any more. Files still can: a
      segment downloaded just before the `if kill: break` of lines 271-272
      stays on disk, outside the buffer, until the cleanup. */
  lemma {:induction false} KilledRunChangesNothing(cfg: TaskConfig, net: Network, script: seq<Fetch>,
                                                   polls: nat, st: Ingest)
    requires polls <= |script| && Inv(cfg, st) && st.kill
    ensures var r := RunFrom(cfg, net, script, polls, st);
      r.kill && r.downloaded == st.downloaded && r.accumulated == st.accumulated && r.queue == st.queue
    decreases |script| - polls
  {
    var (m, next) := LoadWithRetry(script, polls);
    if m.Some? {
      KilledPassChangesNothing(cfg, net, st, m.value);
      KilledRunChangesNothing(cfg, net, script, next, ManifestPass(cfg, net, st, m.value));
    }
  }

  lemma InitialInv(cfg: TaskConfig, fs: FileSystem, kill: bool)
    ensures Inv(cfg, Initial(fs, kill))
  {
  }

  /** Queued chunks of a task whose id has no '/' are in its temporary
      directory, so the cleanup deletes them. */
  lemma QueuedChunksInDir(cfg: TaskConfig, queue: seq<Entry>)
    requires QueuedChunks(cfg, queue) && '/' !in cfg.taskId
    ensures ChunksIn(queue, cfg.tempDir) && Sentinel !in queue
  {
    forall i | 0 <= i < |queue| && queue[i].Chunk?
      ensures InDir(queue[i].path, cfg.tempDir)
    {
      var c: nat :| queue[i] == Chunk(ChunkPath(cfg, c));
      CombinedFileInDir(cfg.tempDir, cfg.taskId, c);
    }
  }
}
