/** The per-segment retry loop `download_segment` of the stream module, as a
    function of the responses the network gives. */
module Download {
  import opened Common

  /** What one `requests.get` attempt yields. */
  datatype Response =
      /** The request returned with this status; for 200 the body was
          streamed to the output file in full. */
    | Status(code: int, body: Bytes)
      /** A `requests.exceptions.RequestException`: raised by `requests.get`
          (`written == None`) or while streaming a 200 body, after
          `written.value` had reached the output file. */
    | RequestFailure(written: Option<Bytes>)
      /** Any other exception, possibly after a partial write. */
    | OtherFailure(written: Option<Bytes>)

  /** The outcome of a run of attempts: the return value, the files
      afterwards, whether a 401 set `kill`, and how many requests were made. */
  datatype Outcome = Outcome(ok: bool, fs: FileSystem, unauthorized: bool, attempts: nat)

  /** A response after which the `for` loop goes on to the next attempt:
      a status other than 200 and 401 (no delay), or a `RequestException`
      (after `time.sleep(retry_delay)`). */
  predicate Retryable(r: Response)
  {
    match r
    case Status(code, _) => code != 200 && code != 401
    case RequestFailure(_) => true
    case OtherFailure(_) => false
  }

  function WritePartial(fs: FileSystem, path: string, written: Option<Bytes>): FileSystem
  {
    match written
    case None => fs
    case Some(part) => fs[path := part]
  }

  /** The `for retry_count in range(max_retries + 1)` loop from iteration
      `retry` on, where attempt `retry` gets response `net(retry)`.
      A 401 raises inside the `try`, is caught by the generic handler and
      breaks, like any other exception. */
  function AttemptsFrom(net: nat -> Response, retry: nat, maxRetries: nat,
                        fs: FileSystem, path: string): (o: Outcome)
    requires retry <= maxRetries + 1
    ensures retry <= o.attempts <= maxRetries + 1
    ensures o.fs - {path} == fs - {path}
    ensures o.ok ==> !o.unauthorized && retry < o.attempts && path in o.fs
                     && net(o.attempts - 1) == Status(200, o.fs[path])
    ensures o.unauthorized ==> !o.ok && retry < o.attempts
                               && net(o.attempts - 1).Status? && net(o.attempts - 1).code == 401
    decreases maxRetries + 1 - retry
  {
    if retry == maxRetries + 1 then Outcome(false, fs, false, retry)
    else
      match net(retry)
      case Status(code, body) =>
        if code == 200 then Outcome(true, fs[path := body], false, retry + 1)
        else if code == 401 then Outcome(false, fs, true, retry + 1)
        else AttemptsFrom(net, retry + 1, maxRetries, fs, path)
      case RequestFailure(written) =>
        AttemptsFrom(net, retry + 1, maxRetries, WritePartial(fs, path, written), path)
      case OtherFailure(written) =>
        Outcome(false, WritePartial(fs, path, written), false, retry + 1)
  }

  /** `download_segment(segment_url, output_path, max_retries)`: the attempt
      loop, then, when no attempt succeeded, removal of whatever is at
      `output_path`. `kill` is the global flag before the call. */
  function DownloadSegment(net: nat -> Response, maxRetries: nat,
                           fs: FileSystem, path: string, kill: bool): (o: Outcome)
  {
    var run := AttemptsFrom(net, 0, maxRetries, fs, path);
    if run.ok then run.(unauthorized := kill)
    else Outcome(false, run.fs - {path}, kill || run.unauthorized, run.attempts)
  }

  /** Between one and `max_retries + 1` requests are made; True is returned
      only after a 200 response whose body is then the whole content of the
      output file; no other file changes. */
  lemma DownloadContract(net: nat -> Response, maxRetries: nat,
                         fs: FileSystem, path: string, kill: bool)
    ensures var o := DownloadSegment(net, maxRetries, fs, path, kill);
      && 1 <= o.attempts <= maxRetries + 1
      && o.fs - {path} == fs - {path}
      && (o.ok ==> path in o.fs && net(o.attempts - 1) == Status(200, o.fs[path]))
      && (!o.ok ==> path !in o.fs)
      && (kill ==> o.unauthorized)
  {
    var run := AttemptsFrom(net, 0, maxRetries, fs, path);
    assert run.fs - {path} - {path} == run.fs - {path};
  }

  /** The first response that is not retryable decides the outcome: a 200
      succeeds, a 401 sets `kill` and stops, any other exception stops; the
      number of requests is one more than its index. */
  lemma {:induction false} FirstDecisiveResponse(net: nat -> Response, retry: nat, k: nat,
                                                 maxRetries: nat, fs: FileSystem, path: string)
    requires retry <= k <= maxRetries
    requires forall i :: retry <= i < k ==> Retryable(net(i))
    requires !Retryable(net(k))
    ensures var o := AttemptsFrom(net, retry, maxRetries, fs, path);
      && o.attempts == k + 1
      && (o.ok <==> net(k).Status? && net(k).code == 200)
      && (o.unauthorized <==> net(k).Status? && net(k).code == 401)
    decreases k - retry
  {
    if retry < k {
      assert Retryable(net(retry));
      var next := match net(retry)
                  case RequestFailure(written) => WritePartial(fs, path, written)
                  case _ => fs;
      FirstDecisiveResponse(net, retry + 1, k, maxRetries, next, path);
    }
  }

  /** A segment whose every attempt gets a retryable response is requested
      exactly `max_retries + 1` times, then dropped with no file left. */
  lemma {:induction false} AllRetryableExhausts(net: nat -> Response, retry: nat,
                                                maxRetries: nat, fs: FileSystem, path: string)
    requires retry <= maxRetries + 1
    requires forall i :: retry <= i <= maxRetries ==> Retryable(net(i))
    ensures var o := AttemptsFrom(net, retry, maxRetries, fs, path);
      o.attempts == maxRetries + 1 && !o.ok && !o.unauthorized
    decreases maxRetries + 1 - retry
  {
    if retry <= maxRetries {
      assert Retryable(net(retry));
      var next := match net(retry)
                  case RequestFailure(written) => WritePartial(fs, path, written)
                  case _ => fs;
      AllRetryableExhausts(net, retry + 1, maxRetries, next, path);
    }
  }

  /** The retry bound of the whole call: always-retryable responses give
      `max_retries + 1` requests, a False result and no output file. */
  lemma RetryBound(net: nat -> Response, maxRetries: nat,
                   fs: FileSystem, path: string, kill: bool)
    requires forall i :: 0 <= i <= maxRetries ==> Retryable(net(i))
    ensures var o := DownloadSegment(net, maxRetries, fs, path, kill);
      o.attempts == maxRetries + 1 && !o.ok && path !in o.fs && o.unauthorized == kill
  {
    AllRetryableExhausts(net, 0, maxRetries, fs, path);
  }

  /** A 401 on attempt `k` (after only retryable responses) ends the call at
      once: False, `kill` set, no output file, `k + 1` requests. */
  lemma UnauthorizedStops(net: nat -> Response, k: nat, maxRetries: nat,
                          fs: FileSystem, path: string, kill: bool)
    requires k <= maxRetries
    requires forall i :: 0 <= i < k ==> Retryable(net(i))
    requires net(k).Status? && net(k).code == 401
    ensures var o := DownloadSegment(net, maxRetries, fs, path, kill);
      !o.ok && o.unauthorized && o.attempts == k + 1 && path !in o.fs
  {
    FirstDecisiveResponse(net, 0, k, maxRetries, fs, path);
  }
}
