/** `src/response_handler.py`: the resumable loop that sends every request of a benchmark
    to the model under test and appends each response, as one JSON line, to a cache file.
    The executor behind `predict` is a parameter; a call either returns a response or
    raises, and a raise ends `fetch_and_save` with that exception. */
module ResponseHandling {
  import opened Wrappers
  import opened JsonValues
  import opened Utils

  /** What one call of the executor's `predict` does with a request. */
  datatype Outcome = Returned(response: Json) | Raised(message: string)

  /** What a stretch of the run produced: the responses collected in order and, when the
      stretch ended in an exception, its message. */
  datatype Run = Run(produced: seq<Json>, failure: Option<string>)

  /** The settings fixed when the handler is built: the executor, `batch_size`,
      `use_async`, and the `json` module that writes and reads the cache file. */
  datatype HandlerConfig = HandlerConfig(predict: Json -> Outcome, batchSize: int, useAsync: bool, codec: Codec)

  /** What `fetch_and_save` can raise: an unreadable cache file, or the executor's
      exception. */
  datatype FetchError = CacheUnreadable(cause: LoadError) | ExecutorRaised(message: string)

  // ---------------------------------------------------------------------------
  // Running requests

  /** `responses` answers the first `|responses|` requests, one each and in order. */
  predicate AnsweredPrefix(predict: Json -> Outcome, requests: seq<Json>, responses: seq<Json>) {
    |responses| <= |requests|
    && forall k :: 0 <= k < |responses| ==> predict(requests[k]) == Returned(responses[k])
  }

  /** The requests sent one after another: each response is collected until the first
      request that raises, which ends the run. */
  function RunSequential(predict: Json -> Outcome, requests: seq<Json>): (run: Run)
    ensures AnsweredPrefix(predict, requests, run.produced)
    ensures run.failure.None? ==> |run.produced| == |requests|
    ensures run.failure.Some? ==> |run.produced| < |requests|
                                  && predict(requests[|run.produced|]) == Raised(run.failure.value)
    decreases |requests|
  {
    if requests == [] then Run([], None)
    else
      var n := |requests| - 1;
      var prior := RunSequential(predict, requests[..n]);
      if prior.failure.Some? then prior
      else
        match predict(requests[n])
        case Raised(m) => Run(prior.produced, Some(m))
        case Returned(r) => Run(prior.produced + [r], None)
  }

  /** The responses of a sequential run are fixed by the requests: two runs that both
      answer a prefix and stop exactly where a request raises are the same run. */
  lemma {:induction false} RunsAgree(predict: Json -> Outcome, requests: seq<Json>, a: Run, b: Run)
    requires AnsweredPrefix(predict, requests, a.produced) && AnsweredPrefix(predict, requests, b.produced)
    requires a.failure.None? ==> |a.produced| == |requests|
    requires b.failure.None? ==> |b.produced| == |requests|
    requires a.failure.Some? ==> |a.produced| < |requests|
                                 && predict(requests[|a.produced|]) == Raised(a.failure.value)
    requires b.failure.Some? ==> |b.produced| < |requests|
                                 && predict(requests[|b.produced|]) == Raised(b.failure.value)
    ensures a == b
  {
    var n := if |a.produced| < |b.produced| then |a.produced| else |b.produced|;
    if n < |requests| {
      assert predict(requests[n]).Raised?;
    }
    assert |a.produced| == |b.produced|;
    assert a.produced == b.produced;
  }

  /** `Run(p, none)` followed by `run`. */
  function Then(p: seq<Json>, run: Run): Run {
    Run(p + run.produced, run.failure)
  }

  /** Running `xs + ys` is running `xs` and, when nothing raised, then `ys`. */
  lemma {:induction false} RunSequentialAppend(predict: Json -> Outcome, xs: seq<Json>, ys: seq<Json>)
    ensures RunSequential(predict, xs + ys)
            == (var first := RunSequential(predict, xs);
                if first.failure.Some? then first else Then(first.produced, RunSequential(predict, ys)))
  {
    var first := RunSequential(predict, xs);
    var second := RunSequential(predict, ys);
    AnsweredPrefixWiden(predict, xs, ys, first.produced);
    if first.failure.Some? {
      assert (xs + ys)[|first.produced|] == xs[|first.produced|];
      RunsAgree(predict, xs + ys, RunSequential(predict, xs + ys), first);
    } else {
      var joined := Then(first.produced, second);
      AnsweredPrefixConcat(predict, xs, ys, first.produced, second.produced);
      if second.failure.Some? {
        assert (xs + ys)[|joined.produced|] == ys[|second.produced|];
      }
      RunsAgree(predict, xs + ys, RunSequential(predict, xs + ys), joined);
    }
  }

  lemma {:induction false} AnsweredPrefixWiden(predict: Json -> Outcome, xs: seq<Json>, ys: seq<Json>, p: seq<Json>)
    requires AnsweredPrefix(predict, xs, p)
    ensures AnsweredPrefix(predict, xs + ys, p)
  {
    forall k | 0 <= k < |p| ensures predict((xs + ys)[k]) == Returned(p[k]) {
      assert (xs + ys)[k] == xs[k];
    }
  }

  lemma {:induction false} AnsweredPrefixConcat(predict: Json -> Outcome, xs: seq<Json>, ys: seq<Json>, p: seq<Json>, q: seq<Json>)
    requires AnsweredPrefix(predict, xs, p) && |p| == |xs| && AnsweredPrefix(predict, ys, q)
    ensures AnsweredPrefix(predict, xs + ys, p + q)
  {
    forall k | 0 <= k < |p + q| ensures predict((xs + ys)[k]) == Returned((p + q)[k]) {
      if k < |p| {
        assert (xs + ys)[k] == xs[k] && (p + q)[k] == p[k];
      } else {
        assert (xs + ys)[k] == ys[k - |p|] && (p + q)[k] == q[k - |p|];
      }
    }
  }

  /** `asyncio.gather` over one batch: every request of the batch is sent, and the first
      exception discards all the batch's results. */
  function Gather(predict: Json -> Outcome, batch: seq<Json>): (run: Run) {
    var r := RunSequential(predict, batch);
    if r.failure.Some? then Run([], r.failure) else r
  }

  /** One batch, through `process_batch` or through `process_batch_async`. */
  function RunBatch(predict: Json -> Outcome, batch: seq<Json>, gathered: bool): Run {
    if gathered then Gather(predict, batch) else RunSequential(predict, batch)
  }

  /** The batches one after another, stopping at the first one that raises. */
  function RunInBatches(predict: Json -> Outcome, batches: seq<seq<Json>>, gathered: bool): Run
    decreases |batches|
  {
    if batches == [] then Run([], None)
    else
      var n := |batches| - 1;
      var prior := RunInBatches(predict, batches[..n], gathered);
      if prior.failure.Some? then prior else Then(prior.produced, RunBatch(predict, batches[n], gathered))
  }

  /** The requests of consecutive batches, in order. */
  function Flatten(batches: seq<seq<Json>>): (xs: seq<Json>)
    decreases |batches|
  {
    if batches == [] then [] else batches[0] + Flatten(batches[1..])
  }

  lemma {:induction false} FlattenSnoc(batches: seq<seq<Json>>, b: seq<Json>)
    ensures Flatten(batches + [b]) == Flatten(batches) + b
    decreases |batches|
  {
    if batches == [] {
      assert [] + [b] == [b];
    } else {
      assert (batches + [b])[1..] == batches[1..] + [b];
      FlattenSnoc(batches[1..], b);
    }
  }

  /** `[xs[i:i + size] for i in range(0, len(xs), size)]`. */
  function Batches(xs: seq<Json>, size: int): seq<seq<Json>>
    requires size > 0
    decreases |xs|
  {
    if xs == [] then []
    else
      var n := if |xs| < size then |xs| else size;
      [xs[..n]] + Batches(xs[n..], size)
  }

  /** The batches are consecutive slices of the requests: none is empty, none is longer
      than the batch size, only the last may be shorter, and together they are the
      requests in order. */
  lemma {:induction false} BatchesPartition(xs: seq<Json>, size: int)
    requires size > 0
    ensures Flatten(Batches(xs, size)) == xs
    ensures forall k :: 0 <= k < |Batches(xs, size)| ==> 0 < |Batches(xs, size)[k]| <= size
    ensures forall k :: 0 <= k < |Batches(xs, size)| - 1 ==> |Batches(xs, size)[k]| == size
    decreases |xs|
  {
    if xs != [] {
      var n := if |xs| < size then |xs| else size;
      BatchesPartition(xs[n..], size);
      var bs := Batches(xs, size);
      assert bs[1..] == Batches(xs[n..], size);
      assert xs == xs[..n] + xs[n..];
    }
  }

  /** Batches sent through `process_batch` behave as the requests sent one by one. */
  lemma {:induction false} SequentialBatchesAreSequential(predict: Json -> Outcome, batches: seq<seq<Json>>)
    ensures RunInBatches(predict, batches, false) == RunSequential(predict, Flatten(batches))
    decreases |batches|
  {
    if batches != [] {
      var n := |batches| - 1;
      assert batches == batches[..n] + [batches[n]];
      FlattenSnoc(batches[..n], batches[n]);
      SequentialBatchesAreSequential(predict, batches[..n]);
      RunSequentialAppend(predict, Flatten(batches[..n]), batches[n]);
    }
  }

  /** Gathered batches raise exactly when the one-by-one run raises; what they keep is a
      prefix of what the one-by-one run keeps (whole batches only), and all of it when
      nothing raises. */
  lemma {:induction false} GatheredBatchesArePrefix(predict: Json -> Outcome, batches: seq<seq<Json>>)
    ensures var g := RunInBatches(predict, batches, true);
            var s := RunSequential(predict, Flatten(batches));
            g.failure.Some? == s.failure.Some?
            && |g.produced| <= |s.produced| && g.produced == s.produced[..|g.produced|]
            && (s.failure.None? ==> g == s)
    decreases |batches|
  {
    if batches != [] {
      var n := |batches| - 1;
      assert batches == batches[..n] + [batches[n]];
      FlattenSnoc(batches[..n], batches[n]);
      GatheredBatchesArePrefix(predict, batches[..n]);
      RunSequentialAppend(predict, Flatten(batches[..n]), batches[n]);
    }
  }

  /** How the remaining requests are run: one by one when `batch_size <= 1`, otherwise in
      batches, each through `process_batch` or, with `use_async`, through `asyncio.gather`. */
  function Execute(cfg: HandlerConfig, pending: seq<Json>): Run {
    if cfg.batchSize > 1 then RunInBatches(cfg.predict, Batches(pending, cfg.batchSize), cfg.useAsync)
    else RunSequential(cfg.predict, pending)
  }

  /** In every mode the responses collected answer the requests one each, in request
      order; the run raises exactly when some request raises, and otherwise answers all. */
  lemma {:induction false} ExecuteAnswersInOrder(cfg: HandlerConfig, pending: seq<Json>)
    ensures AnsweredPrefix(cfg.predict, pending, Execute(cfg, pending).produced)
    ensures Execute(cfg, pending).failure.None? <==> forall k :: 0 <= k < |pending| ==> cfg.predict(pending[k]).Returned?
    ensures Execute(cfg, pending).failure.None? ==> |Execute(cfg, pending).produced| == |pending|
  {
    var s := RunSequential(cfg.predict, pending);
    if cfg.batchSize > 1 {
      var bs := Batches(pending, cfg.batchSize);
      BatchesPartition(pending, cfg.batchSize);
      if cfg.useAsync {
        GatheredBatchesArePrefix(cfg.predict, bs);
      } else {
        SequentialBatchesAreSequential(cfg.predict, bs);
      }
    }
    if s.failure.Some? {
      assert !cfg.predict(pending[|s.produced|]).Returned?;
    }
  }

  /** When no request raises, batching and gathering change nothing: every mode gives the
      one-by-one run. */
  lemma {:induction false} ExecuteModeIndependent(cfg: HandlerConfig, pending: seq<Json>)
    requires forall k :: 0 <= k < |pending| ==> cfg.predict(pending[k]).Returned?
    ensures Execute(cfg, pending) == RunSequential(cfg.predict, pending)
  {
    if cfg.batchSize > 1 {
      var bs := Batches(pending, cfg.batchSize);
      BatchesPartition(pending, cfg.batchSize);
      if cfg.useAsync {
        GatheredBatchesArePrefix(cfg.predict, bs);
      } else {
        SequentialBatchesAreSequential(cfg.predict, bs);
      }
    }
    ExecuteAnswersInOrder(cfg, pending);
  }

  // ---------------------------------------------------------------------------
  // The cache and fetch_and_save

  /** `load_cached_response`: the parsed lines of a non-empty cache file, whatever their
      number; `[]` when the file is absent or empty (an empty file is deleted on the way). */
  function LoadCached(files: map<string, string>, path: string, loads: string -> Option<Json>)
    : (Result<seq<Json>, LoadError>, map<string, string>)
  {
    if path in files && files[path] != "" then (ParseLines(ReadLines(files[path]), loads), files)
    else if path in files then (Success([]), files - {path})
    else (Success([]), files)
  }

  /** `api_request_list[start:start + 1]` in sample mode, `api_request_list[start:]`
      otherwise; a start past the end gives `[]`. */
  function Pending(requests: seq<Json>, start: nat, sample: bool): (pending: seq<Json>)
  {
    if start >= |requests| then []
    else if sample then requests[start..start + 1]
    else requests[start..]
  }

  /** The text of a path, `""` for an absent one. */
  function TextOf(files: map<string, string>, path: string): string {
    if path in files then files[path] else ""
  }

  /** Everything after the cache check: open the file (`'a'` or `'w'`), run the pending
      requests, append one line per response; an exception leaves the lines already
      written and propagates. */
  function Resume(cfg: HandlerConfig, files: map<string, string>, requests: seq<Json>, path: string,
                  mode: WriteMode, outputs: seq<Json>, sample: bool)
    : (Result<seq<Json>, FetchError>, map<string, string>)
  {
    var run := Execute(cfg, Pending(requests, |outputs|, sample));
    var kept := if mode == Truncate then "" else TextOf(files, path);
    var after := files[path := kept + JsonlText(run.produced, cfg.codec.dumps)];
    match run.failure
    case Some(m) => (Failure(ExecutorRaised(m)), after)
    case None => (Success(outputs + run.produced), after)
  }

  /** `fetch_and_save`: what it returns (or raises) and the files it leaves. */
  function Fetch(cfg: HandlerConfig, files: map<string, string>, requests: seq<Json>, path: string,
                 reset: bool, sample: bool)
    : (Result<seq<Json>, FetchError>, map<string, string>)
  {
    if reset then Resume(cfg, files, requests, path, Truncate, [], sample)
    else
      var (cached, files') := LoadCached(files, path, cfg.codec.loads);
      match cached
      case Failure(e) => (Failure(CacheUnreadable(e)), files')
      case Success(outputs) =>
        if |outputs| == |requests| then (Success(outputs), files')
        else Resume(cfg, files', requests, path, Append, outputs, sample)
  }

  /** The responses `fetch_and_save` starts from: none under reset, else the cache. */
  function CachedPrefix(cfg: HandlerConfig, files: map<string, string>, path: string, reset: bool): seq<Json> {
    if reset then []
    else
      var cached := LoadCached(files, path, cfg.codec.loads).0;
      if cached.Success? then cached.value else []
  }

  /** A complete cache is returned as it is: no request is sent and no file changes. */
  lemma {:induction false} CompleteCacheIsReturned(cfg: HandlerConfig, files: map<string, string>, requests: seq<Json>,
                                path: string, sample: bool, cached: seq<Json>)
    requires path in files && files[path] != ""
    requires ParseLines(ReadLines(files[path]), cfg.codec.loads) == Success(cached)
    requires |cached| == |requests|
    ensures Fetch(cfg, files, requests, path, false, sample) == (Success(cached), files)
  {
  }

  /** A successful result is the cached prefix unchanged, then one response per request
      from the start index on, in request order: all remaining requests, or in sample mode
      exactly the one at the start index when it is in range. */
  lemma {:induction false} FetchResult(cfg: HandlerConfig, files: map<string, string>, requests: seq<Json>, path: string,
                    reset: bool, sample: bool, out: seq<Json>)
    requires Fetch(cfg, files, requests, path, reset, sample).0 == Success(out)
    ensures var c := CachedPrefix(cfg, files, path, reset);
            |c| <= |out| && out[..|c|] == c
            && (forall k :: |c| <= k < |out| ==> k < |requests| && cfg.predict(requests[k]) == Returned(out[k]))
            && (!sample ==> |out| == if |c| < |requests| then |requests| else |c|)
            && (sample ==> |out| == if |c| < |requests| then |c| + 1 else |c|)
  {
    FetchOutput(cfg, files, requests, path, reset, sample, out);
    ResumedResult(cfg, requests, CachedPrefix(cfg, files, path, reset), sample, out);
  }

  /** The shape of a result that is either a complete cache `c`, or `c` followed by the
      responses of a run over the pending requests that raised nothing. */
  lemma {:induction false} ResumedResult(cfg: HandlerConfig, requests: seq<Json>, c: seq<Json>, sample: bool, out: seq<Json>)
    requires var run := Execute(cfg, Pending(requests, |c|, sample));
             (|c| == |requests| && out == c) || (run.failure.None? && out == c + run.produced)
    ensures |c| <= |out| && out[..|c|] == c
            && (forall k :: |c| <= k < |out| ==> k < |requests| && cfg.predict(requests[k]) == Returned(out[k]))
            && (!sample ==> |out| == if |c| < |requests| then |requests| else |c|)
            && (sample ==> |out| == if |c| < |requests| then |c| + 1 else |c|)
  {
    var pending := Pending(requests, |c|, sample);
    var run := Execute(cfg, pending);
    if |c| == |requests| && out == c {
      assert out[..|c|] == c;
    } else {
      ExecuteAnswersInOrder(cfg, pending);
      PendingLength(requests, |c|, sample);
      assert out[..|c|] == c;
      forall k | |c| <= k < |out| ensures k < |requests| && cfg.predict(requests[k]) == Returned(out[k]) {
        assert out[k] == run.produced[k - |c|];
        PendingIndex(requests, |c|, sample, k - |c|);
      }
    }
  }

  /** How many requests are pending after a start index. */
  lemma {:induction false} PendingLength(requests: seq<Json>, start: nat, sample: bool)
    ensures !sample ==> |Pending(requests, start, sample)| == if start < |requests| then |requests| - start else 0
    ensures sample ==> |Pending(requests, start, sample)| == if start < |requests| then 1 else 0
  {
  }

  /** The pending requests are the requests from the start index on. */
  lemma {:induction false} PendingIndex(requests: seq<Json>, start: nat, sample: bool, j: nat)
    requires j < |Pending(requests, start, sample)|
    ensures start + j < |requests| && Pending(requests, start, sample)[j] == requests[start + j]
  {
  }

  /** What a successful `fetch_and_save` returns: the complete cache, or the cached
      prefix followed by the responses of a run that raised nothing. */
  lemma {:induction false} FetchOutput(cfg: HandlerConfig, files: map<string, string>, requests: seq<Json>, path: string,
                    reset: bool, sample: bool, out: seq<Json>)
    requires Fetch(cfg, files, requests, path, reset, sample).0 == Success(out)
    ensures var c := CachedPrefix(cfg, files, path, reset);
            var run := Execute(cfg, Pending(requests, |c|, sample));
            (!reset && |c| == |requests| && out == c) || (run.failure.None? && out == c + run.produced)
  {
    if reset {
      ResumeOutput(cfg, files, requests, path, Truncate, [], sample, out);
    } else {
      var (cached, files') := LoadCached(files, path, cfg.codec.loads);
      if |cached.value| != |requests| {
        ResumeOutput(cfg, files', requests, path, Append, cached.value, sample, out);
      }
    }
  }

  lemma {:induction false} ResumeOutput(cfg: HandlerConfig, files: map<string, string>, requests: seq<Json>, path: string,
                     mode: WriteMode, outputs: seq<Json>, sample: bool, out: seq<Json>)
    requires Resume(cfg, files, requests, path, mode, outputs, sample).0 == Success(out)
    ensures var run := Execute(cfg, Pending(requests, |outputs|, sample));
            run.failure.None? && out == outputs + run.produced
  {
  }

  /** Under reset, or with no cache file or an empty one, the run starts at index 0: every
      response answers the request at its own index. */
  lemma {:induction false} FreshStart(cfg: HandlerConfig, files: map<string, string>, requests: seq<Json>, path: string,
                   reset: bool, sample: bool, out: seq<Json>)
    requires reset || path !in files || files[path] == ""
    requires Fetch(cfg, files, requests, path, reset, sample).0 == Success(out)
    ensures AnsweredPrefix(cfg.predict, requests, out)
  {
    FetchResult(cfg, files, requests, path, reset, sample, out);
    assert CachedPrefix(cfg, files, path, reset) == [];
  }

  /** Responses answering a prefix, followed by responses answering the requests pending
      after it, answer a longer prefix. */
  lemma {:induction false} AnsweredPrefixExtends(predict: Json -> Outcome, requests: seq<Json>, c: seq<Json>, sample: bool, p: seq<Json>)
    requires AnsweredPrefix(predict, requests, c)
    requires AnsweredPrefix(predict, Pending(requests, |c|, sample), p)
    ensures AnsweredPrefix(predict, requests, c + p)
  {
    var pending := Pending(requests, |c|, sample);
    forall k | |c| <= k < |c| + |p| ensures predict(requests[k]) == Returned((c + p)[k]) {
      assert pending[k - |c|] == requests[k];
    }
  }

  /** What `Resume` leaves in the cache file: the responses it started from followed by
      the new ones, which together answer a prefix of the requests. */
  lemma {:induction false} ResumeAppendsResponses(cfg: HandlerConfig, files: map<string, string>, requests: seq<Json>, path: string,
                               mode: WriteMode, outputs: seq<Json>, sample: bool)
    requires AnsweredPrefix(cfg.predict, requests, outputs)
    requires mode == Append ==> TextOf(files, path) == JsonlText(outputs, cfg.codec.dumps)
    requires mode == Truncate ==> outputs == []
    ensures var run := Execute(cfg, Pending(requests, |outputs|, sample));
            var (r, after) := Resume(cfg, files, requests, path, mode, outputs, sample);
            TextOf(after, path) == JsonlText(outputs + run.produced, cfg.codec.dumps)
            && AnsweredPrefix(cfg.predict, requests, outputs + run.produced)
            && after - {path} == files - {path}
            && (r.Success? ==> r.value == outputs + run.produced)
  {
    var pending := Pending(requests, |outputs|, sample);
    var run := Execute(cfg, pending);
    ExecuteAnswersInOrder(cfg, pending);
    AnsweredPrefixExtends(cfg.predict, requests, outputs, sample, run.produced);
    JsonlTextAppend(outputs, run.produced, cfg.codec.dumps);
    var kept := if mode == Truncate then "" else TextOf(files, path);
    assert kept == JsonlText(outputs, cfg.codec.dumps);
    ResumeWrites(cfg, files, requests, path, mode, outputs, sample);
  }

  /** `Resume` rewrites the one path and leaves every other file as it was. */
  lemma {:induction false} ResumeWrites(cfg: HandlerConfig, files: map<string, string>, requests: seq<Json>, path: string,
                     mode: WriteMode, outputs: seq<Json>, sample: bool)
    ensures var run := Execute(cfg, Pending(requests, |outputs|, sample));
            var after := Resume(cfg, files, requests, path, mode, outputs, sample).1;
            TextOf(after, path) == (if mode == Truncate then "" else TextOf(files, path)) + JsonlText(run.produced, cfg.codec.dumps)
            && after - {path} == files - {path}
  {
    var run := Execute(cfg, Pending(requests, |outputs|, sample));
    var after := Resume(cfg, files, requests, path, mode, outputs, sample).1;
    assert after == files[path := (if mode == Truncate then "" else TextOf(files, path)) + JsonlText(run.produced, cfg.codec.dumps)];
  }

  /** The cache file stays a faithful record, whatever the mode and even when a request
      raises: if it held responses to a prefix of the requests before, it holds responses to
      a (possibly longer) prefix after, the other files are untouched, and a successful
      call returns exactly what the file now holds. */
  lemma {:induction false} CacheStaysAligned(cfg: HandlerConfig, files: map<string, string>, requests: seq<Json>, path: string,
                          reset: bool, sample: bool, c: seq<Json>)
    requires LineSafe(cfg.codec)
    requires TextOf(files, path) == JsonlText(c, cfg.codec.dumps)
    requires AnsweredPrefix(cfg.predict, requests, c)
    ensures var (r, after) := Fetch(cfg, files, requests, path, reset, sample);
            var saved := ParseLines(ReadLines(TextOf(after, path)), cfg.codec.loads);
            saved.Success? && AnsweredPrefix(cfg.predict, requests, saved.value)
            && after - {path} == files - {path}
            && (r.Success? ==> saved.value == r.value)
  {
    var (r, after) := Fetch(cfg, files, requests, path, reset, sample);
    JsonlRoundTrip(c, cfg.codec);
    JsonlTextShape(c, cfg.codec.dumps);
    if reset {
      ResumeAppendsResponses(cfg, files, requests, path, Truncate, [], sample);
      var run := Execute(cfg, Pending(requests, 0, sample));
      JsonlRoundTrip([] + run.produced, cfg.codec);
    } else {
      var (cached, files') := LoadCached(files, path, cfg.codec.loads);
      assert cached == Success(c);
      assert TextOf(files', path) == JsonlText(c, cfg.codec.dumps);
      if |c| != |requests| {
        ResumeAppendsResponses(cfg, files', requests, path, Append, c, sample);
        var run := Execute(cfg, Pending(requests, |c|, sample));
        JsonlRoundTrip(c + run.produced, cfg.codec);
      }
    }
  }

  /** One more batch of a run in batches that has not raised yet. */
  lemma {:induction false} RunInBatchesStep(predict: Json -> Outcome, batches: seq<seq<Json>>, gathered: bool, i: nat)
    requires i < |batches| && RunInBatches(predict, batches[..i], gathered).failure.None?
    ensures RunInBatches(predict, batches[..i + 1], gathered)
            == Then(RunInBatches(predict, batches[..i], gathered).produced, RunBatch(predict, batches[i], gathered))
  {
    assert batches[..i + 1][..i] == batches[..i];
  }

  /** Writing the lines of `ys` after those of `xs`. */
  lemma {:induction false} AppendedLines(base: string, xs: seq<Json>, ys: seq<Json>, dumps: Json -> string)
    ensures base + JsonlText(xs, dumps) + JsonlText(ys, dumps) == base + JsonlText(xs + ys, dumps)
  {
    JsonlTextAppend(xs, ys, dumps);
  }

  /** One more request of a sequential run: it either raises, which ends the whole run
      there, or answers, which extends the run by its response. */
  lemma {:induction false} RunSequentialStep(predict: Json -> Outcome, batch: seq<Json>, i: nat, results: seq<Json>)
    requires i < |batch| && RunSequential(predict, batch[..i]) == Run(results, None)
    ensures predict(batch[i]).Raised? ==>
              RunSequential(predict, batch) == Run(results, Some(predict(batch[i]).message))
    ensures predict(batch[i]).Returned? ==>
              RunSequential(predict, batch[..i + 1]) == Run(results + [predict(batch[i]).response], None)
  {
    assert batch[..i + 1][..i] == batch[..i];
    if predict(batch[i]).Raised? {
      RunSequentialAppend(predict, batch[..i + 1], batch[i + 1..]);
      assert batch[..i + 1] + batch[i + 1..] == batch;
    }
  }

  /** Writing the lines of `ys` after those of `xs` leaves the file holding the lines of
      `xs + ys`. */
  lemma {:induction false} FileGrows(files: map<string, string>, path: string, xs: seq<Json>, ys: seq<Json>,
                                     dumps: Json -> string)
    requires path in files
    ensures var before := files[path := files[path] + JsonlText(xs, dumps)];
            before[path := before[path] + JsonlText(ys, dumps)]
            == files[path := files[path] + JsonlText(xs + ys, dumps)]
  {
    AppendedLines(files[path], xs, ys, dumps);
  }

  lemma {:induction false} AppendedNothing(files: map<string, string>, path: string, dumps: Json -> string)
    requires path in files
    ensures files[path := files[path] + JsonlText([], dumps)] == files
  {
    assert files[path] + JsonlText([], dumps) == files[path];
  }

  // ---------------------------------------------------------------------------
  // The handler

  /** `ResponseHandler`: an executor with its batch settings, and the cache file it keeps. */
  class ResponseHandler {
    const predict: Json -> Outcome
    const batchSize: int
    const useAsync: bool
    const codec: Codec

    /** `__init__`: the factory's choice of executor is the `predict` passed in. */
    constructor (predict: Json -> Outcome, batchSize: int, useAsync: bool, codec: Codec)
      ensures Config() == HandlerConfig(predict, batchSize, useAsync, codec)
    {
      this.predict := predict;
      this.batchSize := batchSize;
      this.useAsync := useAsync;
      this.codec := codec;
    }

    function Config(): HandlerConfig {
      HandlerConfig(predict, batchSize, useAsync, codec)
    }

    /** `load_cached_response`: the loaded lines when a non-empty cache file exists (the
        count is only reported, never enforced), `[]` otherwise. */
    method LoadCachedResponse(fs: FileStore, path: string, maxSize: int) returns (r: Result<seq<Json>, LoadError>)
      modifies fs
      ensures (r, fs.files) == LoadCached(old(fs.files), path, codec.loads)
    {
      var present := fs.IsExistFile(path);
      if present {
        r := fs.LoadToJsonl(path, codec.loads);
      } else {
        r := Success([]);
      }
    }

    /** One response written as a line of the open file. */
    method WriteResponse(fs: FileStore, path: string, x: Json)
      requires path in fs.files
      modifies fs
      ensures fs.files == old(fs.files)[path := old(fs.files)[path] + JsonlText([x], codec.dumps)]
    {
      assert JsonlText([x], codec.dumps) == codec.dumps(x) + "\n" + JsonlText([], codec.dumps);
      assert codec.dumps(x) + "\n" + JsonlText([], codec.dumps) == codec.dumps(x) + "\n";
      fs.Write(path, codec.dumps(x) + "\n");
    }

    /** `process_batch`: each request in turn, its response collected and written at once,
        so the lines written before an exception stay in the file. */
    method ProcessBatch(fs: FileStore, batch: seq<Json>, path: string) returns (run: Run)
      requires path in fs.files
      modifies fs
      ensures run == RunSequential(predict, batch)
      ensures fs.files == old(fs.files)[path := old(fs.files)[path] + JsonlText(run.produced, codec.dumps)]
    {
      var results: seq<Json> := [];
      var i := 0;
      AppendedNothing(old(fs.files), path, codec.dumps);
      while i < |batch|
        invariant 0 <= i <= |batch|
        invariant RunSequential(predict, batch[..i]) == Run(results, None)
        invariant fs.files == old(fs.files)[path := old(fs.files)[path] + JsonlText(results, codec.dumps)]
      {
        RunSequentialStep(predict, batch, i, results);
        match predict(batch[i])
        case Raised(m) =>
          return Run(results, Some(m));
        case Returned(result) =>
          WriteResponse(fs, path, result);
          FileGrows(old(fs.files), path, results, [result], codec.dumps);
          results := results + [result];
        i := i + 1;
      }
      assert batch[..i] == batch;
      run := Run(results, None);
    }

    /** `process_batch_async`: all requests of the batch are awaited together and only
        then are the responses written, so a batch that raises writes nothing. */
    method ProcessBatchAsync(fs: FileStore, batch: seq<Json>, path: string) returns (run: Run)
      requires path in fs.files
      modifies fs
      ensures run == Gather(predict, batch)
      ensures fs.files == old(fs.files)[path := old(fs.files)[path] + JsonlText(run.produced, codec.dumps)]
    {
      var results: seq<Json> := [];
      var i := 0;
      while i < |batch|
        invariant 0 <= i <= |batch|
        invariant RunSequential(predict, batch[..i]) == Run(results, None)
        invariant fs.files == old(fs.files)
      {
        RunSequentialStep(predict, batch, i, results);
        match predict(batch[i])
        case Raised(m) =>
          AppendedNothing(old(fs.files), path, codec.dumps);
          return Run([], Some(m));
        case Returned(result) =>
          results := results + [result];
        i := i + 1;
      }
      assert batch[..i] == batch;
      var j := 0;
      assert results[..0] == [];
      AppendedNothing(old(fs.files), path, codec.dumps);
      while j < |results|
        invariant 0 <= j <= |results|
        invariant fs.files == old(fs.files)[path := old(fs.files)[path] + JsonlText(results[..j], codec.dumps)]
      {
        WriteResponse(fs, path, results[j]);
        FileGrows(old(fs.files), path, results[..j], [results[j]], codec.dumps);
        assert results[..j + 1] == results[..j] + [results[j]];
        j := j + 1;
      }
      assert results[..j] == results;
      run := Run(results, None);
    }

    /** One batch of the loop, through `process_batch_async` or `process_batch`. */
    method ProcessOneBatch(fs: FileStore, batch: seq<Json>, path: string) returns (run: Run)
      requires path in fs.files
      modifies fs
      ensures run == RunBatch(predict, batch, useAsync)
      ensures fs.files == old(fs.files)[path := old(fs.files)[path] + JsonlText(run.produced, codec.dumps)]
    {
      if useAsync {
        run := ProcessBatchAsync(fs, batch, path);
      } else {
        run := ProcessBatch(fs, batch, path);
      }
    }

    /** The batch loop of `fetch_and_save`: the batches in order, each one's responses
        added to `outputs`, until a batch raises. */
    method ProcessBatches(fs: FileStore, batches: seq<seq<Json>>, path: string) returns (run: Run)
      requires path in fs.files
      modifies fs
      ensures run == RunInBatches(predict, batches, useAsync)
      ensures fs.files == old(fs.files)[path := old(fs.files)[path] + JsonlText(run.produced, codec.dumps)]
    {
      var outputs: seq<Json> := [];
      var i := 0;
      AppendedNothing(old(fs.files), path, codec.dumps);
      while i < |batches|
        invariant 0 <= i <= |batches|
        invariant RunInBatches(predict, batches[..i], useAsync) == Run(outputs, None)
        invariant path in fs.files
        invariant fs.files == old(fs.files)[path := old(fs.files)[path] + JsonlText(outputs, codec.dumps)]
      {
        BatchLoopStep(predict, batches, useAsync, i, outputs);
        var batchRun := ProcessOneBatch(fs, batches[i], path);
        FileGrows(old(fs.files), path, outputs, batchRun.produced, codec.dumps);
        outputs := outputs + batchRun.produced;
        if batchRun.failure.Some? {
          run := Run(outputs, batchRun.failure);
          return;
        }
        i := i + 1;
      }
      assert batches[..i] == batches;
      run := Run(outputs, None);
    }

    /** `fetch_and_save`. */
    method FetchAndSave(fs: FileStore, requests: seq<Json>, path: string, reset: bool, sample: bool, debug: bool)
      returns (r: Result<seq<Json>, FetchError>)
      modifies fs
      ensures (r, fs.files) == Fetch(Config(), old(fs.files), requests, path, reset, sample)
    {
      var outputs: seq<Json> := [];
      if !reset {
        var cached := LoadCachedResponse(fs, path, |requests|);
        if cached.Failure? {
          return Failure(CacheUnreadable(cached.error));
        }
        outputs := cached.value;
        if |outputs| == |requests| {
          return Success(outputs);
        }
      }
      ghost var before := fs.files;
      var mode := if !reset then Append else Truncate;
      var pending := Pending(requests, |outputs|, sample);
      fs.Open(path, mode);
      ghost var kept := fs.files[path];
      var run;
      if batchSize > 1 {
        run := ProcessBatches(fs, Batches(pending, batchSize), path);
      } else {
        // the one-at-a-time path is `process_batch`'s loop
        run := ProcessBatch(fs, pending, path);
      }
      assert run == Execute(Config(), pending);
      assert fs.files == before[path := kept + JsonlText(run.produced, codec.dumps)];
      assert Fetch(Config(), old(fs.files), requests, path, reset, sample)
             == Resume(Config(), before, requests, path, mode, outputs, sample);
      if run.failure.Some? {
        return Failure(ExecutorRaised(run.failure.value));
      }
      r := Success(outputs + run.produced);
    }
  }

  /** One round of the batch loop: the next batch's run extends the outputs so far, and a
      batch that raises decides the whole run. */
  lemma {:induction false} BatchLoopStep(predict: Json -> Outcome, batches: seq<seq<Json>>, gathered: bool, i: nat,
                                         outputs: seq<Json>)
    requires i < |batches| && RunInBatches(predict, batches[..i], gathered) == Run(outputs, None)
    ensures var b := RunBatch(predict, batches[i], gathered);
            RunInBatches(predict, batches[..i + 1], gathered) == Run(outputs + b.produced, b.failure)
            && (b.failure.Some? ==> RunInBatches(predict, batches, gathered) == Run(outputs + b.produced, b.failure))
  {
    RunInBatchesStep(predict, batches, gathered, i);
    if RunBatch(predict, batches[i], gathered).failure.Some? {
      RunInBatchesKeepsFailure(predict, batches, gathered, i + 1);
    }
  }

  /** A run in batches that has raised by batch `i` is over: later batches change nothing. */
  lemma {:induction false} RunInBatchesKeepsFailure(predict: Json -> Outcome, batches: seq<seq<Json>>, gathered: bool, i: nat)
    requires i <= |batches| && RunInBatches(predict, batches[..i], gathered).failure.Some?
    ensures RunInBatches(predict, batches, gathered) == RunInBatches(predict, batches[..i], gathered)
    decreases |batches| - i
  {
    if i < |batches| {
      var n := |batches| - 1;
      assert batches[..n][..i] == batches[..i];
      RunInBatchesKeepsFailure(predict, batches[..n], gathered, i);
    } else {
      assert batches[..i] == batches;
    }
  }
}
