/**
 * The worker (client/worker.go): its two bounded buffers, the completion of a
 * processed record, one tick of the fetch loop, one pass of the submit loop,
 * and the requests it sends to the server.
 *
 * The buffers stand for Go channels. A send on a full channel and a receive
 * on an empty one block; here each is a precondition, and the loops that run
 * in goroutines are single steps a scheduler calls.
 */
module Worker {
  import opened Wrappers
  import opened Types
  import Http
  import Options

  /** What the processing function returns: a result, or an error with its message. */
  datatype Outcome<R> = Succeeded(result: R) | Failed(message: string)

  /** The record a processed job becomes. */
  function Completed<J, R>(j: Job<J, R>, out: Outcome<R>): (r: Job<J, R>)
    ensures r.id == j.id && r.job == j.job
    ensures out.Failed? ==> r.status == Error && r.error == out.message && r.result == j.result
    ensures out.Succeeded? ==> r.status == Complete && r.result == out.result && r.error == j.error
  {
    match out
    case Failed(msg) => j.(status := Error, error := msg)
    case Succeeded(res) => j.(status := Complete, result := res)
  }

  /** Completing a fetched (Pending) record moves it forward in the life cycle. */
  lemma CompletedAdvances<J, R>(j: Job<J, R>, out: Outcome<R>)
    requires j.status == Pending
    ensures Advances(j.status, Completed(j, out).status) && IsTerminal(Completed(j, out).status)
  {
  }

  function CompletedAll<J, R>(jobs: seq<Job<J, R>>, f: J -> Outcome<R>): (rs: seq<Job<J, R>>)
    ensures |rs| == |jobs|
    ensures forall i :: 0 <= i < |jobs| ==> rs[i] == Completed(jobs[i], f(jobs[i].job))
  {
    if jobs == [] then [] else [Completed(jobs[0], f(jobs[0].job))] + CompletedAll(jobs[1..], f)
  }

  /** How the HTTP exchange of one fetch tick went. `Delivered` carries a
      body that parsed as a JSON array (or null) of objects; `Unreadable` is a
      body that did not. */
  datatype FetchOutcome<J, R> =
    | RequestFailed
    | SendFailed
    | ReadFailed
    | Unreadable
    | Delivered(body: WireBatch<J, R>)

  /** The batch a tick enqueues, if decoding succeeds. */
  function Batch<J, R>(outcome: FetchOutcome<J, R>, c: Codec<J, R>): (b: Option<seq<Job<J, R>>>)
    ensures b.Some? <==> outcome.Delivered? && DecodeBatch(outcome.body, c).Some?
    ensures b.Some? ==> b == DecodeBatch(outcome.body, c)
  {
    match outcome
    case Delivered(body) => DecodeBatch(body, c)
    case _ => None
  }

  /** How one pass of the submit loop went. */
  datatype PostOutcome = MarshalFailed | PostRequestFailed | PostSendFailed | Sent

  /** The request of a fetch tick: `GET <url>/jobs` with the secret header. */
  function FetchRequest<J, R>(queueURL: string, authorization: string): (r: Http.Request<J, R>)
    ensures Http.HeaderGet(r.headers, WorkerAuthHeader) == authorization && r.verb == Http.MethodGet
    ensures r.body == Http.NoBody
  {
    Http.Request(map[WorkerAuthHeader := authorization], Http.MethodGet, queueURL + "/jobs", Http.NoBody)
  }

  /** The request of a submit: `POST <url>/results` with the encoded record. */
  function PostRequest<J, R>(queueURL: string, authorization: string, j: Job<J, R>, c: Codec<J, R>): (r: Http.Request<J, R>)
    ensures Http.HeaderGet(r.headers, WorkerAuthHeader) == authorization && r.verb == Http.MethodPost
    ensures r.body.JsonObject? && Decode(r.body.fields, c) == Some(if c.resultEmpty(j.result) then j.(result := c.zeroResult) else j)
  {
    DecodeEncode(j, c);
    Http.Request(map[WorkerAuthHeader := authorization], Http.MethodPost, queueURL + "/results", Http.JsonObject(Encode(j, c)))
  }

  /** The server routes a worker's fetch to the fetch handler exactly when the
      secrets agree, and turns it away otherwise. */
  lemma FetchRequestRoutes<J, R>(secret: string, queueURL: string, authorization: string)
    ensures Http.RouteOf(secret, FetchRequest<J, R>(queueURL, authorization))
            == if authorization == secret then Http.FetchNewJobs else Http.Unauthorized
  {
    assert queueURL + "/jobs" == queueURL + "/" + "jobs";
    Http.BaseOfSuffix(queueURL, "jobs");
  }

  /** A record the worker submits with the right secret reaches the result
      handler and decodes to itself, so the server stores exactly it; with
      another secret it is turned away. */
  lemma PostRequestDelivers<J, R>(secret: string, queueURL: string, authorization: string, j: Job<J, R>, c: Codec<J, R>)
    requires Survives(c, j.result)
    ensures Http.RouteOf(secret, PostRequest(queueURL, authorization, j, c))
            == if authorization == secret then Http.PostResults else Http.Unauthorized
    ensures Http.DecodePosted(PostRequest(queueURL, authorization, j, c).body, c) == Http.Record(j)
  {
    assert queueURL + "/results" == queueURL + "/" + "results";
    Http.BaseOfSuffix(queueURL, "results");
    DecodeEncode(j, c);
  }

  class QueueWorker<J, R> {
    const queueURL: string
    const authorization: string
    const getJobsTickRate: nat
    const jobCapacity: nat
    const resultCapacity: nat
    const httpClient: Options.HttpClient
    const codec: Codec<J, R>
    /** Fetched, not yet processed. */
    var jobChannel: seq<Job<J, R>>
    /** Processed, not yet submitted. */
    var resultChannel: seq<Job<J, R>>

    ghost predicate Valid()
      reads this
    {
      |jobChannel| <= jobCapacity && |resultChannel| <= resultCapacity
    }

    constructor (queueURL: string, authorization: string, opts: Options.Options, codec: Codec<J, R>)
      ensures Valid() && jobChannel == [] && resultChannel == []
      ensures this.queueURL == queueURL && this.authorization == authorization && this.codec == codec
      ensures getJobsTickRate == opts.getJobsTickRate && httpClient == opts.httpClient
      ensures jobCapacity == opts.jobChannelBufferSize && resultCapacity == opts.resultChannelBufferSize
    {
      this.queueURL := queueURL;
      this.authorization := authorization;
      getJobsTickRate := opts.getJobsTickRate;
      jobCapacity := opts.jobChannelBufferSize;
      resultCapacity := opts.resultChannelBufferSize;
      httpClient := opts.httpClient;
      this.codec := codec;
      jobChannel := [];
      resultChannel := [];
    }

    /** Takes the oldest fetched job. */
    method GetNewJob() returns (job: Job<J, R>)
      requires Valid() && jobChannel != []
      modifies this
      ensures Valid()
      ensures job == old(jobChannel)[0] && jobChannel == old(jobChannel)[1..]
      ensures resultChannel == old(resultChannel)
    {
      job := jobChannel[0];
      jobChannel := jobChannel[1..];
    }

    /** Queues a processed record for submission. */
    method PostJobResult(job: Job<J, R>)
      requires Valid() && |resultChannel| < resultCapacity
      modifies this
      ensures Valid()
      ensures resultChannel == old(resultChannel) + [job] && jobChannel == old(jobChannel)
    {
      resultChannel := resultChannel + [job];
    }

    /** One pass of `ProcessJobs`: take a job, run `f` on its payload, record
        the outcome and queue the record for submission. */
    method ProcessOne(f: J -> Outcome<R>)
      requires Valid() && jobChannel != [] && |resultChannel| < resultCapacity
      modifies this
      ensures Valid()
      ensures jobChannel == old(jobChannel)[1..]
      ensures resultChannel == old(resultChannel) + [Completed(old(jobChannel)[0], f(old(jobChannel)[0].job))]
    {
      var j := GetNewJob();
      var out := f(j.job);
      if out.Failed? {
        j := j.(status := Error);
        j := j.(error := out.message);
      } else {
        j := j.(status := Complete);
        j := j.(result := out.result);
      }
      PostJobResult(j);
    }

    /** `ProcessJobs` run until the job buffer is empty: every buffered job is
        processed once and its record queued once, in buffer order. */
    method ProcessJobs(f: J -> Outcome<R>)
      requires Valid() && |resultChannel| + |jobChannel| <= resultCapacity
      modifies this
      ensures Valid()
      ensures jobChannel == []
      ensures resultChannel == old(resultChannel) + CompletedAll(old(jobChannel), f)
    {
      ghost var todo := jobChannel;
      while jobChannel != []
        invariant Valid() && |resultChannel| + |jobChannel| <= resultCapacity
        invariant |jobChannel| <= |todo| && jobChannel == todo[|todo| - |jobChannel|..]
        invariant resultChannel == old(resultChannel) + CompletedAll(todo[..|todo| - |jobChannel|], f)
        decreases |jobChannel|
      {
        ghost var done := |todo| - |jobChannel|;
        assert todo[done] == jobChannel[0];
        ProcessOne(f);
        assert todo[..done + 1] == todo[..done] + [todo[done]];
        CompletedAllAppend(todo[..done], todo[done], f);
      }
      assert todo[..|todo|] == todo;
    }

    /** One tick of the fetch loop: a batch that decodes is appended to the
        job buffer in list order; on any failure nothing is enqueued. */
    method FetchTick(outcome: FetchOutcome<J, R>)
      requires Valid()
      requires Batch(outcome, codec).Some? ==> |jobChannel| + |Batch(outcome, codec).value| <= jobCapacity
      modifies this
      ensures Valid()
      ensures resultChannel == old(resultChannel)
      ensures Batch(outcome, codec).Some? ==> jobChannel == old(jobChannel) + Batch(outcome, codec).value
      ensures Batch(outcome, codec).None? ==> jobChannel == old(jobChannel)
    {
      if !outcome.Delivered? {
        return;
      }
      var decoded := DecodeBatch(outcome.body, codec);
      if decoded.None? {
        return;
      }
      var jobs := decoded.value;
      for i := 0 to |jobs|
        invariant jobChannel == old(jobChannel) + jobs[..i]
        invariant resultChannel == old(resultChannel)
      {
        assert jobs[..i + 1] == jobs[..i] + [jobs[i]];
        jobChannel := jobChannel + [jobs[i]];
      }
      assert jobs[..|jobs|] == jobs;
    }

    /** One pass of the submit loop: the oldest record leaves the buffer
        whatever happens to the request; it is never requeued. The result is
        the request that was handed to the transport, if one was built. */
    method PostTick(outcome: PostOutcome) returns (sent: Option<Http.Request<J, R>>)
      requires Valid() && resultChannel != []
      modifies this
      ensures Valid()
      ensures resultChannel == old(resultChannel)[1..] && jobChannel == old(jobChannel)
      ensures sent.Some? <==> outcome == PostSendFailed || outcome == Sent
      ensures sent.Some? ==> sent.value == PostRequest(queueURL, authorization, old(resultChannel)[0], codec)
    {
      var job := resultChannel[0];
      resultChannel := resultChannel[1..];
      if outcome == MarshalFailed || outcome == PostRequestFailed {
        return None;
      }
      sent := Some(PostRequest(queueURL, authorization, job, codec));
    }
  }

  lemma CompletedAllAppend<J, R>(jobs: seq<Job<J, R>>, j: Job<J, R>, f: J -> Outcome<R>)
    ensures CompletedAll(jobs + [j], f) == CompletedAll(jobs, f) + [Completed(j, f(j.job))]
  {
  }

  /** `NewQueueWorker`: `urlOk` is whether the queue URL parsed. Missing
      options mean `NewOptions()`; the buffer capacities are the configured
      sizes. */
  method NewQueueWorker<J, R>(queueURL: string, authorization: string, options: Option<Options.Options>, urlOk: bool, codec: Codec<J, R>)
    returns (w: QueueWorker?<J, R>)
    ensures w != null <==> urlOk
    ensures w != null ==> fresh(w) && w.Valid() && w.jobChannel == [] && w.resultChannel == []
    ensures w != null ==> w.queueURL == queueURL && w.authorization == authorization
    ensures w != null ==>
              var opts := if options.Some? then options.value else Options.Configured([]);
              && w.getJobsTickRate == opts.getJobsTickRate && w.httpClient == opts.httpClient
              && w.jobCapacity == opts.jobChannelBufferSize && w.resultCapacity == opts.resultChannelBufferSize
  {
    if !urlOk {
      return null;
    }
    var opts: Options.Options;
    if options.Some? {
      opts := options.value;
    } else {
      opts := Options.NewOptions([]);
    }
    w := new QueueWorker(queueURL, authorization, opts, codec);
  }
}
