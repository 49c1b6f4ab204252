/**
 * One job's full trip through server and worker, run sequentially: the
 * server creates it, the worker's fetch tick takes it over HTTP, the worker
 * processes it and submits the record, and the server's wait step then sees
 * it finished.
 */
module Protocol {
  import opened Wrappers
  import opened Types
  import opened Queue
  import Http
  import opened Worker

  /** A fetch from a store whose only New record sits at `id` hands out just
      that record, now Pending, whatever else the store holds. */
  lemma FetchOfOnlyNew<J, R>(s: Store<J, R>, id: string, jobs: seq<Job<J, R>>)
    requires id in s && NewIds(s) == {id}
    requires Fetched(s, jobs)
    ensures jobs == [s[id].(status := Pending)]
  {
    assert id in NewIds(s);
    DistinctIdsCount(jobs);
    assert jobs[0].id in IdSet(jobs);
  }

  /** A fetch from a store whose only New record sits at `id` flips just that
      record to Pending. */
  lemma PromoteOnlyNew<J, R>(s: Store<J, R>, id: string)
    requires id in s && NewIds(s) == {id}
    ensures Promote(s) == s[id := s[id].(status := Pending)]
  {
    forall k | k in s && k != id ensures s[k].status != New {
      assert k !in NewIds(s);
    }
  }

  /** The server's side of a fetch when one record is waiting: the response
      carries just that record, which the worker decodes intact, and the store
      then has it as Pending. */
  method FetchOne<J, R>(q: QueueServer<J, R>, req: Http.Request<J, R>, id: string) returns (resp: Http.Response<J, R>)
    requires q.Valid() && id in q.queue && NewIds(q.queue) == {id}
    requires Http.RouteOf(q.authorization, req) == Http.FetchNewJobs
    requires Survives(q.codec, q.queue[id].result)
    modifies q
    ensures q.Valid() && q.queue == old(q.queue)[id := old(q.queue)[id].(status := Pending)]
    ensures resp.JobList? && DecodeBatch(resp.body, q.codec) == Some([old(q.queue)[id].(status := Pending)])
  {
    ghost var before := q.queue;
    ghost var fetched;
    resp, fetched := Http.ServeHTTP(q, req, true);
    FetchOfOnlyNew(before, id, fetched);
    BatchRoundTrip(fetched, q.codec);
    PromoteOnlyNew(before, id);
  }

  /** The server's side of a submit carrying the worker's secret: the record,
      whose result survives `omitempty`, overwrites the entry at its id. */
  method DeliverResult<J, R>(q: QueueServer<J, R>, queueURL: string, j: Job<J, R>) returns (resp: Http.Response<J, R>)
    requires q.Valid() && Survives(q.codec, j.result)
    modifies q
    ensures q.Valid() && q.queue == old(q.queue)[j.id := j] && resp == Http.StatusOK
  {
    var req := PostRequest(queueURL, q.authorization, j, q.codec);
    PostRequestDelivers(q.authorization, queueURL, q.authorization, j, q.codec);
    ghost var fetched;
    resp, fetched := Http.ServeHTTP(q, req, true);
  }

  /** One cycle of an idle worker: a fetch tick that delivers `job` alone, the
      processing of that job, and the submit pass, which hands the completed
      record to the transport. The worker is idle again afterwards. */
  method WorkerCycle<J, R>(w: QueueWorker<J, R>, body: WireBatch<J, R>, job: Job<J, R>, f: J -> Outcome<R>)
    returns (sent: Option<Http.Request<J, R>>)
    requires w.Valid() && w.jobChannel == [] && w.resultChannel == []
    requires w.jobCapacity >= 1 && w.resultCapacity >= 1
    requires DecodeBatch(body, w.codec) == Some([job])
    modifies w
    ensures w.Valid() && w.jobChannel == [] && w.resultChannel == []
    ensures sent == Some(PostRequest(w.queueURL, w.authorization, Completed(job, f(job.job)), w.codec))
  {
    w.FetchTick(Delivered(body));
    assert w.jobChannel == [job];
    w.ProcessOne(f);
    assert w.resultChannel == [Completed(job, f(job.job))];
    sent := w.PostTick(Sent);
  }

  /** The server's side of creating a job and fetching it, on a store with no
      other New record: the response carries exactly the new record, which the
      worker decodes intact, and the store has that record as Pending. */
  method CreateAndFetch<J, R>(q: QueueServer<J, R>, payload: J, id: string, req: Http.Request<J, R>)
    returns (resp: Http.Response<J, R>)
    requires q.Valid() && NewIds(q.queue) == {}
    requires Http.RouteOf(q.authorization, req) == Http.FetchNewJobs
    modifies q
    ensures q.Valid() && q.queue == old(q.queue)[id := Job(id, Pending, "", payload, q.codec.zeroResult)]
    ensures resp.JobList? && DecodeBatch(resp.body, q.codec) == Some([Job(id, Pending, "", payload, q.codec.zeroResult)])
  {
    var created := Job(id, New, "", payload, q.codec.zeroResult);
    var newId := q.NewJob(payload, id);
    NewIdsUpdate(old(q.queue), id, created);
    resp := FetchOne(q, req, id);
  }

  /** The trip of a job created on a server with no New record still waiting
      (every earlier one has been fetched) and a worker whose buffers are empty:
      the wait step on the new id then sees the completed record. The id may be
      fresh or already taken. */
  method RoundTrip<J, R>(q: QueueServer<J, R>, w: QueueWorker<J, R>, payload: J, id: string, f: J -> Outcome<R>)
    returns (step: WaitOutcome<J, R>)
    requires q.Valid() && NewIds(q.queue) == {}
    requires w.Valid() && w.jobChannel == [] && w.resultChannel == []
    requires w.jobCapacity >= 1 && w.resultCapacity >= 1
    requires w.authorization == q.authorization && w.codec == q.codec
    requires f(payload).Succeeded? ==> Survives(q.codec, f(payload).result)
    modifies q, w
    ensures step == Finished(Completed(Job(id, Pending, "", payload, q.codec.zeroResult), f(payload)))
    ensures f(payload).Succeeded? ==> step.job.status == Complete && step.job.result == f(payload).result
    ensures f(payload).Failed? ==> step.job.status == Error && step.job.error == f(payload).message
                                   && step.job.result == q.codec.zeroResult
    ensures q.queue == old(q.queue)[id := step.job]
  {
    var pending := Job(id, Pending, "", payload, q.codec.zeroResult);
    var fetchReq := FetchRequest<J, R>(w.queueURL, w.authorization);
    FetchRequestRoutes<J, R>(q.authorization, w.queueURL, w.authorization);
    var resp := CreateAndFetch(q, payload, id, fetchReq);
    var done := Completed(pending, f(payload));
    var sent := WorkerCycle(w, resp.body, pending, f);
    assert sent.value == PostRequest(w.queueURL, q.authorization, done, q.codec);
    var resp2 := DeliverResult(q, w.queueURL, done);
    step := q.WaitStep(id);
  }
}
