/**
 * The server's job store (server/queue.go): a map from job id to record, the
 * operations that create, overwrite, remove and look records up, one step of
 * the wait-for-completion loop, and the fetch that hands out New records and
 * flips them to Pending.
 */
module Queue {
  import opened Wrappers
  import opened Types

  type Store<J, R> = map<string, Job<J, R>>

  /** Every record is filed under its own id (all writes go to `job.ID`). */
  ghost predicate KeyedById<J, R>(s: Store<J, R>) {
    forall k :: k in s ==> s[k].id == k
  }

  /** No stored record carries the `NotExist` sentinel. The store does not
      enforce this: a posted record may carry any status. */
  ghost predicate NoSentinel<J, R>(s: Store<J, R>) {
    forall k :: k in s ==> s[k].status != NotExist
  }

  /** What the fetch does to one record. */
  function Advance<J, R>(j: Job<J, R>): Job<J, R> {
    if j.status == New then j.(status := Pending) else j
  }

  /** The store after a fetch. */
  function Promote<J, R>(s: Store<J, R>): Store<J, R> {
    map k | k in s :: Advance(s[k])
  }

  /** The ids of the records waiting to be fetched. */
  function NewIds<J, R>(s: Store<J, R>): set<string> {
    set k | k in s && s[k].status == New
  }

  function IdSet<J, R>(jobs: seq<Job<J, R>>): set<string> {
    set i | 0 <= i < |jobs| :: jobs[i].id
  }

  predicate DistinctIds<J, R>(jobs: seq<Job<J, R>>) {
    forall i, j :: 0 <= i < j < |jobs| ==> jobs[i].id != jobs[j].id
  }

  /** `jobs` is what a fetch from `before` hands out: every New record once,
      nothing else, each as it is stored afterwards (status Pending). */
  ghost predicate Fetched<J, R>(before: Store<J, R>, jobs: seq<Job<J, R>>) {
    && IdSet(jobs) == NewIds(before)
    && DistinctIds(jobs)
    && forall i :: 0 <= i < |jobs| ==> jobs[i].id in before && jobs[i] == Advance(before[jobs[i].id])
  }

  /** A fetch flips exactly the New records to Pending and touches nothing else. */
  lemma PromoteEffect<J, R>(s: Store<J, R>)
    requires KeyedById(s)
    ensures Promote(s).Keys == s.Keys && KeyedById(Promote(s))
    ensures forall k :: k in s && s[k].status == New ==> Promote(s)[k] == s[k].(status := Pending)
    ensures forall k :: k in s && s[k].status != New ==> Promote(s)[k] == s[k]
    ensures forall k :: k in s ==> Promote(s)[k] == s[k] || Advances(s[k].status, Promote(s)[k].status)
  {
  }

  /** After a fetch no New record is left, and a second fetch changes nothing. */
  lemma PromoteLeavesNoNew<J, R>(s: Store<J, R>)
    ensures NewIds(Promote(s)) == {}
    ensures Promote(Promote(s)) == Promote(s)
  {
  }

  /** An immediate second fetch hands out nothing. */
  lemma SecondFetchIsEmpty<J, R>(s: Store<J, R>, jobs: seq<Job<J, R>>)
    requires Fetched(Promote(s), jobs)
    ensures jobs == []
  {
    PromoteLeavesNoNew(s);
    DistinctIdsCount(jobs);
  }

  lemma {:induction false} DistinctIdsCount<J, R>(jobs: seq<Job<J, R>>)
    requires DistinctIds(jobs)
    ensures |IdSet(jobs)| == |jobs|
  {
    if jobs != [] {
      var init := jobs[..|jobs| - 1];
      var last := jobs[|jobs| - 1];
      assert DistinctIds(init);
      DistinctIdsCount(init);
      assert IdSet(jobs) == IdSet(init) + {last.id};
      assert last.id !in IdSet(init);
    }
  }

  /** A fetch hands out as many records as there were New ones. */
  lemma FetchedCount<J, R>(before: Store<J, R>, jobs: seq<Job<J, R>>)
    requires Fetched(before, jobs)
    ensures |jobs| == |NewIds(before)|
    ensures forall i :: 0 <= i < |jobs| ==> jobs[i].status == Pending
  {
    DistinctIdsCount(jobs);
    forall i | 0 <= i < |jobs| ensures jobs[i].status == Pending {
      assert jobs[i].id in NewIds(before);
    }
  }

  /** Writing one entry changes the waiting set at that key only. */
  lemma NewIdsUpdate<J, R>(s: Store<J, R>, k: string, j: Job<J, R>)
    ensures NewIds(s[k := j]) == (NewIds(s) - {k}) + (if j.status == New then {k} else {})
  {
  }

  lemma IdSetAppend<J, R>(jobs: seq<Job<J, R>>, j: Job<J, R>)
    ensures IdSet(jobs + [j]) == IdSet(jobs) + {j.id}
  {
    var s := jobs + [j];
    forall x | x in IdSet(s) ensures x in IdSet(jobs) + {j.id} {
      var i :| 0 <= i < |s| && s[i].id == x;
      if i < |jobs| { assert s[i] == jobs[i]; }
    }
    forall x | x in IdSet(jobs) ensures x in IdSet(s) {
      var i :| 0 <= i < |jobs| && jobs[i].id == x;
      assert s[i] == jobs[i];
    }
    assert s[|jobs|] == j;
  }

  /** One pass of the wait loop: the id is gone, the record is finished, or the
      caller has to keep polling. */
  datatype WaitOutcome<J, R> = Absent | Finished(job: Job<J, R>) | StillWaiting

  class QueueServer<J, R> {
    var queue: Store<J, R>
    const authorization: string
    const codec: Codec<J, R>

    ghost predicate Valid()
      reads this
    {
      KeyedById(queue)
    }

    constructor (authorization: string, codec: Codec<J, R>)
      ensures Valid() && queue == map[]
      ensures this.authorization == authorization && this.codec == codec
    {
      queue := map[];
      this.authorization := authorization;
      this.codec := codec;
    }

    /** Creates a New record with the zero result under `id` (the id generator
        is outside the model; an id that is already taken is overwritten). */
    method NewJob(job: J, id: string) returns (r: string)
      requires Valid()
      modifies this
      ensures Valid()
      ensures r == id && r in queue
      ensures queue == old(queue)[id := Job(id, New, "", job, codec.zeroResult)]
      ensures id !in old(queue) ==> queue.Keys == old(queue).Keys + {id} && |queue| == |old(queue)| + 1
    {
      var newJob := Job(id, New, "", job, codec.zeroResult);
      AddJob(newJob);
      r := newJob.id;
    }

    /** Stores `job` under its id, replacing whatever was there. */
    method AddJob(job: Job<J, R>)
      requires Valid()
      modifies this
      ensures Valid()
      ensures queue == old(queue)[job.id := job]
    {
      queue := queue[job.id := job];
    }

    /** Deletes the record filed under `job.id`, if any. */
    method RemoveJob(job: Job<J, R>)
      requires Valid()
      modifies this
      ensures Valid()
      ensures job.id !in queue && queue.Keys == old(queue).Keys - {job.id}
      ensures forall k :: k in queue ==> queue[k] == old(queue)[k]
      ensures job.id !in old(queue) ==> queue == old(queue)
    {
      queue := queue - {job.id};
    }

    method GetJob(id: string) returns (j: Option<Job<J, R>>)
      ensures j.Some? <==> id in queue
      ensures j.Some? ==> j.value == queue[id]
      ensures Valid() && j.Some? ==> j.value.id == id
    {
      if id in queue {
        j := Some(queue[id]);
      } else {
        j := None;
      }
    }

    /** Overwrites unconditionally: no check that the id exists or that the
        status moves forward. */
    method UpdateJob(job: Job<J, R>)
      requires Valid()
      modifies this
      ensures Valid()
      ensures queue == old(queue)[job.id := job]
    {
      queue := queue[job.id := job];
    }

    method CheckJob(id: string) returns (s: Status)
      ensures id !in queue ==> s == NotExist
      ensures id in queue ==> s == queue[id].status
      ensures s == NotExist <==> id !in queue || queue[id].status == NotExist
      ensures NoSentinel(queue) ==> (s == NotExist <==> id !in queue)
    {
      var j := GetJob(id);
      if j.None? {
        return NotExist;
      }
      s := j.value.status;
    }

    /** One iteration of the wait loop. */
    method WaitStep(id: string) returns (w: WaitOutcome<J, R>)
      ensures w == Absent <==> id !in queue || queue[id].status == NotExist
      ensures w.Finished? <==> id in queue && IsTerminal(queue[id].status)
      ensures w.Finished? ==> w.job == queue[id]
      ensures NoSentinel(queue) ==> (w == Absent <==> id !in queue)
    {
      var status := CheckJob(id);
      if status == NotExist {
        return Absent;
      }
      if status == Complete || status == Error {
        var j := GetJob(id);
        return Finished(j.value);
      }
      w := StillWaiting;
    }

    /** Creates a record and takes the first wait step on it. A fresh record is
        New, so the caller keeps polling: nothing in a sequential run can
        finish the wait. */
    method AddWaitJob(content: J, id: string) returns (w: WaitOutcome<J, R>)
      requires Valid()
      modifies this
      ensures Valid()
      ensures queue == old(queue)[id := Job(id, New, "", content, codec.zeroResult)]
      ensures w == StillWaiting
    {
      var newId := NewJob(content, id);
      w := WaitStep(newId);
    }

    /** Hands out every New record, flipping each to Pending in the store. The
        keys are visited in an unspecified order, like the map iteration. */
    method NewJobs() returns (jobs: seq<Job<J, R>>)
      requires Valid()
      modifies this
      ensures Valid()
      ensures queue == Promote(old(queue))
      ensures Fetched(old(queue), jobs)
    {
      jobs := [];
      var todo := queue.Keys;
      while todo != {}
        invariant todo <= old(queue).Keys
        invariant queue.Keys == old(queue).Keys
        invariant KeyedById(queue)
        invariant forall k :: k in queue ==> queue[k] == if k in todo then old(queue)[k] else Advance(old(queue)[k])
        invariant IdSet(jobs) == NewIds(old(queue)) - todo
        invariant DistinctIds(jobs)
        invariant forall i :: 0 <= i < |jobs| ==> jobs[i].id in old(queue) && jobs[i] == Advance(old(queue)[jobs[i].id])
        decreases todo
      {
        var k :| k in todo;
        var j := queue[k];
        if j.status == New {
          j := j.(status := Pending);
          IdSetAppend(jobs, j);
          jobs := jobs + [j];
          UpdateJob(j);
        }
        todo := todo - {k};
      }
      assert queue == Promote(old(queue));
    }
  }
}
