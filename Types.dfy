/**
 * The types shared by the queue server and the worker (common/types.go):
 * the job status, the generic job record, the worker authorization header,
 * and the record's JSON shape.
 */
module Types {
  import opened Wrappers

  /** `Status` is a named string type in the source, so any string can occur;
      the five constants below are the named values. */
  type Status = string

  const New: Status := "new"
  const Pending: Status := "pending"
  const Complete: Status := "complete"
  const Error: Status := "error"
  const NotExist: Status := "not-exist"

  /** The named statuses, in declaration order. */
  const Statuses: seq<Status> := [New, Pending, Complete, Error, NotExist]

  /** Name of the header that carries the shared secret. */
  const WorkerAuthHeader: string := "X-Worker-Authorization"

  /** Server and worker agree on the header by sharing this one name; it is
      not empty and holds no slash or colon, so it is a valid header name. */
  lemma WorkerAuthHeaderIsAName()
    ensures WorkerAuthHeader == "X-Worker-Authorization"
    ensures WorkerAuthHeader != "" && ':' !in WorkerAuthHeader && '/' !in WorkerAuthHeader
  {
  }

  /** The generic record `Job[J, R]`: identity, status, error message, payload and result. */
  datatype Job<J, R> = Job(id: string, status: Status, error: string, job: J, result: R)

  predicate IsTerminal(s: Status) {
    s == Complete || s == Error
  }

  /** The forward-only life cycle of a record: New, then Pending, then Complete or Error. */
  predicate Advances(from: Status, to: Status) {
    (from == New && to == Pending) || (from == Pending && IsTerminal(to))
  }

  /** The five named statuses have pairwise distinct wire strings, and only
      Complete and Error are terminal. */
  lemma StatusesDistinct()
    ensures |Statuses| == 5
    ensures forall i, j :: 0 <= i < j < |Statuses| ==> Statuses[i] != Statuses[j]
    ensures forall i :: 0 <= i < |Statuses| ==> (IsTerminal(Statuses[i]) <==> i == 2 || i == 3)
  {
  }

  // ---------------------------------------------------------------------
  // The record's JSON shape, at the level of object members.
  // ---------------------------------------------------------------------

  /** A JSON member value as the record uses it: a string, the payload or the result.
      A value is tagged by the record field it fills: a JSON value that the field's
      type can hold is written with that field's tag (`Str` for `id`, `status` and
      `error`, `Payload` for `job`, `ResultValue` for `result`). Any other tag under
      a member stands for a JSON value that field's type cannot hold. */
  datatype Value<J, R> = Str(s: string) | Payload(j: J) | ResultValue(r: R)

  /** A JSON object: member name to value (member order carries no meaning). */
  type WireObject<J, R> = map<string, Value<J, R>>

  /** A JSON array of records, or `null` (what a nil slice encodes to). */
  datatype WireBatch<J, R> = Null | Array(items: seq<WireObject<J, R>>)

  const IdKey: string := "id"
  const StatusKey: string := "status"
  const ErrorKey: string := "error"
  const JobKey: string := "job"
  const ResultKey: string := "result"

  /** What the JSON codec knows about the payload and result types: their zero
      values (what a missing member decodes to) and which results `omitempty`
      leaves out. */
  datatype Codec<J, !R> = Codec(zeroJob: J, zeroResult: R, resultEmpty: R -> bool)

  /** The result survives `omitempty`: if it is left out, it is the zero value anyway. */
  ghost predicate Survives<J, R>(c: Codec<J, R>, r: R) {
    c.resultEmpty(r) ==> r == c.zeroResult
  }

  /** Encoding a record: `id`, `status`, `error` and `job` always, `result` unless empty. */
  function Encode<J, R>(j: Job<J, R>, c: Codec<J, R>): (o: WireObject<J, R>)
    ensures o.Keys == {IdKey, StatusKey, ErrorKey, JobKey} + (if c.resultEmpty(j.result) then {} else {ResultKey})
    ensures o[IdKey] == Str(j.id) && o[StatusKey] == Str(j.status) && o[ErrorKey] == Str(j.error)
    ensures o[JobKey] == Payload(j.job)
    ensures !c.resultEmpty(j.result) ==> o[ResultKey] == ResultValue(j.result)
  {
    var always := map[IdKey := Str(j.id), StatusKey := Str(j.status), ErrorKey := Str(j.error), JobKey := Payload(j.job)];
    if c.resultEmpty(j.result) then always else always[ResultKey := ResultValue(j.result)]
  }

  /** A string member: missing means "", a value of another kind is a type error. */
  function StringMember<J, R>(o: WireObject<J, R>, key: string): Option<string> {
    if key !in o then Some("")
    else match o[key]
      case Str(s) => Some(s)
      case _ => None
  }

  function PayloadMember<J, R>(o: WireObject<J, R>, c: Codec<J, R>): Option<J> {
    if JobKey !in o then Some(c.zeroJob)
    else match o[JobKey]
      case Payload(p) => Some(p)
      case _ => None
  }

  function ResultMember<J, R>(o: WireObject<J, R>, c: Codec<J, R>): Option<R> {
    if ResultKey !in o then Some(c.zeroResult)
    else match o[ResultKey]
      case ResultValue(r) => Some(r)
      case _ => None
  }

  /** Decoding a record: unknown members are ignored, missing ones take their
      zero value, a member of the wrong kind fails the whole decode. */
  function Decode<J, R>(o: WireObject<J, R>, c: Codec<J, R>): (r: Option<Job<J, R>>)
    ensures r.Some? <==> StringMember(o, IdKey).Some? && StringMember(o, StatusKey).Some? && StringMember(o, ErrorKey).Some?
                         && PayloadMember(o, c).Some? && ResultMember(o, c).Some?
    ensures r.Some? ==> (IdKey in o ==> o[IdKey] == Str(r.value.id)) && (IdKey !in o ==> r.value.id == "")
    ensures r.Some? ==> (StatusKey in o ==> o[StatusKey] == Str(r.value.status)) && (StatusKey !in o ==> r.value.status == "")
    ensures r.Some? ==> (ErrorKey in o ==> o[ErrorKey] == Str(r.value.error)) && (ErrorKey !in o ==> r.value.error == "")
    ensures r.Some? ==> (JobKey in o ==> o[JobKey] == Payload(r.value.job)) && (JobKey !in o ==> r.value.job == c.zeroJob)
    ensures r.Some? ==> (ResultKey in o ==> o[ResultKey] == ResultValue(r.value.result)) && (ResultKey !in o ==> r.value.result == c.zeroResult)
  {
    match (StringMember(o, IdKey), StringMember(o, StatusKey), StringMember(o, ErrorKey), PayloadMember(o, c), ResultMember(o, c))
    case (Some(id), Some(st), Some(err), Some(p), Some(res)) => Some(Job(id, st, err, p, res))
    case _ => None
  }

  /** A member outside the five the record knows leaves the decode unchanged. */
  lemma DecodeIgnoresUnknown<J, R>(o: WireObject<J, R>, k: string, v: Value<J, R>, c: Codec<J, R>)
    requires k !in {IdKey, StatusKey, ErrorKey, JobKey, ResultKey}
    ensures Decode(o[k := v], c) == Decode(o, c)
  {
    var o' := o[k := v];
    assert StringMember(o', IdKey) == StringMember(o, IdKey);
    assert StringMember(o', StatusKey) == StringMember(o, StatusKey);
    assert StringMember(o', ErrorKey) == StringMember(o, ErrorKey);
    assert PayloadMember(o', c) == PayloadMember(o, c);
    assert ResultMember(o', c) == ResultMember(o, c);
  }

  /** Round trip of one record: everything comes back, except that a result
      `omitempty` dropped comes back as the zero result. */
  lemma DecodeEncode<J, R>(j: Job<J, R>, c: Codec<J, R>)
    ensures Decode(Encode(j, c), c) == Some(if c.resultEmpty(j.result) then j.(result := c.zeroResult) else j)
    ensures Survives(c, j.result) ==> Decode(Encode(j, c), c) == Some(j)
  {
  }

  function EncodeAll<J, R>(jobs: seq<Job<J, R>>, c: Codec<J, R>): (items: seq<WireObject<J, R>>)
    ensures |items| == |jobs|
    ensures forall i :: 0 <= i < |jobs| ==> items[i] == Encode(jobs[i], c)
  {
    if jobs == [] then [] else [Encode(jobs[0], c)] + EncodeAll(jobs[1..], c)
  }

  /** Encoding a list of records: a nil (empty) list is `null`. */
  function EncodeBatch<J, R>(jobs: seq<Job<J, R>>, c: Codec<J, R>): (b: WireBatch<J, R>)
    ensures b.Null? <==> jobs == []
    ensures b.Array? ==> b.items == EncodeAll(jobs, c)
  {
    if jobs == [] then Null else Array(EncodeAll(jobs, c))
  }

  /** Decoding an array of records succeeds only if every element decodes. */
  function DecodeAll<J, R>(items: seq<WireObject<J, R>>, c: Codec<J, R>): (r: Option<seq<Job<J, R>>>)
    ensures r.Some? <==> forall i :: 0 <= i < |items| ==> Decode(items[i], c).Some?
    ensures r.Some? ==> |r.value| == |items| && forall i :: 0 <= i < |items| ==> Some(r.value[i]) == Decode(items[i], c)
  {
    if items == [] then Some([])
    else match (Decode(items[0], c), DecodeAll(items[1..], c))
      case (Some(j), Some(rest)) => Some([j] + rest)
      case _ => None
  }

  /** `null` decodes to the empty list; an array decodes element by element. */
  function DecodeBatch<J, R>(b: WireBatch<J, R>, c: Codec<J, R>): (r: Option<seq<Job<J, R>>>)
    ensures b.Null? ==> r == Some([])
    ensures b.Array? ==> (r.Some? <==> forall i :: 0 <= i < |b.items| ==> Decode(b.items[i], c).Some?)
    ensures b.Array? && r.Some? ==> |r.value| == |b.items| && forall i :: 0 <= i < |b.items| ==> Some(r.value[i]) == Decode(b.items[i], c)
  {
    match b
    case Null => Some([])
    case Array(items) => DecodeAll(items, c)
  }

  /** Round trip of a list of records whose results survive `omitempty`. */
  lemma BatchRoundTrip<J, R>(jobs: seq<Job<J, R>>, c: Codec<J, R>)
    requires forall i :: 0 <= i < |jobs| ==> Survives(c, jobs[i].result)
    ensures DecodeBatch(EncodeBatch(jobs, c), c) == Some(jobs)
  {
    if jobs != [] {
      var items := EncodeAll(jobs, c);
      forall i | 0 <= i < |jobs|
        ensures Decode(items[i], c) == Some(jobs[i])
      {
        DecodeEncode(jobs[i], c);
      }
      var r := DecodeAll(items, c);
      assert r.value == jobs;
    }
  }
}
