/**
 * The server's HTTP surface (server/http.go): the shared-secret check, the
 * routing on method and last path element, and the two handlers' effect on
 * the job store.
 */
module Http {
  import opened Wrappers
  import opened Types
  import opened Queue

  const MethodGet: string := "GET"
  const MethodPost: string := "POST"

  /** A request body, as far as the JSON decoder sees it: no bytes, bytes that
      are not a JSON object, the literal `null`, or an object. */
  datatype Body<J, R> = NoBody | Unparseable | JsonNull | JsonObject(fields: WireObject<J, R>)

  /** The parts of a request the server looks at. Header names are taken as
      already canonical. */
  datatype Request<J, R> = Request(headers: map<string, string>, verb: string, path: string, body: Body<J, R>)

  /** What the handler writes. `Aborted` is a handler that panicked: the HTTP
      server recovers and drops the connection without a response. */
  datatype Response<J, R> =
    | StatusUnauthorized
    | JobList(body: WireBatch<J, R>)
    | StatusOK
    | StatusInternalServerError
    | StatusNotFound
    | Aborted

  /** `Header.Get`: the value, or "" when the header is missing. */
  function HeaderGet(headers: map<string, string>, name: string): (v: string)
    ensures name !in headers ==> v == ""
    ensures name in headers ==> v == headers[name]
  {
    if name in headers then headers[name] else ""
  }

  // ---------------------------------------------------------------------
  // `filepath.Base` on a slash-separated path.
  // ---------------------------------------------------------------------

  function TrimTrailingSlashes(s: string): (t: string)
    ensures |t| <= |s| && t == s[..|t|]
    ensures t == [] || t[|t| - 1] != '/'
    ensures forall i :: |t| <= i < |s| ==> s[i] == '/'
  {
    if |s| > 0 && s[|s| - 1] == '/' then TrimTrailingSlashes(s[..|s| - 1]) else s
  }

  /** The text after the last slash. */
  function AfterLastSlash(s: string): (t: string)
    ensures |t| <= |s| && t == s[|s| - |t|..]
    ensures '/' !in t
    ensures |t| < |s| ==> s[|s| - |t| - 1] == '/'
  {
    if |s| == 0 || s[|s| - 1] == '/' then [] else AfterLastSlash(s[..|s| - 1]) + [s[|s| - 1]]
  }

  /** The last element of a path: trailing slashes are ignored, "" gives "."
      and a path of slashes only gives "/". */
  function Base(path: string): (b: string)
    ensures b != ""
    ensures path == "" ==> b == "."
    ensures b == "/" || '/' !in b
  {
    if path == "" then "."
    else
      var trimmed := TrimTrailingSlashes(path);
      if trimmed == "" then "/" else AfterLastSlash(trimmed)
  }

  lemma {:induction false} AfterLastSlashOfSuffix(prefix: string, seg: string)
    requires '/' !in seg
    ensures AfterLastSlash(prefix + "/" + seg) == seg
  {
    if seg == [] {
      assert prefix + "/" + seg == prefix + "/";
    } else {
      var init := seg[..|seg| - 1];
      assert (prefix + "/" + seg)[..|prefix + "/" + seg| - 1] == prefix + "/" + init;
      AfterLastSlashOfSuffix(prefix, init);
      assert init + [seg[|seg| - 1]] == seg;
    }
  }

  /** Only the last element counts: `p/seg` has base `seg` whatever `p` is. */
  lemma BaseOfSuffix(prefix: string, seg: string)
    requires seg != "" && '/' !in seg
    ensures Base(prefix + "/" + seg) == seg
  {
    var p := prefix + "/" + seg;
    assert p[|p| - 1] == seg[|seg| - 1];
    assert TrimTrailingSlashes(p) == p;
    AfterLastSlashOfSuffix(prefix, seg);
  }

  /** A trailing slash does not change the base of a non-empty path. */
  lemma BaseIgnoresTrailingSlash(path: string)
    requires path != ""
    ensures Base(path + "/") == Base(path)
  {
  }

  // ---------------------------------------------------------------------
  // Routing.
  // ---------------------------------------------------------------------

  datatype Route = Unauthorized | FetchNewJobs | PostResults | NotFound

  predicate Authorized<J, R>(secret: string, req: Request<J, R>) {
    HeaderGet(req.headers, WorkerAuthHeader) == secret
  }

  /** The decision `ServeHTTP` takes before it touches the store. */
  function RouteOf<J, R>(secret: string, req: Request<J, R>): (r: Route)
    ensures r == Unauthorized <==> HeaderGet(req.headers, WorkerAuthHeader) != secret
    ensures r == FetchNewJobs <==> Authorized(secret, req) && req.verb == MethodGet && Base(req.path) == "jobs"
    ensures r == PostResults <==> Authorized(secret, req) && req.verb == MethodPost && Base(req.path) == "results"
    ensures r == NotFound <==> Authorized(secret, req)
                               && !(req.verb == MethodGet && Base(req.path) == "jobs")
                               && !(req.verb == MethodPost && Base(req.path) == "results")
  {
    if HeaderGet(req.headers, WorkerAuthHeader) != secret then Unauthorized
    else
      var base := Base(req.path);
      if req.verb == MethodGet && base == "jobs" then FetchNewJobs
      else if req.verb == MethodPost && base == "results" then PostResults
      else NotFound
  }

  /** Routing looks at nothing but the secret header, the method and the base
      of the path: `/a/b/jobs` routes like `/jobs`. */
  lemma RouteIgnoresPrefix<J, R>(secret: string, req: Request<J, R>, prefix: string, seg: string)
    requires seg != "" && '/' !in seg
    ensures RouteOf(secret, req.(path := prefix + "/" + seg)) == RouteOf(secret, req.(path := "/" + seg))
  {
    var long, short := prefix + "/" + seg, "/" + seg;
    BaseOfSuffix(prefix, seg);
    BaseOfSuffix("", seg);
    assert "" + "/" + seg == short;
    RouteByBase(secret, req.(path := long), req.(path := short));
  }

  /** Two requests that agree on the header, the method and the base of the
      path are routed alike. */
  lemma RouteByBase<J, R>(secret: string, a: Request<J, R>, b: Request<J, R>)
    requires a.headers == b.headers && a.verb == b.verb && Base(a.path) == Base(b.path)
    ensures RouteOf(secret, a) == RouteOf(secret, b)
  {
  }

  /** A request without the header passes the check exactly when the secret is empty. */
  lemma MissingHeaderMeansEmptySecret<J, R>(secret: string, req: Request<J, R>)
    requires WorkerAuthHeader !in req.headers
    ensures RouteOf(secret, req) != Unauthorized <==> secret == ""
  {
  }

  // ---------------------------------------------------------------------
  // Decoding a posted record and the handlers.
  // ---------------------------------------------------------------------

  datatype Posted<J, R> = DecodeFailed | NullRecord | Record(job: Job<J, R>)

  /** `json.NewDecoder(body).Decode(&job)` into a record pointer: an empty or
      malformed body is an error, `null` leaves the pointer nil. */
  function DecodePosted<J, R>(body: Body<J, R>, c: Codec<J, R>): (p: Posted<J, R>)
    ensures p.Record? <==> body.JsonObject? && Decode(body.fields, c).Some?
    ensures p.Record? ==> Some(p.job) == Decode(body.fields, c)
    ensures p.NullRecord? <==> body.JsonNull?
  {
    match body
    case JsonNull => NullRecord
    case JsonObject(o) =>
      (match Decode(o, c)
       case Some(j) => Record(j)
       case None => DecodeFailed)
    case _ => DecodeFailed
  }

  /** `GET …/jobs`: the fetch runs first; `writeOk` is whether writing the
      encoded list succeeded. When it fails the records are Pending all the same. */
  method GetNewJobsHandler<J, R>(q: QueueServer<J, R>, writeOk: bool) returns (resp: Response<J, R>, ghost fetched: seq<Job<J, R>>)
    requires q.Valid()
    modifies q
    ensures q.Valid()
    ensures q.queue == Promote(old(q.queue)) && Fetched(old(q.queue), fetched)
    ensures resp == if writeOk then JobList(EncodeBatch(fetched, q.codec)) else StatusInternalServerError
  {
    var jobs := q.NewJobs();
    fetched := jobs;
    if !writeOk {
      return StatusInternalServerError, fetched;
    }
    resp := JobList(EncodeBatch(jobs, q.codec));
  }

  /** `POST …/results`: a decoded record overwrites the store entry at its id. */
  method PostJobResultsHandler<J, R>(q: QueueServer<J, R>, body: Body<J, R>) returns (resp: Response<J, R>)
    requires q.Valid()
    modifies q
    ensures q.Valid()
    ensures DecodePosted(body, q.codec).Record? ==>
              q.queue == old(q.queue)[DecodePosted(body, q.codec).job.id := DecodePosted(body, q.codec).job] && resp == StatusOK
    ensures DecodePosted(body, q.codec).DecodeFailed? ==> q.queue == old(q.queue) && resp == StatusInternalServerError
    ensures DecodePosted(body, q.codec).NullRecord? ==> q.queue == old(q.queue) && resp == Aborted
  {
    var posted := DecodePosted(body, q.codec);
    match posted
    case DecodeFailed =>
      resp := StatusInternalServerError;
    case NullRecord =>
      resp := Aborted;
    case Record(job) =>
      q.UpdateJob(job);
      resp := StatusOK;
  }

  /** `ServeHTTP`: secret check, then routing, then the handler. */
  method ServeHTTP<J, R>(q: QueueServer<J, R>, req: Request<J, R>, writeOk: bool) returns (resp: Response<J, R>, ghost fetched: seq<Job<J, R>>)
    requires q.Valid()
    modifies q
    ensures q.Valid()
    ensures RouteOf(q.authorization, req) == Unauthorized ==> resp == StatusUnauthorized && q.queue == old(q.queue)
    ensures RouteOf(q.authorization, req) == FetchNewJobs ==>
              && q.queue == Promote(old(q.queue)) && Fetched(old(q.queue), fetched)
              && resp == if writeOk then JobList(EncodeBatch(fetched, q.codec)) else StatusInternalServerError
    ensures RouteOf(q.authorization, req) == PostResults ==>
              var posted := DecodePosted(req.body, q.codec);
              && (posted.Record? ==> q.queue == old(q.queue)[posted.job.id := posted.job] && resp == StatusOK)
              && (posted.DecodeFailed? ==> q.queue == old(q.queue) && resp == StatusInternalServerError)
              && (posted.NullRecord? ==> q.queue == old(q.queue) && resp == Aborted)
    ensures RouteOf(q.authorization, req) == NotFound ==> resp == StatusNotFound && q.queue == old(q.queue)
  {
    fetched := [];
    match RouteOf(q.authorization, req)
    case Unauthorized =>
      resp := StatusUnauthorized;
    case FetchNewJobs =>
      resp, fetched := GetNewJobsHandler(q, writeOk);
    case PostResults =>
      resp := PostJobResultsHandler(q, req.body);
    case NotFound =>
      resp := StatusNotFound;
  }
}
