/** The review job store of app/api/reviews/viewer.py: the `reviews` collection,
    the projection returned by every endpoint, the response model that FastAPI
    validates it against, the transition written by the background task, and
    the create / get / list handlers.

    The OpenAI call is replaced by its reply (`Ok(content)` or `Err(message)`),
    `json.loads` by an arbitrary partial parser, and the driver's refusal to
    encode a value as BSON by an arbitrary function, all passed as parameters. */
module Reviews {
  import opened Common

  /** The three values the `status` field ever holds. */
  datatype Status = Pending | Completed | Failed

  /** The text of a status as stored in the document and returned to clients. */
  function StatusText(s: Status): (t: string)
    ensures t == "pending" || t == "completed" || t == "failed"
  {
    match s
    case Pending => "pending"
    case Completed => "completed"
    case Failed => "failed"
  }

  /** ObjectIds are modelled as naturals drawn from a counter. */
  type ReviewId = nat

  /** `datetime.utcnow()` values in microseconds, passed in by the caller. */
  type Timestamp = nat

  /** A BSON date holds milliseconds: the driver drops the sub-millisecond part
      of a `datetime` when it stores it. */
  function StoredTime(t: Timestamp): (s: Timestamp)
    ensures s <= t < s + 1000
    ensures s % 1000 == 0
  {
    t - t % 1000
  }

  /** A stored document: `_id`, `code`, `language`, `status`, `created_at`, and
      the `feedback` key, which is absent (None) until a transition sets it. */
  datatype Review = Review(
    id: ReviewId,
    code: string,
    language: string,
    status: Status,
    createdAt: Timestamp,
    feedback: Option<Json>)

  /** The dict `serialize_review` returns. `review.get("feedback")` yields
      Python's None both for a missing key and for a stored JSON null. */
  datatype ReviewView = ReviewView(
    id: ReviewId,
    code: string,
    language: string,
    status: string,
    createdAt: Timestamp,
    feedback: Option<Json>)

  /** A validated `ReviewResponse`, whose `feedback` is `Optional[dict]`. */
  datatype ReviewResponse = ReviewResponse(
    id: ReviewId,
    code: string,
    language: string,
    status: string,
    createdAt: Timestamp,
    feedback: Option<map<string, Json>>)

  /** The arguments handed to the background task `process_review`. */
  datatype Task = Task(id: ReviewId, code: string, language: string)

  const ReviewNotFound := HttpError(404, "Review not found")

  /** What FastAPI answers when a handler's result fails its response model. */
  const InvalidResponse := HttpError(500, "Internal Server Error")

  /** The document `create_review` inserts, once the insert has given it an id
      and the driver has stored its creation time. */
  function NewReview(id: ReviewId, code: string, language: string, now: Timestamp): Review {
    Review(id, code, language, Pending, StoredTime(now), None)
  }

  /** The background task scheduled for a stored review. */
  function TaskFor(r: Review): Task {
    Task(r.id, r.code, r.language)
  }

  /** `serialize_review`: the projection of a document. */
  function Serialize(r: Review): (v: ReviewView)
    ensures v.id == r.id && v.code == r.code && v.language == r.language && v.createdAt == r.createdAt
    ensures v.status == StatusText(r.status)
    ensures v.feedback.None? <==> r.feedback.None? || r.feedback == Some(Null)
    ensures v.feedback.Some? ==> v.feedback == r.feedback
  {
    ReviewView(r.id, r.code, r.language, StatusText(r.status), r.createdAt,
               if r.feedback == Some(Null) then None else r.feedback)
  }

  /** A `feedback` value that `Optional[dict]` accepts: None, null or an object. */
  predicate Presentable(f: Option<Json>) {
    f.None? || f.value.Null? || f.value.Object?
  }

  /** Validation of a returned dict against `ReviewResponse`: every field is
      copied, and `feedback` must be None or a dict, or the request fails with 500. */
  function Validate(v: ReviewView): (r: Result<ReviewResponse, HttpError>)
    ensures r.Ok? <==> Presentable(v.feedback)
    ensures r.Err? ==> r.error == InvalidResponse
    ensures r.Ok? ==>
      r.value.id == v.id && r.value.code == v.code && r.value.language == v.language &&
      r.value.status == v.status && r.value.createdAt == v.createdAt
    ensures r.Ok? ==>
      (r.value.feedback.Some? <==> v.feedback.Some? && v.feedback.value.Object?) &&
      (r.value.feedback.Some? ==> v.feedback == Some(Object(r.value.feedback.value)))
  {
    match v.feedback
    case None => Ok(ReviewResponse(v.id, v.code, v.language, v.status, v.createdAt, None))
    case Some(Null) => Ok(ReviewResponse(v.id, v.code, v.language, v.status, v.createdAt, None))
    case Some(Object(fields)) => Ok(ReviewResponse(v.id, v.code, v.language, v.status, v.createdAt, Some(fields)))
    case Some(_) => Err(InvalidResponse)
  }

  /** Validation of a returned list against `list[ReviewResponse]`: it fails
      with 500 as soon as one element fails. */
  function ValidateAll(vs: seq<ReviewView>): (r: Result<seq<ReviewResponse>, HttpError>)
    ensures r.Err? <==> exists i :: 0 <= i < |vs| && !Presentable(vs[i].feedback)
    ensures r.Err? ==> r.error == InvalidResponse
    ensures r.Ok? ==> |r.value| == |vs| && forall i :: 0 <= i < |vs| ==> Validate(vs[i]) == Ok(r.value[i])
  {
    if vs == [] then Ok([])
    else
      match Validate(vs[0])
      case Err(e) => Err(e)
      case Ok(head) =>
        match ValidateAll(vs[1..])
        case Err(e) => Err(e)
        case Ok(tail) =>
          assert forall i :: 1 <= i < |vs| ==> vs[i] == vs[1..][i - 1];
          Ok([head] + tail)
  }

  /** On documents whose `feedback` key is present exactly when they have left
      `pending`, the projection loses nothing, even though it maps a stored
      null to None: the status still tells that case apart. */
  lemma SerializeInjective(r1: Review, r2: Review)
    requires FeedbackIffSettled([r1, r2])
    requires Serialize(r1) == Serialize(r2)
    ensures r1 == r2
  {
    assert [r1, r2][0] == r1 && [r1, r2][1] == r2;
    assert r1.status == r2.status by {
      match r1.status
      case Pending =>
      case Completed =>
      case Failed =>
    }
  }

  /** The feedback written on failure: `{"error": str(e)}`. */
  function ErrorFeedback(message: string): Json {
    Object(map["error" := Str(message)])
  }

  /** The `$set` a run of `process_review` writes. */
  datatype Update = Update(status: Status, feedback: Json)

  /** What `process_review` writes, given the provider's reply, the JSON parser
      and the driver's refusal (with its message) of a value it cannot encode.
      The provider call, the parse and the `completed` write sit in one `try`,
      so each of their errors ends in `failed` with the exception's text. */
  function Outcome(reply: Result<string, string>, parse: string -> Result<Json, string>,
                   refuse: Json -> Option<string>): (u: Update)
    ensures u.status != Pending
    ensures u.status == Completed <==>
      reply.Ok? && parse(reply.value).Ok? && refuse(parse(reply.value).value).None?
    ensures u.status == Completed ==> u.feedback == parse(reply.value).value
    ensures reply.Err? ==> u == Update(Failed, ErrorFeedback(reply.error))
    ensures reply.Ok? && parse(reply.value).Err? ==> u == Update(Failed, ErrorFeedback(parse(reply.value).error))
    ensures reply.Ok? && parse(reply.value).Ok? && refuse(parse(reply.value).value).Some? ==>
      u == Update(Failed, ErrorFeedback(refuse(parse(reply.value).value).value))
  {
    match reply
    case Err(message) => Update(Failed, ErrorFeedback(message))
    case Ok(content) =>
      match parse(content)
      case Err(message) => Update(Failed, ErrorFeedback(message))
      case Ok(feedback) =>
        match refuse(feedback)
        case Some(message) => Update(Failed, ErrorFeedback(message))
        case None => Update(Completed, feedback)
  }

  /** A settled review can be read back without a 500 exactly when it failed,
      or completed with a reply that parsed to null or to an object. */
  lemma OutcomePresentable(reply: Result<string, string>, parse: string -> Result<Json, string>,
                           refuse: Json -> Option<string>)
    ensures var u := Outcome(reply, parse, refuse);
      Presentable(Some(u.feedback)) <==>
      reply.Err? || parse(reply.value).Err? || refuse(parse(reply.value).value).Some? ||
      parse(reply.value).value.Null? || parse(reply.value).value.Object?
  {
  }

  /** The position of the first document with the given `_id`, as `find_one`
      and `update_one` select it. */
  function Find(rs: seq<Review>, id: ReviewId): (k: Option<nat>)
    ensures k.Some? ==> k.value < |rs| && rs[k.value].id == id
    ensures k.Some? ==> forall j :: 0 <= j < k.value ==> rs[j].id != id
    ensures k.None? <==> forall j :: 0 <= j < |rs| ==> rs[j].id != id
  {
    if rs == [] then None
    else if rs[0].id == id then Some(0)
    else
      match Find(rs[1..], id)
      case None => None
      case Some(k) => Some(k + 1)
  }

  /** `update_one({"_id": id}, {"$set": {"status": .., "feedback": ..}})`. */
  function UpdateOne(rs: seq<Review>, id: ReviewId, u: Update): (rs': seq<Review>)
    ensures |rs'| == |rs|
    ensures forall i :: 0 <= i < |rs| ==>
      rs'[i].id == rs[i].id && rs'[i].code == rs[i].code &&
      rs'[i].language == rs[i].language && rs'[i].createdAt == rs[i].createdAt
    ensures forall i :: 0 <= i < |rs| && Find(rs, id) != Some(i) ==> rs'[i] == rs[i]
    ensures Find(rs, id).Some? ==>
      rs'[Find(rs, id).value].status == u.status &&
      rs'[Find(rs, id).value].feedback == Some(u.feedback)
    ensures Find(rs, id).None? ==> rs' == rs
  {
    match Find(rs, id)
    case None => rs
    case Some(k) => rs[k := rs[k].(status := u.status, feedback := Some(u.feedback))]
  }

  /** No two documents share an `_id`. */
  ghost predicate UniqueIds(rs: seq<Review>) {
    forall i, j :: 0 <= i < j < |rs| ==> rs[i].id != rs[j].id
  }

  /** Every id in use was drawn before `next`, so `next` is fresh. */
  ghost predicate IdsBelow(rs: seq<Review>, next: ReviewId) {
    forall i :: 0 <= i < |rs| ==> rs[i].id < next
  }

  /** A document has a `feedback` key exactly when it has left `pending`. */
  ghost predicate FeedbackIffSettled(rs: seq<Review>) {
    forall i :: 0 <= i < |rs| ==> (rs[i].status == Pending <==> rs[i].feedback.None?)
  }

  ghost predicate Consistent(rs: seq<Review>, next: ReviewId) {
    UniqueIds(rs) && IdsBelow(rs, next) && FeedbackIffSettled(rs)
  }

  /** One task was scheduled per inserted document, in insertion order, with
      that document's id, code and language. */
  ghost predicate Scheduled(tasks: seq<Task>, rs: seq<Review>) {
    |tasks| == |rs| && forall i :: 0 <= i < |rs| ==> tasks[i] == TaskFor(rs[i])
  }

  /** The requests and background completions that change the collection. */
  datatype Event =
    | Submitted(code: string, language: string, createdAt: Timestamp)
    | Finished(id: ReviewId, reply: Result<string, string>)

  /** The collection after a sequence of events, starting from `rs` with `next`
      the next fresh id. */
  function Replay(rs: seq<Review>, next: ReviewId, events: seq<Event>,
                  parse: string -> Result<Json, string>,
                  refuse: Json -> Option<string>): seq<Review>
    decreases |events|
  {
    if events == [] then rs
    else
      match events[0]
      case Submitted(code, language, now) =>
        Replay(rs + [NewReview(next, code, language, now)], next + 1, events[1..], parse, refuse)
      case Finished(id, reply) =>
        Replay(UpdateOne(rs, id, Outcome(reply, parse, refuse)), next, events[1..], parse, refuse)
  }

  /** Once a review has left `pending` it never returns there, whatever happens
      afterwards, and its id, code, language and creation time never change. */
  lemma {:induction false} ReplayNeverReopens(rs: seq<Review>, next: ReviewId, events: seq<Event>,
                                              parse: string -> Result<Json, string>,
                                              refuse: Json -> Option<string>, i: nat)
    requires i < |rs| && rs[i].status != Pending
    ensures var rs' := Replay(rs, next, events, parse, refuse);
      i < |rs'| && rs'[i].status != Pending &&
      rs'[i].id == rs[i].id && rs'[i].code == rs[i].code &&
      rs'[i].language == rs[i].language && rs'[i].createdAt == rs[i].createdAt
    decreases |events|
  {
    if events != [] {
      match events[0]
      case Submitted(code, language, now) =>
        ReplayNeverReopens(rs + [NewReview(next, code, language, now)], next + 1, events[1..], parse, refuse, i);
      case Finished(id, reply) =>
        ReplayNeverReopens(UpdateOne(rs, id, Outcome(reply, parse, refuse)), next, events[1..], parse, refuse, i);
    }
  }

  /** The number of submissions in a sequence of events: each draws one id. */
  function Submissions(events: seq<Event>): (n: nat)
    ensures n <= |events|
  {
    if events == [] then 0
    else (if events[0].Submitted? then 1 else 0) + Submissions(events[1..])
  }

  /** Every sequence of events keeps ids unique, keeps every id below the
      counter advanced by one per submission, and keeps the feedback key
      present exactly on settled reviews. */
  lemma {:induction false} ReplayConsistent(rs: seq<Review>, next: ReviewId, events: seq<Event>,
                                            parse: string -> Result<Json, string>,
                                            refuse: Json -> Option<string>)
    requires Consistent(rs, next)
    ensures UniqueIds(Replay(rs, next, events, parse, refuse))
    ensures IdsBelow(Replay(rs, next, events, parse, refuse), next + Submissions(events))
    ensures FeedbackIffSettled(Replay(rs, next, events, parse, refuse))
    decreases |events|
  {
    if events != [] {
      match events[0]
      case Submitted(code, language, now) =>
        var rs' := rs + [NewReview(next, code, language, now)];
        assert Consistent(rs', next + 1);
        ReplayConsistent(rs', next + 1, events[1..], parse, refuse);
      case Finished(id, reply) =>
        var rs' := UpdateOne(rs, id, Outcome(reply, parse, refuse));
        assert Consistent(rs', next);
        ReplayConsistent(rs', next, events[1..], parse, refuse);
    }
  }

  /** The `reviews` collection together with the tasks handed to BackgroundTasks. */
  class ReviewStore {
    /** The documents, in insertion (natural) order. */
    var records: seq<Review>
    /** Every background task scheduled so far, in scheduling order. */
    var tasks: seq<Task>
    /** The next fresh id. */
    var nextId: ReviewId

    ghost predicate Valid()
      reads this
    {
      Consistent(records, nextId) && Scheduled(tasks, records)
    }

    constructor ()
      ensures Valid() && records == [] && tasks == []
    {
      records, tasks, nextId := [], [], 0;
    }

    /** `get_review`: the stored document with the id, validated against
        `ReviewResponse`; 404 when no document has the id, 500 when its
        `feedback` is neither null nor an object. */
    function Get(id: ReviewId): (r: Result<ReviewResponse, HttpError>)
      reads this
      ensures r == Err(ReviewNotFound) <==> forall i :: 0 <= i < |records| ==> records[i].id != id
      ensures r.Err? ==> r.error == ReviewNotFound || r.error == InvalidResponse
      ensures r == Err(InvalidResponse) ==>
        exists i :: 0 <= i < |records| && records[i].id == id && !Presentable(records[i].feedback)
      ensures r.Ok? ==>
        exists i :: 0 <= i < |records| && records[i].id == id && Validate(Serialize(records[i])) == r
    {
      match Find(records, id)
      case None => Err(ReviewNotFound)
      case Some(k) => Validate(Serialize(records[k]))
    }

    /** `create_review`: insert a pending document, then schedule its task with
        the inserted id, code and language, and return the validated projection
        of the local dict, whose creation time has not been truncated yet. */
    method Create(code: string, language: string, now: Timestamp) returns (response: ReviewResponse)
      requires Valid()
      modifies this
      ensures Valid()
      ensures records == old(records) + [NewReview(old(nextId), code, language, now)]
      ensures tasks == old(tasks) + [Task(old(nextId), code, language)]
      ensures response == ReviewResponse(old(nextId), code, language, "pending", now, None)
      ensures Get(response.id) == Ok(response.(createdAt := StoredTime(now)))
    {
      var review := NewReview(nextId, code, language, now);
      records := records + [review];
      nextId := nextId + 1;
      tasks := tasks + [Task(review.id, code, language)];
      var validated := Validate(Serialize(review.(createdAt := now)));
      response := validated.value;
      assert forall j :: 0 <= j < |records| - 1 ==> records[j].id != response.id by {
        assert IdsBelow(old(records), response.id);
      }
      assert records[|records| - 1] == review;
      ghost var k := Find(records, response.id);
      assert k.Some? && k.value == |records| - 1;
    }

    /** `process_review`: write the outcome of the provider call, the parse and
        the encoding into the document with the given id, and into nothing else. */
    method Process(id: ReviewId, reply: Result<string, string>, parse: string -> Result<Json, string>,
                   refuse: Json -> Option<string>)
      requires Valid()
      modifies this`records
      ensures Valid()
      ensures records == UpdateOne(old(records), id, Outcome(reply, parse, refuse))
      ensures Get(id).Ok? ==> Get(id).value.status == StatusText(Outcome(reply, parse, refuse).status)
      ensures forall i :: 0 <= i < |records| && old(records)[i].status != Pending ==> records[i].status != Pending
    {
      records := UpdateOne(records, id, Outcome(reply, parse, refuse));
    }

    /** `list_reviews`: skip the first `skip` documents in natural order, keep
        at most `limit`, project each with `serialize_review`, and validate the
        list against `list[ReviewResponse]`, which fails with 500 when one
        document on the page has a `feedback` that is neither null nor an object. */
    method List(skip: nat, limit: nat) returns (r: Result<seq<ReviewResponse>, HttpError>)
      ensures var start := Min(skip, |records|);
        r.Err? <==> exists i :: start <= i < start + Min(limit, |records| - start) && !Presentable(records[i].feedback)
      ensures r.Err? ==> r.error == InvalidResponse
      ensures r.Ok? ==> |r.value| <= limit
      ensures r.Ok? ==> |r.value| == if skip < |records| then Min(limit, |records| - skip) else 0
      ensures r.Ok? ==> forall i :: 0 <= i < |r.value| ==> Validate(Serialize(records[skip + i])) == Ok(r.value[i])
    {
      var start := Min(skip, |records|);
      var stop := start + Min(limit, |records| - start);
      var page := [];
      var k := start;
      while k < stop
        invariant start <= k <= stop
        invariant |page| == k - start
        invariant forall i :: 0 <= i < |page| ==> page[i] == Serialize(records[start + i])
      {
        page := page + [Serialize(records[k])];
        k := k + 1;
      }
      r := ValidateAll(page);
      assert forall i :: start <= i < stop ==> page[i - start] == Serialize(records[i]);
    }
  }

  function Min(a: nat, b: nat): nat {
    if a <= b then a else b
  }
}
