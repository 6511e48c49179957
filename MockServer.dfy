/** The development mock server: an in-memory job table `JOBS`, the live
    websocket list `WS_CONNECTIONS`, and the job runner `process_job` that
    announces every status change to all connections. One run of
    `process_job` is one sequential step (its two-second sleep is dropped);
    `outbox` logs, in order, every message a connection accepted. */
module MockServer {
  import opened Builtins
  import opened Jobs
  import opened Slides
  import opened Hub

  /** What a finished job carries under `"result"`. */
  datatype JobResult =
    | OutlineResult(slides: seq<Slide>)
    | ImageResult(imageUrl: string)
    | PptResult(pptUrl: string)

  /** A `JOBS` entry. The optional fields are keys the record may lack:
      `result`, `image_url`, `ppt_url` and `error`. */
  datatype Job = Job(
    status: Status,
    jobType: string,
    payload: map<string, Value>,
    result: Option<JobResult>,
    imageUrl: Option<string>,
    pptUrl: Option<string>,
    error: Option<string>)

  /** A `{"type": "job-update", ...}` message. The running update has no
      `result` key; the final one always has it, possibly `null`. */
  datatype Update =
    | Update(jobId: string, status: Status)
    | FinalUpdate(jobId: string, status: Status, result: Option<JobResult>)

  /** The reply of the status route. */
  datatype StatusReply =
    | NotFound(jobId: string)
    | Found(jobId: string, status: Status, result: Option<JobResult>)

  /** The three submission routes and the job type each one enqueues. */
  datatype Route = OutlineRoute | ImageRoute | PptRoute {
    function JobType(): string
    {
      match this
      case OutlineRoute => "outline"
      case ImageRoute => "image"
      case PptRoute => "ppt"
    }
  }

  datatype QueuedReply = QueuedReply(jobId: string, status: Status)

  const DefaultLength := 3
  const DefaultTitle := "示例"
  const MockBullets := ["示例要點 1", "示例要點 2"]
  const UnknownType := "unknown job type"
  const KnownTypes := {"outline", "image", "ppt"}

  const ImageDir := "file:///tmp/mock_images/"
  const PptDir := "file:///tmp/mock_ppts/"

  /** The fake image url of a job: the job id between the image directory and
      `.png`, so it can be read back from the url. */
  function ImageUrl(jobId: string): (url: string)
    ensures |url| == |ImageDir| + |jobId| + 4
    ensures url[..|ImageDir|] == ImageDir && url[|url| - 4..] == ".png"
    ensures url[|ImageDir|..|url| - 4] == jobId
  {
    ImageDir + jobId + ".png"
  }

  /** The fake deck url of a job: the job id between the deck directory and
      `.pptx`. */
  function PptUrl(jobId: string): (url: string)
    ensures |url| == |PptDir| + |jobId| + 5
    ensures url[..|PptDir|] == PptDir && url[|url| - 5..] == ".pptx"
    ensures url[|PptDir|..|url| - 5] == jobId
  {
    PptDir + jobId + ".pptx"
  }

  /** Different jobs get different artifact urls, and an image url is never
      a deck url. */
  lemma {:induction false} ArtifactUrlsDistinct(a: string, b: string)
    ensures ImageUrl(a) == ImageUrl(b) ==> a == b
    ensures PptUrl(a) == PptUrl(b) ==> a == b
    ensures ImageUrl(a) != PptUrl(b)
  {
    assert ImageUrl(a)[17] == 'i' && PptUrl(b)[17] == 'p';
  }

  /** `payload.get("length", 3)` as `range(1, length + 1)` takes it: an int
      as it is, a bool as 0 or 1; anything else (null, a string, a float, a
      list, an object) makes the addition or `range` raise TypeError, which
      is `None` here. */
  function OutlineLength(payload: map<string, Value>): (n: Option<int>)
    ensures "length" !in payload ==> n == Some(DefaultLength)
    ensures "length" in payload ==>
      (n.Some? <==> payload["length"].Int? || payload["length"].Bool?)
    ensures "length" in payload && payload["length"].Int? ==> n == Some(payload["length"].i)
    ensures "length" in payload && payload["length"].Bool? ==>
      n == Some(if payload["length"].b then 1 else 0)
  {
    match Get(payload, "length", Int(DefaultLength))
    case Int(i) => Some(i)
    case Bool(b) => Some(if b then 1 else 0)
    case _ => None
  }

  /** `payload.get("title", "示例")` as the f-string renders it. */
  function OutlineTitle(payload: map<string, Value>): (title: string)
    ensures "title" !in payload ==> title == DefaultTitle
    ensures "title" in payload && payload["title"].Str? ==> title == payload["title"].s
    ensures "title" in payload && payload["title"].Int? ==> title == IntToDecimal(payload["title"].i)
  {
    PyStr(Get(payload, "title", Str(DefaultTitle)))
  }

  /** The outline branch raises before it writes a terminal status, so the
      job is left `running` and no final update is sent. */
  predicate Stalls(job: Job)
    ensures Stalls(job) <==>
      && job.jobType == "outline" && "length" in job.payload
      && !job.payload["length"].Int? && !job.payload["length"].Bool?
  {
    job.jobType == "outline" && OutlineLength(job.payload).None?
  }

  /** A job record as the server ever leaves it: `result` only when done,
      `error` only on error (and only for a type with no branch), a top-level url only on a job of its type and
      equal to the one inside `result`, and a stalling outline never terminal. */
  ghost predicate WellFormed(j: Job)
  {
    && (!j.status.IsTerminal() ==> j.result.None? && j.error.None?)
    && (j.status == Done ==> j.result.Some? && j.error.None? && j.jobType in KnownTypes)
    && (j.status == Error ==> j.result.None? && j.error == Some(UnknownType) && j.jobType !in KnownTypes)
    && (j.imageUrl.Some? ==> j.jobType == "image" && j.result == Some(ImageResult(j.imageUrl.value)))
    && (j.pptUrl.Some? ==> j.jobType == "ppt" && j.result == Some(PptResult(j.pptUrl.value)))
    && (Stalls(j) ==> !j.status.IsTerminal())
  }

  /** `after` is what one run of `process_job` leaves in place of `job`:
      status `running` is written first, then the branch for the job type
      writes its fields; the record is otherwise untouched. */
  ghost predicate Completed(job: Job, jobId: string, after: Job)
  {
    var running := job.(status := Running);
    if job.jobType == "outline" then
      match OutlineLength(job.payload)
      case None => after == running
      case Some(n) =>
        && after.result.Some? && after.result.value.OutlineResult?
        && after == running.(status := Done, result := after.result)
        && Numbered(after.result.value.slides, OutlineTitle(job.payload), if n > 0 then n else 0, MockBullets)
    else if job.jobType == "image" then
      after == running.(status := Done, imageUrl := Some(ImageUrl(jobId)),
                        result := Some(ImageResult(ImageUrl(jobId))))
    else if job.jobType == "ppt" then
      after == running.(status := Done, pptUrl := Some(PptUrl(jobId)),
                        result := Some(PptResult(PptUrl(jobId))))
    else
      after == running.(status := Error, error := Some(UnknownType))
  }

  /** The status route: `not_found` for an unknown id, otherwise the entry's
      `status` and `result`. */
  function JobStatus(jobs: map<string, Job>, jobId: string): (r: StatusReply)
    ensures r.jobId == jobId
    ensures r.NotFound? <==> jobId !in jobs
    ensures r.Found? ==> r.status == jobs[jobId].status && r.result == jobs[jobId].result
  {
    if jobId !in jobs then NotFound(jobId)
    else Found(jobId, jobs[jobId].status, jobs[jobId].result)
  }

  /** The outline branch's loop: `for i in range(1, length + 1)`, so no
      slides at all when `length <= 0`. */
  method OutlineSlides(title: string, length: int) returns (slides: seq<Slide>)
    ensures Numbered(slides, title, if length > 0 then length else 0, MockBullets)
  {
    slides := [];
    var i := 1;
    while i <= length
      invariant 1 <= i <= (if length > 0 then length else 0) + 1
      invariant Numbered(slides, title, i - 1, MockBullets)
    {
      slides := slides + [Slide(SlideTitle(title, i), MockBullets)];
      i := i + 1;
    }
  }

  /** The terminal states one run reaches from a well-formed record. */
  lemma CompletedOutcome(job: Job, jobId: string, after: Job)
    requires WellFormed(job) && Completed(job, jobId, after)
    ensures WellFormed(after)
    ensures after.jobType == job.jobType && after.payload == job.payload
    ensures after.status == Running <==> Stalls(job)
    ensures after.status == Done <==> job.jobType in KnownTypes && !Stalls(job)
    ensures after.status == Error <==> job.jobType !in KnownTypes
    ensures after.status == Error ==> after.result.None? && after.error == Some(UnknownType)
  {
  }

  /** Scenario: an outline job with no `length` ends with three numbered
      slides of two bullets each. */
  lemma DefaultOutlineHasThreeSlides(job: Job, jobId: string, after: Job)
    requires job.jobType == "outline" && "length" !in job.payload
    requires Completed(job, jobId, after)
    ensures after.status == Done
    ensures after.result.Some? && after.result.value.OutlineResult?
    ensures |after.result.value.slides| == 3
    ensures forall i :: 0 <= i < 3 ==> |after.result.value.slides[i].bullets| == 2
  {
  }

  /** What the two broadcasts of one run deliver to a connection `c`: if it
      survives both, it gets the running update and, after it, the final
      one; if its first send fails it is pruned and never gets the final
      update; if it was not connected, it gets neither. */
  lemma ProcessJobNotifies(conns: seq<Conn>, f1: set<Conn>, f2: set<Conn>, first: Update, last: Update, c: Conn)
    ensures c in conns && c !in f1 ==> Delivery(c, first) in Addressed(Keep(conns, f1), first)
    ensures c in conns && c !in f1 && c !in f2 ==>
      Delivery(c, last) in Addressed(Keep(Keep(conns, f1), f2), last)
    ensures c !in conns || c in f1 ==>
      forall d :: d in Addressed(Keep(Keep(conns, f1), f2), last) ==> d.conn != c
    ensures c !in conns ==> forall d :: d in Addressed(Keep(conns, f1), first) ==> d.conn != c
  {
    if c in conns {
      BroadcastReaches(conns, f1, first, c);
      if c !in f1 {
        BroadcastReaches(Keep(conns, f1), f2, last, c);
      }
    }
  }

  /** One more connection tried: it joins `to_remove` or gets the message. */
  lemma PrefixStep<M>(conns: seq<Conn>, i: nat, failing: set<Conn>, msg: M)
    requires i < |conns|
    ensures conns[i] in failing ==>
      && Failed(conns[..i + 1], failing) == Failed(conns[..i], failing) + [conns[i]]
      && Keep(conns[..i + 1], failing) == Keep(conns[..i], failing)
    ensures conns[i] !in failing ==>
      && Failed(conns[..i + 1], failing) == Failed(conns[..i], failing)
      && Addressed(Keep(conns[..i + 1], failing), msg)
         == Addressed(Keep(conns[..i], failing), msg) + [Delivery(conns[i], msg)]
  {
    var ws := conns[i];
    assert conns[..i + 1] == conns[..i] + [ws];
    KeepAppend(conns[..i], [ws], failing);
    FailedAppend(conns[..i], [ws], failing);
    assert Keep([ws], failing) == (if ws in failing then [] else [ws]);
    assert Failed([ws], failing) == (if ws in failing then [ws] else []);
  }

  class Server {
    var jobs: map<string, Job>
    var connections: seq<Conn>
    var outbox: seq<Delivery<Update>>

    ghost predicate Valid()
      reads this
    {
      forall id :: id in jobs ==> WellFormed(jobs[id])
    }

    constructor ()
      ensures Valid()
      ensures jobs == map[] && connections == [] && outbox == []
    {
      jobs, connections, outbox := map[], [], [];
    }

    /** `broadcast(msg)`: try every connection present at the start, collect
        the ones whose send raised, then remove those. */
    method Broadcast(msg: Update, failing: set<Conn>)
      modifies this
      ensures connections == Keep(old(connections), failing)
      ensures outbox == old(outbox) + Addressed(Keep(old(connections), failing), msg)
      ensures jobs == old(jobs)
    {
      var conns := connections;
      var toRemove: seq<Conn> := [];
      var sent: seq<Delivery<Update>> := [];
      var i := 0;
      while i < |conns|
        invariant 0 <= i <= |conns|
        invariant connections == conns && outbox == old(outbox) && jobs == old(jobs)
        invariant toRemove == Failed(conns[..i], failing)
        invariant sent == Addressed(Keep(conns[..i], failing), msg)
      {
        var ws := conns[i];
        PrefixStep(conns, i, failing, msg);
        if ws in failing {
          toRemove := toRemove + [ws];
        } else {
          sent := sent + [Delivery(ws, msg)];
        }
        i := i + 1;
      }
      outbox := outbox + sent;
      assert conns[..i] == conns;
      RemoveFailed(conns, failing);
      RemoveAll(toRemove);
    }

    /** The second loop of `broadcast`: remove each collected connection with
        `list.remove`, ignoring the `ValueError` of one already gone. */
    method RemoveAll(toRemove: seq<Conn>)
      modifies this
      ensures connections == RemoveEach(old(connections), toRemove)
      ensures jobs == old(jobs) && outbox == old(outbox)
    {
      var j := 0;
      while j < |toRemove|
        invariant 0 <= j <= |toRemove| && jobs == old(jobs) && outbox == old(outbox)
        invariant RemoveEach(connections, toRemove[j..]) == RemoveEach(old(connections), toRemove)
      {
        assert toRemove[j..][0] == toRemove[j] && toRemove[j..][1..] == toRemove[j + 1..];
        connections := RemoveFirst(connections, toRemove[j]);
        j := j + 1;
      }
    }

    /** `enqueue_job`: a fresh id (the `uuid4()` result) gets a queued record. */
    method Enqueue(jobType: string, payload: map<string, Value>, freshId: string) returns (jobId: string)
      requires Valid() && freshId !in jobs
      modifies this
      ensures Valid()
      ensures jobId == freshId
      ensures jobs == old(jobs)[jobId := Job(Queued, jobType, payload, None, None, None, None)]
      ensures connections == old(connections) && outbox == old(outbox)
    {
      jobId := freshId;
      jobs := jobs[jobId := Job(Queued, jobType, payload, None, None, None, None)];
    }

    /** The three submission routes: enqueue and answer `queued`. Running the
        job is the separate step `ProcessJob`. */
    method Submit(route: Route, payload: map<string, Value>, freshId: string) returns (reply: QueuedReply)
      requires Valid() && freshId !in jobs
      modifies this
      ensures Valid()
      ensures reply == QueuedReply(freshId, Queued)
      ensures jobs == old(jobs)[freshId := Job(Queued, route.JobType(), payload, None, None, None, None)]
      ensures connections == old(connections) && outbox == old(outbox)
    {
      var jobId := Enqueue(route.JobType(), payload, freshId);
      reply := QueuedReply(jobId, Queued);
    }

    /** `process_job`: mark the job running and announce it, produce the
        per-type result (or the unknown-type error), then announce the final
        status. `failRunning` and `failFinal` are the connections whose send
        raises during the first and the second broadcast. */
    method ProcessJob(jobId: string, failRunning: set<Conn>, failFinal: set<Conn>)
      requires Valid()
      modifies this
      ensures Valid()
      ensures jobId !in old(jobs) ==> jobs == old(jobs) && connections == old(connections) && outbox == old(outbox)
      ensures jobId in old(jobs) ==>
        && jobId in jobs
        && jobs == old(jobs)[jobId := jobs[jobId]]
        && Completed(old(jobs)[jobId], jobId, jobs[jobId])
      ensures jobId in old(jobs) ==>
        var live := Keep(old(connections), failRunning);
        var announced := old(outbox) + Addressed(live, Update(jobId, Running));
        if Stalls(old(jobs)[jobId]) then
          connections == live && outbox == announced
        else
          && connections == Keep(live, failFinal)
          && outbox == announced + Addressed(Keep(live, failFinal),
                                             FinalUpdate(jobId, jobs[jobId].status, jobs[jobId].result))
    {
      if jobId !in jobs {
        return;  // JOBS[job_id] raises KeyError
      }
      ghost var before := jobs[jobId];
      jobs := jobs[jobId := jobs[jobId].(status := Running)];
      Broadcast(Update(jobId, Running), failRunning);
      if Stalls(jobs[jobId]) {
        return;  // range(1, length + 1) raises TypeError
      }
      WriteResult(jobId);
      CompletedOutcome(before, jobId, jobs[jobId]);
      Broadcast(FinalUpdate(jobId, jobs[jobId].status, jobs[jobId].result), failFinal);
    }

    /** The branch of `process_job` after the sleep: write the per-type
        result, or the unknown-type error, into the running record. */
    method WriteResult(jobId: string)
      requires jobId in jobs && jobs[jobId].status == Running && !Stalls(jobs[jobId])
      modifies this
      ensures jobId in jobs && jobs == old(jobs)[jobId := jobs[jobId]]
      ensures Completed(old(jobs)[jobId], jobId, jobs[jobId])
      ensures connections == old(connections) && outbox == old(outbox)
    {
      var job := jobs[jobId];
      var typ := job.jobType;
      if typ == "outline" {
        var length := OutlineLength(job.payload);
        var title := OutlineTitle(job.payload);
        var slides := OutlineSlides(title, length.value);
        jobs := jobs[jobId := jobs[jobId].(status := Done)];
        jobs := jobs[jobId := jobs[jobId].(result := Some(OutlineResult(slides)))];
      } else if typ == "image" {
        jobs := jobs[jobId := jobs[jobId].(status := Done)];
        jobs := jobs[jobId := jobs[jobId].(imageUrl := Some(ImageUrl(jobId)))];
        jobs := jobs[jobId := jobs[jobId].(result := Some(ImageResult(jobs[jobId].imageUrl.value)))];
      } else if typ == "ppt" {
        jobs := jobs[jobId := jobs[jobId].(status := Done)];
        jobs := jobs[jobId := jobs[jobId].(pptUrl := Some(PptUrl(jobId)))];
        jobs := jobs[jobId := jobs[jobId].(result := Some(PptResult(jobs[jobId].pptUrl.value)))];
      } else {
        jobs := jobs[jobId := jobs[jobId].(status := Error)];
        jobs := jobs[jobId := jobs[jobId].(error := Some(UnknownType))];
      }
    }

    /** The websocket route on connect: `WS_CONNECTIONS.append(websocket)`. */
    method Connect(c: Conn)
      modifies this
      ensures connections == old(connections) + [c]
      ensures jobs == old(jobs) && outbox == old(outbox)
    {
      connections := connections + [c];
    }

    /** The websocket route on disconnect: remove the connection, doing
        nothing if a failed broadcast already pruned it. */
    method Disconnect(c: Conn)
      modifies this
      ensures connections == RemoveFirst(old(connections), c)
      ensures jobs == old(jobs) && outbox == old(outbox)
    {
      connections := RemoveFirst(connections, c);
    }
  }
}
