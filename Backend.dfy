/** The real backend's routes (`backend/app/main.py`): an in-memory `JOBS`
    table written by the image and slide-deck routes and by their background
    helpers `_work` / `_work_ppt`, read by the status and download routes.
    The outline route answers directly and has no job. */
module Backend {
  import opened Builtins
  import opened Jobs
  import opened Slides
  import opened Http
  import DesignEngine

  /** A `JOBS` entry: a `status` and at most the two url keys. */
  datatype Entry = Entry(status: Status, imageUrl: Option<string>, pptUrl: Option<string>)

  /** `{"status": "queued"}`. */
  const QueuedEntry := Entry(Queued, None, None)

  /** `{"status": "done", "image_url": url}` and `{"status": "done", "ppt_url": url}`. */
  function ImageDone(url: string): Entry { Entry(Done, Some(url), None) }
  function PptDone(url: string): Entry { Entry(Done, None, Some(url)) }

  /** The entries the routes and helpers ever store: queued, or done with
      exactly one of the two urls. */
  predicate Stored(e: Entry)
  {
    || e == QueuedEntry
    || (e.status == Done && e.imageUrl.Some? && e.pptUrl.None?)
    || (e.status == Done && e.imageUrl.None? && e.pptUrl.Some?)
  }

  /** The request body of the outline route, with the schema's defaults
      already applied; `length` may still be an explicit `null`. */
  datatype OutlineRequest = OutlineRequest(title: string, audience: Option<string>, length: Option<int>, style: Option<string>)

  datatype OutlineReply = OutlineReply(outlineId: string, slides: seq<Slide>)
  datatype QueuedReply = QueuedReply(jobId: string, status: Status)

  /** `{"job_id": job_id, **job}`. */
  datatype StatusReply = StatusReply(jobId: string, status: Status, imageUrl: Option<string>, pptUrl: Option<string>)

  /** The status route: 404 for an unknown id, otherwise the id merged with
      every field of the entry. */
  function JobStatus(jobs: map<string, Entry>, jobId: string): (r: Outcome<StatusReply>)
    ensures r.Raise? <==> jobId !in jobs
    ensures r.Raise? ==> r == Raise(404, "job not found")
    ensures r.Ok? ==>
      && r.value.jobId == jobId
      && r.value.status == jobs[jobId].status
      && r.value.imageUrl == jobs[jobId].imageUrl
      && r.value.pptUrl == jobs[jobId].pptUrl
  {
    if jobId !in jobs then Raise(404, "job not found")
    else
      var e := jobs[jobId];
      Ok(StatusReply(jobId, e.status, e.imageUrl, e.pptUrl))
  }

  /** The download route: 404 for an unknown id; the `ppt_url` if the entry
      has one, else its `image_url`; 400 when it has neither. */
  function DownloadResult(jobs: map<string, Entry>, jobId: string): (r: Outcome<string>)
    ensures jobId !in jobs ==> r == Raise(404, "job not found")
    ensures jobId in jobs && jobs[jobId].pptUrl.Some? ==> r == Ok(jobs[jobId].pptUrl.value)
    ensures jobId in jobs && jobs[jobId].pptUrl.None? && jobs[jobId].imageUrl.Some? ==>
      r == Ok(jobs[jobId].imageUrl.value)
    ensures r.Ok? <==> jobId in jobs && (jobs[jobId].pptUrl.Some? || jobs[jobId].imageUrl.Some?)
    ensures r.Raise? && jobId in jobs ==> r == Raise(400, "no artifact for this job")
  {
    if jobId !in jobs then Raise(404, "job not found")
    else
      var e := jobs[jobId];
      match e.pptUrl
      case Some(u) => Ok(u)
      case None =>
        match e.imageUrl
        case Some(u) => Ok(u)
        case None => Raise(400, "no artifact for this job")
  }

  /** A job that is still queued has nothing to download yet, and its status
      reads `queued`. */
  lemma QueuedHasNoArtifact(jobs: map<string, Entry>, jobId: string)
    requires jobId in jobs && jobs[jobId] == QueuedEntry
    ensures DownloadResult(jobs, jobId) == Raise(400, "no artifact for this job")
    ensures JobStatus(jobs, jobId) == Ok(StatusReply(jobId, Queued, None, None))
  {
  }

  /** Once a helper has finished, the download route hands out its url. */
  lemma FinishedDownloads(jobs: map<string, Entry>, jobId: string, url: string)
    ensures DownloadResult(jobs[jobId := ImageDone(url)], jobId) == Ok(url)
    ensures DownloadResult(jobs[jobId := PptDone(url)], jobId) == Ok(url)
    ensures JobStatus(jobs[jobId := ImageDone(url)], jobId) == Ok(StatusReply(jobId, Done, Some(url), None))
  {
  }

  /** Every stored entry is `queued` or `done`, and a `done` one always has
      exactly one artifact to download. */
  lemma StoredStatuses(jobs: map<string, Entry>, jobId: string)
    requires jobId in jobs && Stored(jobs[jobId])
    ensures jobs[jobId].status == Queued || jobs[jobId].status == Done
    ensures jobs[jobId].status == Done <==> DownloadResult(jobs, jobId).Ok?
  {
  }

  /** Writing one id's entry changes no other id's answers. */
  lemma OtherJobsUnaffected(jobs: map<string, Entry>, jobId: string, e: Entry, other: string)
    requires other != jobId
    ensures JobStatus(jobs[jobId := e], other) == JobStatus(jobs, other)
    ensures DownloadResult(jobs[jobId := e], other) == DownloadResult(jobs, other)
  {
  }

  class JobTable {
    var jobs: map<string, Entry>

    ghost predicate Valid()
      reads this
    {
      forall id :: id in jobs ==> Stored(jobs[id])
    }

    constructor ()
      ensures Valid() && jobs == map[]
    {
      jobs := map[];
    }

    /** The outline route: the outline of `generate_outline_sync` under a new
        `outline_id`. It has no `modifies` clause: it never touches `JOBS`.
        An explicit `null` length makes `max(1, None)` raise. */
    method GenerateOutline(req: OutlineRequest, freshOutlineId: string) returns (r: Outcome<OutlineReply>)
      ensures req.length.None? ==> r == InternalError()
      ensures req.length.Some? ==>
        && r.Ok? && r.value.outlineId == freshOutlineId
        && Numbered(r.value.slides, req.title, if req.length.value < 1 then 1 else req.length.value,
                    ["重點 1", "重點 2", "重點 3"])
    {
      if req.length.None? {
        return InternalError();
      }
      var slides := DesignEngine.GenerateOutlineSync(req.title, req.audience, req.length.value, req.style);
      r := Ok(OutlineReply(freshOutlineId, slides));
    }

    /** The image route: a fresh id (the `uuid4()` result) gets
        `{"status": "queued"}`; `_work` is scheduled to run later. */
    method GenerateImage(freshId: string) returns (reply: QueuedReply)
      requires Valid() && freshId !in jobs
      modifies this
      ensures Valid()
      ensures jobs == old(jobs)[freshId := QueuedEntry]
      ensures reply == QueuedReply(freshId, Queued)
    {
      jobs := jobs[freshId := QueuedEntry];
      reply := QueuedReply(freshId, Queued);
    }

    /** The slide-deck route, the same as the image route. */
    method GeneratePpt(freshId: string) returns (reply: QueuedReply)
      requires Valid() && freshId !in jobs
      modifies this
      ensures Valid()
      ensures jobs == old(jobs)[freshId := QueuedEntry]
      ensures reply == QueuedReply(freshId, Queued)
    {
      jobs := jobs[freshId := QueuedEntry];
      reply := QueuedReply(freshId, Queued);
    }

    /** `_work`: `signedUrl` is what generating, uploading and signing the
        image produced, or `None` if one of them raised. The entry is then
        replaced wholesale; on a failure nothing is written and the job
        stays `queued`. */
    method WorkImage(jobId: string, signedUrl: Option<string>)
      requires Valid()
      modifies this
      ensures Valid()
      ensures signedUrl.None? ==> jobs == old(jobs)
      ensures signedUrl.Some? ==> jobs == old(jobs)[jobId := ImageDone(signedUrl.value)]
    {
      if signedUrl.Some? {
        jobs := jobs[jobId := ImageDone(signedUrl.value)];
      }
    }

    /** `_work_ppt`, the same with the deck's url under `ppt_url`. */
    method WorkPpt(jobId: string, signedUrl: Option<string>)
      requires Valid()
      modifies this
      ensures Valid()
      ensures signedUrl.None? ==> jobs == old(jobs)
      ensures signedUrl.Some? ==> jobs == old(jobs)[jobId := PptDone(signedUrl.value)]
    {
      if signedUrl.Some? {
        jobs := jobs[jobId := PptDone(signedUrl.value)];
      }
    }
  }
}
