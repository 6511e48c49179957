# Job bookkeeping of the presentation-generator backend, in Dafny

This project models the in-memory bookkeeping of a backend that produces slide
outlines, images and slide-deck files as background jobs. It covers two servers
and two small rule sets, and proves what each promises.

- **The mock server** (`backend/mock_server.py`) is used during development.
  It has a job table `JOBS` and a list of live websocket connections
  `WS_CONNECTIONS`. Its job runner `process_job` marks a job `running`,
  announces that to every connection, writes the per-type result (or the
  `unknown job type` error), then announces the final status. `broadcast`
  tries every connection, collects the ones whose send raised, and removes
  them once the loop is over. This is the class `MockServer.Server` (fields
  `jobs`, `connections`, and an `outbox` log of every message a connection
  accepted), backed by the list functions of module `Hub`.
- **The real backend's job table** (`backend/app/main.py`). The image and deck
  routes store `{"status": "queued"}` under a fresh id. Their helpers `_work`
  and `_work_ppt` replace that record wholesale with `{"status": "done", <url>}`.
  The status and download routes are lookups that answer 404 or 400. This is
  the class `Backend.JobTable`, plus the pure functions `Backend.JobStatus`
  and `Backend.DownloadResult`.
- **The outline generator** (`backend/app/design_engine.py`). It returns
  `max(1, length)` numbered slides with three fixed bullets. This is the loop
  method `DesignEngine.GenerateOutlineSync`.
- **The proxy's rules** (`backend/app/proxy.py`): the API-key gate, the
  missing-url and host allow-list rejections, and the request headers,
  including which bearer token is attached. This is module `Proxy`.

Python built-ins the code relies on are modelled in `Builtins`: JSON values
and their truthiness, `str()`, `str.split`, and `list.remove` with its
`ValueError` caught.

Inputs that come from outside the code are parameters:
- the id `uuid4()` returns, with the precondition that it is not already a key;
- environment variables, as `Option<string>` (`None` when unset);
- what `urlparse` makes of a string url: a `ValueError`, or the hostname it reports;
- the contents of the OAuth token file;
- which websocket sends raise, as one set of connections per broadcast;
- the signed url a `_work` helper obtains, or `None` when producing or
  uploading the artifact raised.

Behaviour worth noting:
- In the main backend, a failure in `_work` or `_work_ppt` leaves the job
  `queued` for good. The table has no `running` or `error` state, and the
  helpers have no `try` (backend/app/main.py:33-38, 49-52). In the model this
  is `WorkImage` or `WorkPpt` with `None`.
- In the mock server, an outline `length` that is not an int or a bool makes
  the addition `length + 1` or `range` raise TypeError inside the background
  task (backend/mock_server.py:50-52). The job then stays `running`, and no
  final update is sent (`Stalls`).
- Nothing is broadcast when a job is enqueued. Only the move to `running` and
  the final status are announced.
- The deck job type is called `ppt` (backend/mock_server.py:61, 88).

## Model

| member | source | states |
|---|---|---|
| `MockServer.Server.constructor` | backend/mock_server.py:13-17 | The server starts with no jobs, no connections and an empty log. |
| `MockServer.Server.Broadcast` | backend/mock_server.py:20-32 | Broadcast attempts every connection present at the start. The log gains the message, in list order, for each connection whose send succeeded. Afterwards the list is exactly the old list minus the failing connections, in the same order. Jobs are unchanged. |
| `MockServer.Server.RemoveAll` | backend/mock_server.py:28-32 | The second loop of `broadcast` leaves the list as `RemoveEach` of the collected connections. Jobs and the log are unchanged. |
| `Hub.Keep` | backend/mock_server.py:23-27 | A connection is kept exactly when it was in the list and its send did not fail. |
| `Hub.Failed` | backend/mock_server.py:22-27 | `to_remove` holds exactly the listed connections whose send failed. |
| `Hub.RemoveFailed` | backend/mock_server.py:28-32 | Removing each collected failure with `list.remove` leaves exactly the non-failing connections in their original order. This holds with duplicates too. |
| `Hub.RemoveEachOnlyRemoves` | backend/mock_server.py:28-32 | The removal loop, `RemoveEach`, adds nothing to the list. It removes at most one occurrence per collected entry, and a connection that was not collected keeps every occurrence. |
| `Hub.BroadcastReaches` | backend/mock_server.py:23-27 | One failure does not skip the rest. Every connection present at the start either receives the message or fails and is pruned. |
| `Hub.AbsentReceivesNothing` | backend/mock_server.py:23-25 | A connection not in the list at broadcast time receives nothing, so there is no replay. |
| `Hub.KeepAll` | backend/mock_server.py:20-32 | When no send fails, the connection list is unchanged. |
| `MockServer.Server.Enqueue` | backend/mock_server.py:35-38 | The fresh id gets `{status: queued, type, payload}` with no result, url or error. All other entries, the connections and the log are unchanged. |
| `MockServer.Server.Submit` | backend/mock_server.py:72-90 | Each submission route enqueues its own job type (`outline`, `image`, `ppt`) and answers `{job_id, status: queued}`. |
| `MockServer.Server.ProcessJob` | backend/mock_server.py:41-69 | An unknown id changes nothing. Otherwise only that entry changes, to the `Completed` record. The log gains the `running` update for the surviving connections, and then, unless the outline stalls, the final update with the final status and `result` for the connections surviving both sends. The job invariant `WellFormed` is kept. |
| `MockServer.Server.WriteResult` | backend/mock_server.py:46-67 | The per-type branch: outline slides, the image or deck url stored both at top level and inside `result`, or the unknown-type error. |
| `MockServer.OutlineLength` | backend/mock_server.py:50-52 | An absent `length` means 3 and an int is taken as is. `True` counts as 1 and `False` as 0. Only an int or bool gets past `range`. |
| `MockServer.ImageUrl` | backend/mock_server.py:59 | The image url is the job id between `file:///tmp/mock_images/` and `.png`, so the id can be read back from it. |
| `MockServer.PptUrl` | backend/mock_server.py:63 | The deck url is the job id between `file:///tmp/mock_ppts/` and `.pptx`. |
| `MockServer.ArtifactUrlsDistinct` | backend/mock_server.py:59-63 | Different jobs get different urls, and an image url is never a deck url. |
| `MockServer.OutlineTitle` | backend/mock_server.py:51-53 | An absent `title` renders as `示例`. A string title renders as itself, and an int title as `IntToDecimal` of it, whose digits denote the int. |
| `MockServer.Stalls` | backend/mock_server.py:50-52 | An outline job stalls exactly when its payload has a `length` that is neither an int nor a bool. An absent `length` never stalls. |
| `MockServer.OutlineSlides` | backend/mock_server.py:49-53 | There are `max(0, length)` slides, slide i is titled `"{title} - 第 {i} 頁"`, and each has the two bullets `示例要點 1`, `示例要點 2`. |
| `MockServer.CompletedOutcome` | backend/mock_server.py:41-69 | After one run the record is still well formed and its type and payload are unchanged. It is `running` exactly when the outline stalls, `done` exactly for a known type that does not stall, and `error` exactly for other types. An `error` record has the error `unknown job type` and no `result`. |
| `MockServer.DefaultOutlineHasThreeSlides` | backend/mock_server.py:48-55 | An outline job without `length` ends `done` with 3 slides of two bullets each. |
| `MockServer.ProcessJobNotifies` | backend/mock_server.py:43-44 | A connection surviving both sends gets the `running` update and then the final one. One pruned by the first send, or never connected, gets no final update. |
| `MockServer.JobStatus` | backend/mock_server.py:93-98 | An absent id answers `not_found`. A present id answers that entry's status and result. It is a function, so it cannot change `JOBS`. |
| `MockServer.Server.Connect` | backend/mock_server.py:101-104 | Connect appends the connection. |
| `MockServer.Server.Disconnect` | backend/mock_server.py:109-113 | Disconnect removes the first occurrence, and does nothing if the connection was already pruned. |
| `Builtins.RemoveFirst` | backend/mock_server.py:110-113 | `remove` with `ValueError` caught leaves a list without `x` unchanged, and otherwise makes it one shorter. |
| `Builtins.RemoveFirstAt` | backend/mock_server.py:111 | Exactly the first occurrence is removed, and the rest keeps its order. |
| `Builtins.RemoveFirstMultiset` | backend/mock_server.py:30 | One occurrence of `x` fewer, and nothing else lost. |
| `Backend.JobTable.constructor` | backend/app/main.py:19 | The table starts empty. |
| `Backend.JobTable.GenerateOutline` | backend/app/main.py:22-25 | The reply is the generated outline under the given outline id. The method has no `modifies` clause, so `JOBS` is untouched. A `null` length answers 500. |
| `Backend.JobTable.GenerateImage` | backend/app/main.py:28-41 | Exactly `{"status": "queued"}` is stored under the fresh id, and the reply is `{job_id, status: queued}`. |
| `Backend.JobTable.GeneratePpt` | backend/app/main.py:44-55 | The same, for the deck route. |
| `Backend.JobTable.WorkImage` | backend/app/main.py:33-38 | On success, only that entry is replaced, wholesale, with `{"status": "done", "image_url": url}`. Failure writes nothing. |
| `Backend.JobTable.WorkPpt` | backend/app/main.py:49-52 | The same, with `ppt_url`. |
| `Backend.JobStatus` | backend/app/main.py:58-63 | An absent id gives 404 `job not found`. Otherwise the reply is `job_id` merged with every field of the entry. |
| `Backend.DownloadResult` | backend/app/main.py:66-76 | An absent id gives 404. Otherwise the reply is `ppt_url` if present, else `image_url`, else 400 `no artifact for this job`. A url is returned exactly when one is present. |
| `Backend.QueuedHasNoArtifact` | backend/app/main.py:72-76 | A queued job reads `queued` and has nothing to download (400). |
| `Backend.FinishedDownloads` | backend/app/main.py:38 | After a helper has written its url, the download route returns that url. |
| `Backend.StoredStatuses` | backend/app/main.py:31 | A stored entry is `queued` or `done`, and it is `done` exactly when it has an artifact to download. |
| `Backend.OtherJobsUnaffected` | backend/app/main.py:52 | Writing one id's entry does not change any other id's status or download answer. |
| `DesignEngine.GenerateOutlineSync` | backend/app/design_engine.py:1-10 | There are `max(1, length)` slides, so one slide when `length <= 0`. Slide i, counting from 1 in order, is titled `"{title} - 第 {i} 頁"` and has the bullets `重點 1`, `重點 2`, `重點 3`. `audience` and `style` play no part. |
| `DesignEngine.Bullets` | backend/app/design_engine.py:8 | The comprehension yields exactly `["重點 1", "重點 2", "重點 3"]`. |
| `Slides.NumberedUnique` | backend/app/design_engine.py:4-9 | The title and length determine the outline, so the ignored `audience` and `style` cannot change it. |
| `Slides.NumberedTitlesDistinct` | backend/app/design_engine.py:7 | The slides of one outline have pairwise different titles. |
| `Slides.SlideTitle` | backend/app/design_engine.py:7 | A slide title is the outline title, then ` - 第 `, then the digits of the slide number with their value, then ` 頁`. The same f-string is at backend/mock_server.py:53. |
| `Slides.SlideTitleInjective` | backend/mock_server.py:53 | Different slide numbers give different titles. |
| `Builtins.NatToDecimal` | backend/app/design_engine.py:7 | `str(i)` yields a non-empty string of digits, with more than one digit exactly from 10 on and no leading zero. |
| `Builtins.Get` | backend/mock_server.py:50-51 | `d.get(key, default)` is the stored value when the key is present, and the default otherwise. The proxy's lookups at backend/app/proxy.py:46-48 use it too. |
| `Builtins.Truthy` | backend/app/proxy.py:15-52 | `None`, `False`, `0` and `""` are falsy. Every other int and string, and `True`, is truthy. A float, list or object carries its own truthiness. |
| `Builtins.IntToDecimal` | backend/mock_server.py:53 | `str()` of an int is a minus sign exactly for a negative int, then a non-empty run of digits with no leading zero whose digits denote `|i|`. |
| `Builtins.IntToDecimalInjective` | backend/mock_server.py:53 | Different ints are written differently. |
| `Builtins.PyStr` | backend/app/proxy.py:53 | `str()` as an f-string applies it: `None`, `True`/`False`, a string itself, an int as its signed numeral `IntToDecimal`, and any other value as its carried text. |
| `Builtins.DecimalRoundTrip` | backend/app/design_engine.py:7 | Reading back the numeral of `n` gives `n`, so numerals of different numbers differ. |
| `Builtins.Split` | backend/app/proxy.py:9 | `split(',')` returns at least one piece, and no piece contains a comma. |
| `Builtins.JoinSplit` | backend/app/proxy.py:9 | Joining the pieces of a split with commas gives back the original string. |
| `Builtins.SplitJoin` | backend/app/proxy.py:9 | Splitting the comma-join of comma-free pieces gives back the pieces. |
| `Proxy.AllowedHosts` | backend/app/proxy.py:9 | `ALLOWED_HOSTS` is the lossless comma split of the variable, with no entry containing a comma. |
| `Proxy.DefaultAllowsOnlyContentHost` | backend/app/proxy.py:9 | With the variable unset, the only allowed host is `content-management-public-content.canva.com`. |
| `Proxy.AllowedHostsRoundTrip` | backend/app/proxy.py:9 | Any comma-free host list, written into the variable, is read back exactly. |
| `Proxy.VerifyApiKey` | backend/app/proxy.py:12-20 | A request is accepted exactly when `BACKEND_API_KEY` is unset or empty, or `X-API-Key` equals it. Otherwise the answer is 401 `Unauthorized`. |
| `Proxy.AdmitFetch` | backend/app/proxy.py:23-31 | The checks run in order: 401 first, then 400 `missing url` for an absent or falsy url, then 500 for a truthy url that is not a string or that `urlparse` rejects with `ValueError`, then 403 for a missing, empty or unlisted host. A request passes exactly when the key is accepted, the url is a non-empty string that parses, and its host is exactly one of the listed hosts. |
| `Proxy.AdmittedHostHasNoComma` | backend/app/proxy.py:28-31 | A host that passes the check contains no comma. |
| `Proxy.StoredToken` | backend/app/proxy.py:40-50 | There is a token only from an object entry for the user. It is `access_token` when that is truthy, else `token`. |
| `Proxy.FetchHeaders` | backend/app/proxy.py:33-53 | `User-Agent` and `Referer` are always set, and no other header besides `Authorization` is. A non-empty `CANVA_ACCESS_TOKEN` always wins. Otherwise `Authorization` is `"Bearer " + token` exactly when the stored token of `CANVA_USER_ID` (default `default`) is truthy. |

## Left out

- Scheduling is not modelled: the asyncio scheduling, `BackgroundTasks`, `asyncio.sleep` and interleaved jobs. Each run of `process_job`, `_work` or `_work_ppt` is one atomic step that the caller invokes after the submission route.
- Websocket I/O is not modelled: `accept`, `send_text`, `receive_text` and JSON encoding. Send failures are an input set, accepted messages go to the `outbox` log, and the keep-alive receive loop is not modelled.
- `uuid4` randomness is an input, constrained only by freshness.
- Content producers and storage are opaque. The image rendering, the deck builder, the file copy and `make_signed_url` appear only through the url `_work`/`_work_ppt` receive, or `None` when these raise.
- Request validation is skipped. The request schemas enter only through their defaults: the outline request's `length` is an input that may be `null`. The image and deck requests' fields feed only the producers, so those routes take none.
- The proxy's `urlparse` call is reduced to its outcome, which is an input: whether it raises `ValueError`, and otherwise the hostname. Which strings make it raise is not modelled. The httpx request, its 502 on connection errors, the response passthrough and the `PROXY_TIMEOUT` parsing are not modelled.
- The proxy's token file enters only as its parsed contents. Reading and parsing it, and the import of the OAuth module, appear only as `Unreadable`.
- The browser extension, the OAuth routes and the unused auth stub are not part of this model.
- The mock server's `Value` type does not look inside floats, lists or objects in a payload. It carries only their `str()` text and their truthiness, which is all the modelled code uses.
- `MockServer.Server.Broadcast`: the accepted sends are appended to the log, in order, once the first loop ends. The list is iterated as it stands when the broadcast starts. A connect or disconnect taking effect during one of its sends, which only concurrency could cause, is not modelled.
