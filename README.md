# GitHub webhook receiver — Dafny model

This project models the core of a small Flask service (`app.py`). The service:

- receives GitHub webhook deliveries on `POST /webhook`;
- turns `push` and `pull_request` events into one normalised record
  `{author, action, from_branch, to_branch, timestamp}`;
- appends that record to a MongoDB collection `events`;
- serves the twenty newest records, newest first, on `GET /api/events`.

The model is made of these modules:

- `Json` (json.dfy): the decoded request body as a JSON value, with Python truthiness and `dict.get`. Calling `.get` on something that is not a dict raises AttributeError in Python; here it is a `Failure`.
- `Segments` (segments.dfy): `str.split(sep)`, its inverse `join`, and `LastSegment`, which is `ref.split('/')[-1]`.
- `Events` (events.dfy): the pure part of `github_webhook`. `Normalize(event, payload, now)` gives `Unhandled` (an event kind the service ignores), `Malformed` (a nested value of the wrong shape, which the handler answers with 500), or `Normalized(record)`.
- `Documents` (documents.dfy): stored documents. Each has an `_id` that is either a native ObjectId or, after the read loop, its string form (24 lowercase hex digits). Each timestamp is either text or a native date/time. `WireAll` is the in-place loop of `get_events`.
- `Query` (query.dfy): the database query `find().sort("timestamp", -1).limit(20)`, given by what it promises of its result (`IsNewest`): the twenty newest documents, newest first, with ties in no fixed order. Strings sort below dates; within one kind the order is lexicographic. `Latest` is one result that meets the promise.
- `Service` (service.dfy): the class `WebhookService`. It holds `connected`, which stands for `events_collection is not None`, and `store`, the collection's documents. Its methods are the two handlers and the reconnect step.

Some things are parameters of the methods rather than part of the model. These are the clock reading `now`, whether a (re)connection attempt succeeds, whether an insert succeeds and the ObjectId it assigns, and what the query returns (any result meeting `IsNewest`) or whether it fails.

Points of `app.py` the model follows exactly:

- A missing or wrongly shaped payload field never gives 400. The `KeyError` handler cannot be reached, because nothing in the `try` block subscripts the payload. A nested value that is present but is not an object (`"pusher": null`) makes `.get` raise. The generic handler then answers 500 (`Malformed` leads to `InternalError`).
- In the pull-request arm, and for a push's `author`, the "N/A" default applies only when the key is absent. A key that is present keeps whatever JSON value it holds, `null` included. So the record fields are JSON values, not strings.
- A push's `to_branch` is "N/A" whenever `ref` is falsy, not only when it is missing. An empty string, `null`, `0` or `false` all count.
- "Merged" is Python truthiness of `pull_request.merged`, not equality with `true`.
- The "N/A" placeholder itself contains a slash. Only a branch derived from a `ref` is guaranteed to be free of slashes.

## Model

| member | source | states |
|---|---|---|
| Segments.Split | app.py:75 | `str.split(sep)` gives at least one piece, and no piece contains the separator |
| Segments.JoinSplit | app.py:75 | joining the pieces of a split with the separator gives back the original string |
| Segments.SplitJoin | app.py:75 | splitting the join of separator-free pieces gives back exactly those pieces |
| Segments.SplitAround | app.py:75 | a separator between two strings splits them apart: the pieces are those of the left part followed by those of the right part |
| Segments.LastPieceIsSuffix | app.py:75 | the last piece of a split is a suffix of the string, preceded by a separator unless it is the whole string |
| Segments.LastSegment | app.py:75 | `ref.split('/')[-1]` is the longest slash-free suffix of `ref`: it has no `/`, and it is either the whole string or preceded by `/` |
| Segments.LastSegmentAfterSlash | app.py:75 | for any prefix, `prefix/name` with a slash-free `name` gives `name` (so `refs/heads/a/b` gives `b`) |
| Segments.HeadsRefBranch | app.py:75 | `refs/heads/X` with a slash-free X gives X |
| Json.Truthy | app.py:62 | Python truthiness of a JSON value (used at lines 62, 75 and 95): false exactly for null, false, 0, the empty string, the empty list and the empty object |
| Json.Get | app.py:74-93 | `v.get(key, default)`: fails (AttributeError) exactly when `v` is not an object; otherwise the value under `key`, or `default` when the key is absent |
| Events.PushRecord | app.py:72-83 | the push arm fails exactly when the payload is not an object, its `pusher` is present and not an object, or a truthy `ref` is not a string; a built record has action push, a null `from_branch` and the processing time plus "Z" |
| Events.PullRequestRecord | app.py:86-114 | the pull-request arm fails exactly when the payload is not an object, or `pull_request`, `user`, `head` or `base` is present and not an object; a built record is never a push and carries the processing time plus "Z" |
| Events.Normalize | app.py:69-118 | only `push` and `pull_request` events are handled, and every other header value is `Unhandled`; a handled record's action is `Push` exactly for push events; the timestamp is always the processing time plus "Z"; a non-object payload never yields a record |
| Events.PushFields | app.py:72-83 | a push fails exactly when the payload is not an object, its `pusher` is present and not an object, or a truthy `ref` is not a string; otherwise action is push, `from_branch` is null, author is `pusher.name` or "N/A", and `to_branch` is the last segment of a truthy `ref` or "N/A" |
| Events.PushBranchHasNoSlash | app.py:75 | a push with a truthy `ref` records a string branch that contains no `/` |
| Events.PushOfHeadsRef | app.py:74-83 | a push of `refs/heads/X`, for a slash-free X, whose `pusher` is absent or an object is recorded with `to_branch` X |
| Events.PullRequestMalformed | app.py:88-93 | a pull request fails exactly when the payload is not an object, or `pull_request`, `user`, `head` or `base` is present and not an object |
| Events.PullRequestFields | app.py:86-114 | a recorded pull request is a merge if and only if its `action` is "closed" and `pull_request.merged` is truthy, and is never a push; author, from and to branches are `user.login`, `head.ref` and `base.ref`, each "N/A" when absent |
| Events.ClassificationOnlyChangesAction | app.py:93-113 | changing the payload's `action` or the `merged` flag still yields a record, and it differs from the original only in its action: author, branches and timestamp are identical for merge and pull_request records |
| Events.ClosedUnmergedIsPullRequest | app.py:95-113 | a closed pull request whose `merged` is falsy is recorded as `pull_request`, not `merge` |
| Documents.Hex | app.py:163 | the hex rendering has exactly the requested width and only lowercase hex digits |
| Documents.HexRoundTrip | app.py:163 | reading back the hex digits of a number below 16^width gives the number |
| Documents.IdText | app.py:163 | `str(ObjectId)` is 24 lowercase hex digits that denote the ObjectId |
| Documents.IdTextInjective | app.py:163 | distinct ObjectIds give distinct `_id` strings |
| Documents.Wire | app.py:162-166 | a converted document has a string `_id` and a string timestamp. A native id becomes its text of 24 lowercase hex digits denoting it; a date/time becomes its ISO text plus "Z"; a text timestamp and a string id are kept. Author, action and branches are unchanged |
| Documents.WireIdempotent | app.py:163-166 | converting twice is converting once; after conversion the timestamp ends with "Z" if it was a date/time or a text ending in "Z" |
| Documents.WireAll | app.py:162-166 | the loop rewrites every fetched document in place into its converted form, and all of them end in wire form |
| Query.TextLeTotal | app.py:156 | any two strings are comparable in the lexicographic order |
| Query.TextLeTransitive | app.py:156 | the lexicographic order on strings is transitive |
| Query.LeTotal | app.py:156 | any two documents are comparable by timestamp |
| Query.LeTransitive | app.py:156 | the timestamp order on documents is transitive |
| Query.Insert | app.py:156 | inserting a document into a newest-first sequence keeps it newest-first and adds exactly that document |
| Query.SortNewestFirst | app.py:156 | sorting by timestamp descending yields a newest-first permutation of the collection |
| Query.Latest | app.py:156 | sorting and then taking the first 20 gives a result that keeps the query's promise: min(n, 20) documents of the collection, newest first, and every document left out is no newer than every document returned |
| Query.TopOfNewestFirst | app.py:156 | the first n documents of a newest-first sequence are newest-first, and every document after them is no newer than any of them |
| Query.ThreeNewestFirst | app.py:156 | any result the query may return for three documents with strictly increasing timestamps is T3, T2, T1 |
| Service.WebhookService.constructor | app.py:44-46 | start-up makes one connection attempt against a collection that may already hold documents |
| Service.WebhookService.Connect | app.py:23-42 | a connection attempt sets the collection handle on success and clears it on failure |
| Service.WebhookService.EnsureConnected | app.py:55-59 | the storage is available afterwards exactly when it was already available or the single reconnect attempt succeeded |
| Service.WebhookService.Webhook | app.py:50-137 | the checks run in a fixed order: unavailable storage gives 500 before the body is examined; an empty or non-JSON body gives 400; other event kinds give 200 "ignored"; a wrongly shaped payload gives 500; an insert failure gives 500. Only success changes the store: it appends exactly the normalised record with the assigned id, and existing documents stay as they were. Every textual timestamp in the store still ends in "Z" afterwards |
| Service.WebhookService.GetEvents | app.py:141-175 | unavailable storage or a failed query gives 500. Otherwise the reply lists, in order, the converted form of the documents the query returned, where that result is any one meeting the query's promise: min(n, 20) documents, none for an empty collection, all with string ids and timestamps. The collection is not changed |
| Service.Status | app.py:59-137 | the statuses at lines 59, 64, 118, 125, 128 and 137: 200 exactly for stored, ignored and listed replies, 400 exactly for an invalid body, 500 otherwise |
| Service.PayloadPresent | app.py:61-64 | `if not payload` passes exactly when the body decoded to a JSON value that is not falsy |
| Service.ListingIsWireForm | app.py:156-169 | converting a query result of at most 20 documents drawn from the collection gives a listing of at most 20 documents, none for an empty collection. Each has a string `_id` and a string timestamp, and the timestamps end in "Z" whenever the collection's text timestamps do |

## Left out

- Flask routing, `request`, `jsonify`, the rendered messages and the `/` index page (app.py:178-181) are HTTP and UI glue. Replies are the `Reply` datatype plus `Status`.
- The pymongo client, the `ping` liveness check and the `.env` configuration (app.py:10-42) are foreign I/O. A connection attempt is reduced to a boolean outcome passed in by the caller.
- `datetime.utcnow()` and `isoformat()` (app.py:70, 166) are the clock and library formatting. `now` is an opaque string parameter, and a native date/time is kept as the text its `isoformat()` gives.
- Query.IsNewest: how MongoDB orders values is modelled only for the two kinds the collection can hold: strings below dates, and lexicographic order within one kind. Dates are compared by their ISO text rather than by instant. Documents with equal timestamps may come back in any order; `Latest` picks one such order, and `GetEvents` accepts any.
- JSON numbers are integers. A float payload value (whose truthiness is `!= 0.0`) is not modelled.
- `print` logging throughout has no effect on state or replies.
- The `KeyError` handler answering 400 (app.py:132-134) cannot be reached, because nothing in the `try` subscripts the payload. It is not modelled.
- The `if event_data: ... else` branch (app.py:129-130) cannot be reached, because both handled branches build a non-empty dict. It is not modelled.
- Service.WebhookService.Webhook: non-driver exceptions raised by `insert_one` (the generic 500 at app.py:135-137) are merged into the one `WriteFailed` outcome, which answers with `DatabaseError`.
- Service.WebhookService.GetEvents: a driver error and an unexpected exception during the query (app.py:170-175) are merged into one `QueryFailed` outcome, answered with `DatabaseError`.
- Documents whose timestamp is missing, or is of another type, are left unchanged by line 165. The model's `Timestamp` has only the text and date/time kinds.
- The storage connection going away after a successful connect is not detected by the service. It appears only as a failed insert or query.
- Concurrent requests racing to reconnect are not modelled; concurrency is out of scope.
