/**
 * Normalisation of one webhook delivery (app.py, `github_webhook`, the
 * field extraction and classification inside the `try`): the event kind from
 * the `X-GitHub-Event` header and the decoded body become one normalised
 * record, no record (an event kind the service does not handle), or a fault
 * (a nested value of the wrong shape, which the handler turns into 500).
 */
module Events {
  import opened Wrappers
  import Json
  import Segments

  /** The only three actions a stored record can carry. */
  datatype Action = Push | PullRequest | Merge

  /**
   * A record's timestamp: the text the service writes, or a native date/time
   * that a document already in the collection may hold (kept as the text its
   * `isoformat()` gives).
   */
  datatype Timestamp = Text(text: string) | Instant(iso: string)

  /** The normalised event `{author, action, from_branch, to_branch, timestamp}`. */
  datatype Record = Record(
    author: Json.Value,
    action: Action,
    fromBranch: Json.Value,
    toBranch: Json.Value,
    timestamp: Timestamp)

  datatype Classified = Unhandled | Malformed | Normalized(rec: Record)

  const PUSH_EVENT: string := "push"
  const PULL_REQUEST_EVENT: string := "pull_request"
  const NOT_AVAILABLE: Json.Value := Json.Str("N/A")

  /** `datetime.utcnow().isoformat() + "Z"`, with the clock reading passed in. */
  function Stamp(now: string): string {
    now + "Z"
  }

  /** `payload.get('ref', '').split('/')[-1] if payload.get('ref') else 'N/A'`. */
  function PushBranch(payload: Json.Value): Result<Json.Value, Json.Fault> {
    var ref :- Json.Get(payload, "ref", Json.Null);
    if !Json.Truthy(ref) then Success(NOT_AVAILABLE)
    else if ref.Str? then Success(Json.Str(Segments.LastSegment(ref.s)))
    else Failure(Json.AttributeError)
  }

  /** The push branch of the handler (the `push` arm of the dispatch). */
  function PushRecord(payload: Json.Value, now: string): (r: Result<Record, Json.Fault>)
    ensures r.Failure? <==>
      || !payload.Obj?
      || Json.HoldsNonObject(payload, "pusher")
      || (Json.Truthy(Json.Field(payload, "ref", Json.Null))
          && !Json.Field(payload, "ref", Json.Null).Str?)
    ensures r.Success? ==>
      && r.value.action == Push
      && r.value.fromBranch == Json.Null
      && r.value.timestamp == Text(now + "Z")
  {
    if !payload.Obj? then Failure(Json.AttributeError)
    else
      var author :- Json.Get(Json.Field(payload, "pusher", Json.EMPTY_OBJECT), "name", NOT_AVAILABLE);
      var toBranch :- PushBranch(payload);
      Success(Record(author, Push, Json.Null, toBranch, Text(Stamp(now))))
  }

  /** The pull-request branch of the handler, merges included. */
  function PullRequestRecord(payload: Json.Value, now: string): (r: Result<Record, Json.Fault>)
    ensures r.Failure? <==>
      || !payload.Obj?
      || Json.HoldsNonObject(payload, "pull_request")
      || var info := Json.Field(payload, "pull_request", Json.EMPTY_OBJECT);
         || Json.HoldsNonObject(info, "user")
         || Json.HoldsNonObject(info, "head")
         || Json.HoldsNonObject(info, "base")
    ensures r.Success? ==> r.value.action != Push && r.value.timestamp == Text(now + "Z")
  {
    if !payload.Obj? then Failure(Json.AttributeError)
    else
      var prAction := Json.Field(payload, "action", Json.Null);
      var info := Json.Field(payload, "pull_request", Json.EMPTY_OBJECT);
      if !info.Obj? then Failure(Json.AttributeError)
      else
        var author :- Json.Get(Json.Field(info, "user", Json.EMPTY_OBJECT), "login", NOT_AVAILABLE);
        var fromBranch :- Json.Get(Json.Field(info, "head", Json.EMPTY_OBJECT), "ref", NOT_AVAILABLE);
        var toBranch :- Json.Get(Json.Field(info, "base", Json.EMPTY_OBJECT), "ref", NOT_AVAILABLE);
        var merged := Json.Field(info, "merged", Json.Bool(false));
        var action := if prAction == Json.Str("closed") && Json.Truthy(merged) then Merge else PullRequest;
        Success(Record(author, action, fromBranch, toBranch, Text(Stamp(now))))
  }

  function FromResult(r: Result<Record, Json.Fault>): Classified {
    match r
    case Success(rec) => Normalized(rec)
    case Failure(_) => Malformed
  }

  /**
   * Dispatch on the event kind. The timestamp is the processing time with
   * "Z" appended, never a value of the payload.
   */
  function Normalize(event: Option<string>, payload: Json.Value, now: string): (r: Classified)
    ensures r.Unhandled? <==> event != Some(PUSH_EVENT) && event != Some(PULL_REQUEST_EVENT)
    ensures r.Normalized? ==> r.rec.timestamp == Text(now + "Z")
    ensures r.Normalized? ==> (r.rec.action == Push <==> event == Some(PUSH_EVENT))
    ensures !payload.Obj? ==> !r.Normalized?
  {
    if event == Some(PUSH_EVENT) then FromResult(PushRecord(payload, now))
    else if event == Some(PULL_REQUEST_EVENT) then FromResult(PullRequestRecord(payload, now))
    else Unhandled
  }

  /**
   * A push fails exactly when the payload is not an object, when its `pusher`
   * is present and not an object, or when a truthy `ref` is not a string.
   * Otherwise the author is `pusher.name` ("N/A" when absent), there is no
   * source branch, and the target branch is the last `/`-segment of a truthy
   * `ref`, else "N/A".
   */
  lemma PushFields(payload: Json.Value, now: string)
    ensures var r := Normalize(Some(PUSH_EVENT), payload, now);
      && (r.Malformed? <==>
            || !payload.Obj?
            || Json.HoldsNonObject(payload, "pusher")
            || (Json.Truthy(Json.Field(payload, "ref", Json.Null))
                && !Json.Field(payload, "ref", Json.Null).Str?))
      && (r.Normalized? ==>
            && r.rec.action == Push
            && r.rec.fromBranch == Json.Null
            && r.rec.author == Json.Field(Json.Field(payload, "pusher", Json.EMPTY_OBJECT), "name", NOT_AVAILABLE)
            && var ref := Json.Field(payload, "ref", Json.Null);
               r.rec.toBranch == if Json.Truthy(ref) then Json.Str(Segments.LastSegment(ref.s)) else NOT_AVAILABLE)
  {
  }

  /**
   * When the push carries a truthy `ref`, the branch it reports never contains
   * a slash (the "N/A" placeholder for a missing ref does).
   */
  lemma PushBranchHasNoSlash(payload: Json.Value, now: string)
    requires Normalize(Some(PUSH_EVENT), payload, now).Normalized?
    requires Json.Truthy(Json.Field(payload, "ref", Json.Null))
    ensures var b := Normalize(Some(PUSH_EVENT), payload, now).rec.toBranch;
      b.Str? && Segments.SLASH !in b.s
  {
    PushFields(payload, now);
  }

  /** A push of `refs/heads/X` is recorded with target branch X. */
  lemma PushOfHeadsRef(m: map<string, Json.Value>, name: string, now: string)
    requires Segments.SLASH !in name
    requires "ref" in m && m["ref"] == Json.Str("refs/heads/" + name)
    requires "pusher" !in m || m["pusher"].Obj?
    ensures Normalize(Some(PUSH_EVENT), Json.Obj(m), now).Normalized?
    ensures Normalize(Some(PUSH_EVENT), Json.Obj(m), now).rec.toBranch == Json.Str(name)
  {
    Segments.HeadsRefBranch(name);
  }

  /**
   * A pull request fails exactly when the payload is not an object, or its
   * `pull_request` is present and not an object, or one of that object's
   * `user`, `head`, `base` is present and not an object.
   */
  lemma PullRequestMalformed(payload: Json.Value, now: string)
    ensures Normalize(Some(PULL_REQUEST_EVENT), payload, now).Malformed? <==>
      || !payload.Obj?
      || Json.HoldsNonObject(payload, "pull_request")
      || var info := Json.Field(payload, "pull_request", Json.EMPTY_OBJECT);
         || Json.HoldsNonObject(info, "user")
         || Json.HoldsNonObject(info, "head")
         || Json.HoldsNonObject(info, "base")
  {
  }

  /**
   * A pull request is classified as a merge exactly when its `action` is
   * "closed" and `pull_request.merged` is truthy; author and branches are
   * `user.login`, `head.ref` and `base.ref`, "N/A" when absent.
   */
  lemma PullRequestFields(payload: Json.Value, now: string)
    requires Normalize(Some(PULL_REQUEST_EVENT), payload, now).Normalized?
    ensures payload.Obj?
    ensures var r := Normalize(Some(PULL_REQUEST_EVENT), payload, now).rec;
      var info := Json.Field(payload, "pull_request", Json.EMPTY_OBJECT);
      && (r.action == Merge <==>
            Json.Field(payload, "action", Json.Null) == Json.Str("closed")
            && Json.Truthy(Json.Field(info, "merged", Json.Bool(false))))
      && r.action != Push
      && r.author == Json.Field(Json.Field(info, "user", Json.EMPTY_OBJECT), "login", NOT_AVAILABLE)
      && r.fromBranch == Json.Field(Json.Field(info, "head", Json.EMPTY_OBJECT), "ref", NOT_AVAILABLE)
      && r.toBranch == Json.Field(Json.Field(info, "base", Json.EMPTY_OBJECT), "ref", NOT_AVAILABLE)
  {
  }

  /**
   * Changing the pull request's `action` or its `merged` flag changes at
   * most the classification: author, branches and timestamp stay the same,
   * so a merge and a plain pull-request record differ only in `action`.
   */
  lemma ClassificationOnlyChangesAction(
    m: map<string, Json.Value>, info: map<string, Json.Value>,
    prAction: Json.Value, merged: Json.Value, now: string)
    requires "pull_request" in m && m["pull_request"] == Json.Obj(info)
    requires Normalize(Some(PULL_REQUEST_EVENT), Json.Obj(m), now).Normalized?
    ensures var m' := m["action" := prAction]["pull_request" := Json.Obj(info["merged" := merged])];
      var r := Normalize(Some(PULL_REQUEST_EVENT), Json.Obj(m), now);
      var r' := Normalize(Some(PULL_REQUEST_EVENT), Json.Obj(m'), now);
      r'.Normalized? && r'.rec == r.rec.(action := r'.rec.action)
  {
  }

  /** A closed pull request that was not merged stays a pull-request record. */
  lemma ClosedUnmergedIsPullRequest(m: map<string, Json.Value>, info: map<string, Json.Value>, now: string)
    requires "pull_request" in m && m["pull_request"] == Json.Obj(info)
    requires "merged" in info && !Json.Truthy(info["merged"])
    requires Normalize(Some(PULL_REQUEST_EVENT), Json.Obj(m), now).Normalized?
    ensures Normalize(Some(PULL_REQUEST_EVENT), Json.Obj(m), now).rec.action == PullRequest
  {
  }
}
