/** githubEventHandler's routing: an ordered chain of checks, each of which
    rejects the request with status 400, followed by a dispatch on the event
    type. The HMAC, the signature scan and the JSON decoder are inputs; so are
    the errors the mirror sync and the push handler return. */
module Router {
  import opened Base
  import opened Events
  import Paths

  /** What fmt.Sscanf made of the `X-Hub-Signature-256` header. */
  datatype SignatureScan = Scanned | ScanFailed(err: string)

  /** What json.Unmarshal made of the payload for one target type. */
  datatype Decoded<T> = Parsed(event: T) | ParseFailed(msg: string)

  /** One delivery: its HTTP method, its signature header, whether the HMAC of the
      payload matches it, its `X-GitHub-Event` header, and the payload as the
      decoder reads it as a push event and as any other event. */
  datatype Request = Request(
    verb: string,
    signature: SignatureScan,
    hmacMatches: bool,
    eventType: string,
    asPush: Decoded<PushEvent>,
    asGeneric: Decoded<GenericEvent>)

  /** The work the handler hands on: a mirror sync, or the push handler. */
  datatype Action = SyncMirror(gitDir: string, url: string) | RunPushHandler(event: PushEvent)

  /** What the client is answered: a status and a body, or nothing because
      the handler panicked. */
  datatype Outcome = Replied(status: int, body: string) | Panicked

  datatype Handled = Handled(outcome: Outcome, actions: seq<Action>)

  const StatusOK := 200
  const StatusBadRequest := 400

  /** http.Error: status 400 and the message followed by a newline. */
  function BadRequest(msg: string): (o: Outcome)
    ensures o.Replied? && o.status == StatusBadRequest
    ensures |o.body| > 0 && o.body[|o.body| - 1] == '\n' && o.body[..|o.body| - 1] == msg
  {
    Replied(StatusBadRequest, msg + "\n")
  }

  /** A rejection before any work was handed on. */
  function Reject(msg: string): (h: Handled)
    ensures h.outcome == BadRequest(msg) && h.actions == []
  {
    Handled(BadRequest(msg), [])
  }

  /** The payload decodes as the type the event type selects. */
  predicate Decodes(req: Request)
  {
    if req.eventType == "push" then req.asPush.Parsed? else req.asGeneric.Parsed?
  }

  function ParseError(req: Request): string
    requires !Decodes(req)
  {
    if req.eventType == "push" then req.asPush.msg else req.asGeneric.msg
  }

  /** The request passes every check that comes before the dispatch. */
  predicate Accepted(req: Request)
  {
    req.verb == "POST" && req.signature.Scanned? && req.hmacMatches && req.eventType != "" && Decodes(req)
  }

  /** githubEventHandler. The checks run in the order method, signature
      header, HMAC, event type, payload, and the first that fails decides the
      answer. A push whose payload named neither a repository nor a sender
      panics when the event is logged. A push that succeeded panics while its commit ids are logged
      when one of them is shorter than eight bytes. */
  function Route(req: Request, persist: string, syncErr: Option<string>, pushErr: Option<string>): (h: Handled)
    ensures req.verb != "POST" ==> h == Reject("unexpected method: " + req.verb)
    ensures req.verb == "POST" && req.signature.ScanFailed? ==>
      h == Reject("invalid signature: " + req.signature.err)
    ensures req.verb == "POST" && req.signature.Scanned? && !req.hmacMatches ==>
      h == Reject("signature verification failed")
    ensures req.verb == "POST" && req.signature.Scanned? && req.hmacMatches && req.eventType == "" ==>
      h == Reject("no event type specified")
    ensures req.verb == "POST" && req.signature.Scanned? && req.hmacMatches && req.eventType != "" && !Decodes(req) ==>
      h == Reject("failed to parse payload: " + ParseError(req))
    ensures |h.actions| <= 1 && (h.actions != [] ==> Accepted(req))
    ensures !Accepted(req) ==> h.actions == [] && h.outcome.Replied? && h.outcome.status == StatusBadRequest
    ensures Accepted(req) && req.eventType == "ping" ==>
      var repo := req.asGeneric.event.repository;
      && h.actions == [SyncMirror(Paths.MirrorPath(persist, repo.fullName), repo.cloneUrl)]
      && (syncErr.None? <==> h.outcome == Replied(StatusOK, "Pong"))
      && (syncErr.Some? ==> h.outcome == BadRequest("syncing repo " + Quote(repo.cloneUrl) + " failed: " + syncErr.value))
    ensures Accepted(req) && req.eventType == "push" && req.asPush.event.generic.None? ==>
      h == Handled(Panicked, [])
    ensures Accepted(req) && req.eventType == "push" && req.asPush.event.generic.Some? ==>
      var ev := req.asPush.event;
      && h.actions == [RunPushHandler(ev)]
      && (h.outcome == Replied(StatusOK, "OK") <==> pushErr.None? && Utf8Length(ev.before) >= 8 && Utf8Length(ev.after) >= 8)
      && (pushErr.Some? ==> h.outcome == BadRequest("push handler failed: " + pushErr.value))
      && (pushErr.None? && (Utf8Length(ev.before) < 8 || Utf8Length(ev.after) < 8) ==> h.outcome.Panicked?)
    ensures Accepted(req) && req.eventType != "ping" && req.eventType != "push" ==>
      h == Handled(Replied(StatusOK, ""), [])
  {
    if req.verb != "POST" then
      Reject("unexpected method: " + req.verb)
    else if req.signature.ScanFailed? then
      Reject("invalid signature: " + req.signature.err)
    else if !req.hmacMatches then
      Reject("signature verification failed")
    else if req.eventType == "" then
      Reject("no event type specified")
    else if !Decodes(req) then
      Reject("failed to parse payload: " + ParseError(req))
    else if req.eventType == "push" then
      var ev := req.asPush.event;
      if ev.generic.None? then
        Handled(Panicked, [])
      else
        var work := [RunPushHandler(ev)];
        if pushErr.Some? then
          Handled(BadRequest("push handler failed: " + pushErr.value), work)
        else if Utf8Length(ev.before) < 8 || Utf8Length(ev.after) < 8 then
          Handled(Panicked, work)
        else
          Handled(Replied(StatusOK, "OK"), work)
    else
      var repo := req.asGeneric.event.repository;
      if req.eventType == "ping" then
        var work := [SyncMirror(Paths.MirrorPath(persist, repo.fullName), repo.cloneUrl)];
        if syncErr.Some? then
          Handled(BadRequest("syncing repo " + Quote(repo.cloneUrl) + " failed: " + syncErr.value), work)
        else
          Handled(Replied(StatusOK, "Pong"), work)
      else
        Handled(Replied(StatusOK, ""), [])
  }

  /** What the handler hands on is decided by the request alone, never by
      how the work turns out. */
  lemma RouteActionsIgnoreOutcomes(req: Request, persist: string, syncErr1: Option<string>, pushErr1: Option<string>,
                                   syncErr2: Option<string>, pushErr2: Option<string>)
    ensures Route(req, persist, syncErr1, pushErr1).actions == Route(req, persist, syncErr2, pushErr2).actions
  {
  }

  /** The two statuses the handler answers with, and a client can tell them
      apart by the body alone: every error body ends with the newline
      http.Error adds, and none of "Pong", "OK" and the empty body does. */
  lemma StatusShowsInBody(req: Request, persist: string, syncErr: Option<string>, pushErr: Option<string>)
    ensures var h := Route(req, persist, syncErr, pushErr);
      h.outcome.Replied? ==>
        && (h.outcome.status == StatusOK || h.outcome.status == StatusBadRequest)
        && (h.outcome.status == StatusBadRequest <==>
              |h.outcome.body| > 0 && h.outcome.body[|h.outcome.body| - 1] == '\n')
  {
    var h := Route(req, persist, syncErr, pushErr);
    if h.outcome.Replied? && h.outcome.status == StatusOK {
      assert h.outcome.body == "Pong" || h.outcome.body == "OK" || h.outcome.body == "";
    }
  }

  /** "OK" means the push handler ran and succeeded; "Pong" means the mirror
      sync ran and succeeded. */
  lemma SuccessBodiesMeanWorkDone(req: Request, persist: string, syncErr: Option<string>, pushErr: Option<string>)
    ensures var h := Route(req, persist, syncErr, pushErr);
      && (h.outcome == Replied(StatusOK, "OK") ==>
            req.verb == "POST" && req.hmacMatches && req.eventType == "push" && pushErr.None?
            && h.actions == [RunPushHandler(req.asPush.event)])
      && (h.outcome == Replied(StatusOK, "Pong") ==>
            req.verb == "POST" && req.hmacMatches && req.eventType == "ping" && syncErr.None?
            && |h.actions| == 1 && h.actions[0].SyncMirror?)
  {
  }

  /** Scenario: commit ids are measured in bytes, as Go slices them. Five
      characters `é` make ten bytes, so a successful push with such ids is
      answered "OK", not a panic. */
  lemma ShortIdsCountBytes(req: Request, persist: string)
    requires Accepted(req) && req.eventType == "push" && req.asPush.event.generic.Some?
    requires req.asPush.event.before == "\U{e9}\U{e9}\U{e9}\U{e9}\U{e9}"
    requires Utf8Length(req.asPush.event.after) >= 8
    ensures Route(req, persist, None, None).outcome == Replied(StatusOK, "OK")
  {
    var e := "\U{e9}\U{e9}\U{e9}\U{e9}\U{e9}";
    assert e[1..][1..][1..][1..][1..] == [];
    assert Utf8Length(e) == 10;
  }
}
