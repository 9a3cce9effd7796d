/** Opening a realtime session: the client posts the session request and reads
    the session id and socket URL from the answer. The newer package raises on
    every failure; the older one fills the caller's `TranscriptionError`, lets
    `raise_for_status` decide, and answers `None` when the id or URL is
    missing. */
module Handshake {
  import opened Wrappers
  import opened PyValue
  import opened ApiCalls
  import opened GladiaErrors
  import TE = TranscriptionErrors
  import WsSession

  /** The API key the clients require: all but the newer realtime client
      raise `ValueError` for a missing or empty key. */
  function ClientKey(apiKey: Option<string>): (r: Result<string, string>)
    ensures r.Ok? <==> apiKey.Some? && apiKey.value != ""
    ensures r.Ok? ==> r.value == apiKey.value
    ensures r.Err? ==> r.error == "ValueError"
  {
    if apiKey.None? || apiKey.value == "" then Err("ValueError") else Ok(apiKey.value)
  }

  /** Why a connect ends without a session. */
  datatype Failure =
    /** The newer package's error for a status of at least 400. */
    | ApiRaised(raised: Raised)
    /** The older package's `from_json` raised on the error body. */
    | ErrorBodyRaised(fault: TE.Fault)
    /** The older package's `raise_for_status`. */
    | HttpRaised(status: int)
    /** `resp.json()` raised on the answer. */
    | BodyNotJson
    /** The answer is JSON but not an object, so `data.get` raised. */
    | BodyNotObject
    /** The newer package's `ValueError` for a missing or empty id or URL. */
    | MissingField

  datatype Handshake = Failed(failure: Failure) | NoSession | Opened(id: Value, url: Value)

  /** Reading the answer of a call that went on: its truthy `id` and `url`, or
      `missing` when either is absent or falsy. */
  function ReadSession(body: ParsedBody, missing: Handshake): Handshake {
    match body
    case Unparsable => Failed(BodyNotJson)
    case JsonBody(doc) =>
      if !doc.DictV? then Failed(BodyNotObject)
      else
        var id := GetOr(doc.entries, "id", NoneV);
        var url := GetOr(doc.entries, "url", NoneV);
        if !Truthy(id) || !Truthy(url) then missing else Opened(id, url)
  }

  /** `GladiaWebsocketClient.connect` of the newer package. */
  function Connect(resp: Response): Handshake {
    var o := Respond(LiveConnect, resp);
    if o.Raises? then Failed(ApiRaised(o.raised)) else ReadSession(resp.body, Failed(MissingField))
  }

  /** A session answer: the body is an object whose `id` and `url` are truthy. */
  predicate Answered(resp: Response) {
    && resp.body.JsonBody? && resp.body.doc.DictV?
    && Truthy(GetOr(resp.body.doc.entries, "id", NoneV))
    && Truthy(GetOr(resp.body.doc.entries, "url", NoneV))
  }

  /** A session is opened exactly for a status below 400 with an answer
      holding a truthy id and URL, and it carries those two values; a status of
      400 or more raises the error built from the response; a missing or empty
      field raises `ValueError`. */
  lemma ConnectRule(resp: Response)
    ensures Connect(resp).Opened? <==> resp.status < 400 && Answered(resp)
    ensures Connect(resp).Opened? ==>
      Connect(resp).id == Get(resp.body.doc.entries, "id").value
      && Connect(resp).url == Get(resp.body.doc.entries, "url").value
    ensures resp.status >= 400 ==> Connect(resp) == Failed(ApiRaised(Respond(LiveConnect, resp).raised))
    ensures resp.status < 400 && resp.body.JsonBody? && resp.body.doc.DictV? && !Answered(resp) ==>
      Connect(resp) == Failed(MissingField)
    ensures !Connect(resp).NoSession?
  {
    CallRule(LiveConnect, resp);
  }

  /** The outcome of the older `connect`, and the error object afterwards. */
  datatype Connected = Connected(result: Handshake, te: Option<TE.Fields>)

  /** `GladiaWebsocketClient.connect` of the older package. */
  function ConnectOld(resp: Response, te: Option<TE.Fields>, loads: string -> Option<Value>): Connected {
    var g := Guard(resp, te, loads);
    match g.check
    case ParseFailed(f) => Connected(Failed(ErrorBodyRaised(f)), g.te)
    case HttpError(st) => Connected(Failed(HttpRaised(st)), g.te)
    case Proceeds => Connected(ReadSession(resp.body, NoSession), g.te)
  }

  /** In the older package a status from 400 to 599 never opens a session; a
      missing or empty id or URL answers `None` and raises nothing; below 400
      the error object is untouched and the outcome agrees with the newer
      package's wherever that one opens a session. */
  lemma ConnectOldRule(resp: Response, te: Option<TE.Fields>, loads: string -> Option<Value>)
    ensures RaisesForStatus(resp.status) ==> ConnectOld(resp, te, loads).result.Failed?
    ensures ConnectOld(resp, te, loads).result.Failed? ==> !ConnectOld(resp, te, loads).result.failure.MissingField?
    ensures resp.status < 400 ==> ConnectOld(resp, te, loads).te == te
    ensures resp.status < 400 ==>
      (ConnectOld(resp, te, loads).result.Opened? <==> Connect(resp).Opened?)
      && (Connect(resp).Opened? ==> ConnectOld(resp, te, loads).result == Connect(resp))
    ensures resp.status < 400 && resp.body.JsonBody? && resp.body.doc.DictV? && !Answered(resp) ==>
      ConnectOld(resp, te, loads).result == NoSession
  {
    GuardRule(resp, te, loads);
    ConnectRule(resp);
  }

  /** A status of 600 or more is not raised for: the older client goes on to
      read the body and may open a session from it. */
  lemma ConnectOldAbove599(resp: Response, te: Option<TE.Fields>, loads: string -> Option<Value>)
    requires resp.status >= 600 && te.None? && Answered(resp)
    ensures ConnectOld(resp, te, loads).result.Opened?
  {
  }

  /** The newer `connect`: a fresh session holding the id and URL, or the
      reason there is none. */
  method ConnectSession(resp: Response, apiKey: string) returns (r: Result<WsSession.StreamSession, Failure>)
    ensures r.Ok? <==> Connect(resp).Opened?
    ensures r.Err? ==> Connect(resp) == Failed(r.error)
    ensures r.Ok? ==>
      && fresh(r.value) && r.value.Valid() && r.value.Snapshot() == WsSession.Initial
      && r.value.SessionInfo() == DictV([Entry("id", Connect(resp).id), Entry("url", Connect(resp).url)])
  {
    var h := Connect(resp);
    if h.Opened? {
      var s := new WsSession.StreamSession(h.id, h.url, apiKey);
      return Ok(s);
    } else {
      assert !h.NoSession? by { ConnectRule(resp); }
      return Err(h.failure);
    }
  }

  /** The older `connect`: fills the supplied error object as `ConnectOld`
      says and answers a fresh session, `None`, or the reason it raised. */
  method ConnectSessionOld(resp: Response, te: TE.TranscriptionError?, loads: string -> Option<Value>, apiKey: string)
      returns (r: Result<Option<WsSession.StreamSession>, Failure>)
    modifies te
    ensures var c := ConnectOld(resp, if te == null then None else Some(old(te.Snapshot())), loads);
      && (te != null ==> Some(te.Snapshot()) == c.te)
      && (r == Ok(None) <==> c.result.NoSession?)
      && (r.Err? <==> c.result.Failed?)
      && (r.Err? ==> c.result == Failed(r.error))
      && (r.Ok? && r.value.Some? ==>
            && c.result.Opened? && fresh(r.value.value) && r.value.value.Valid()
            && r.value.value.Snapshot() == WsSession.Initial
            && r.value.value.SessionInfo() == DictV([Entry("id", c.result.id), Entry("url", c.result.url)]))
  {
    var check := CheckResponse(resp, te, loads);
    match check
    case ParseFailed(f) => return Err(ErrorBodyRaised(f));
    case HttpError(st) => return Err(HttpRaised(st));
    case Proceeds =>
      var h := ReadSession(resp.body, NoSession);
      match h
      case Failed(why) => return Err(why);
      case NoSession => return Ok(None);
      case Opened(id, url) =>
        var s := new WsSession.StreamSession(id, url, apiKey);
        return Ok(Some(s));
  }
}
