/** The checks every HTTP call of the two clients makes on its response
    before reading a result: the newer package raises a `GladiaError` built
    from the response; the older one fills a caller-supplied
    `TranscriptionError` and then lets `raise_for_status` decide. Also the
    query parameters of `get_results`, which both packages build alike. */
module ApiCalls {
  import opened Wrappers
  import opened PyValue
  import Strings
  import opened GladiaErrors
  import TE = TranscriptionErrors
  import Models

  /** What the model sees of an HTTP response: its status, its body as
      `resp.json()` reads it, and its raw text. */
  datatype Response = Response(status: int, body: ParsedBody, text: string)

  /** The calls that check a response: the five REST calls and the three of
      the realtime client. */
  datatype Call =
    | Upload(filePath: string) | PreRecorded | GetResult(id: string) | GetResults | DeleteResult(id: string)
    | LiveConnect | LiveGetResult(id: string) | LiveDeleteResult(id: string)

  /** The default message each call of the newer package gives `from_response`. */
  function FailureMessage(c: Call): string {
    match c
    case Upload(p) => "Upload failed for " + p
    case PreRecorded => "Transcription request failed"
    case GetResult(id) => "Failed to get result for job " + id
    case GetResults => "Failed to list results"
    case DeleteResult(id) => "Failed to delete job " + id
    case LiveConnect => "Failed to create WebSocket session"
    case LiveGetResult(id) => "Failed to get result for session " + id
    case LiveDeleteResult(id) => "Failed to delete session " + id
  }

  // ------------------------------------------------------------ newer package

  /** The exception a failed call raises: the `GladiaError`, or the
      `AttributeError` of `from_response` on a JSON body that is not an object. */
  datatype Raised = RaisedGladia(error: GladiaError) | RaisedAttribute

  /** What a call of the newer package does after its status test. */
  datatype Outcome = Raises(raised: Raised) | ReadsResult | ReturnsNone | ReturnsTrue

  function Respond(c: Call, resp: Response): Outcome {
    if resp.status >= 400 then
      match FromResponse(resp.body, resp.status, FailureMessage(c))
      case Ok(e) => Raises(RaisedGladia(e))
      case Err(_) => Raises(RaisedAttribute)
    else
      match c
      case DeleteResult(_) => ReturnsNone
      case LiveDeleteResult(_) => ReturnsTrue
      case _ => ReadsResult
  }

  /** Every call raises exactly when the status is at least 400, and then
      raises a `GladiaError` unless the body is JSON other than an object; a
      body that is not JSON gives the call's default message and the HTTP
      status. Below 400 the REST delete returns `None`, the realtime delete
      `True`, and the other calls go on to read the body. */
  lemma CallRule(c: Call, resp: Response)
    ensures Respond(c, resp).Raises? <==> resp.status >= 400
    ensures resp.status >= 400 && (resp.body.Unparsable? || resp.body.doc.DictV?) ==>
      Respond(c, resp) == Raises(RaisedGladia(FromResponse(resp.body, resp.status, FailureMessage(c)).value))
    ensures resp.status >= 400 && resp.body.Unparsable? ==>
      var e := Respond(c, resp).raised.error;
      e.message == StrV(FailureMessage(c)) && e.statusCode == IntV(resp.status)
      && e.requestId == StrV("") && e.validationErrors == ListV([])
    ensures resp.status < 400 ==>
      Respond(c, resp) == (if c.DeleteResult? then ReturnsNone else if c.LiveDeleteResult? then ReturnsTrue else ReadsResult)
  {
    if resp.status >= 400 && resp.body.Unparsable? {
      FromResponseNotJson(resp.status, FailureMessage(c));
    }
  }

  // ------------------------------------------------------------ older package

  /** `resp.raise_for_status()`, which raises for client and server errors only. */
  predicate RaisesForStatus(status: int) {
    400 <= status < 600
  }

  /** What `from_json` is given: the decoded body, or for a body that is not
      JSON the dict `{"status": status, "message": text}`. A decoded string is
      handed over as a string and so decoded a second time. */
  function ErrorInput(resp: Response): TE.Input {
    match resp.body
    case Unparsable => TE.FromValue(DictV([Entry("status", IntV(resp.status)), Entry("message", StrV(resp.text))]))
    case JsonBody(doc) => if doc.StrV? then TE.FromText(doc.s) else TE.FromValue(doc)
  }

  function ParsedError(resp: Response, loads: string -> Option<Value>): Result<TE.Fields, TE.Fault> {
    TE.FromJson(ErrorInput(resp), loads)
  }

  /** What a call of the older package does after its status test: `from_json`
      raised, `raise_for_status` raised, or the call goes on. */
  datatype Check = ParseFailed(fault: TE.Fault) | HttpError(status: int) | Proceeds

  /** The outcome, and the out-parameter's fields afterwards (`None` when the
      caller passed none). */
  datatype Checked = Checked(check: Check, te: Option<TE.Fields>)

  function Guard(resp: Response, te: Option<TE.Fields>, loads: string -> Option<Value>): Checked {
    if resp.status < 400 then Checked(Proceeds, te)
    else if te.Some? && ParsedError(resp, loads).Err? then Checked(ParseFailed(ParsedError(resp, loads).error), te)
    else
      var filled := if te.Some? then Some(ParsedError(resp, loads).value) else None;
      Checked(if RaisesForStatus(resp.status) then HttpError(resp.status) else Proceeds, filled)
  }

  /** The status test of the older package's calls, filling the error object
      field by field when one is supplied. */
  method CheckResponse(resp: Response, te: TE.TranscriptionError?, loads: string -> Option<Value>)
      returns (check: Check)
    modifies te
    ensures var g := Guard(resp, if te == null then None else Some(old(te.Snapshot())), loads);
      check == g.check && (te != null ==> Some(te.Snapshot()) == g.te)
  {
    if resp.status >= 400 {
      if te != null {
        var parsed := ParsedError(resp, loads);
        if parsed.Err? {
          return ParseFailed(parsed.error);
        }
        te.Assign(parsed.value);
      }
      if RaisesForStatus(resp.status) {
        return HttpError(resp.status);
      }
    }
    return Proceeds;
  }

  /** `delete_result` calls `raise_for_status` after the status test rather
      than inside it. */
  function GuardDelete(resp: Response, te: Option<TE.Fields>, loads: string -> Option<Value>): Checked {
    var filled :=
      if resp.status >= 400 && te.Some? then
        (if ParsedError(resp, loads).Err? then Checked(ParseFailed(ParsedError(resp, loads).error), te)
         else Checked(Proceeds, Some(ParsedError(resp, loads).value)))
      else Checked(Proceeds, te);
    if filled.check.ParseFailed? then filled
    else Checked(if RaisesForStatus(resp.status) then HttpError(resp.status) else Proceeds, filled.te)
  }

  /** ... which behaves exactly like the others, as `raise_for_status` does
      nothing below 400. */
  lemma GuardDeleteSame(resp: Response, te: Option<TE.Fields>, loads: string -> Option<Value>)
    ensures GuardDelete(resp, te, loads) == Guard(resp, te, loads)
  {
  }

  /** Below 400 nothing is raised and the error object is untouched; from 400
      on a supplied object gets all six fields of the parsed error, and
      `raise_for_status` raises for 400 to 599 whether or not one was
      supplied; a status of 600 or more is not raised for. */
  lemma GuardRule(resp: Response, te: Option<TE.Fields>, loads: string -> Option<Value>)
    ensures resp.status < 400 ==> Guard(resp, te, loads) == Checked(Proceeds, te)
    ensures resp.status >= 400 && te.Some? && ParsedError(resp, loads).Ok? ==>
      Guard(resp, te, loads).te == Some(ParsedError(resp, loads).value)
    ensures resp.status >= 400 && te.Some? && ParsedError(resp, loads).Err? ==>
      Guard(resp, te, loads) == Checked(ParseFailed(ParsedError(resp, loads).error), te)
    ensures (te.None? || ParsedError(resp, loads).Ok?) ==>
      (Guard(resp, te, loads).check == HttpError(resp.status) <==> RaisesForStatus(resp.status))
    ensures resp.status >= 600 && (te.None? || ParsedError(resp, loads).Ok?) ==>
      Guard(resp, te, loads).check == Proceeds
  {
  }

  /** The object supplied to a call whose error body is not JSON gets the HTTP
      status and the response text as message, the rest empty. */
  lemma NotJsonFallback(resp: Response, loads: string -> Option<Value>)
    requires resp.body.Unparsable?
    ensures ParsedError(resp, loads) == Ok(TE.Fields("", "", "", resp.status, resp.text, []))
  {
    var es := [Entry("status", IntV(resp.status)), Entry("message", StrV(resp.text))];
    assert ErrorInput(resp) == TE.FromValue(DictV(es));
    TE.StatusAndMessage(resp.status, resp.text, loads);
  }

  /** A JSON error body without a `"status"` key leaves the status code 0,
      not the HTTP status. */
  lemma JsonWithoutStatus(resp: Response, loads: string -> Option<Value>)
    requires resp.body.JsonBody? && resp.body.doc.DictV? && !HasKey(resp.body.doc.entries, "status")
    ensures ParsedError(resp, loads).Ok? ==> ParsedError(resp, loads).value.statusCode == 0
  {
    TE.FromJsonAliases(resp.body.doc.entries, loads);
  }

  // ------------------------------------------------------ get_results params

  /** The entries the comprehension keeps: those not `None` and not `[]`. */
  function Kept(dump: seq<Entry>): (r: seq<Entry>)
    ensures |r| <= |dump|
  {
    if dump == [] then []
    else
      var e := dump[|dump| - 1];
      Kept(dump[..|dump| - 1]) + (if e.val == NoneV || e.val == ListV([]) then [] else [e])
  }

  /** The query parameters: the kept entries, with `status` then replaced by
      its items joined with `","` (a `TypeError` when they cannot be joined). */
  function QueryParams(dump: seq<Entry>): Result<seq<Entry>, string> {
    var kept := Kept(dump);
    match Get(kept, "status")
    case None => Ok(kept)
    case Some(v) =>
      match JoinItems(v)
      case None => Err("TypeError")
      case Some(items) => Ok(Set(kept, "status", StrV(Strings.Join(items, ","))))
  }

  /** The parameter dict, built entry by entry from the dumped query and then
      updated in place. */
  method BuildParams(dump: seq<Entry>) returns (r: Result<seq<Entry>, string>)
    ensures r == QueryParams(dump)
  {
    var params: seq<Entry> := [];
    for n := 0 to |dump|
      invariant params == Kept(dump[..n])
    {
      var e := dump[n];
      assert dump[..n + 1][..n] == dump[..n];
      if e.val != NoneV && e.val != ListV([]) {
        params := params + [e];
      }
    }
    assert dump[..|dump|] == dump;
    var status := Get(params, "status");
    if status.Some? {
      var items := JoinItems(status.value);
      if items.None? {
        return Err("TypeError");
      }
      params := Set(params, "status", StrV(Strings.Join(items.value, ",")));
    }
    return Ok(params);
  }

  /** The kept entries are exactly the entries that are neither `None` nor
      `[]`, in their order. */
  lemma {:induction false} KeptEntries(dump: seq<Entry>)
    ensures forall i :: 0 <= i < |Kept(dump)| ==>
      Kept(dump)[i] in dump && Kept(dump)[i].val != NoneV && Kept(dump)[i].val != ListV([])
    ensures forall e :: e in dump && e.val != NoneV && e.val != ListV([]) ==> e in Kept(dump)
    decreases |dump|
  {
    if dump != [] {
      var init := dump[..|dump| - 1];
      KeptEntries(init);
      assert dump == init + [dump[|dump| - 1]];
    }
  }

  /** For a dump with distinct keys: a key other than `status` is sent with
      its own value exactly when that value is neither `None` nor `[]`, and a
      `status` list of strings is sent, when non-empty, as their
      comma-separated join. */
  lemma ParamsRule(dump: seq<Entry>, k: string)
    requires UniqueKeys(dump)
    ensures var keep := (HasKey(dump, k) && Get(dump, k).value != NoneV && Get(dump, k).value != ListV([]));
      QueryParams(dump).Ok? && k != "status" ==>
        Get(QueryParams(dump).value, k) == (if keep then Get(dump, k) else None)
    ensures HasKey(dump, "status") && IsStrList(Get(dump, "status").value) ==>
      var ss := StrItems(Get(dump, "status").value);
      && QueryParams(dump).Ok?
      && Get(QueryParams(dump).value, "status") == (if ss == [] then None else Some(StrV(Strings.Join(ss, ","))))
  {
    if k != "status" { OtherParams(dump, k); }
    StatusParam(dump);
  }

  lemma OtherParams(dump: seq<Entry>, k: string)
    requires UniqueKeys(dump) && k != "status"
    ensures var keep := (HasKey(dump, k) && Get(dump, k).value != NoneV && Get(dump, k).value != ListV([]));
      QueryParams(dump).Ok? ==> Get(QueryParams(dump).value, k) == (if keep then Get(dump, k) else None)
  {
    KeptGet(dump, k);
    var kept := Kept(dump);
    var v := Get(kept, "status");
    if v.Some? && JoinItems(v.value).Some? {
      SetGet(kept, "status", StrV(Strings.Join(JoinItems(v.value).value, ",")), k);
    }
  }

  lemma StatusParam(dump: seq<Entry>)
    requires UniqueKeys(dump)
    ensures HasKey(dump, "status") && IsStrList(Get(dump, "status").value) ==>
      var ss := StrItems(Get(dump, "status").value);
      && QueryParams(dump).Ok?
      && Get(QueryParams(dump).value, "status") == (if ss == [] then None else Some(StrV(Strings.Join(ss, ","))))
  {
    if HasKey(dump, "status") && IsStrList(Get(dump, "status").value) {
      var v := Get(dump, "status").value;
      StrListJoin(v);
      KeptGet(dump, "status");
      StatusOfKept(Kept(dump), if v == ListV([]) then None else Some(v));
    }
  }

  /** The `status` parameter, given what the kept entries hold under it. */
  lemma StatusOfKept(kept: seq<Entry>, v: Option<Value>)
    requires Get(kept, "status") == v
    requires v.Some? ==> IsStrList(v.value) && v.value != ListV([])
    ensures var r := match Get(kept, "status")
      case None => Ok(kept)
      case Some(x) =>
        match JoinItems(x)
        case None => Err("TypeError")
        case Some(items) => Ok(Set(kept, "status", StrV(Strings.Join(items, ","))));
      && r.Ok?
      && Get(r.value, "status") == if v.None? then None else Some(StrV(Strings.Join(StrItems(v.value), ",")))
  {
    if v.Some? {
      StrListJoin(v.value);
      SetGet(kept, "status", StrV(Strings.Join(StrItems(v.value), ",")), "status");
    }
  }

  /** A list of strings is empty exactly when its items are, and joins to
      its items. */
  lemma StrListJoin(v: Value)
    requires IsStrList(v)
    ensures StrItems(v) == [] <==> v == ListV([])
    ensures JoinItems(v) == Some(StrItems(v))
  {
  }

  /** Lookup in the kept entries of a dict with distinct keys. */
  lemma {:induction false} KeptGet(dump: seq<Entry>, k: string)
    requires UniqueKeys(dump)
    ensures Get(Kept(dump), k) ==
      if HasKey(dump, k) && Get(dump, k).value != NoneV && Get(dump, k).value != ListV([]) then Get(dump, k) else None
    decreases |dump|
  {
    if dump != [] {
      var init := dump[..|dump| - 1];
      var e := dump[|dump| - 1];
      assert UniqueKeys(init) by {
        forall a, b | 0 <= a < b < |init| ensures init[a].key != init[b].key {
          assert init[a] == dump[a] && init[b] == dump[b];
        }
      }
      KeptGet(init, k);
      var tail := if e.val == NoneV || e.val == ListV([]) then [] else [e];
      GetAppend(Kept(init), tail, k);
      GetAppend(init, [e], k);
      assert dump == init + [e];
      LastKeyFresh(dump);
    }
  }
}
