/** `GladiaError`, the exception the newer package raises for a failed API
    call: its construction from an HTTP error response, by key precedence with
    defaults, and its string form. The fields hold whatever the error body
    held, so they are JSON values rather than typed strings. */
module GladiaErrors {
  import opened Wrappers
  import opened PyValue
  import Strings

  datatype GladiaError = GladiaError(
    message: Value, statusCode: Value, requestId: Value,
    timestamp: Value, path: Value, validationErrors: Value)

  /** The constructor: every argument is stored as given, except that a falsy
      `validation_errors` (`None` included) is stored as `[]`. */
  function New(message: Value, statusCode: Value, requestId: Value, timestamp: Value, path: Value,
               validationErrors: Value): (e: GladiaError)
    ensures e.message == message && e.statusCode == statusCode && e.requestId == requestId
    ensures e.timestamp == timestamp && e.path == path
    ensures Truthy(validationErrors) ==> e.validationErrors == validationErrors
    ensures !Truthy(validationErrors) ==> e.validationErrors == ListV([])
    ensures Truthy(e.validationErrors) == Truthy(validationErrors)
  {
    GladiaError(message, statusCode, requestId, timestamp, path,
                if Truthy(validationErrors) then validationErrors else ListV([]))
  }

  /** `GladiaError(message)` with the keyword defaults. */
  function WithMessage(message: string): (e: GladiaError)
    ensures e == GladiaError(StrV(message), IntV(0), StrV(""), StrV(""), StrV(""), ListV([]))
  {
    New(StrV(message), IntV(0), StrV(""), StrV(""), StrV(""), NoneV)
  }

  /** The body of an HTTP response as `resp.json()` sees it. */
  datatype ParsedBody = JsonBody(doc: Value) | Unparsable

  /** What `from_response` builds, or the `AttributeError` it raises when the
      body is JSON but not an object (`data.get` does not exist then). A body
      that is not JSON is read as `{}`. */
  function FromResponse(body: ParsedBody, httpStatus: int, defaultMessage: string): Result<GladiaError, string> {
    var data := if body.Unparsable? then DictV([]) else body.doc;
    if !data.DictV? then Err("AttributeError")
    else
      var es := data.entries;
      Ok(New(
        GetOr(es, "message", StrV(defaultMessage)),
        GetOr(es, "statusCode", GetOr(es, "status", IntV(httpStatus))),
        GetOr(es, "request_id", GetOr(es, "requestId", StrV(""))),
        GetOr(es, "timestamp", StrV("")),
        GetOr(es, "path", StrV("")),
        GetOr(es, "validation_errors", GetOr(es, "validationErrors", ListV([])))))
  }

  /** The value under the first of `keys` present in `es`, or `d` when none is:
      the key precedence of `from_response`, stated on its own. */
  function FirstPresent(es: seq<Entry>, keys: seq<string>, d: Value): (v: Value)
    ensures (forall i :: 0 <= i < |keys| ==> !HasKey(es, keys[i])) ==> v == d
    ensures forall i :: 0 <= i < |keys| && HasKey(es, keys[i]) && (forall j :: 0 <= j < i ==> !HasKey(es, keys[j]))
              ==> Get(es, keys[i]) == Some(v)
  {
    if keys == [] then d
    else if HasKey(es, keys[0]) then Get(es, keys[0]).value
    else FirstPresent(es, keys[1..], d)
  }

  /** Each field of the error comes from the first of its keys present in the
      body, presence and not truthiness deciding; a missing message is the
      caller's default, a missing status the HTTP status. */
  lemma FromResponsePrecedence(es: seq<Entry>, httpStatus: int, defaultMessage: string)
    ensures FromResponse(JsonBody(DictV(es)), httpStatus, defaultMessage).Ok?
    ensures var e := FromResponse(JsonBody(DictV(es)), httpStatus, defaultMessage).value;
      && e.message == FirstPresent(es, ["message"], StrV(defaultMessage))
      && e.statusCode == FirstPresent(es, ["statusCode", "status"], IntV(httpStatus))
      && e.requestId == FirstPresent(es, ["request_id", "requestId"], StrV(""))
    ensures var e := FromResponse(JsonBody(DictV(es)), httpStatus, defaultMessage).value;
      && e.timestamp == FirstPresent(es, ["timestamp"], StrV(""))
      && e.path == FirstPresent(es, ["path"], StrV(""))
      && var ve := FirstPresent(es, ["validation_errors", "validationErrors"], ListV([]));
         e.validationErrors == if Truthy(ve) then ve else ListV([])
  {
    var e := FromResponse(JsonBody(DictV(es)), httpStatus, defaultMessage).value;
    FirstOfTwo(es, "statusCode", "status", IntV(httpStatus));
    FirstOfTwo(es, "request_id", "requestId", StrV(""));
    FirstOfTwo(es, "validation_errors", "validationErrors", ListV([]));
    FirstOfOne(es, "message", StrV(defaultMessage));
    FirstOfOne(es, "timestamp", StrV(""));
    FirstOfOne(es, "path", StrV(""));
  }

  /** With two keys, `FirstPresent` is the nested `get` with a default. */
  lemma FirstOfTwo(es: seq<Entry>, k1: string, k2: string, d: Value)
    ensures FirstPresent(es, [k1, k2], d) == GetOr(es, k1, GetOr(es, k2, d))
  {
    assert [k1, k2][1..] == [k2];
    assert [k2][1..] == [];
  }

  lemma FirstOfOne(es: seq<Entry>, k: string, d: Value)
    ensures FirstPresent(es, [k], d) == GetOr(es, k, d)
  {
    assert [k][1..] == [];
  }

  /** `statusCode` wins over `status` whenever it is present, even holding
      `null` or 0. */
  lemma StatusKeyPresenceDecides(httpStatus: int, defaultMessage: string)
    ensures var es := [Entry("statusCode", NoneV), Entry("status", IntV(500))];
      FromResponse(JsonBody(DictV(es)), httpStatus, defaultMessage).value.statusCode == NoneV
    ensures var es := [Entry("status", IntV(418)), Entry("statusCode", IntV(0))];
      FromResponse(JsonBody(DictV(es)), httpStatus, defaultMessage).value.statusCode == IntV(0)
  {
    var es1 := [Entry("statusCode", NoneV), Entry("status", IntV(500))];
    assert Get(es1, "statusCode") == Some(NoneV);
    var es2 := [Entry("status", IntV(418)), Entry("statusCode", IntV(0))];
    assert es2[1..] == [Entry("statusCode", IntV(0))];
    assert Get(es2, "statusCode") == Some(IntV(0));
  }

  /** A body that is not JSON gives the default message, the HTTP status, and
      empty request id, timestamp, path and validation errors. */
  lemma FromResponseNotJson(httpStatus: int, defaultMessage: string)
    ensures FromResponse(Unparsable, httpStatus, defaultMessage)
            == Ok(GladiaError(StrV(defaultMessage), IntV(httpStatus), StrV(""), StrV(""), StrV(""), ListV([])))
  {
  }

  /** A JSON body that is not an object makes `from_response` itself raise. */
  lemma FromResponseNotObject(doc: Value, httpStatus: int, defaultMessage: string)
    ensures FromResponse(JsonBody(doc), httpStatus, defaultMessage).Err? <==> !doc.DictV?
  {
  }

  /** `str(v)` for the scalars JSON produces; the forms of floats, lists and
      dicts are left to `other`. */
  function Str(v: Value, other: Value -> string): string {
    match v
    case NoneV => "None"
    case BoolV(b) => if b then "True" else "False"
    case IntV(i) => Strings.Decimal(i)
    case StrV(s) => s
    case _ => other(v)
  }

  /** The first line of `str(e)`: `[status] message`. */
  function Head(e: GladiaError, other: Value -> string): string {
    "[" + Str(e.statusCode, other) + "] " + Str(e.message, other)
  }

  function RequestIdPart(e: GladiaError, other: Value -> string): string {
    if Truthy(e.requestId) then " (request_id=" + Str(e.requestId, other) + ")" else ""
  }

  /** `str(e)`, or the `TypeError` of a truthy `validation_errors` that cannot
      be joined. */
  function ToString(e: GladiaError, other: Value -> string): Result<string, string> {
    var base := Head(e, other) + RequestIdPart(e, other);
    if !Truthy(e.validationErrors) then Ok(base)
    else match JoinItems(e.validationErrors)
      case None => Err("TypeError")
      case Some(items) => Ok(base + "\nValidation errors: " + Strings.Join(items, ", "))
  }

  /** `str(e)` fails only on a truthy, unjoinable list; it always starts with
      the head line; right after the head comes ` (` exactly when the request id
      is truthy; the validation line ends it exactly when the list is truthy. */
  lemma ToStringShape(e: GladiaError, other: Value -> string)
    ensures ToString(e, other).Err? <==> Truthy(e.validationErrors) && JoinItems(e.validationErrors).None?
    ensures ToString(e, other).Ok? ==>
      var s := ToString(e, other).value;
      var h := Head(e, other);
      && |h| <= |s| && s[..|h|] == h
      && (Truthy(e.requestId) <==> |s| >= |h| + 2 && s[|h|..|h| + 2] == " (")
      && (Truthy(e.requestId) ==>
            var p := " (request_id=" + Str(e.requestId, other) + ")";
            |s| >= |h| + |p| && s[|h|..|h| + |p|] == p)
      && (!Truthy(e.validationErrors) ==> s == h + RequestIdPart(e, other))
      && (Truthy(e.validationErrors) ==>
            var line := "\nValidation errors: " + Strings.Join(JoinItems(e.validationErrors).value, ", ");
            |s| >= |line| && s[|s| - |line|..] == line)
  {
    ToStringParts(e, other);
    if ToString(e, other).Ok? {
      var s := ToString(e, other).value;
      var h, p, line := Head(e, other), RequestIdPart(e, other), ValidationLine(e);
      assert s == h + p + line;
      PartsLayout(h, p, line);
    }
  }

  /** The line `str(e)` ends with, when the list is truthy and joinable. */
  function ValidationLine(e: GladiaError): string {
    if Truthy(e.validationErrors) && JoinItems(e.validationErrors).Some?
    then "\nValidation errors: " + Strings.Join(JoinItems(e.validationErrors).value, ", ")
    else ""
  }

  lemma ToStringParts(e: GladiaError, other: Value -> string)
    ensures ToString(e, other).Err? <==> Truthy(e.validationErrors) && JoinItems(e.validationErrors).None?
    ensures ToString(e, other).Ok? ==>
      ToString(e, other).value == Head(e, other) + RequestIdPart(e, other) + ValidationLine(e)
    ensures RequestIdPart(e, other) == "" || RequestIdPart(e, other)[..2] == " ("
    ensures Truthy(e.requestId) <==> RequestIdPart(e, other) != ""
  {
    var p := RequestIdPart(e, other);
    if Truthy(e.requestId) {
      assert p[..2] == " (";
    }
  }

  /** Where the head, the request id part and the validation line of a string
      form sit, and how the character after the head tells whether a request
      id part is there. */
  lemma PartsLayout(h: string, p: string, line: string)
    requires p == "" || (|p| >= 2 && p[..2] == " (")
    requires line == "" || line[0] == '\n'
    ensures var s := h + p + line;
      && |h| <= |s| && s[..|h|] == h
      && (p != "" <==> |s| >= |h| + 2 && s[|h|..|h| + 2] == " (")
      && |s| >= |h| + |p| && s[|h|..|h| + |p|] == p
      && |s| >= |line| && s[|s| - |line|..] == line
  {
    var s := h + p + line;
    assert s[|h|..] == p + line;
    if p != "" {
      assert s[|h|..|h| + 2] == p[..2];
    } else if line != "" && |s| >= |h| + 2 {
      assert s[|h|..|h| + 2][0] == line[0];
    }
  }

  /** An error without request id or validation errors is only its head line. */
  lemma ToStringPlain(st: int, msg: string, other: Value -> string)
    ensures ToString(WithMessage(msg).(statusCode := IntV(st)), other)
            == Ok("[" + Strings.Decimal(st) + "] " + msg)
  {
    var e := WithMessage(msg).(statusCode := IntV(st));
    assert RequestIdPart(e, other) == "";
    assert Head(e, other) + "" == Head(e, other);
  }
}
