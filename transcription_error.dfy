/** `TranscriptionError`, the error record of the older package: a pydantic
    model whose three camel-case fields are read only under their aliases, an
    in-place `reset`, `from_json` over a dict or a JSON text, and its one-line
    string form. */
module TranscriptionErrors {
  import opened Wrappers
  import opened PyValue
  import opened Models
  import Strings

  /** The model as pydantic sees it: every field has a default, and
      `request_id`, `status_code` and `validation_errors` are read from
      `requestId`, `status` and `validationErrors`. */
  const ErrorModel := Schema("TranscriptionError", [
    Def("timestamp", KStr, StrV("")),
    Def("path", KStr, StrV("")),
    FieldSpec("request_id", "requestId", KStr, false, Some(StrV(""))),
    FieldSpec("status_code", "status", KInt, false, Some(IntV(0))),
    Def("message", KStr, StrV("")),
    FieldSpec("validation_errors", "validationErrors", KList(KStr), false, Some(ListV([])))])

  /** The model refers to no other model. */
  function NoModels(name: string): Schema {
    Schema(name, [])
  }

  /** The six fields, typed. */
  datatype Fields = Fields(
    timestamp: string, path: string, requestId: string,
    statusCode: int, message: string, validationErrors: seq<string>)

  const Defaults := Fields("", "", "", 0, "", [])

  /** A mutable `TranscriptionError`, as passed to the clients to be filled in. */
  class TranscriptionError {
    var timestamp: string
    var path: string
    var requestId: string
    var statusCode: int
    var message: string
    var validationErrors: seq<string>

    function Snapshot(): Fields
      reads this
    {
      Fields(timestamp, path, requestId, statusCode, message, validationErrors)
    }

    /** `TranscriptionError()`: every field at its default. */
    constructor ()
      ensures Snapshot() == Defaults
    {
      timestamp, path, requestId := "", "", "";
      statusCode, message, validationErrors := 0, "", [];
    }

    /** `reset`: all six fields back to their defaults, so the object equals a
        fresh one, and a second `reset` changes nothing. */
    method Reset()
      modifies this
      ensures Snapshot() == Defaults
    {
      timestamp := "";
      path := "";
      requestId := "";
      statusCode := 0;
      message := "";
      validationErrors := [];
    }

    /** The six field assignments the clients make from a parsed error. */
    method Assign(te: Fields)
      modifies this
      ensures Snapshot() == te
    {
      timestamp := te.timestamp;
      path := te.path;
      requestId := te.requestId;
      statusCode := te.statusCode;
      message := te.message;
      validationErrors := te.validationErrors;
    }
  }

  /** What `from_json` is given. */
  datatype Input = FromValue(data: Value) | FromText(text: string)

  /** Why `from_json` raises: the text is not JSON, or validation fails. */
  datatype Fault = BadJson | Invalid(failure: Failure)

  /** A string that passes `Check` against `KStr` is itself, and so on for
      the other kinds of the model. */
  lemma CheckScalar(k: Kind, v: Value)
    requires k == KStr || k == KInt
    ensures Check(NoModels, k, v).Ok? ==> Check(NoModels, k, v).value == v
    ensures Check(NoModels, k, v).Ok? && k == KStr ==> v.StrV?
    ensures Check(NoModels, k, v).Ok? && k == KInt ==> v.IntV?
  {
  }

  /** A list that passes `CheckAll` against `KStr` is unchanged and holds only
      strings. */
  lemma {:induction false} CheckStrings(items: seq<Value>)
    ensures CheckAll(NoModels, KStr, items).Ok? ==>
      CheckAll(NoModels, KStr, items).value == items && IsStrList(ListV(items))
    decreases |items|
  {
    if items != [] {
      var init := items[..|items| - 1];
      CheckStrings(init);
      CheckScalar(KStr, items[|items| - 1]);
      assert items == init + [items[|items| - 1]];
    }
  }

  /** A validated instance is well typed: strings, an integer, a string list. */
  predicate WellTyped(fs: seq<Entry>) {
    && |fs| == 6
    && fs[0].val.StrV? && fs[1].val.StrV? && fs[2].val.StrV?
    && fs[3].val.IntV? && fs[4].val.StrV? && IsStrList(fs[5].val)
  }

  lemma ValidatedTyped(v: Value)
    ensures Validate(NoModels, ErrorModel, v).Ok? ==>
      Validate(NoModels, ErrorModel, v).value.Record? && WellTyped(Validate(NoModels, ErrorModel, v).value.fields)
  {
    if v.DictV? && Validate(NoModels, ErrorModel, v).Ok? {
      var es := v.entries;
      TypedField(es, 0);
      TypedField(es, 1);
      TypedField(es, 2);
      TypedField(es, 3);
      TypedField(es, 4);
      TypedField(es, 5);
    }
  }

  /** Each field of the validated instance has its declared type, whether it
      came from its key or from its default. */
  lemma TypedField(es: seq<Entry>, i: nat)
    requires i < 6
    ensures Validate(NoModels, ErrorModel, DictV(es)).Ok? ==>
      var fs := Validate(NoModels, ErrorModel, DictV(es)).value.fields;
      && |fs| == 6
      && (i == 3 ==> fs[i].val.IntV?)
      && (i == 5 ==> IsStrList(fs[i].val))
      && (i != 3 && i != 5 ==> fs[i].val.StrV?)
  {
    FieldRule(NoModels, ErrorModel, es, i);
    var f := ErrorModel.fields[i];
    var x := Get(es, f.alias);
    if x.Some? && !x.value.NoneV? {
      if i == 5 {
        if x.value.ListV? {
          CheckStrings(x.value.items);
        }
      } else {
        CheckScalar(f.kind, x.value);
      }
    }
  }

  function ToFields(inst: Value): (f: Fields)
    requires inst.Record? && WellTyped(inst.fields)
  {
    var fs := inst.fields;
    Fields(fs[0].val.s, fs[1].val.s, fs[2].val.s, fs[3].val.i, fs[4].val.s, StrItems(fs[5].val))
  }

  /** `TranscriptionError.from_json(data)`: a string is decoded with `loads`
      first, then the value is validated against the model. */
  function FromJson(input: Input, loads: string -> Option<Value>): Result<Fields, Fault> {
    var parsed := if input.FromText? then loads(input.text) else Some(input.data);
    if parsed.None? then Err(BadJson)
    else
      var r := Validate(NoModels, ErrorModel, parsed.value);
      if r.Err? then Err(Invalid(r.error))
      else
        ValidatedTyped(parsed.value);
        Ok(ToFields(r.value))
  }

  /** A JSON text gives what its decoded value gives. */
  lemma FromJsonText(s: string, loads: string -> Option<Value>)
    ensures loads(s).Some? ==> FromJson(FromText(s), loads) == FromJson(FromValue(loads(s).value), loads)
    ensures loads(s).None? ==> FromJson(FromText(s), loads) == Err(BadJson)
  {
  }

  /** Only objects validate. */
  lemma FromJsonNotObject(v: Value, loads: string -> Option<Value>)
    requires !v.DictV?
    ensures FromJson(FromValue(v), loads) == Err(Invalid(NotAnObject))
  {
  }

  /** The value the field with input key `alias` takes: the key's string,
      or the default when the key is absent. */
  function Keyed(es: seq<Entry>, alias: string, d: string): string {
    match Get(es, alias)
    case Some(StrV(s)) => s
    case _ => d
  }

  /** Every field is read from its alias and keeps its default when the alias
      is absent; the snake-case keys `request_id`, `status_code` and
      `validation_errors` are never read. */
  lemma FromJsonAliases(es: seq<Entry>, loads: string -> Option<Value>)
    ensures FromJson(FromValue(DictV(es)), loads).Ok? ==>
      var f := FromJson(FromValue(DictV(es)), loads).value;
      && f.timestamp == Keyed(es, "timestamp", "")
      && f.path == Keyed(es, "path", "")
      && f.requestId == Keyed(es, "requestId", "")
      && f.message == Keyed(es, "message", "")
      && (HasKey(es, "status") ==> Get(es, "status") == Some(IntV(f.statusCode)))
      && (!HasKey(es, "status") ==> f.statusCode == 0)
      && (HasKey(es, "validationErrors") ==> Get(es, "validationErrors") == Some(StrList(f.validationErrors)))
      && (!HasKey(es, "validationErrors") ==> f.validationErrors == [])
  {
    FromJsonStrings(es, loads);
    FromJsonStatus(es, loads);
    FromJsonValidationErrors(es, loads);
  }

  lemma FromJsonStrings(es: seq<Entry>, loads: string -> Option<Value>)
    ensures FromJson(FromValue(DictV(es)), loads).Ok? ==>
      var f := FromJson(FromValue(DictV(es)), loads).value;
      && f.timestamp == Keyed(es, "timestamp", "")
      && f.path == Keyed(es, "path", "")
      && f.requestId == Keyed(es, "requestId", "")
      && f.message == Keyed(es, "message", "")
  {
    FromJsonWhereFrom(es, loads);
    FromJsonWhoWhat(es, loads);
  }

  lemma FromJsonWhereFrom(es: seq<Entry>, loads: string -> Option<Value>)
    ensures FromJson(FromValue(DictV(es)), loads).Ok? ==>
      var f := FromJson(FromValue(DictV(es)), loads).value;
      && f.timestamp == Keyed(es, "timestamp", "")
      && f.path == Keyed(es, "path", "")
  {
    if Validate(NoModels, ErrorModel, DictV(es)).Ok? {
      ValidatedTyped(DictV(es));
      AliasField(es, 0);
      AliasField(es, 1);
    }
  }

  lemma FromJsonWhoWhat(es: seq<Entry>, loads: string -> Option<Value>)
    ensures FromJson(FromValue(DictV(es)), loads).Ok? ==>
      var f := FromJson(FromValue(DictV(es)), loads).value;
      && f.requestId == Keyed(es, "requestId", "")
      && f.message == Keyed(es, "message", "")
  {
    if Validate(NoModels, ErrorModel, DictV(es)).Ok? {
      ValidatedTyped(DictV(es));
      AliasField(es, 2);
      AliasField(es, 4);
    }
  }

  lemma FromJsonStatus(es: seq<Entry>, loads: string -> Option<Value>)
    ensures FromJson(FromValue(DictV(es)), loads).Ok? ==>
      var f := FromJson(FromValue(DictV(es)), loads).value;
      && (HasKey(es, "status") ==> Get(es, "status") == Some(IntV(f.statusCode)))
      && (!HasKey(es, "status") ==> f.statusCode == 0)
  {
    if Validate(NoModels, ErrorModel, DictV(es)).Ok? {
      ValidatedTyped(DictV(es));
      AliasField(es, 3);
    }
  }

  lemma FromJsonValidationErrors(es: seq<Entry>, loads: string -> Option<Value>)
    ensures FromJson(FromValue(DictV(es)), loads).Ok? ==>
      var f := FromJson(FromValue(DictV(es)), loads).value;
      && (HasKey(es, "validationErrors") ==> Get(es, "validationErrors") == Some(StrList(f.validationErrors)))
      && (!HasKey(es, "validationErrors") ==> f.validationErrors == [])
  {
    if Validate(NoModels, ErrorModel, DictV(es)).Ok? {
      ValidatedTyped(DictV(es));
      AliasField(es, 5);
      var v := Validate(NoModels, ErrorModel, DictV(es)).value.fields[5].val;
      assert StrList(StrItems(v)) == v;
    }
  }

  /** Field i of the instance holds the value under its alias, or its default. */
  lemma AliasField(es: seq<Entry>, i: nat)
    requires i < 6
    ensures Validate(NoModels, ErrorModel, DictV(es)).Ok? ==>
      var fs := Validate(NoModels, ErrorModel, DictV(es)).value.fields;
      var f := ErrorModel.fields[i];
      && |fs| == 6
      && (HasKey(es, f.alias) ==> fs[i].val == Get(es, f.alias).value)
      && (!HasKey(es, f.alias) ==> fs[i].val == f.default.value)
  {
    FieldRule(NoModels, ErrorModel, es, i);
    var f := ErrorModel.fields[i];
    var x := Get(es, f.alias);
    if x.Some? && !x.value.NoneV? {
      if i == 5 {
        if x.value.ListV? {
          CheckStrings(x.value.items);
        }
      } else {
        CheckScalar(f.kind, x.value);
      }
    }
  }

  /** An object holding none of the six input keys gives the defaults. */
  lemma NoAliasesGiveDefaults(es: seq<Entry>, loads: string -> Option<Value>)
    requires !HasKey(es, "timestamp") && !HasKey(es, "path") && !HasKey(es, "requestId")
    requires !HasKey(es, "status") && !HasKey(es, "message") && !HasKey(es, "validationErrors")
    ensures FromJson(FromValue(DictV(es)), loads) == Ok(Defaults)
  {
    NoAliasesValid(es);
    FromJsonAliases(es, loads);
    var f := FromJson(FromValue(DictV(es)), loads).value;
    assert f.validationErrors == [];
  }

  lemma NoAliasesValid(es: seq<Entry>)
    requires !HasKey(es, "timestamp") && !HasKey(es, "path") && !HasKey(es, "requestId")
    requires !HasKey(es, "status") && !HasKey(es, "message") && !HasKey(es, "validationErrors")
    ensures Validate(NoModels, ErrorModel, DictV(es)).Ok?
  {
    ValidateFieldsAt(NoModels, ErrorModel.fields, es);
    assert forall i :: 0 <= i < 6 ==> !HasKey(es, ErrorModel.fields[i].alias);
  }

  /** An empty object gives the defaults, the same value `reset` produces. */
  lemma EmptyIsDefaults(loads: string -> Option<Value>)
    ensures FromJson(FromValue(DictV([])), loads) == Ok(Defaults)
  {
    NoAliasesGiveDefaults([], loads);
  }

  /** A body spelling the fields by their Python names is not read: the
      result is the defaults. */
  lemma SnakeCaseIgnored(loads: string -> Option<Value>)
    ensures FromJson(FromValue(DictV([Entry("request_id", StrV("r1")), Entry("status_code", IntV(500)),
                                       Entry("validation_errors", StrList(["bad"]))])), loads)
            == Ok(Defaults)
  {
    var es := [Entry("request_id", StrV("r1")), Entry("status_code", IntV(500)),
               Entry("validation_errors", StrList(["bad"]))];
    assert Keys(es) == ["request_id", "status_code", "validation_errors"];
    NoAliasesGiveDefaults(es, loads);
  }

  /** An object holding only `status` and `message` gives those two and
      the defaults for the rest. */
  lemma StatusAndMessage(status: int, message: string, loads: string -> Option<Value>)
    ensures FromJson(FromValue(DictV([Entry("status", IntV(status)), Entry("message", StrV(message))])), loads)
            == Ok(Fields("", "", "", status, message, []))
  {
    var es := [Entry("status", IntV(status)), Entry("message", StrV(message))];
    StatusAndMessageKeys(status, message);
    StatusAndMessageValid(status, message);
    FromJsonAliases(es, loads);
  }

  lemma StatusAndMessageKeys(status: int, message: string)
    ensures var es := [Entry("status", IntV(status)), Entry("message", StrV(message))];
      && Keys(es) == ["status", "message"]
      && Get(es, "status") == Some(IntV(status))
      && Get(es, "message") == Some(StrV(message))
  {
    var es := [Entry("status", IntV(status)), Entry("message", StrV(message))];
    assert Keys(es) == ["status", "message"];
  }

  lemma StatusAndMessageValid(status: int, message: string)
    ensures Validate(NoModels, ErrorModel, DictV([Entry("status", IntV(status)), Entry("message", StrV(message))])).Ok?
  {
    var es := [Entry("status", IntV(status)), Entry("message", StrV(message))];
    StatusAndMessageKeys(status, message);
    ValidateFieldsAt(NoModels, ErrorModel.fields, es);
  }

  /** `to_string`: `[status] message (request_id=id)`, the request id part
      present even when empty. */
  function ToString(f: Fields): string {
    "[" + Strings.Decimal(f.statusCode) + "] " + f.message + " (request_id=" + f.requestId + ")"
  }

  /** The string form splits back into its three parts: status, message and
      request id each sit at a fixed place between the fixed markers. */
  lemma ToStringParts(f: Fields)
    ensures var s := ToString(f);
      var head := "[" + Strings.Decimal(f.statusCode) + "] ";
      var tail := " (request_id=" + f.requestId + ")";
      && |s| == |head| + |f.message| + |tail|
      && s[..|head|] == head
      && s[|head|..|head| + |f.message|] == f.message
      && s[|head| + |f.message|..] == tail
      && s[0] == '[' && s[|s| - 1] == ')'
  {
    var s := ToString(f);
    var head := "[" + Strings.Decimal(f.statusCode) + "] ";
    var tail := " (request_id=" + f.requestId + ")";
    assert s == head + f.message + tail;
  }

  /** With an empty request id the string still ends in `(request_id=)`. */
  lemma ToStringEmptyRequestId(f: Fields)
    requires f.requestId == ""
    ensures |ToString(f)| >= 13 && ToString(f)[|ToString(f)| - 13..] == "(request_id=)"
  {
    ToStringParts(f);
  }
}
