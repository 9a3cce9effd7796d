/** The session configuration of the older package (gladiapp,
    src/gladiapp/v2/ws.py:96-129): a flat record whose `to_json` is a
    hand-written dict literal. The encoding has `_` rewritten to `/`, the
    seven audio and model keys are always sent, `region` never is (it travels
    in the query string), and each of the four optional keys is sent only when
    its value is truthy. */
module LegacySessionRequest {
  import opened Wrappers
  import opened PyValue
  import opened Strings

  datatype LegacyRequest = LegacyRequest(
    region: string, encoding: string, bitDepth: int, sampleRate: int, channels: int,
    model: string, endpointing: real, maximumDurationWithoutEndpointing: int,
    messagesConfig: Option<seq<Entry>>, realtimeProcessing: Option<seq<Entry>>,
    postProcessing: Option<seq<Entry>>, customMetadata: Option<string>)

  /** `InitializeSessionRequest()` of the older package. */
  const DefaultLegacyRequest := LegacyRequest(
    "us-west", "wav_pcm", 16, 16000, 1, "solaria-1", 0.05, 5, None, None, None, None)

  /** Python truthiness of an optional dict or string: present and non-empty. */
  predicate TruthyDict(o: Option<seq<Entry>>) { o.Some? && o.value != [] }
  predicate TruthyStr(o: Option<string>) { o.Some? && o.value != "" }

  /** `self.encoding.replace("_", "/") if self.encoding else "wav/pcm"` */
  function WireEncoding(encoding: string): (e: string)
    ensures encoding == "" ==> e == "wav/pcm"
    ensures encoding != "" ==>
      |e| == |encoding| && forall i :: 0 <= i < |e| ==> e[i] == (if encoding[i] == '_' then '/' else encoding[i])
    ensures forall i :: 0 <= i < |e| ==> e[i] != '_'
  {
    if encoding == "" then "wav/pcm" else ReplaceChar(encoding, '_', '/')
  }

  /** `**({k: v} if v else {})` */
  function IfTruthy(present: bool, k: string, v: Value): (es: seq<Entry>)
    ensures present ==> es == [Entry(k, v)]
    ensures !present ==> es == []
  {
    if present then [Entry(k, v)] else []
  }

  /** The seven keys that are always sent, in the literal's order. */
  function Required(req: LegacyRequest): seq<Entry> {
    [Entry("encoding", StrV(WireEncoding(req.encoding))),
     Entry("bit_depth", IntV(req.bitDepth)),
     Entry("sample_rate", IntV(req.sampleRate)),
     Entry("channels", IntV(req.channels)),
     Entry("model", StrV(req.model)),
     Entry("endpointing", RealV(req.endpointing)),
     Entry("maximum_duration_without_endpointing", IntV(req.maximumDurationWithoutEndpointing))]
  }

  const RequiredKeys: seq<string> := [
    "encoding", "bit_depth", "sample_rate", "channels", "model", "endpointing",
    "maximum_duration_without_endpointing"]

  const OptionalKeyNames: seq<string> := [
    "messages_config", "realtime_processing", "post_processing", "custom_metadata"]

  /** The four optional keys, each sent only when truthy. */
  function Optional(req: LegacyRequest): seq<Entry> {
    IfTruthy(TruthyDict(req.messagesConfig), "messages_config", DictV(req.messagesConfig.GetOr([])))
    + IfTruthy(TruthyDict(req.realtimeProcessing), "realtime_processing", DictV(req.realtimeProcessing.GetOr([])))
    + IfTruthy(TruthyDict(req.postProcessing), "post_processing", DictV(req.postProcessing.GetOr([])))
    + IfTruthy(TruthyStr(req.customMetadata), "custom_metadata", StrV(req.customMetadata.GetOr("")))
  }

  /** `to_json()` */
  function ToJson(req: LegacyRequest): seq<Entry> {
    Required(req) + Optional(req)
  }

  lemma OptionalKeys(req: LegacyRequest)
    ensures forall k :: HasKey(Optional(req), k) <==>
      (k == "messages_config" && TruthyDict(req.messagesConfig))
      || (k == "realtime_processing" && TruthyDict(req.realtimeProcessing))
      || (k == "post_processing" && TruthyDict(req.postProcessing))
      || (k == "custom_metadata" && TruthyStr(req.customMetadata))
  {
    var a := IfTruthy(TruthyDict(req.messagesConfig), "messages_config", DictV(req.messagesConfig.GetOr([])));
    var b := IfTruthy(TruthyDict(req.realtimeProcessing), "realtime_processing", DictV(req.realtimeProcessing.GetOr([])));
    var c := IfTruthy(TruthyDict(req.postProcessing), "post_processing", DictV(req.postProcessing.GetOr([])));
    var d := IfTruthy(TruthyStr(req.customMetadata), "custom_metadata", StrV(req.customMetadata.GetOr("")));
    KeysAppend(a, b);
    KeysAppend(a + b, c);
    KeysAppend(a + b + c, d);
    assert Keys(a) == if TruthyDict(req.messagesConfig) then ["messages_config"] else [];
    assert Keys(b) == if TruthyDict(req.realtimeProcessing) then ["realtime_processing"] else [];
    assert Keys(c) == if TruthyDict(req.postProcessing) then ["post_processing"] else [];
    assert Keys(d) == if TruthyStr(req.customMetadata) then ["custom_metadata"] else [];
    assert Keys(Optional(req)) == Keys(a) + Keys(b) + Keys(c) + Keys(d);
  }

  /** The body's keys: the seven required keys always, first and in order,
      `region` never, and an optional key exactly when its value is truthy
      (so an empty dict or an empty string is left out). */
  lemma ToJsonKeys(req: LegacyRequest)
    ensures Keys(ToJson(req))[..7] == RequiredKeys
    ensures !HasKey(ToJson(req), "region")
    ensures forall k :: HasKey(ToJson(req), k) <==>
      k in RequiredKeys
      || (k == "messages_config" && TruthyDict(req.messagesConfig))
      || (k == "realtime_processing" && TruthyDict(req.realtimeProcessing))
      || (k == "post_processing" && TruthyDict(req.postProcessing))
      || (k == "custom_metadata" && TruthyStr(req.customMetadata))
  {
    KeysAppend(Required(req), Optional(req));
    OptionalKeys(req);
    assert Keys(Required(req)) == RequiredKeys;
    assert Keys(ToJson(req)) == RequiredKeys + Keys(Optional(req));
    assert forall k :: HasKey(ToJson(req), k) <==> k in RequiredKeys || HasKey(Optional(req), k);
  }

  lemma IfTruthyKeys(present: bool, k: string, v: Value)
    ensures Keys(IfTruthy(present, k, v)) == if present then [k] else []
    ensures UniqueKeys(IfTruthy(present, k, v))
  {
  }

  lemma OptionalUnique(req: LegacyRequest)
    ensures UniqueKeys(Optional(req))
  {
    var a := IfTruthy(TruthyDict(req.messagesConfig), "messages_config", DictV(req.messagesConfig.GetOr([])));
    var b := IfTruthy(TruthyDict(req.realtimeProcessing), "realtime_processing", DictV(req.realtimeProcessing.GetOr([])));
    var c := IfTruthy(TruthyDict(req.postProcessing), "post_processing", DictV(req.postProcessing.GetOr([])));
    var d := IfTruthy(TruthyStr(req.customMetadata), "custom_metadata", StrV(req.customMetadata.GetOr("")));
    IfTruthyKeys(TruthyDict(req.messagesConfig), "messages_config", DictV(req.messagesConfig.GetOr([])));
    IfTruthyKeys(TruthyDict(req.realtimeProcessing), "realtime_processing", DictV(req.realtimeProcessing.GetOr([])));
    IfTruthyKeys(TruthyDict(req.postProcessing), "post_processing", DictV(req.postProcessing.GetOr([])));
    IfTruthyKeys(TruthyStr(req.customMetadata), "custom_metadata", StrV(req.customMetadata.GetOr("")));
    UniqueAppend(a, b);
    KeysAppend(a, b);
    UniqueAppend(a + b, c);
    KeysAppend(a + b, c);
    UniqueAppend(a + b + c, d);
  }

  lemma RequiredUnique(req: LegacyRequest)
    ensures Keys(Required(req)) == RequiredKeys
    ensures UniqueKeys(Required(req))
  {
    assert Keys(Required(req)) == RequiredKeys;
    assert forall i, j :: 0 <= i < j < |RequiredKeys| ==> RequiredKeys[i] != RequiredKeys[j];
  }

  lemma RequiredOptionalDisjoint(req: LegacyRequest)
    ensures forall k :: HasKey(Required(req), k) ==> !HasKey(Optional(req), k)
  {
    OptionalKeys(req);
    RequiredUnique(req);
    assert forall k :: k in RequiredKeys ==>
      k != "messages_config" && k != "realtime_processing" && k != "post_processing" && k != "custom_metadata";
  }

  /** Each key is sent once. */
  lemma ToJsonUniqueKeys(req: LegacyRequest)
    ensures UniqueKeys(ToJson(req))
  {
    OptionalUnique(req);
    RequiredUnique(req);
    RequiredOptionalDisjoint(req);
    UniqueAppend(Required(req), Optional(req));
  }

  /** The values sent: the rewritten encoding, the other six required fields
      as given, and each truthy optional field as given. */
  lemma ToJsonValues(req: LegacyRequest)
    ensures Get(ToJson(req), "encoding") == Some(StrV(WireEncoding(req.encoding)))
    ensures Get(ToJson(req), "bit_depth") == Some(IntV(req.bitDepth))
    ensures Get(ToJson(req), "sample_rate") == Some(IntV(req.sampleRate))
    ensures Get(ToJson(req), "channels") == Some(IntV(req.channels))
    ensures Get(ToJson(req), "model") == Some(StrV(req.model))
    ensures Get(ToJson(req), "endpointing") == Some(RealV(req.endpointing))
    ensures Get(ToJson(req), "maximum_duration_without_endpointing")
      == Some(IntV(req.maximumDurationWithoutEndpointing))
    ensures TruthyDict(req.messagesConfig) ==>
      Get(ToJson(req), "messages_config") == Some(DictV(req.messagesConfig.value))
    ensures TruthyDict(req.realtimeProcessing) ==>
      Get(ToJson(req), "realtime_processing") == Some(DictV(req.realtimeProcessing.value))
    ensures TruthyDict(req.postProcessing) ==>
      Get(ToJson(req), "post_processing") == Some(DictV(req.postProcessing.value))
    ensures TruthyStr(req.customMetadata) ==>
      Get(ToJson(req), "custom_metadata") == Some(StrV(req.customMetadata.value))
  {
    RequiredValues(req);
    OptionalValues(req);
    RequiredFirst(req, "encoding");
    RequiredFirst(req, "bit_depth");
    RequiredFirst(req, "sample_rate");
    RequiredFirst(req, "channels");
    RequiredFirst(req, "model");
    RequiredFirst(req, "endpointing");
    RequiredFirst(req, "maximum_duration_without_endpointing");
    OptionalAfterRequired(req, "messages_config");
    OptionalAfterRequired(req, "realtime_processing");
    OptionalAfterRequired(req, "post_processing");
    OptionalAfterRequired(req, "custom_metadata");
  }

  /** A required key is looked up in the required part. */
  lemma RequiredFirst(req: LegacyRequest, k: string)
    requires k in RequiredKeys
    ensures Get(ToJson(req), k) == Get(Required(req), k)
  {
    RequiredUnique(req);
    GetAppend(Required(req), Optional(req), k);
  }

  /** A key outside the required part is looked up in the optional part. */
  lemma OptionalAfterRequired(req: LegacyRequest, k: string)
    requires k in OptionalKeyNames
    ensures Get(ToJson(req), k) == Get(Optional(req), k)
  {
    RequiredUnique(req);
    assert forall k' :: k' in RequiredKeys ==> k' !in OptionalKeyNames;
    GetAppend(Required(req), Optional(req), k);
  }

  /** Each required key looks up the value at its place in the literal. */
  lemma RequiredValues(req: LegacyRequest)
    ensures Get(Required(req), "encoding") == Some(StrV(WireEncoding(req.encoding)))
    ensures Get(Required(req), "bit_depth") == Some(IntV(req.bitDepth))
    ensures Get(Required(req), "sample_rate") == Some(IntV(req.sampleRate))
    ensures Get(Required(req), "channels") == Some(IntV(req.channels))
    ensures Get(Required(req), "model") == Some(StrV(req.model))
    ensures Get(Required(req), "endpointing") == Some(RealV(req.endpointing))
    ensures Get(Required(req), "maximum_duration_without_endpointing") == Some(IntV(req.maximumDurationWithoutEndpointing))
  {
    RequiredUnique(req);
    var r := Required(req);
    UniqueGet(r, 0);
    UniqueGet(r, 1);
    UniqueGet(r, 2);
    UniqueGet(r, 3);
    UniqueGet(r, 4);
    UniqueGet(r, 5);
    UniqueGet(r, 6);
  }

  /** Each truthy optional field looks up its own value in the optional part. */
  lemma OptionalValues(req: LegacyRequest)
    ensures TruthyDict(req.messagesConfig) ==>
      Get(Optional(req), "messages_config") == Some(DictV(req.messagesConfig.value))
    ensures TruthyDict(req.realtimeProcessing) ==>
      Get(Optional(req), "realtime_processing") == Some(DictV(req.realtimeProcessing.value))
    ensures TruthyDict(req.postProcessing) ==>
      Get(Optional(req), "post_processing") == Some(DictV(req.postProcessing.value))
    ensures TruthyStr(req.customMetadata) ==>
      Get(Optional(req), "custom_metadata") == Some(StrV(req.customMetadata.value))
  {
    var a := IfTruthy(TruthyDict(req.messagesConfig), "messages_config", DictV(req.messagesConfig.GetOr([])));
    var b := IfTruthy(TruthyDict(req.realtimeProcessing), "realtime_processing", DictV(req.realtimeProcessing.GetOr([])));
    var c := IfTruthy(TruthyDict(req.postProcessing), "post_processing", DictV(req.postProcessing.GetOr([])));
    var d := IfTruthy(TruthyStr(req.customMetadata), "custom_metadata", StrV(req.customMetadata.GetOr("")));
    assert Optional(req) == a + b + c + d;
    var m, r, p, cm := "messages_config", "realtime_processing", "post_processing", "custom_metadata";
    assert m != r && m != p && m != cm && r != p && r != cm && p != cm;
    IfTruthyGet(TruthyDict(req.messagesConfig), m, DictV(req.messagesConfig.GetOr([])), r);
    IfTruthyGet(TruthyDict(req.messagesConfig), m, DictV(req.messagesConfig.GetOr([])), p);
    IfTruthyGet(TruthyDict(req.messagesConfig), m, DictV(req.messagesConfig.GetOr([])), cm);
    IfTruthyGet(TruthyDict(req.realtimeProcessing), r, DictV(req.realtimeProcessing.GetOr([])), p);
    IfTruthyGet(TruthyDict(req.realtimeProcessing), r, DictV(req.realtimeProcessing.GetOr([])), cm);
    IfTruthyGet(TruthyDict(req.postProcessing), p, DictV(req.postProcessing.GetOr([])), cm);
    IfTruthyGet(TruthyDict(req.messagesConfig), m, DictV(req.messagesConfig.GetOr([])), m);
    IfTruthyGet(TruthyDict(req.realtimeProcessing), r, DictV(req.realtimeProcessing.GetOr([])), r);
    IfTruthyGet(TruthyDict(req.postProcessing), p, DictV(req.postProcessing.GetOr([])), p);
    IfTruthyGet(TruthyStr(req.customMetadata), cm, StrV(req.customMetadata.GetOr("")), cm);
    SpreadLookup(a, b, c, d, m);
    SpreadLookup(a, b, c, d, r);
    SpreadLookup(a, b, c, d, p);
    SpreadLookup(a, b, c, d, cm);
  }

  /** A spread holds its key and value when truthy, and nothing else. */
  lemma IfTruthyGet(present: bool, k: string, v: Value, k': string)
    ensures HasKey(IfTruthy(present, k, v), k') <==> present && k == k'
    ensures Get(IfTruthy(present, k, v), k') == if present && k == k' then Some(v) else None
  {
    IfTruthyKeys(present, k, v);
  }

  /** A lookup in four merged spreads finds the first spread holding the key. */
  lemma SpreadLookup(a: seq<Entry>, b: seq<Entry>, c: seq<Entry>, d: seq<Entry>, k: string)
    ensures Get(a + b + c + d, k) ==
      if HasKey(a, k) then Get(a, k) else if HasKey(b, k) then Get(b, k)
      else if HasKey(c, k) then Get(c, k) else Get(d, k)
  {
    GetAppend(a + b + c, d, k);
    GetAppend(a + b, c, k);
    GetAppend(a, b, k);
  }

  /** The default encoding `wav_pcm` is sent as `wav/pcm`. */
  lemma DefaultEncoding()
    ensures WireEncoding(DefaultLegacyRequest.encoding) == "wav/pcm"
  {
    var src := "wav_pcm";
    var e := WireEncoding(src);
    assert |e| == 7;
    assert e[0] == 'w' && e[1] == 'a' && e[2] == 'v';
    assert src[3] == '_' && e[3] == '/';
    assert e[4] == 'p' && e[5] == 'c' && e[6] == 'm';
    assert e == "wav/pcm";
  }
}
