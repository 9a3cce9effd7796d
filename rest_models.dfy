/** The request and response records of the older package's REST client, as
    pydantic schemas: which fields are required, their defaults, and the one
    pattern constraint. */
module RestModels {
  import opened Wrappers
  import opened PyValue
  import opened Models
  import ApiCalls

  function UploadAudioMetadata(): Schema {
    Schema("UploadAudioMetadata", [
      Req("id", KStr), Req("filename", KStr), Req("extension", KStr), Req("size", KInt),
      Req("audio_duration", KFloat), Req("number_of_channels", KInt)])
  }

  function UploadResponse(): Schema {
    Schema("UploadResponse", [
      Req("audio_url", KStr), Req("audio_metadata", KModel("UploadAudioMetadata"))])
  }

  function TranscriptionJobResponse(): Schema {
    Schema("TranscriptionJobResponse", [Req("id", KStr), Req("result_url", KStr)])
  }

  function Word(): Schema {
    Schema("Word", [Req("word", KStr), Req("start", KFloat), Req("end", KFloat), Req("confidence", KFloat)])
  }

  function Utterance(): Schema {
    Schema("Utterance", [
      Req("language", KStr), Req("start", KFloat), Req("end", KFloat), Req("confidence", KFloat),
      Req("channel", KInt), EmptyList("words", KModel("Word")), Req("text", KStr), Opt("speaker", KInt)])
  }

  function Subtitle(): Schema { Schema("Subtitle", [Req("format", KStr), Req("subtitles", KStr)]) }

  function Metadata(): Schema {
    Schema("Metadata", [
      Req("audio_duration", KFloat), Req("number_of_distinct_channels", KInt),
      Req("billing_time", KFloat), Req("transcription_time", KFloat)])
  }

  function TranscriptionObjectResult(): Schema {
    Schema("TranscriptionObjectResult", [
      Req("full_transcript", KStr), EmptyList("languages", KStr),
      EmptyList("utterances", KModel("Utterance")), EmptyList("subtitles", KModel("Subtitle"))])
  }

  function TranscriptionObject(): Schema {
    Schema("TranscriptionObject", [
      Req("metadata", KModel("Metadata")), Opt("transcription", KModel("TranscriptionObjectResult"))])
  }

  function TranscriptionFile(): Schema {
    Schema("TranscriptionFile", [
      Req("id", KStr), Req("filename", KStr), Opt("source", KStr), Opt("audio_duration", KFloat),
      Req("number_of_channels", KInt)])
  }

  function TranscriptionResult(): Schema {
    Schema("TranscriptionResult", [
      Req("id", KStr), Req("request_id", KStr), Req("version", KInt), Req("status", KStr),
      Req("created_at", KStr), Req("kind", KStr), Opt("completed_at", KStr), Opt("error_code", KInt),
      Opt("file", KModel("TranscriptionFile")), Opt("request_params", KDict),
      Opt("result", KModel("TranscriptionObject"))])
  }

  function ListResultsPage(): Schema {
    Schema("ListResultsPage", [
      Req("first", KStr), Req("current", KStr), Opt("next", KStr),
      EmptyList("items", KModel("TranscriptionResult"))])
  }

  /** `method` must match `^(POST|PUT)$`, which admits exactly these two. */
  function CallbackConfig(): Schema {
    Schema("CallbackConfig", [Req("url", KStr), Req("method", KOneOf(["POST", "PUT"]))])
  }

  function SubtitlesConfig(): Schema {
    Schema("SubtitlesConfig", [
      Req("formats", KList(KStr)), Opt("maximum_characters_per_row", KInt),
      Opt("maximum_rows_per_caption", KInt), OptDef("style", KStr, StrV("DEFAULT"))])
  }

  function DiarizationConfig(): Schema {
    Schema("DiarizationConfig", [
      Opt("number_of_speakers", KInt), Opt("min_speakers", KInt), Opt("max_speakers", KInt), Opt("enhanced", KBool)])
  }

  function TranslationConfig(): Schema {
    Schema("TranslationConfig", [
      Def("model", KStr, StrV("BASE")), EmptyList("target_languages", KStr),
      OptDef("match_original_utterances", KBool, BoolV(true)), OptDef("lipsync", KBool, BoolV(true)),
      OptDef("context_adaptation", KBool, BoolV(true)), Opt("context", KStr),
      OptDef("informal", KBool, BoolV(false))])
  }

  /** `TranslationConfig()`, the instance every request gets by default. */
  function DefaultTranslation(): Value {
    Record([
      Entry("model", StrV("BASE")), Entry("target_languages", ListV([])),
      Entry("match_original_utterances", BoolV(true)), Entry("lipsync", BoolV(true)),
      Entry("context_adaptation", BoolV(true)), Entry("context", NoneV), Entry("informal", BoolV(false))])
  }

  function SummarizationConfig(): Schema { Schema("SummarizationConfig", [Req("types", KList(KStr))]) }
  function CustomSpellingConfig(): Schema { Schema("CustomSpellingConfig", [Req("spelling_dictionary", KDict)]) }
  function StructuredDataExtractionConfig(): Schema {
    Schema("StructuredDataExtractionConfig", [Req("classes", KList(KStr))])
  }
  function AudioToLLMConfig(): Schema { Schema("AudioToLLMConfig", [Req("prompts", KList(KStr))]) }
  function LanguageConfig(): Schema {
    Schema("LanguageConfig", [Req("languages", KList(KStr)), Def("code_switching", KBool, BoolV(false))])
  }

  function Flag(name: string): FieldSpec { Def(name, KBool, BoolV(false)) }

  // The request's fields, in declaration order, in four runs of at most seven.
  function RequestHead(): seq<FieldSpec> {
    [Req("audio_url", KStr), Opt("custom_vocabulary_config", KList(KDict)),
      Flag("callback"), Opt("callback_config", KModel("CallbackConfig")),
      Flag("subtitles"), Opt("subtitles_config", KModel("SubtitlesConfig")), Flag("diarization")]
  }
  function RequestSecond(): seq<FieldSpec> {
    [Opt("diarization_config", KModel("DiarizationConfig")),
      Flag("translation"), Def("translation_config", KModel("TranslationConfig"), DefaultTranslation()),
      Flag("summarization"), Opt("summarization_config", KModel("SummarizationConfig")),
      Flag("moderation"), Flag("named_entity_recognition")]
  }
  function RequestThird(): seq<FieldSpec> {
    [Flag("chapterization"), Flag("name_consistency"),
      Flag("custom_spelling"), Opt("custom_spelling_config", KModel("CustomSpellingConfig")),
      Flag("structured_data_extraction"), Opt("structured_data_extraction_config", KModel("StructuredDataExtractionConfig")),
      Flag("sentiment_analysis")]
  }
  function RequestLast(): seq<FieldSpec> {
    [Flag("audio_to_llm"), Opt("audio_to_llm_config", KModel("AudioToLLMConfig")),
      Flag("sentences"), Flag("display_mode"), Flag("punctuation_enhanced"),
      Opt("language_config", KModel("LanguageConfig"))]
  }

  function TranscriptionRequest(): Schema {
    Schema("TranscriptionRequest", RequestHead() + RequestSecond() + RequestThird() + RequestLast())
  }

  function ListResultsQuery(): Schema {
    Schema("ListResultsQuery", [
      Def("offset", KInt, IntV(0)), Def("limit", KInt, IntV(20)),
      Opt("date", KStr), Opt("before_date", KStr), Opt("after_date", KStr), EmptyList("status", KStr)])
  }

  /** The model classes by name. */
  function Registry(name: string): Schema {
    if name == "UploadAudioMetadata" then UploadAudioMetadata()
    else if name == "UploadResponse" then UploadResponse()
    else if name == "TranscriptionJobResponse" then TranscriptionJobResponse()
    else if name == "Word" then Word()
    else if name == "Utterance" then Utterance()
    else if name == "Subtitle" then Subtitle()
    else if name == "Metadata" then Metadata()
    else if name == "TranscriptionObjectResult" then TranscriptionObjectResult()
    else if name == "TranscriptionObject" then TranscriptionObject()
    else if name == "TranscriptionFile" then TranscriptionFile()
    else if name == "TranscriptionResult" then TranscriptionResult()
    else if name == "ListResultsPage" then ListResultsPage()
    else if name == "CallbackConfig" then CallbackConfig()
    else if name == "SubtitlesConfig" then SubtitlesConfig()
    else if name == "DiarizationConfig" then DiarizationConfig()
    else if name == "TranslationConfig" then TranslationConfig()
    else if name == "SummarizationConfig" then SummarizationConfig()
    else if name == "CustomSpellingConfig" then CustomSpellingConfig()
    else if name == "StructuredDataExtractionConfig" then StructuredDataExtractionConfig()
    else if name == "AudioToLLMConfig" then AudioToLLMConfig()
    else if name == "LanguageConfig" then LanguageConfig()
    else if name == "TranscriptionRequest" then TranscriptionRequest()
    else if name == "ListResultsQuery" then ListResultsQuery()
    else Schema(name, [])
  }

  // ----------------------------------------------------------- CallbackConfig

  /** A callback configuration validates exactly when `url` is a string and
      `method` is the string `POST` or `PUT`. */
  lemma CallbackMethod(es: seq<Entry>)
    ensures Validate(Registry, CallbackConfig(), DictV(es)).Ok? <==>
      && Get(es, "url").Some? && Get(es, "url").value.StrV?
      && (Get(es, "method") == Some(StrV("POST")) || Get(es, "method") == Some(StrV("PUT")))
  {
    var f0, f1 := Req("url", KStr), Req("method", KOneOf(["POST", "PUT"]));
    assert CallbackConfig().fields == [f0, f1];
    TwoFields(Registry, CallbackConfig(), es);
    ScalarField(Registry, f0, es);
    ScalarField(Registry, f1, es);
    MethodChoice(Get(es, "method"));
  }

  lemma MethodChoice(m: Option<Value>)
    ensures (m.Some? && m.value.StrV? && m.value.s in ["POST", "PUT"])
       <==> (m == Some(StrV("POST")) || m == Some(StrV("PUT")))
  {
  }

  /** The pattern is case-sensitive and anchored. */
  lemma CallbackMethodExact()
    ensures Validate(Registry, CallbackConfig(), DictV([Entry("url", StrV("u")), Entry("method", StrV("post"))])).Err?
    ensures Validate(Registry, CallbackConfig(), DictV([Entry("url", StrV("u")), Entry("method", StrV("PUTS"))])).Err?
  {
    CallbackMethod([Entry("url", StrV("u")), Entry("method", StrV("post"))]);
    CallbackMethod([Entry("url", StrV("u")), Entry("method", StrV("PUTS"))]);
  }

  // --------------------------------------------------------- ListResultsQuery

  function DefaultQuery(): Value {
    Record([
      Entry("offset", IntV(0)), Entry("limit", IntV(20)), Entry("date", NoneV),
      Entry("before_date", NoneV), Entry("after_date", NoneV), Entry("status", ListV([]))])
  }

  /** `ListResultsQuery()` has offset 0, limit 20, no date filters and an
      empty status list. */
  lemma QueryDefaults()
    ensures Validate(Registry, ListResultsQuery(), DictV([])) == Ok(DefaultQuery())
  {
    QueryDefaultsOf();
    ValidateEmpty(Registry, ListResultsQuery());
  }

  lemma QueryDefaultsOf()
    ensures DefaultsOf(ListResultsQuery().fields) == Ok(DefaultQuery().fields)
  {
    var f0, f1, f2 := Def("offset", KInt, IntV(0)), Def("limit", KInt, IntV(20)), Opt("date", KStr);
    var e0, e1, e2 := Entry("offset", IntV(0)), Entry("limit", IntV(20)), Entry("date", NoneV);
    var ft := [Opt("before_date", KStr), Opt("after_date", KStr), EmptyList("status", KStr)];
    var et := [Entry("before_date", NoneV), Entry("after_date", NoneV), Entry("status", ListV([]))];
    QueryDatesDefault();
    DefaultsOfCons(f2, ft);
    DefaultsOfCons(f1, [f2] + ft);
    DefaultsOfCons(f0, [f1] + ([f2] + ft));
    assert [f0] + ([f1] + ([f2] + ft)) == ListResultsQuery().fields;
    assert [e0] + ([e1] + ([e2] + et)) == DefaultQuery().fields;
  }

  lemma QueryDatesDefault()
    ensures DefaultsOf([Opt("before_date", KStr), Opt("after_date", KStr), EmptyList("status", KStr)])
            == Ok([Entry("before_date", NoneV), Entry("after_date", NoneV), Entry("status", ListV([]))])
  {
    var f3, f4, f5 := Opt("before_date", KStr), Opt("after_date", KStr), EmptyList("status", KStr);
    var e3, e4, e5 := Entry("before_date", NoneV), Entry("after_date", NoneV), Entry("status", ListV([]));
    DefaultsOfCons(f5, []);
    assert [f5] + [] == [f5] && [e5] + [] == [e5];
    DefaultsOfCons(f4, [f5]);
    assert [f4] + [f5] == [f4, f5] && [e4] + [e5] == [e4, e5];
    DefaultsOfCons(f3, [f4, f5]);
    assert [f3] + [f4, f5] == [f3, f4, f5] && [e3] + [e4, e5] == [e3, e4, e5];
  }

  /** ... so `get_results` with a default query sends only `offset=0` and
      `limit=20`: the dump drops the `None` dates and the parameter filter the
      empty status. */
  lemma DefaultQueryParams()
    ensures Dump(DefaultQuery(), true).DictV?
    ensures ApiCalls.QueryParams(Dump(DefaultQuery(), true).entries) == Ok([Entry("offset", IntV(0)), Entry("limit", IntV(20))])
  {
    DefaultQueryDump();
    var kept := [Entry("offset", IntV(0)), Entry("limit", IntV(20))];
    var d := kept + [Entry("status", ListV([]))];
    assert d[..2] == kept && kept[..1] == [kept[0]] && [kept[0]][..0] == [];
    assert ApiCalls.Kept(d) == kept;
  }

  /** The default query dumps to its offset, limit and empty status. */
  lemma DefaultQueryDump()
    ensures DumpFields(DefaultQuery().fields, true)
            == [Entry("offset", IntV(0)), Entry("limit", IntV(20))] + [Entry("status", ListV([]))]
  {
    var e0, e1, e2 := Entry("offset", IntV(0)), Entry("limit", IntV(20)), Entry("date", NoneV);
    var e3, e4, e5 := Entry("before_date", NoneV), Entry("after_date", NoneV), Entry("status", ListV([]));
    DumpFieldsSnoc([], e0, true);
    assert [] + [e0] == [e0];
    DumpFieldsSnoc([e0], e1, true);
    assert [e0] + [e1] == [e0, e1];
    DumpFieldsSnoc([e0, e1], e2, true);
    assert [e0, e1] + [e2] == [e0, e1, e2];
    DumpFieldsSnoc([e0, e1, e2], e3, true);
    assert [e0, e1, e2] + [e3] == [e0, e1, e2, e3];
    DumpFieldsSnoc([e0, e1, e2, e3], e4, true);
    assert [e0, e1, e2, e3] + [e4] == [e0, e1, e2, e3, e4];
    DumpFieldsSnoc([e0, e1, e2, e3, e4], e5, true);
    assert [e0, e1, e2, e3, e4] + [e5] == DefaultQuery().fields;
  }

  // ----------------------------------------------------- TranscriptionRequest

  /** A boolean field is a flag: `False` by default and never `None`. */
  predicate FlagsDefaultFalse(specs: seq<FieldSpec>) {
    forall i :: 0 <= i < |specs| && specs[i].kind == KBool ==>
      specs[i].default == Some(BoolV(false)) && !specs[i].nullable
  }

  /** Every field has a default and is read from a key other than `audio_url`. */
  predicate DefaultedBesideUrl(specs: seq<FieldSpec>) {
    forall i :: 0 <= i < |specs| ==> specs[i].default.Some? && specs[i].alias != "audio_url"
  }

  lemma RequestRuns()
    ensures |RequestHead()| == 7 && |RequestSecond()| == 7 && |RequestThird()| == 7 && |RequestLast()| == 6
    ensures FlagsDefaultFalse(RequestHead()) && FlagsDefaultFalse(RequestSecond())
    ensures FlagsDefaultFalse(RequestThird()) && FlagsDefaultFalse(RequestLast())
    ensures DefaultedBesideUrl(RequestHead()[1..]) && DefaultedBesideUrl(RequestSecond())
    ensures DefaultedBesideUrl(RequestThird()) && DefaultedBesideUrl(RequestLast())
    ensures RequestHead()[0] == Req("audio_url", KStr)
  {
    HeadRun();
    SecondRun();
    ThirdRun();
    LastRun();
  }

  lemma HeadRun()
    ensures |RequestHead()| == 7 && FlagsDefaultFalse(RequestHead()) && DefaultedBesideUrl(RequestHead()[1..])
    ensures RequestHead()[0] == Req("audio_url", KStr)
  {
  }

  lemma SecondRun()
    ensures |RequestSecond()| == 7 && FlagsDefaultFalse(RequestSecond()) && DefaultedBesideUrl(RequestSecond())
  {
  }

  lemma ThirdRun()
    ensures |RequestThird()| == 7 && FlagsDefaultFalse(RequestThird()) && DefaultedBesideUrl(RequestThird())
  {
  }

  lemma LastRun()
    ensures |RequestLast()| == 6 && FlagsDefaultFalse(RequestLast()) && DefaultedBesideUrl(RequestLast())
  {
  }

  /** The request has 27 fields. `audio_url` is the first and the only one
      without a default; every boolean field is a flag defaulting to `False`;
      field 9 is `translation_config`, which defaults to `TranslationConfig()`
      and does not accept `None`. */
  lemma RequestFields()
    ensures var fs := TranscriptionRequest().fields;
      && |fs| == 27 && fs[0] == Req("audio_url", KStr)
      && FlagsDefaultFalse(fs) && DefaultedBesideUrl(fs[1..])
      && fs[9] == Def("translation_config", KModel("TranslationConfig"), DefaultTranslation())
  {
    RequestRuns();
    var fs := TranscriptionRequest().fields;
    assert fs[9] == RequestSecond()[2];
    forall i | 0 <= i < |fs| && fs[i].kind == KBool
      ensures fs[i].default == Some(BoolV(false)) && !fs[i].nullable
    {
      if i < 7 { assert fs[i] == RequestHead()[i]; }
      else if i < 14 { assert fs[i] == RequestSecond()[i - 7]; }
      else if i < 21 { assert fs[i] == RequestThird()[i - 14]; }
      else { assert fs[i] == RequestLast()[i - 21]; }
    }
    forall i | 0 <= i < |fs[1..]|
      ensures fs[1..][i].default.Some? && fs[1..][i].alias != "audio_url"
    {
      if i < 6 { assert fs[1..][i] == RequestHead()[1..][i]; }
      else if i < 13 { assert fs[1..][i] == RequestSecond()[i - 6]; }
      else if i < 20 { assert fs[1..][i] == RequestThird()[i - 13]; }
      else { assert fs[1..][i] == RequestLast()[i - 20]; }
    }
  }

  /** A request without `audio_url` is rejected, one with a string `audio_url`
      and nothing else is accepted (no other field is required), and a flag
      whose key is absent is `False`. */
  lemma RequestDefaults(es: seq<Entry>, url: string)
    ensures !HasKey(es, "audio_url") ==> Validate(Registry, TranscriptionRequest(), DictV(es)).Err?
    ensures Validate(Registry, TranscriptionRequest(), DictV([Entry("audio_url", StrV(url))])).Ok?
    ensures Validate(Registry, TranscriptionRequest(), DictV(es)).Ok? ==>
      var fs := Validate(Registry, TranscriptionRequest(), DictV(es)).value.fields;
      && |fs| == 27
      && forall i :: 0 <= i < 27 && TranscriptionRequest().fields[i].kind == KBool && !HasKey(es, TranscriptionRequest().fields[i].alias)
           ==> fs[i].val == BoolV(false)
  {
    RequestNeedsUrl(es);
    RequestUrlOnly(url);
    RequestFlagsDefault(es);
  }

  lemma RequestNeedsUrl(es: seq<Entry>)
    ensures !HasKey(es, "audio_url") ==> Validate(Registry, TranscriptionRequest(), DictV(es)).Err?
  {
    RequestFields();
    FieldRule(Registry, TranscriptionRequest(), es, 0);
  }

  lemma RequestUrlOnly(url: string)
    ensures Validate(Registry, TranscriptionRequest(), DictV([Entry("audio_url", StrV(url))])).Ok?
  {
    RequestFields();
    var sc := TranscriptionRequest();
    var one := [Entry("audio_url", StrV(url))];
    assert Keys(one) == ["audio_url"];
    assert FieldResult(Registry, sc.fields[0], one).Ok?;
    OnlyFirstGiven(Registry, sc, Entry("audio_url", StrV(url)));
  }

  lemma RequestFlagsDefault(es: seq<Entry>)
    ensures Validate(Registry, TranscriptionRequest(), DictV(es)).Ok? ==>
      var fs := Validate(Registry, TranscriptionRequest(), DictV(es)).value.fields;
      && |fs| == 27
      && forall i :: 0 <= i < 27 && TranscriptionRequest().fields[i].kind == KBool && !HasKey(es, TranscriptionRequest().fields[i].alias)
           ==> fs[i].val == BoolV(false)
  {
    RequestFields();
    var sc := TranscriptionRequest();
    if Validate(Registry, sc, DictV(es)).Ok? {
      FieldRule(Registry, sc, es, 0);
      forall i | 0 <= i < 27 && sc.fields[i].kind == KBool && !HasKey(es, sc.fields[i].alias)
        ensures Validate(Registry, sc, DictV(es)).value.fields[i].val == BoolV(false)
      {
        FieldRule(Registry, sc, es, i);
      }
    }
  }

  /** `translation_config` is never `None` in a validated request: absent it is
      `TranslationConfig()`, `null` is rejected, anything else must validate as
      a `TranslationConfig`. */
  lemma TranslationConfigPresent(es: seq<Entry>)
    ensures HasKey(es, "translation_config") && Get(es, "translation_config") == Some(NoneV) ==>
      Validate(Registry, TranscriptionRequest(), DictV(es)).Err?
    ensures Validate(Registry, TranscriptionRequest(), DictV(es)).Ok? ==>
      var fs := Validate(Registry, TranscriptionRequest(), DictV(es)).value.fields;
      && |fs| == 27 && fs[9].key == "translation_config" && fs[9].val.Record?
      && (!HasKey(es, "translation_config") ==> fs[9].val == DefaultTranslation())
  {
    RequestFields();
    ModelFieldAt(Registry, TranscriptionRequest(), es, 9);
  }

  /** The `pre_recorded` body: the request dumped with `None` fields left out. */
  function PreRecordedBody(request: Value): Value {
    Dump(request, true)
  }

  /** ... so the body of every `pre_recorded` call carries a
      `translation_config` object. */
  lemma TranslationConfigSent(es: seq<Entry>)
    requires Validate(Registry, TranscriptionRequest(), DictV(es)).Ok?
    ensures var body := PreRecordedBody(Validate(Registry, TranscriptionRequest(), DictV(es)).value);
      && body.DictV? && HasKey(body.entries, "translation_config")
      && Get(body.entries, "translation_config").value.DictV?
  {
    var inst := Validate(Registry, TranscriptionRequest(), DictV(es)).value;
    TranslationConfigPresent(es);
    TranslationConfigFirst(es);
    DumpRecordField(inst.fields, 9);
  }

  /** In a validated request no field before `translation_config` has its name. */
  lemma TranslationConfigFirst(es: seq<Entry>)
    requires Validate(Registry, TranscriptionRequest(), DictV(es)).Ok?
    ensures var inst := Validate(Registry, TranscriptionRequest(), DictV(es)).value;
      && inst.Record? && |inst.fields| == 27
      && forall j :: 0 <= j < 9 ==> inst.fields[j].key != "translation_config"
  {
    var inst := Validate(Registry, TranscriptionRequest(), DictV(es)).value;
    ValidateShape(Registry, TranscriptionRequest(), DictV(es));
    RequestEarlyNames();
    forall j | 0 <= j < 9 ensures inst.fields[j].key != "translation_config" {
      assert Keys(inst.fields)[j] == Names(TranscriptionRequest().fields)[j];
    }
  }

  /** No field before `translation_config` has its name. */
  lemma RequestEarlyNames()
    ensures |TranscriptionRequest().fields| == 27
    ensures forall j :: 0 <= j < 9 ==> TranscriptionRequest().fields[j].name != "translation_config"
  {
    assert |RequestHead()| == 7;
    forall j | 0 <= j < 9 ensures TranscriptionRequest().fields[j].name != "translation_config" {
      if j < 7 { assert TranscriptionRequest().fields[j] == RequestHead()[j]; }
      else { assert TranscriptionRequest().fields[j] == RequestSecond()[j - 7]; }
    }
  }

  // -------------------------------------------------------- response records

  /** An utterance needs its language, timing, confidence, channel and text;
      without `words` it has none, without `speaker` the speaker is `None`. */
  lemma UtteranceDefaults(es: seq<Entry>)
    ensures (!HasKey(es, "language") || !HasKey(es, "start") || !HasKey(es, "end") || !HasKey(es, "confidence")
             || !HasKey(es, "channel") || !HasKey(es, "text")) ==> Validate(Registry, Utterance(), DictV(es)).Err?
    ensures Validate(Registry, Utterance(), DictV(es)).Ok? ==>
      var fs := Validate(Registry, Utterance(), DictV(es)).value.fields;
      && |fs| == 8 && fs[5].key == "words" && fs[7].key == "speaker"
      && (!HasKey(es, "words") ==> fs[5].val == ListV([]))
      && (!HasKey(es, "speaker") ==> fs[7].val == NoneV)
      && (Get(es, "speaker") == Some(NoneV) ==> fs[7].val == NoneV)
  {
    UtteranceRequired(es);
    var sc := Utterance();
    FieldRule(Registry, sc, es, 5); FieldRule(Registry, sc, es, 7);
  }

  lemma UtteranceRequired(es: seq<Entry>)
    ensures (!HasKey(es, "language") || !HasKey(es, "start") || !HasKey(es, "end") || !HasKey(es, "confidence")
             || !HasKey(es, "channel") || !HasKey(es, "text")) ==> Validate(Registry, Utterance(), DictV(es)).Err?
  {
    var sc := Utterance();
    if !HasKey(es, "language") { RequiredMissing(Registry, sc, es, 0); }
    else if !HasKey(es, "start") { RequiredMissing(Registry, sc, es, 1); }
    else if !HasKey(es, "end") { RequiredMissing(Registry, sc, es, 2); }
    else if !HasKey(es, "confidence") { RequiredMissing(Registry, sc, es, 3); }
    else if !HasKey(es, "channel") { RequiredMissing(Registry, sc, es, 4); }
    else if !HasKey(es, "text") { RequiredMissing(Registry, sc, es, 6); }
  }

  /** A transcription result needs `id`, `request_id`, `version`, `status`,
      `created_at` and `kind`: without one of them it is rejected. */
  lemma ResultRequired(es: seq<Entry>)
    ensures (!HasKey(es, "id") || !HasKey(es, "request_id") || !HasKey(es, "version")
             || !HasKey(es, "status") || !HasKey(es, "created_at") || !HasKey(es, "kind"))
            ==> Validate(Registry, TranscriptionResult(), DictV(es)).Err?
  {
    if !HasKey(es, "id") || !HasKey(es, "request_id") || !HasKey(es, "version") {
      ResultRequiredHead(es);
    } else if !HasKey(es, "status") || !HasKey(es, "created_at") || !HasKey(es, "kind") {
      ResultRequiredTail(es);
    }
  }

  lemma ResultRequiredHead(es: seq<Entry>)
    requires !HasKey(es, "id") || !HasKey(es, "request_id") || !HasKey(es, "version")
    ensures Validate(Registry, TranscriptionResult(), DictV(es)).Err?
  {
    var sc := TranscriptionResult();
    if !HasKey(es, "id") { RequiredMissing(Registry, sc, es, 0); }
    else if !HasKey(es, "request_id") { RequiredMissing(Registry, sc, es, 1); }
    else { RequiredMissing(Registry, sc, es, 2); }
  }

  lemma ResultRequiredTail(es: seq<Entry>)
    requires !HasKey(es, "status") || !HasKey(es, "created_at") || !HasKey(es, "kind")
    ensures Validate(Registry, TranscriptionResult(), DictV(es)).Err?
  {
    var sc := TranscriptionResult();
    if !HasKey(es, "status") { RequiredMissing(Registry, sc, es, 3); }
    else if !HasKey(es, "created_at") { RequiredMissing(Registry, sc, es, 4); }
    else { RequiredMissing(Registry, sc, es, 5); }
  }

  /** ... and those six are the fields without a default. */
  lemma ResultFields()
    ensures var fs := TranscriptionResult().fields;
      && |fs| == 11
      && Names(fs[..6]) == ["id", "request_id", "version", "status", "created_at", "kind"]
      && forall i :: 0 <= i < 11 ==> (fs[i].default.None? <==> i < 6)
  {
  }

  /** Subtitle settings need `formats`; `style` is `"DEFAULT"` when absent and
      may be set to `None`. */
  lemma SubtitlesStyle(es: seq<Entry>)
    ensures !HasKey(es, "formats") ==> Validate(Registry, SubtitlesConfig(), DictV(es)).Err?
    ensures Validate(Registry, SubtitlesConfig(), DictV(es)).Ok? ==>
      var fs := Validate(Registry, SubtitlesConfig(), DictV(es)).value.fields;
      && |fs| == 4 && fs[3].key == "style"
      && (!HasKey(es, "style") ==> fs[3].val == StrV("DEFAULT"))
      && (Get(es, "style") == Some(NoneV) ==> fs[3].val == NoneV)
  {
    FieldRule(Registry, SubtitlesConfig(), es, 0);
    FieldRule(Registry, SubtitlesConfig(), es, 3);
  }
}
