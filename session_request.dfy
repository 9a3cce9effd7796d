/** The session configuration of the current package (gladiapy,
    src/gladiapy/v2/ws.py:115-296): the nested option dataclasses with their
    defaults and `__post_init__` hooks, their view as dataclass instances, and
    `to_json`, which converts the tree with `exclude_none=True` and then drops
    `region` (region travels as a query parameter). Floats are exact reals. */
module SessionRequest {
  import opened Wrappers
  import opened PyValue
  import opened DataclassDict

  function OptBool(o: Option<bool>): Value {
    match o case Some(b) => BoolV(b) case None => NoneV
  }

  function OptStr(o: Option<string>): Value {
    match o case Some(s) => StrV(s) case None => NoneV
  }

  function OptReal(o: Option<real>): Value {
    match o case Some(r) => RealV(r) case None => NoneV
  }

  datatype LanguageConfig = LanguageConfig(languages: seq<string>, codeSwitching: bool) {
    function ToValue(): Value {
      Record([Entry("languages", StrList(languages)), Entry("code_switching", BoolV(codeSwitching))])
    }
  }

  /** `LanguageConfig(languages, code_switching)` with its `__post_init__`:
      `None` languages become `[]`. */
  function NewLanguageConfig(languages: Option<seq<string>>, codeSwitching: bool): (c: LanguageConfig)
    ensures c.languages == languages.GetOr([]) && c.codeSwitching == codeSwitching
  {
    LanguageConfig(languages.GetOr([]), codeSwitching)
  }

  datatype PreProcessing = PreProcessing(audioEnhancer: bool, speechThreshold: real) {
    function ToValue(): Value {
      Record([Entry("audio_enhancer", BoolV(audioEnhancer)), Entry("speech_threshold", RealV(speechThreshold))])
    }
  }

  const DefaultPreProcessing := PreProcessing(false, 0.6)

  datatype Vocabulary = Vocabulary(value: string, intensity: real, pronunciations: seq<string>, language: string) {
    function ToValue(): Value {
      Record([Entry("value", StrV(value)), Entry("intensity", RealV(intensity)),
              Entry("pronunciations", StrList(pronunciations)), Entry("language", StrV(language))])
    }
  }

  /** `Vocabulary(...)` with its `__post_init__`: `None` pronunciations become `[]`. */
  function NewVocabulary(value: string, intensity: real, pronunciations: Option<seq<string>>, language: string): (v: Vocabulary)
    ensures v.pronunciations == pronunciations.GetOr([])
    ensures v.value == value && v.intensity == intensity && v.language == language
  {
    Vocabulary(value, intensity, pronunciations.GetOr([]), language)
  }

  /** `Vocabulary()`: value "", intensity 0.5, no pronunciations, language "en". */
  const DefaultVocabulary := NewVocabulary("", 0.5, None, "en")

  datatype CustomVocabularyConfig = CustomVocabularyConfig(vocabulary: Option<seq<Vocabulary>>, defaultIntensity: Option<real>) {
    function ToValue(): Value {
      Record([Entry("vocabulary", match vocabulary case Some(vs) => ListV(VocabularyValues(vs)) case None => NoneV),
              Entry("default_intensity", OptReal(defaultIntensity))])
    }
  }

  function VocabularyValues(vs: seq<Vocabulary>): (r: seq<Value>)
    ensures |r| == |vs| && forall i :: 0 <= i < |vs| ==> r[i] == vs[i].ToValue()
  {
    seq(|vs|, i requires 0 <= i < |vs| => vs[i].ToValue())
  }

  const DefaultCustomVocabularyConfig := CustomVocabularyConfig(None, Some(0.5))

  /** A spelling dictionary: each canonical spelling with its variants. */
  datatype SpellingRule = SpellingRule(spelling: string, variants: seq<string>)

  datatype CustomSpellingConfig = CustomSpellingConfig(spellingDictionary: seq<SpellingRule>) {
    function ToValue(): Value {
      Record([Entry("spelling_dictionary", DictV(SpellingEntries(spellingDictionary)))])
    }
  }

  function SpellingEntries(rules: seq<SpellingRule>): seq<Entry> {
    seq(|rules|, i requires 0 <= i < |rules| => Entry(rules[i].spelling, StrList(rules[i].variants)))
  }

  /** `CustomSpellingConfig(spelling_dictionary)` with its `__post_init__`:
      a `None` dictionary becomes `{}`. */
  function NewCustomSpellingConfig(spellingDictionary: Option<seq<SpellingRule>>): (c: CustomSpellingConfig)
    ensures c.spellingDictionary == spellingDictionary.GetOr([])
  {
    CustomSpellingConfig(spellingDictionary.GetOr([]))
  }

  datatype TranslationConfig = TranslationConfig(
    model: string, targetLanguages: seq<string>, matchOriginalUtterances: Option<bool>,
    lipsync: Option<bool>, contextAdaptation: Option<bool>, context: Option<string>, informal: Option<bool>)
  {
    function ToValue(): Value {
      Record([Entry("model", StrV(model)), Entry("target_languages", StrList(targetLanguages)),
              Entry("match_original_utterances", OptBool(matchOriginalUtterances)),
              Entry("lipsync", OptBool(lipsync)), Entry("context_adaptation", OptBool(contextAdaptation)),
              Entry("context", OptStr(context)), Entry("informal", OptBool(informal))])
    }
  }

  /** `TranslationConfig(...)` with its `__post_init__`: `None` target
      languages become `[]`. */
  function NewTranslationConfig(
    model: string, targetLanguages: Option<seq<string>>, matchOriginalUtterances: Option<bool>,
    lipsync: Option<bool>, contextAdaptation: Option<bool>, context: Option<string>, informal: Option<bool>): (c: TranslationConfig)
    ensures c.targetLanguages == targetLanguages.GetOr([])
    ensures c.model == model && c.context == context && c.informal == informal
  {
    TranslationConfig(model, targetLanguages.GetOr([]), matchOriginalUtterances, lipsync, contextAdaptation, context, informal)
  }

  /** `TranslationConfig()`: model "base", no targets, match and lipsync on,
      context adaptation and informal off, no context. */
  const DefaultTranslationConfig := NewTranslationConfig("base", None, Some(true), Some(true), Some(false), None, Some(false))

  datatype RealtimeProcessing = RealtimeProcessing(
    customVocabulary: bool, customVocabularyConfig: Option<CustomVocabularyConfig>,
    customSpelling: bool, customSpellingConfig: Option<CustomSpellingConfig>,
    translation: bool, translationConfig: Option<TranslationConfig>,
    namedEntityRecognition: Option<bool>, sentimentAnalysis: Option<bool>)
  {
    function ToValue(): Value {
      Record([Entry("custom_vocabulary", BoolV(customVocabulary)),
              Entry("custom_vocabulary_config", OptCustomVocabularyConfig(customVocabularyConfig)),
              Entry("custom_spelling", BoolV(customSpelling)),
              Entry("custom_spelling_config", OptCustomSpellingConfig(customSpellingConfig)),
              Entry("translation", BoolV(translation)),
              Entry("translation_config", OptTranslationConfig(translationConfig)),
              Entry("named_entity_recognition", OptBool(namedEntityRecognition)),
              Entry("sentiment_analysis", OptBool(sentimentAnalysis))])
    }
  }

  const DefaultRealtimeProcessing := RealtimeProcessing(false, None, false, None, false, None, Some(false), Some(false))

  datatype SummarizationConfig = SummarizationConfig(summaryType: string) {
    function ToValue(): Value { Record([Entry("type", StrV(summaryType))]) }
  }

  const DefaultSummarizationConfig := SummarizationConfig("general")

  datatype PostProcessing = PostProcessing(
    summarization: Option<bool>, summarizationConfig: Option<SummarizationConfig>, chapterization: Option<bool>)
  {
    function ToValue(): Value {
      Record([Entry("summarization", OptBool(summarization)),
              Entry("summarization_config", OptSummarizationConfig(summarizationConfig)),
              Entry("chapterization", OptBool(chapterization))])
    }
  }

  const DefaultPostProcessing := PostProcessing(Some(false), None, Some(false))

  /** The nine `receive_*` switches shared by the message and callback
      configurations, in declaration order. */
  datatype Receive = Receive(
    partialTranscripts: Option<bool>, finalTranscripts: Option<bool>, speechEvents: Option<bool>,
    preProcessingEvents: Option<bool>, realtimeProcessingEvents: Option<bool>, postProcessingEvents: Option<bool>,
    acknowledgments: Option<bool>, errors: Option<bool>, lifecycleEvents: Option<bool>)
  {
    function Entries(): seq<Entry> {
      [Entry("receive_partial_transcripts", OptBool(partialTranscripts)),
       Entry("receive_final_transcripts", OptBool(finalTranscripts)),
       Entry("receive_speech_events", OptBool(speechEvents)),
       Entry("receive_pre_processing_events", OptBool(preProcessingEvents)),
       Entry("receive_realtime_processing_events", OptBool(realtimeProcessingEvents)),
       Entry("receive_post_processing_events", OptBool(postProcessingEvents)),
       Entry("receive_acknowledgments", OptBool(acknowledgments)),
       Entry("receive_errors", OptBool(errors)),
       Entry("receive_lifecycle_events", OptBool(lifecycleEvents))]
    }
  }

  datatype MessagesConfig = MessagesConfig(receive: Receive) {
    function ToValue(): Value { Record(receive.Entries()) }
  }

  /** `MessagesConfig()`: everything on except partial transcripts. */
  const DefaultMessagesConfig := MessagesConfig(Receive(Some(false), Some(true), Some(true), Some(true), Some(true), Some(true), Some(true), Some(true), Some(true)))

  datatype CallbackConfig = CallbackConfig(url: Option<string>, receive: Receive) {
    function ToValue(): Value { Record([Entry("url", OptStr(url))] + receive.Entries()) }
  }

  /** `CallbackConfig()`: no url; final transcripts, processing events and
      lifecycle events on; partials, speech events, acknowledgments and errors off. */
  const DefaultCallbackConfig := CallbackConfig(None, Receive(Some(false), Some(true), Some(false), Some(true), Some(true), Some(true), Some(false), Some(false), Some(true)))

  // Optional nested dataclass fields: the instance, or `None`.

  function OptCustomVocabularyConfig(o: Option<CustomVocabularyConfig>): Value {
    match o case Some(c) => c.ToValue() case None => NoneV
  }

  function OptCustomSpellingConfig(o: Option<CustomSpellingConfig>): Value {
    match o case Some(c) => c.ToValue() case None => NoneV
  }

  function OptTranslationConfig(o: Option<TranslationConfig>): Value {
    match o case Some(c) => c.ToValue() case None => NoneV
  }

  function OptSummarizationConfig(o: Option<SummarizationConfig>): Value {
    match o case Some(c) => c.ToValue() case None => NoneV
  }

  function OptLanguageConfig(o: Option<LanguageConfig>): Value {
    match o case Some(c) => c.ToValue() case None => NoneV
  }

  function OptPreProcessing(o: Option<PreProcessing>): Value {
    match o case Some(c) => c.ToValue() case None => NoneV
  }

  function OptRealtimeProcessing(o: Option<RealtimeProcessing>): Value {
    match o case Some(c) => c.ToValue() case None => NoneV
  }

  function OptPostProcessing(o: Option<PostProcessing>): Value {
    match o case Some(c) => c.ToValue() case None => NoneV
  }

  function OptMessagesConfig(o: Option<MessagesConfig>): Value {
    match o case Some(c) => c.ToValue() case None => NoneV
  }

  function OptCallbackConfig(o: Option<CallbackConfig>): Value {
    match o case Some(c) => c.ToValue() case None => NoneV
  }

  /** The field names of `InitializeSessionRequest`, in declaration order. */
  const RequestFieldNames: seq<string> := [
    "region", "encoding", "bit_depth", "sample_rate", "channels", "custom_metadata",
    "model", "endpointing", "maximum_duration_without_endpointing", "language_config",
    "pre_processing", "realtime_processing", "post_processing", "messages_config",
    "callback", "callback_config"]

  datatype InitializeSessionRequest = InitializeSessionRequest(
    region: string, encoding: string, bitDepth: int, sampleRate: int, channels: int,
    customMetadata: Option<string>, model: string, endpointing: real, maximumDurationWithoutEndpointing: int,
    languageConfig: Option<LanguageConfig>, preProcessing: Option<PreProcessing>,
    realtimeProcessing: Option<RealtimeProcessing>, postProcessing: Option<PostProcessing>,
    messagesConfig: Option<MessagesConfig>, callback: Option<bool>, callbackConfig: Option<CallbackConfig>)
  {
    /** The value of field number i, in declaration order. */
    function FieldAt(i: nat): Value
      requires i < |RequestFieldNames|
    {
      match i
      case 0 => StrV(region)
      case 1 => StrV(encoding)
      case 2 => IntV(bitDepth)
      case 3 => IntV(sampleRate)
      case 4 => IntV(channels)
      case 5 => OptStr(customMetadata)
      case 6 => StrV(model)
      case 7 => RealV(endpointing)
      case 8 => IntV(maximumDurationWithoutEndpointing)
      case 9 => OptLanguageConfig(languageConfig)
      case 10 => OptPreProcessing(preProcessing)
      case 11 => OptRealtimeProcessing(realtimeProcessing)
      case 12 => OptPostProcessing(postProcessing)
      case 13 => OptMessagesConfig(messagesConfig)
      case 14 => OptBool(callback)
      case _ => OptCallbackConfig(callbackConfig)
    }

    /** The request as a dataclass instance: its sixteen fields in declaration order. */
    function Fields(): (fs: seq<Entry>)
      ensures |fs| == |RequestFieldNames|
      ensures forall i :: 0 <= i < |fs| ==> fs[i] == Entry(RequestFieldNames[i], FieldAt(i))
    {
      seq(|RequestFieldNames|, i requires 0 <= i < |RequestFieldNames| => Entry(RequestFieldNames[i], FieldAt(i)))
    }

    function ToValue(): Value { Record(Fields()) }
  }

  /** `InitializeSessionRequest()` */
  const DefaultRequest := InitializeSessionRequest(
    "us-west", "wav/pcm", 16, 16000, 1, None, "solaria-1", 0.05, 5,
    None, None, None, None, None, Some(false), None)

  /** `to_json()`: the `None`-excluding conversion with `region` popped. */
  function ToJson(req: InitializeSessionRequest): seq<Entry> {
    Remove(Convert(req.ToValue(), true).entries, "region")
  }

  /** `to_json()` as the source runs it: convert, then pop `region` in place. */
  method RequestToJson(req: InitializeSessionRequest) returns (result: seq<Entry>)
    ensures result == ToJson(req)
  {
    var converted := DataclassToDict(req.ToValue(), true);
    result := converted.entries;
    result := Remove(result, "region");
  }

  lemma RequestFieldNamesUnique(req: InitializeSessionRequest)
    ensures UniqueKeys(req.Fields())
  {
    assert forall i, j :: 0 <= i < j < |RequestFieldNames| ==> RequestFieldNames[i] != RequestFieldNames[j];
  }

  /** The `None`-excluding conversion of a dataclass with distinct field
      names, with one key popped afterwards. */
  lemma ConvertThenPop(fs: seq<Entry>, drop: string)
    requires UniqueKeys(fs)
    ensures Convert(Record(fs), true).DictV?
    ensures !HasKey(Remove(Convert(Record(fs), true).entries, drop), drop)
    ensures forall k :: HasKey(Remove(Convert(Record(fs), true).entries, drop), k) <==>
      k != drop && exists i :: 0 <= i < |fs| && fs[i].key == k && Kept(fs[i].val, true)
    ensures forall i :: 0 <= i < |fs| && fs[i].key != drop ==>
      Get(Remove(Convert(Record(fs), true).entries, drop), fs[i].key) == FieldValue(fs[i].val, true)
    ensures Keys(Remove(Convert(Record(fs), true).entries, drop)) == FilterOut(KeptNames(fs, true), drop)
  {
    RecordToDict(fs, true);
    var es := Convert(Record(fs), true).entries;
    RemoveKeys(es, drop);
    forall k ensures HasKey(Remove(es, drop), k) <==> k != drop && HasKey(es, k) {
      if k != drop {
        assert Get(Remove(es, drop), k) == Get(es, k);
      }
    }
  }

  /** One field of a request body built by `ConvertThenPop`. */
  lemma PoppedField(fs: seq<Entry>, drop: string, i: nat)
    requires UniqueKeys(fs) && i < |fs| && fs[i].key != drop
    ensures Get(Remove(Convert(Record(fs), true).entries, drop), fs[i].key) == FieldValue(fs[i].val, true)
  {
    ConvertThenPop(fs, drop);
  }

  /** The body of the session-creation request: `region` never appears; any
      other key appears exactly when the request has a field of that name
      that is kept (not `None`, not an empty list), and maps to that field's
      converted value. */
  lemma ToJsonShape(req: InitializeSessionRequest)
    ensures !HasKey(ToJson(req), "region")
    ensures forall k :: HasKey(ToJson(req), k) <==>
      k != "region" && exists i :: 0 <= i < |req.Fields()| && req.Fields()[i].key == k && Kept(req.Fields()[i].val, true)
    ensures forall i :: 0 <= i < |req.Fields()| && req.Fields()[i].key != "region" ==>
      Get(ToJson(req), req.Fields()[i].key) == FieldValue(req.Fields()[i].val, true)
  {
    RequestFieldNamesUnique(req);
    ConvertThenPop(req.Fields(), "region");
  }

  /** One top-level field of the body, named by its position. */
  lemma ToJsonField(req: InitializeSessionRequest, i: nat, k: string, v: Value)
    requires 1 <= i < |req.Fields()| && req.Fields()[i] == Entry(k, v)
    ensures Get(ToJson(req), k) == FieldValue(v, true)
  {
    RequestFieldNamesUnique(req);
    PoppedField(req.Fields(), "region", i);
  }

  /** `callback=False`, the default, is sent as `false`: excluding `None`
      does not drop falsy values. */
  lemma CallbackFalseIsSent(req: InitializeSessionRequest)
    requires req.callback == Some(false)
    ensures Get(ToJson(req), "callback") == Some(BoolV(false))
  {
    ToJsonField(req, 14, "callback", OptBool(req.callback));
  }

  /** Every field other than `region` that is `None` is absent from the body,
      and every field that is neither `None` nor an empty list is present. */
  lemma ToJsonUnsetFieldsAbsent(req: InitializeSessionRequest)
    ensures forall i :: 1 <= i < |RequestFieldNames| && req.FieldAt(i) == NoneV ==>
      !HasKey(ToJson(req), RequestFieldNames[i])
    ensures forall i :: 1 <= i < |RequestFieldNames| && Kept(req.FieldAt(i), true) ==>
      HasKey(ToJson(req), RequestFieldNames[i])
  {
    ToJsonShape(req);
    RequestFieldNamesUnique(req);
    var fs := req.Fields();
    forall i | 1 <= i < |RequestFieldNames| && req.FieldAt(i) == NoneV
      ensures !HasKey(ToJson(req), RequestFieldNames[i])
    {
      forall j | 0 <= j < |fs| && fs[j].key == RequestFieldNames[i]
        ensures !Kept(fs[j].val, true)
      {
        assert fs[i].key == fs[j].key;
      }
    }
    forall i | 1 <= i < |RequestFieldNames| && Kept(req.FieldAt(i), true)
      ensures HasKey(ToJson(req), RequestFieldNames[i])
    {
      assert fs[i].key == RequestFieldNames[i] && Kept(fs[i].val, true);
    }
  }

  /** The keys the default request sends. */
  function DefaultBodyKeys(): seq<string> {
    ["encoding", "bit_depth", "sample_rate", "channels", "model", "endpointing",
     "maximum_duration_without_endpointing", "callback"]
  }

  /** The default request's fields, four at a time. */
  function DefaultAudio(): seq<Entry> {
    [Entry("region", StrV("us-west")), Entry("encoding", StrV("wav/pcm")),
     Entry("bit_depth", IntV(16)), Entry("sample_rate", IntV(16000))]
  }

  function DefaultModel(): seq<Entry> {
    [Entry("channels", IntV(1)), Entry("custom_metadata", NoneV),
     Entry("model", StrV("solaria-1")), Entry("endpointing", RealV(0.05))]
  }

  function DefaultStages(): seq<Entry> {
    [Entry("maximum_duration_without_endpointing", IntV(5)), Entry("language_config", NoneV),
     Entry("pre_processing", NoneV), Entry("realtime_processing", NoneV)]
  }

  function DefaultOutputs(): seq<Entry> {
    [Entry("post_processing", NoneV), Entry("messages_config", NoneV),
     Entry("callback", BoolV(false)), Entry("callback_config", NoneV)]
  }

  /** The default request as a dataclass instance. */
  lemma DefaultFields()
    ensures DefaultRequest.Fields() == DefaultAudio() + DefaultModel() + DefaultStages() + DefaultOutputs()
  {
  }

  /** The kept names of four fields. */
  lemma KeptNamesOfFour(fs: seq<Entry>)
    requires |fs| == 4
    ensures KeptNames(fs, true) ==
      (if Kept(fs[0].val, true) then [fs[0].key] else []) + (if Kept(fs[1].val, true) then [fs[1].key] else [])
      + (if Kept(fs[2].val, true) then [fs[2].key] else []) + (if Kept(fs[3].val, true) then [fs[3].key] else [])
  {
    assert fs[..0] == [];
    KeptNamesStep(fs, 0);
    KeptNamesStep(fs, 1);
    KeptNamesStep(fs, 2);
    KeptNamesStep(fs, 3);
    assert fs[..4] == fs;
  }

  lemma KeptAudio()
    ensures KeptNames(DefaultAudio(), true) == ["region"] + DefaultBodyKeys()[..3]
  {
    KeptNamesOfFour(DefaultAudio());
  }

  lemma KeptModel()
    ensures KeptNames(DefaultModel(), true) == DefaultBodyKeys()[3..6]
  {
    KeptNamesOfFour(DefaultModel());
  }

  lemma KeptStages()
    ensures KeptNames(DefaultStages(), true) == DefaultBodyKeys()[6..7]
  {
    KeptNamesOfFour(DefaultStages());
  }

  lemma KeptOutputs()
    ensures KeptNames(DefaultOutputs(), true) == DefaultBodyKeys()[7..]
  {
    KeptNamesOfFour(DefaultOutputs());
  }

  /** The kept fields of the default request: the unset optional fields drop out. */
  lemma DefaultKeptNames()
    ensures KeptNames(DefaultRequest.Fields(), true) == ["region"] + DefaultBodyKeys()
  {
    DefaultFields();
    var a, m, st, o := DefaultAudio(), DefaultModel(), DefaultStages(), DefaultOutputs();
    KeptAudio();
    KeptModel();
    KeptStages();
    KeptOutputs();
    KeptNamesAppend(a, m, true);
    KeptNamesAppend(a + m, st, true);
    KeptNamesAppend(a + m + st, o, true);
    var ks := DefaultBodyKeys();
    assert ks == ks[..3] + ks[3..6] + ks[6..7] + ks[7..];
  }

  /** The keys of a body are the kept field names without `region`. */
  lemma ToJsonKeys(req: InitializeSessionRequest)
    ensures Keys(ToJson(req)) == FilterOut(KeptNames(req.Fields(), true), "region")
  {
    RequestFieldNamesUnique(req);
    ConvertThenPop(req.Fields(), "region");
  }

  /** The default request's body: the seven audio and model keys and
      `callback`, in declaration order, and nothing else. */
  lemma DefaultRequestKeys()
    ensures Keys(ToJson(DefaultRequest)) == DefaultBodyKeys()
  {
    ToJsonKeys(DefaultRequest);
    DefaultKeptNames();
    FilterOutAbsent(DefaultBodyKeys(), "region");
    assert (["region"] + DefaultBodyKeys())[1..] == DefaultBodyKeys();
  }

  /** Inside a nested configuration the same rules apply: a language
      configuration with no languages is sent without a `languages` key, and
      `code_switching` is always sent, `false` included. */
  lemma EmptyLanguagesOmitted(c: LanguageConfig)
    ensures !HasKey(Convert(c.ToValue(), true).entries, "languages") <==> c.languages == []
    ensures Get(Convert(c.ToValue(), true).entries, "code_switching") == Some(BoolV(c.codeSwitching))
  {
    var fs := c.ToValue().fields;
    FieldRules(fs, true, 0);
    FieldRules(fs, true, 1);
    if c.languages != [] {
      assert StrList(c.languages) != ListV([]) by {
        assert |StrItems(StrList(c.languages))| == |c.languages|;
      }
      RecordToDict(fs, true);
      assert fs[0].key == "languages" && Kept(fs[0].val, true);
    }
  }

  /** An empty spelling dictionary (what `None` becomes) is sent as `{}`, not
      dropped: only lists and `None` are omitted. */
  lemma EmptySpellingDictionarySent()
    ensures Convert(NewCustomSpellingConfig(None).ToValue(), true) == DictV([Entry("spelling_dictionary", DictV([]))])
  {
    var fs := NewCustomSpellingConfig(None).ToValue().fields;
    assert |SpellingEntries([])| == 0;
    assert fs == [Entry("spelling_dictionary", DictV([]))];
    assert fs[..0] == [];
  }
}
