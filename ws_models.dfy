/** The realtime event records (src/gladiapy/v2/ws_models.py) as schemas of
    the generic validator, the twelve event classes behind the sixteen tags,
    and the presence rules of their fields. `Utterance`, `Metadata`,
    `Subtitle`, `Word` and `TranscriptionFile` come from a module that is not
    part of this model; fields of those types accept any value. */
module WsModels {
  import opened Wrappers
  import opened PyValue
  import opened Models
  import Events

  const Header: seq<FieldSpec> := [Req("session_id", KStr), Req("created_at", KStr), Req("type", KStr)]

  const InitializeSessionResponse := Schema("InitializeSessionResponse", [Req("id", KStr), Req("url", KStr)])

  const ErrorSchema := Schema("Error", [Opt("status_code", KInt), Opt("exception", KStr), Opt("message", KStr)])
  const ErrorField := Opt("error", KModel("Error"))

  /** The three fields every post-processing result starts with. */
  const ResultHeader: seq<FieldSpec> := [Req("success", KBool), Req("is_empty", KBool), Req("exec_time", KFloat), ErrorField]

  const SpeechEventData := Schema("SpeechEventData", [Req("time", KFloat), Req("channel", KInt)])
  const SpeechEvent := Schema("SpeechEvent", Header + [Req("data", KModel("SpeechEventData"))])

  const TranscriptData := Schema("TranscriptData", [Req("id", KStr), Req("is_final", KBool), Req("utterance", KAny)])
  const Transcript := Schema("Transcript", Header + [Req("data", KModel("TranscriptData"))])

  const TranslationData := Schema("TranslationData", [
    Req("utterance_id", KStr), Req("utterance", KAny), Req("original_language", KStr),
    Req("target_language", KStr), Req("translated_utterance", KAny)])
  const Translation := Schema("Translation", Header + [ErrorField, Opt("data", KModel("TranslationData"))])

  const NamedEntityRecognitionResultItem := Schema("NamedEntityRecognitionResultItem", [
    Req("entity_type", KStr), Req("text", KStr), Req("start", KFloat), Req("end", KFloat)])
  const NamedEntityRecognitionData := Schema("NamedEntityRecognitionData", [
    Req("utterance_id", KStr), Req("utterance", KAny),
    EmptyList("results", KModel("NamedEntityRecognitionResultItem"))])
  const NamedEntityRecognition := Schema("NamedEntityRecognition",
    Header + [ErrorField, Opt("data", KModel("NamedEntityRecognitionData"))])

  const Sentence := Schema("Sentence", ResultHeader + [Opt("results", KList(KStr))])
  const GenericResult := Schema("GenericResult", ResultHeader + [EmptyList("results", KStr)])
  const NamedEntityRecognitionResultFinal := Schema("NamedEntityRecognitionResultFinal", ResultHeader + [Opt("entity", KStr)])
  const ResultPair := Schema("ResultPair", [Opt("prompt", KStr), Opt("response", KStr)])
  const AudioToLLMResultItem := Schema("AudioToLLMResultItem", ResultHeader + [Opt("results", KList(KModel("ResultPair")))])
  const AudioToLLMResult := Schema("AudioToLLMResult", ResultHeader + [Opt("results", KList(KModel("AudioToLLMResultItem")))])
  const DisplayMode := Schema("DisplayMode", ResultHeader + [Opt("results", KList(KStr))])
  const ChapterizationResult := Schema("ChapterizationResult", ResultHeader + [Opt("results", KStr)])
  const DiarizationResultItem := Schema("DiarizationResultItem", [
    Req("start", KFloat), Req("end", KFloat), Req("confidence", KFloat), Req("channel", KInt),
    Opt("speaker", KInt), EmptyList("words", KAny), Req("text", KStr), Req("language", KStr)])
  const DiarizationResult := Schema("DiarizationResult", ResultHeader + [Opt("results", KList(KModel("DiarizationResultItem")))])

  /** The optional post-processing results shared by `Transcription` and
      `LiveTranscriptionResultData`. */
  const PostProcessingResults: seq<FieldSpec> := [
    Opt("summarization", KModel("GenericResult")), Opt("moderation", KModel("GenericResult")),
    Opt("named_entity_recognition", KModel("NamedEntityRecognitionResultFinal")),
    Opt("name_consistency", KModel("GenericResult")), Opt("custom_spelling", KModel("GenericResult")),
    Opt("speaker_reidentification", KModel("GenericResult")),
    Opt("structured_data_extraction", KModel("GenericResult")),
    Opt("sentiment_analysis", KModel("GenericResult")), Opt("audio_to_llm", KModel("AudioToLLMResult")),
    Opt("display_mode", KModel("DisplayMode")), Opt("chapters", KModel("ChapterizationResult")),
    Opt("diarization_enhanced", KModel("DiarizationResult")), Opt("diarization", KModel("DiarizationResult"))]

  const TranscriptionSchema := Schema("Transcription", [
    Req("full_transcript", KStr), EmptyList("languages", KStr), EmptyList("subtitles", KAny),
    EmptyList("utterances", KAny)] + PostProcessingResults)

  const PostTranscriptData := Schema("PostTranscriptData", [
    Req("full_transcript", KStr), EmptyList("languages", KStr), EmptyList("utterances", KAny),
    EmptyList("sentences", KModel("Sentence")), Opt("results", KList(KStr)), Opt("subtitles", KList(KAny))])
  const PostTranscript := Schema("PostTranscript", Header + [ErrorField, Req("data", KModel("PostTranscriptData"))])

  const TranslationResultEntry := Schema("TranslationResultEntry", [
    ErrorField, Req("full_transcript", KStr), EmptyList("languages", KStr), EmptyList("utterances", KAny),
    Opt("sentences", KList(KModel("Sentence"))), Opt("subtitles", KList(KAny))])
  const TranslationResultForLive := Schema("TranslationResultForLive",
    ResultHeader + [Opt("results", KList(KModel("TranslationResultEntry")))])

  const FinalTranscriptData := Schema("FinalTranscriptData", [
    Req("metadata", KAny), Opt("transcription", KModel("Transcription")),
    Opt("translation", KModel("TranslationResultForLive"))])
  const FinalTranscript := Schema("FinalTranscript", Header + [ErrorField, Req("data", KModel("FinalTranscriptData"))])

  const SummarizationData := Schema("SummarizationData", [Req("results", KStr)])
  const Summarization := Schema("Summarization", Header + [ErrorField, Opt("data", KModel("SummarizationData"))])

  const SentimentAnalysisResultItem := Schema("SentimentAnalysisResultItem", [
    Req("sentiment", KStr), Req("emotion", KStr), Req("text", KStr),
    Req("start", KFloat), Req("end", KFloat), Req("channel", KFloat)])
  const SentimentAnalysisData := Schema("SentimentAnalysisData", [
    Req("utterance_id", KStr), Req("utterance", KAny), EmptyList("results", KModel("SentimentAnalysisResultItem"))])
  const SentimentAnalysis := Schema("SentimentAnalysis", Header + [Req("data", KModel("SentimentAnalysisData"))])

  const Chapter := Schema("Chapter", [
    Req("headline", KStr), Req("gist", KStr), EmptyList("keywords", KStr), Req("start", KFloat),
    Req("end", KFloat), EmptyList("sentences", KModel("Sentence")), Req("text", KStr),
    Req("abstractive_summary", KStr), Req("extractive_summary", KStr), Req("summary", KStr)])
  const ChapterizationData := Schema("ChapterizationData", [EmptyList("results", KModel("Chapter"))])
  const Chapterization := Schema("Chapterization", Header + [ErrorField, Opt("data", KModel("ChapterizationData"))])

  const LifecycleEvent := Schema("LifecycleEvent", Header)

  const AudioChunkAcknowledgmentData := Schema("AudioChunkAcknowledgmentData", [
    EmptyList("byte_range", KFloat), EmptyList("time_range", KFloat)])
  const AudioChunkAcknowledgment := Schema("AudioChunkAcknowledgment",
    Header + [Req("acknowledged", KBool), ErrorField, Opt("data", KModel("AudioChunkAcknowledgmentData"))])

  const StopRecordingAcknowledgmentData := Schema("StopRecordingAcknowledgmentData", [
    Req("recording_duration", KFloat), Req("recording_left_to_process", KFloat)])
  const StopRecordingAcknowledgment := Schema("StopRecordingAcknowledgment",
    Header + [Req("acknowledged", KBool), ErrorField, Opt("data", KModel("StopRecordingAcknowledgmentData"))])

  const LiveTranscriptionResultData := Schema("LiveTranscriptionResultData", [
    Req("metadata", KAny), EmptyList("messages", KStr), Opt("transcription", KModel("Transcription")),
    Opt("translation", KModel("TranslationResultForLive"))] + PostProcessingResults)
  const LiveTranscriptionResult := Schema("LiveTranscriptionResult", [
    Req("id", KStr), Req("request_id", KStr), Req("version", KInt), Req("status", KStr),
    Req("created_at", KStr), Opt("completed_at", KStr), Req("kind", KStr), Opt("custom_metadata", KStr),
    Opt("error_code", KInt), Req("file", KAny), Req("request_params", KDict),
    Req("result", KModel("LiveTranscriptionResultData"))])

  /** The model classes of this module, by name. */
  function Registry(name: string): Schema {
    if name == "InitializeSessionResponse" then InitializeSessionResponse
    else if name == "Error" then ErrorSchema
    else if name == "SpeechEventData" then SpeechEventData
    else if name == "SpeechEvent" then SpeechEvent
    else if name == "TranscriptData" then TranscriptData
    else if name == "Transcript" then Transcript
    else if name == "TranslationData" then TranslationData
    else if name == "Translation" then Translation
    else if name == "NamedEntityRecognitionResultItem" then NamedEntityRecognitionResultItem
    else if name == "NamedEntityRecognitionData" then NamedEntityRecognitionData
    else if name == "NamedEntityRecognition" then NamedEntityRecognition
    else if name == "Sentence" then Sentence
    else if name == "GenericResult" then GenericResult
    else if name == "NamedEntityRecognitionResultFinal" then NamedEntityRecognitionResultFinal
    else if name == "ResultPair" then ResultPair
    else if name == "AudioToLLMResultItem" then AudioToLLMResultItem
    else if name == "AudioToLLMResult" then AudioToLLMResult
    else if name == "DisplayMode" then DisplayMode
    else if name == "ChapterizationResult" then ChapterizationResult
    else if name == "DiarizationResultItem" then DiarizationResultItem
    else if name == "DiarizationResult" then DiarizationResult
    else if name == "Transcription" then TranscriptionSchema
    else if name == "PostTranscriptData" then PostTranscriptData
    else if name == "PostTranscript" then PostTranscript
    else if name == "TranslationResultEntry" then TranslationResultEntry
    else if name == "TranslationResultForLive" then TranslationResultForLive
    else if name == "FinalTranscriptData" then FinalTranscriptData
    else if name == "FinalTranscript" then FinalTranscript
    else if name == "SummarizationData" then SummarizationData
    else if name == "Summarization" then Summarization
    else if name == "SentimentAnalysisResultItem" then SentimentAnalysisResultItem
    else if name == "SentimentAnalysisData" then SentimentAnalysisData
    else if name == "SentimentAnalysis" then SentimentAnalysis
    else if name == "Chapter" then Chapter
    else if name == "ChapterizationData" then ChapterizationData
    else if name == "Chapterization" then Chapterization
    else if name == "LifecycleEvent" then LifecycleEvent
    else if name == "AudioChunkAcknowledgmentData" then AudioChunkAcknowledgmentData
    else if name == "AudioChunkAcknowledgment" then AudioChunkAcknowledgment
    else if name == "StopRecordingAcknowledgmentData" then StopRecordingAcknowledgmentData
    else if name == "StopRecordingAcknowledgment" then StopRecordingAcknowledgment
    else if name == "LiveTranscriptionResultData" then LiveTranscriptionResultData
    else if name == "LiveTranscriptionResult" then LiveTranscriptionResult
    else Schema(name, [])
  }

  // ----------------------------------------------------------- event classes

  /** The twelve event classes; speech start and end share one class, and the
      four session and recording markers share `LifecycleEvent`. */
  datatype EventKind =
    | SpeechKind | TranscriptKind | TranslationKind | NerKind | SentimentKind
    | PostTranscriptKind | FinalTranscriptKind | ChapterizationKind | SummarizationKind
    | AudioAckKind | StopAckKind | LifecycleKind

  function SchemaOf(k: EventKind): Schema {
    match k
    case SpeechKind => SpeechEvent
    case TranscriptKind => Transcript
    case TranslationKind => Translation
    case NerKind => NamedEntityRecognition
    case SentimentKind => SentimentAnalysis
    case PostTranscriptKind => PostTranscript
    case FinalTranscriptKind => FinalTranscript
    case ChapterizationKind => Chapterization
    case SummarizationKind => Summarization
    case AudioAckKind => AudioChunkAcknowledgment
    case StopAckKind => StopRecordingAcknowledgment
    case LifecycleKind => LifecycleEvent
  }

  /** The class a message of each tag is an instance of. */
  function KindForTag(tag: string): Option<EventKind> {
    if tag == Events.SpeechStart || tag == Events.SpeechEnd then Some(SpeechKind)
    else if tag == Events.Transcript then Some(TranscriptKind)
    else if tag == Events.Translation then Some(TranslationKind)
    else if tag == Events.NamedEntityRecognition then Some(NerKind)
    else if tag == Events.SentimentAnalysis then Some(SentimentKind)
    else if tag == Events.PostTranscription then Some(PostTranscriptKind)
    else if tag == Events.FinalTranscription then Some(FinalTranscriptKind)
    else if tag == Events.Chapterization then Some(ChapterizationKind)
    else if tag == Events.Summarization then Some(SummarizationKind)
    else if tag == Events.AudioChunk then Some(AudioAckKind)
    else if tag == Events.StopRecording then Some(StopAckKind)
    else if tag == Events.StartSession || tag == Events.EndSession
         || tag == Events.StartRecording || tag == Events.EndRecording then Some(LifecycleKind)
    else None
  }

  /** Every one of the sixteen tags names a class, and every class is named by
      some tag. */
  lemma {:induction false} TagsHaveKinds(j: nat)
    requires j < |Events.Tags|
    ensures KindForTag(Events.Tags[j]).Some?
  {
    Events.TagsDistinct();
    var t := Events.Tags[j];
    if j < 8 {
      assert t in Events.Tags[..8];
    } else {
      assert t in Events.Tags[8..];
    }
  }

  /** The speech tags share one class and the four markers share another. */
  lemma SharedKinds()
    ensures KindForTag(Events.SpeechStart) == KindForTag(Events.SpeechEnd) == Some(SpeechKind)
    ensures KindForTag(Events.StartSession) == KindForTag(Events.EndSession) == Some(LifecycleKind)
    ensures KindForTag(Events.StartRecording) == KindForTag(Events.EndRecording) == Some(LifecycleKind)
  {
  }

  /** Every event class begins with the three required header strings; the
      lifecycle class has nothing else. */
  lemma EventHeaders(k: EventKind)
    ensures |SchemaOf(k).fields| >= 3 && SchemaOf(k).fields[..3] == Header
    ensures SchemaOf(LifecycleKind).fields == Header
  {
    if k.SpeechKind? || k.TranscriptKind? || k.TranslationKind? || k.NerKind? || k.SentimentKind? || k.PostTranscriptKind? {
      LeadingHeaders(k);
    } else {
      TrailingHeaders(k);
    }
  }

  lemma LeadingHeaders(k: EventKind)
    requires k.SpeechKind? || k.TranscriptKind? || k.TranslationKind? || k.NerKind? || k.SentimentKind? || k.PostTranscriptKind?
    ensures |SchemaOf(k).fields| >= 3 && SchemaOf(k).fields[..3] == Header
  {
  }

  lemma TrailingHeaders(k: EventKind)
    requires !(k.SpeechKind? || k.TranscriptKind? || k.TranslationKind? || k.NerKind? || k.SentimentKind? || k.PostTranscriptKind?)
    ensures |SchemaOf(k).fields| >= 3 && SchemaOf(k).fields[..3] == Header
    ensures SchemaOf(LifecycleKind).fields == Header
  {
  }

  /** A message missing `session_id`, `created_at` or `type` is rejected, and
      an accepted one holds the three strings it was given. */
  lemma HeaderRequired(k: EventKind, es: seq<Entry>)
    ensures (!HasKey(es, "session_id") || !HasKey(es, "created_at") || !HasKey(es, "type"))
              ==> Validate(Registry, SchemaOf(k), DictV(es)).Err?
    ensures Validate(Registry, SchemaOf(k), DictV(es)).Ok? ==>
      var fs := Validate(Registry, SchemaOf(k), DictV(es)).value.fields;
      && |fs| >= 3
      && fs[0] == Entry("session_id", Get(es, "session_id").value) && fs[0].val.StrV?
      && fs[1] == Entry("created_at", Get(es, "created_at").value) && fs[1].val.StrV?
      && fs[2] == Entry("type", Get(es, "type").value) && fs[2].val.StrV?
  {
    EventHeaders(k);
    HeaderRule(SchemaOf(k), es);
  }

  /** The header rule for any schema that starts with `Header`. */
  lemma HeaderRule(sc: Schema, es: seq<Entry>)
    requires |sc.fields| >= 3 && sc.fields[..3] == Header
    ensures (!HasKey(es, "session_id") || !HasKey(es, "created_at") || !HasKey(es, "type"))
              ==> Validate(Registry, sc, DictV(es)).Err?
    ensures Validate(Registry, sc, DictV(es)).Ok? ==>
      var fs := Validate(Registry, sc, DictV(es)).value.fields;
      && |fs| >= 3
      && fs[0] == Entry("session_id", Get(es, "session_id").value) && fs[0].val.StrV?
      && fs[1] == Entry("created_at", Get(es, "created_at").value) && fs[1].val.StrV?
      && fs[2] == Entry("type", Get(es, "type").value) && fs[2].val.StrV?
  {
    assert sc.fields[0] == sc.fields[..3][0] && sc.fields[1] == sc.fields[..3][1]
        && sc.fields[2] == sc.fields[..3][2];
    RequiredString(sc, es, 0, "session_id");
    RequiredString(sc, es, 1, "created_at");
    RequiredString(sc, es, 2, "type");
  }

  /** A required string field: rejected when absent, a string when accepted. */
  lemma RequiredString(sc: Schema, es: seq<Entry>, i: nat, name: string)
    requires i < |sc.fields| && sc.fields[i] == Req(name, KStr)
    ensures !HasKey(es, name) ==> Validate(Registry, sc, DictV(es)).Err?
    ensures Validate(Registry, sc, DictV(es)).Ok? ==>
      var fs := Validate(Registry, sc, DictV(es)).value.fields;
      && |fs| == |sc.fields| && HasKey(es, name)
      && fs[i] == Entry(name, Get(es, name).value) && fs[i].val.StrV?
  {
    FieldRule(Registry, sc, es, i);
  }

  /** The classes whose `data` is required. */
  predicate DataRequired(k: EventKind) {
    k in {SpeechKind, TranscriptKind, PostTranscriptKind, FinalTranscriptKind, SentimentKind}
  }

  /** Where each class keeps `data`. */
  function DataIndex(k: EventKind): (i: nat)
    requires k != LifecycleKind
  {
    match k
    case SpeechKind => 3
    case TranscriptKind => 3
    case SentimentKind => 3
    case TranslationKind => 4
    case NerKind => 4
    case PostTranscriptKind => 4
    case FinalTranscriptKind => 4
    case ChapterizationKind => 4
    case SummarizationKind => 4
    case AudioAckKind => 5
    case StopAckKind => 5
  }

  /** `DataIndex` points at the `data` field, which is required exactly for
      the classes of `DataRequired` and otherwise defaults to `None`. */
  lemma DataField(k: EventKind)
    requires k != LifecycleKind
    ensures DataIndex(k) < |SchemaOf(k).fields|
    ensures SchemaOf(k).fields[DataIndex(k)].name == "data"
    ensures SchemaOf(k).fields[DataIndex(k)].alias == "data"
    ensures SchemaOf(k).fields[DataIndex(k)].default == if DataRequired(k) then None else Some(NoneV)
  {
    if k.SpeechKind? || k.TranscriptKind? || k.SentimentKind? || k.TranslationKind? || k.NerKind? {
      DataFieldEarly(k);
    } else {
      DataFieldLate(k);
    }
  }

  lemma DataFieldEarly(k: EventKind)
    requires k.SpeechKind? || k.TranscriptKind? || k.SentimentKind? || k.TranslationKind? || k.NerKind?
    ensures DataFieldAt(SchemaOf(k), DataIndex(k), DataRequired(k))
  {
    if k.SpeechKind? { assert DataFieldAt(SpeechEvent, 3, true); }
    else if k.TranscriptKind? { assert DataFieldAt(Transcript, 3, true); }
    else if k.SentimentKind? { assert DataFieldAt(SentimentAnalysis, 3, true); }
    else if k.TranslationKind? { assert DataFieldAt(Translation, 4, false); }
    else { assert DataFieldAt(NamedEntityRecognition, 4, false); }
  }

  lemma DataFieldLate(k: EventKind)
    requires k != LifecycleKind
    requires !(k.SpeechKind? || k.TranscriptKind? || k.SentimentKind? || k.TranslationKind? || k.NerKind?)
    ensures DataFieldAt(SchemaOf(k), DataIndex(k), DataRequired(k))
  {
    if k.PostTranscriptKind? { assert DataFieldAt(PostTranscript, 4, true); }
    else if k.FinalTranscriptKind? { assert DataFieldAt(FinalTranscript, 4, true); }
    else if k.ChapterizationKind? { assert DataFieldAt(Chapterization, 4, false); }
    else if k.SummarizationKind? { assert DataFieldAt(Summarization, 4, false); }
    else if k.AudioAckKind? { assert DataFieldAt(AudioChunkAcknowledgment, 5, false); }
    else { assert DataFieldAt(StopRecordingAcknowledgment, 5, false); }
  }

  predicate DataFieldAt(sc: Schema, i: nat, required: bool) {
    && i < |sc.fields| && sc.fields[i].name == "data" && sc.fields[i].alias == "data"
    && sc.fields[i].default == if required then None else Some(NoneV)
  }

  /** For the five classes that require `data`, a message without it is
      rejected; for the other six that have one, a missing `data` leaves it
      `None`. */
  lemma DataPresence(k: EventKind, es: seq<Entry>)
    requires k != LifecycleKind && !HasKey(es, "data")
    ensures DataRequired(k) ==> Validate(Registry, SchemaOf(k), DictV(es)).Err?
    ensures !DataRequired(k) && Validate(Registry, SchemaOf(k), DictV(es)).Ok? ==>
      var fs := Validate(Registry, SchemaOf(k), DictV(es)).value.fields;
      |fs| == |SchemaOf(k).fields| && fs[DataIndex(k)] == Entry("data", NoneV)
  {
    DataField(k);
    FieldRule(Registry, SchemaOf(k), es, DataIndex(k));
  }

  /** The classes with an optional `error`, and where they keep it. */
  function ErrorIndex(k: EventKind): (i: Option<nat>)
    ensures i.Some? ==> i.value < |SchemaOf(k).fields| && SchemaOf(k).fields[i.value] == ErrorField
  {
    match k
    case TranslationKind | NerKind | PostTranscriptKind | FinalTranscriptKind
       | ChapterizationKind | SummarizationKind => Some(3)
    case AudioAckKind | StopAckKind => Some(4)
    case _ => None
  }

  /** An `error` key is never required: when absent it is `None`. Speech,
      transcript, sentiment and lifecycle events have no `error` field. */
  lemma ErrorOptional(k: EventKind, es: seq<Entry>)
    requires !HasKey(es, "error")
    ensures ErrorIndex(k).None? <==> k in {SpeechKind, TranscriptKind, SentimentKind, LifecycleKind}
    ensures ErrorIndex(k).Some? && Validate(Registry, SchemaOf(k), DictV(es)).Ok? ==>
      var fs := Validate(Registry, SchemaOf(k), DictV(es)).value.fields;
      |fs| == |SchemaOf(k).fields| && fs[ErrorIndex(k).value] == Entry("error", NoneV)
  {
    if ErrorIndex(k).Some? {
      FieldRule(Registry, SchemaOf(k), es, ErrorIndex(k).value);
    }
  }

  /** Both acknowledgments require the boolean `acknowledged`. */
  lemma AcknowledgedRequired(k: EventKind, es: seq<Entry>)
    requires k == AudioAckKind || k == StopAckKind
    ensures SchemaOf(k).fields[3] == Req("acknowledged", KBool)
    ensures !HasKey(es, "acknowledged") ==> Validate(Registry, SchemaOf(k), DictV(es)).Err?
    ensures Validate(Registry, SchemaOf(k), DictV(es)).Ok? ==>
      var fs := Validate(Registry, SchemaOf(k), DictV(es)).value.fields;
      && |fs| == |SchemaOf(k).fields| && HasKey(es, "acknowledged")
      && fs[3] == Entry("acknowledged", Get(es, "acknowledged").value) && fs[3].val.BoolV?
  {
    var sc := SchemaOf(k);
    assert sc.fields[3] == Req("acknowledged", KBool);
    RequiredBoolField(Registry, sc, es, 3);
  }

  /** The payload schemas with list fields that default to empty. */
  const ListDefaultSchemas: seq<Schema> := [
    NamedEntityRecognitionData, GenericResult, DiarizationResultItem, TranscriptionSchema,
    PostTranscriptData, SentimentAnalysisData, Chapter, ChapterizationData,
    AudioChunkAcknowledgmentData, TranslationResultEntry, LiveTranscriptionResultData]

  /** Every list field of sc that does not accept `None` defaults to `[]`. */
  predicate ListsDefaultEmpty(sc: Schema) {
    forall i :: 0 <= i < |sc.fields| && sc.fields[i].kind.KList? && !sc.fields[i].nullable ==>
      sc.fields[i].default == Some(ListV([]))
  }

  lemma ListDefaultsHold(n: nat)
    requires n < |ListDefaultSchemas|
    ensures ListsDefaultEmpty(ListDefaultSchemas[n])
  {
    if n < 5 { ListDefaultsLow(n); } else { ListDefaultsHigh(n); }
  }

  lemma ListDefaultsLow(n: nat)
    requires n < 5
    ensures ListsDefaultEmpty(ListDefaultSchemas[n])
  {
    if n < 3 { ListDefaultsFirst(n); }
    else if n == 3 { assert ListsDefaultEmpty(TranscriptionSchema); }
    else { assert ListsDefaultEmpty(PostTranscriptData); }
  }

  lemma ListDefaultsFirst(n: nat)
    requires n < 3
    ensures ListsDefaultEmpty(ListDefaultSchemas[n])
  {
    if n == 0 { assert ListsDefaultEmpty(NamedEntityRecognitionData); }
    else if n == 1 { assert ListsDefaultEmpty(GenericResult); }
    else { assert ListsDefaultEmpty(DiarizationResultItem); }
  }

  lemma ListDefaultsHigh(n: nat)
    requires 5 <= n < |ListDefaultSchemas|
    ensures ListsDefaultEmpty(ListDefaultSchemas[n])
  {
    if n == 5 { assert ListsDefaultEmpty(SentimentAnalysisData); }
    else if n == 6 { assert ListsDefaultEmpty(Chapter); }
    else if n == 7 { assert ListsDefaultEmpty(ChapterizationData); }
    else if n == 8 { assert ListsDefaultEmpty(AudioChunkAcknowledgmentData); }
    else if n == 9 { assert ListsDefaultEmpty(TranslationResultEntry); }
    else { assert ListsDefaultEmpty(LiveTranscriptionResultData); }
  }

  /** In these schemas every list field that does not accept `None` defaults
      to the empty list, so a missing key yields `[]`. */
  lemma ListFieldsDefaultEmpty(n: nat, es: seq<Entry>, i: nat)
    requires n < |ListDefaultSchemas| && i < |ListDefaultSchemas[n].fields|
    requires ListDefaultSchemas[n].fields[i].kind.KList? && !ListDefaultSchemas[n].fields[i].nullable
    requires !HasKey(es, ListDefaultSchemas[n].fields[i].alias)
    ensures ListDefaultSchemas[n].fields[i].default == Some(ListV([]))
    ensures Validate(Registry, ListDefaultSchemas[n], DictV(es)).Ok? ==>
      var fs := Validate(Registry, ListDefaultSchemas[n], DictV(es)).value.fields;
      |fs| == |ListDefaultSchemas[n].fields| && fs[i].val == ListV([])
  {
    ListDefaultsHold(n);
    FieldRule(Registry, ListDefaultSchemas[n], es, i);
  }

  /** `TranscriptData` requires its three fields; `FinalTranscriptData`
      requires `metadata` and leaves the other two `None` when absent. */
  lemma PayloadRequirements(es: seq<Entry>)
    ensures (!HasKey(es, "id") || !HasKey(es, "is_final") || !HasKey(es, "utterance"))
              ==> Validate(Registry, TranscriptData, DictV(es)).Err?
    ensures !HasKey(es, "metadata") ==> Validate(Registry, FinalTranscriptData, DictV(es)).Err?
    ensures Validate(Registry, FinalTranscriptData, DictV(es)).Ok? ==>
      var fs := Validate(Registry, FinalTranscriptData, DictV(es)).value.fields;
      && |fs| == 3
      && (!HasKey(es, "transcription") ==> fs[1] == Entry("transcription", NoneV))
      && (!HasKey(es, "translation") ==> fs[2] == Entry("translation", NoneV))
  {
    FieldRule(Registry, TranscriptData, es, 0);
    FieldRule(Registry, TranscriptData, es, 1);
    FieldRule(Registry, TranscriptData, es, 2);
    FieldRule(Registry, FinalTranscriptData, es, 0);
    FieldRule(Registry, FinalTranscriptData, es, 1);
    FieldRule(Registry, FinalTranscriptData, es, 2);
  }
}
