/** The sixteen message-type tags of the realtime protocol (the `events`
    classes of both packages and of the event models), the nineteen callback
    slots of a streaming session, and the routing table that pairs each
    inbound tag with the slot it is delivered to. */
module Events {
  import opened Wrappers

  const AudioChunk: string := "audio_chunk"
  const StopRecording: string := "stop_recording"
  const SpeechStart: string := "speech_start"
  const SpeechEnd: string := "speech_end"
  const Transcript: string := "transcript"
  const Translation: string := "translation"
  const NamedEntityRecognition: string := "named_entity_recognition"
  const SentimentAnalysis: string := "sentiment_analysis"
  const PostTranscription: string := "post_transcript"
  const FinalTranscription: string := "post_final_transcript"
  const Chapterization: string := "post_chapterization"
  const Summarization: string := "post_summarization"
  const StartSession: string := "start_session"
  const EndSession: string := "end_session"
  const StartRecording: string := "start_recording"
  const EndRecording: string := "end_recording"

  /** The tags in declaration order. */
  const Tags: seq<string> := [
    AudioChunk, StopRecording, SpeechStart, SpeechEnd, Transcript, Translation,
    NamedEntityRecognition, SentimentAnalysis, PostTranscription, FinalTranscription,
    Chapterization, Summarization, StartSession, EndSession, StartRecording, EndRecording]

  /** No two event kinds share a tag, so a tag names at most one kind. */
  lemma TagsDistinct()
    ensures |Tags| == 16
    ensures forall i, j :: 0 <= i < j < |Tags| ==> Tags[i] != Tags[j]
  {
  }

  /** The callback slots of a session: three for the connection and sixteen
      for events. */
  datatype Slot =
    | OnConnected | OnDisconnected | OnError
    | OnSpeechStart | OnSpeechEnd | OnTranscript | OnTranslation | OnNer | OnSentiment
    | OnPostTranscript | OnFinalTranscript | OnChapterization | OnSummarization
    | OnAudioAck | OnStopAck | OnStartSession | OnEndSession | OnStartRecording | OnEndRecording

  datatype Route = Route(tag: string, slot: Slot)

  /** The tests of the inbound dispatcher, in the order it makes them. */
  const Routes: seq<Route> := [
    Route(SpeechStart, OnSpeechStart), Route(SpeechEnd, OnSpeechEnd),
    Route(Transcript, OnTranscript), Route(Translation, OnTranslation),
    Route(NamedEntityRecognition, OnNer), Route(SentimentAnalysis, OnSentiment),
    Route(PostTranscription, OnPostTranscript), Route(FinalTranscription, OnFinalTranscript),
    Route(Chapterization, OnChapterization), Route(Summarization, OnSummarization),
    Route(AudioChunk, OnAudioAck), Route(StopRecording, OnStopAck),
    Route(StartSession, OnStartSession), Route(EndSession, OnEndSession),
    Route(StartRecording, OnStartRecording), Route(EndRecording, OnEndRecording)]

  /** The slot an event kind is delivered to, by tag: its independent
      definition, one case per tag. */
  function SlotForTag(tag: string): (s: Option<Slot>)
  {
    if tag == SpeechStart then Some(OnSpeechStart)
    else if tag == SpeechEnd then Some(OnSpeechEnd)
    else if tag == Transcript then Some(OnTranscript)
    else if tag == Translation then Some(OnTranslation)
    else if tag == NamedEntityRecognition then Some(OnNer)
    else if tag == SentimentAnalysis then Some(OnSentiment)
    else if tag == PostTranscription then Some(OnPostTranscript)
    else if tag == FinalTranscription then Some(OnFinalTranscript)
    else if tag == Chapterization then Some(OnChapterization)
    else if tag == Summarization then Some(OnSummarization)
    else if tag == AudioChunk then Some(OnAudioAck)
    else if tag == StopRecording then Some(OnStopAck)
    else if tag == StartSession then Some(OnStartSession)
    else if tag == EndSession then Some(OnEndSession)
    else if tag == StartRecording then Some(OnStartRecording)
    else if tag == EndRecording then Some(OnEndRecording)
    else None
  }

  /** The routing table has one entry per tag, each agreeing with `SlotForTag`,
      and never routes to one of the three connection slots. */
  lemma RoutesAgree()
    ensures |Routes| == |Tags|
    ensures forall i :: 0 <= i < |Routes| ==> Routes[i].tag in Tags
    ensures forall i :: 0 <= i < |Routes| ==> SlotForTag(Routes[i].tag) == Some(Routes[i].slot)
    ensures forall i :: 0 <= i < |Routes| ==> Routes[i].slot !in {OnConnected, OnDisconnected, OnError}
  {
    forall i | 0 <= i < |Routes| ensures SlotForTag(Routes[i].tag) == Some(Routes[i].slot) {
      RouteAgrees(i);
    }
    RoutesTargets();
  }

  lemma RoutesTargets()
    ensures |Routes| == |Tags|
    ensures forall i :: 0 <= i < |Routes| ==> Routes[i].tag in Tags
    ensures forall i :: 0 <= i < |Routes| ==> Routes[i].slot !in {OnConnected, OnDisconnected, OnError}
  {
  }

  lemma RouteAgrees(i: nat)
    requires i < |Routes|
    ensures SlotForTag(Routes[i].tag) == Some(Routes[i].slot)
  {
    if i < 2 { RouteSpeechPair(i); }
    else if i < 4 { RouteResultPair(i); }
    else if i < 6 { RouteEnrichmentPair(i); }
    else if i < 8 { RoutePostPair(i); }
    else if i < 10 { RouteSummaryPair(i); }
    else if i < 12 { RouteAckPair(i); }
    else if i < 14 { RouteSessionPair(i); }
    else { RouteRecordingPair(i); }
  }

  lemma RouteSpeechPair(i: nat)
    requires 0 <= i < 2
    ensures SlotForTag(Routes[i].tag) == Some(Routes[i].slot)
  {
    if i == 0 { assert Routes[i] == Routes[0]; }
    else { assert Routes[i] == Routes[1]; }
  }

  lemma RouteResultPair(i: nat)
    requires 2 <= i < 4
    ensures SlotForTag(Routes[i].tag) == Some(Routes[i].slot)
  {
    if i == 2 { assert Routes[i] == Routes[2]; }
    else { assert Routes[i] == Routes[3]; }
  }

  lemma RouteEnrichmentPair(i: nat)
    requires 4 <= i < 6
    ensures SlotForTag(Routes[i].tag) == Some(Routes[i].slot)
  {
    if i == 4 { assert Routes[i] == Routes[4]; }
    else { assert Routes[i] == Routes[5]; }
  }

  lemma RoutePostPair(i: nat)
    requires 6 <= i < 8
    ensures SlotForTag(Routes[i].tag) == Some(Routes[i].slot)
  {
    if i == 6 { assert Routes[i] == Routes[6]; }
    else { assert Routes[i] == Routes[7]; }
  }

  lemma RouteSummaryPair(i: nat)
    requires 8 <= i < 10
    ensures SlotForTag(Routes[i].tag) == Some(Routes[i].slot)
  {
    if i == 8 { assert Routes[i] == Routes[8]; }
    else { assert Routes[i] == Routes[9]; }
  }

  lemma RouteAckPair(i: nat)
    requires 10 <= i < 12
    ensures SlotForTag(Routes[i].tag) == Some(Routes[i].slot)
  {
    if i == 10 { assert Routes[i] == Routes[10]; }
    else { assert Routes[i] == Routes[11]; }
  }

  lemma RouteSessionPair(i: nat)
    requires 12 <= i < 14
    ensures SlotForTag(Routes[i].tag) == Some(Routes[i].slot)
  {
    if i == 12 { assert Routes[i] == Routes[12]; }
    else { assert Routes[i] == Routes[13]; }
  }

  lemma RouteRecordingPair(i: nat)
    requires 14 <= i < 16
    ensures SlotForTag(Routes[i].tag) == Some(Routes[i].slot)
  {
    if i == 14 { assert Routes[i] == Routes[14]; }
    else { assert Routes[i] == Routes[15]; }
  }

  /** No slot is the target of two entries. */
  lemma RouteSlotsDistinct()
    ensures forall i, j :: 0 <= i < j < |Routes| ==> Routes[i].slot != Routes[j].slot
  {
  }

  /** No tag is compared twice, so the order of the tests does not matter. */
  lemma {:induction false} RouteTagsDistinct()
    ensures forall i, j :: 0 <= i < j < |Routes| ==> Routes[i].tag != Routes[j].tag
  {
    RoutesAgree();
    RouteSlotsDistinct();
    forall i, j | 0 <= i < j < |Routes| ensures Routes[i].tag != Routes[j].tag {
      if Routes[i].tag == Routes[j].tag {
        assert false;
      }
    }
  }

  /** Every tag is compared by some entry of the routing table. */
  lemma TagRouted(j: nat)
    requires j < |Tags|
    ensures exists i :: 0 <= i < |Routes| && Routes[i].tag == Tags[j]
  {
    if j == 0 { assert Routes[10].tag == Tags[j]; }
    else if j == 1 { assert Routes[11].tag == Tags[j]; }
    else if j == 2 { assert Routes[0].tag == Tags[j]; }
    else if j == 3 { assert Routes[1].tag == Tags[j]; }
    else if j == 4 { assert Routes[2].tag == Tags[j]; }
    else if j == 5 { assert Routes[3].tag == Tags[j]; }
    else if j == 6 { assert Routes[4].tag == Tags[j]; }
    else if j == 7 { assert Routes[5].tag == Tags[j]; }
    else if j == 8 { assert Routes[6].tag == Tags[j]; }
    else if j == 9 { assert Routes[7].tag == Tags[j]; }
    else if j == 10 { assert Routes[8].tag == Tags[j]; }
    else if j == 11 { assert Routes[9].tag == Tags[j]; }
    else if j == 12 { assert Routes[12].tag == Tags[j]; }
    else if j == 13 { assert Routes[13].tag == Tags[j]; }
    else if j == 14 { assert Routes[14].tag == Tags[j]; }
    else { assert Routes[15].tag == Tags[j]; }
  }
}
