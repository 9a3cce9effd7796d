/** The speaker analysis of the diarization example: utterances grouped by
    speaker, the per-speaker breakdown in speaker order, the chronological
    timeline, and the count of speaker transitions along it. Durations,
    sample lines and printing are not part of the model. */
module Diarization {
  import opened Wrappers

  /** The parts of a transcript utterance the analysis reads; `speaker` is
      `None` when the API did not identify one. */
  datatype Utt = Utt(start: real, end: real, speaker: Option<int>, text: string)

  /** The speaker ids seen, `None` included when it occurs. */
  function SpeakersOf(utts: seq<Utt>): set<Option<int>> {
    set u | u in utts :: u.speaker
  }

  /** The utterances of one speaker, in input order. */
  function OfSpeaker(utts: seq<Utt>, k: Option<int>): seq<Utt>
    decreases |utts|
  {
    if utts == [] then []
    else
      var last := utts[|utts| - 1];
      OfSpeaker(utts[..|utts| - 1], k) + (if last.speaker == k then [last] else [])
  }

  /** A group holds every utterance of its speaker, as often as it occurs,
      and nothing else. */
  lemma {:induction false} OfSpeakerProps(utts: seq<Utt>, k: Option<int>)
    ensures forall u :: multiset(OfSpeaker(utts, k))[u] == if u.speaker == k then multiset(utts)[u] else 0
    decreases |utts|
  {
    if utts != [] {
      var init, last := utts[..|utts| - 1], utts[|utts| - 1];
      assert utts == init + [last];
      OfSpeakerProps(init, k);
    }
  }

  /** A speaker's group is empty exactly when the speaker does not occur. */
  lemma {:induction false} OfSpeakerEmpty(utts: seq<Utt>, k: Option<int>)
    ensures OfSpeaker(utts, k) == [] <==> k !in SpeakersOf(utts)
    decreases |utts|
  {
    if utts != [] {
      var init, last := utts[..|utts| - 1], utts[|utts| - 1];
      SpeakersOfSnoc(init, last);
      assert utts == init + [last];
      OfSpeakerEmpty(init, k);
    }
  }

  lemma SpeakersOfSnoc(utts: seq<Utt>, u: Utt)
    ensures SpeakersOf(utts + [u]) == SpeakersOf(utts) + {u.speaker}
  {
    assert forall v :: v in utts + [u] <==> v in utts || v == u;
  }

  /** The grouping loop: `speakers.add(speaker_id)` and
      `speaker_utterances[speaker_id].append(utterance)` for each utterance. */
  method GroupBySpeaker(utts: seq<Utt>) returns (speakers: set<Option<int>>, groups: map<Option<int>, seq<Utt>>)
    ensures speakers == SpeakersOf(utts)
    ensures groups.Keys == speakers
    ensures forall k :: k in groups ==> groups[k] == OfSpeaker(utts, k)
  {
    speakers := {};
    groups := map[];
    for i := 0 to |utts|
      invariant speakers == SpeakersOf(utts[..i])
      invariant groups.Keys == speakers
      invariant forall k :: k in groups ==> groups[k] == OfSpeaker(utts[..i], k)
    {
      var u := utts[i];
      var speakerId := u.speaker;
      assert utts[..i + 1] == utts[..i] + [u];
      assert utts[..i + 1][..i] == utts[..i];
      SpeakersOfSnoc(utts[..i], u);
      speakers := speakers + {speakerId};
      if speakerId !in groups {
        OfSpeakerEmpty(utts[..i], speakerId);
        groups := groups[speakerId := []];
      }
      groups := groups[speakerId := groups[speakerId] + [u]];
    }
    assert utts[..|utts|] == utts;
  }

  /** The sizes of the groups of `ks`, added up. */
  function GroupTotal(utts: seq<Utt>, ks: seq<Option<int>>): nat {
    if ks == [] then 0 else |OfSpeaker(utts, ks[0])| + GroupTotal(utts, ks[1..])
  }

  lemma {:induction false} GroupTotalSnoc(utts: seq<Utt>, u: Utt, ks: seq<Option<int>>)
    ensures GroupTotal(utts + [u], ks) == GroupTotal(utts, ks) + multiset(ks)[u.speaker]
  {
    if ks != [] {
      GroupTotalSnoc(utts, u, ks[1..]);
      assert (utts + [u])[..|utts|] == utts;
      assert ks == [ks[0]] + ks[1..];
    }
  }

  /** Listing each speaker once, the group sizes add up to the number of
      utterances. */
  lemma {:induction false} GroupSizes(utts: seq<Utt>, ks: seq<Option<int>>)
    requires forall u :: u in utts ==> multiset(ks)[u.speaker] == 1
    ensures GroupTotal(utts, ks) == |utts|
    decreases |utts|
  {
    if utts == [] {
      GroupTotalEmpty(ks);
    } else {
      var init, last := utts[..|utts| - 1], utts[|utts| - 1];
      assert utts == init + [last];
      GroupSizes(init, ks);
      GroupTotalSnoc(init, last, ks);
    }
  }

  lemma {:induction false} GroupTotalEmpty(ks: seq<Option<int>>)
    ensures GroupTotal([], ks) == 0
  {
    if ks != [] {
      GroupTotalEmpty(ks[1..]);
    }
  }

  predicate StrictlyIncreasing(r: seq<int>) {
    forall i, j :: 0 <= i < j < |r| ==> r[i] < r[j]
  }

  /** `x` put in its place in an increasing list, unless already there. */
  function InsertId(x: int, r: seq<int>): (r': seq<int>)
    ensures forall y :: y in r' <==> y == x || y in r
    ensures StrictlyIncreasing(r) ==> StrictlyIncreasing(r')
  {
    if r == [] then [x]
    else if x < r[0] then
      assert StrictlyIncreasing(r) ==> forall y :: y in r ==> x < y;
      ConsIncreasing(x, r);
      [x] + r
    else if x == r[0] then r
    else
      var rest := InsertId(x, r[1..]);
      assert StrictlyIncreasing(r) ==> StrictlyIncreasing(r[1..]);
      assert StrictlyIncreasing(r) ==> forall y :: y in rest ==> r[0] < y;
      ConsIncreasing(r[0], rest);
      [r[0]] + rest
  }

  lemma ConsIncreasing(a: int, r: seq<int>)
    ensures StrictlyIncreasing(r) && (forall y :: y in r ==> a < y) ==> StrictlyIncreasing([a] + r)
  {
    if StrictlyIncreasing(r) && (forall y :: y in r ==> a < y) {
      forall i, j | 0 <= i < j < |[a] + r| ensures ([a] + r)[i] < ([a] + r)[j] {
        assert ([a] + r)[j] == r[j - 1] && r[j - 1] in r;
        if i > 0 { assert ([a] + r)[i] == r[i - 1]; }
      }
    }
  }

  /** The identified speaker ids of the utterances, each once, in increasing
      order. Such a list is determined by its elements, so this is `sorted`
      of the set of ids. */
  function SortedIds(utts: seq<Utt>): (r: seq<int>)
    ensures forall x :: x in r <==> Some(x) in SpeakersOf(utts)
    ensures StrictlyIncreasing(r)
  {
    if utts == [] then []
    else
      var rest := SortedIds(utts[1..]);
      assert forall k :: k in SpeakersOf(utts) <==> k == utts[0].speaker || k in SpeakersOf(utts[1..]) by {
        assert forall u :: u in utts <==> u == utts[0] || u in utts[1..];
      }
      if utts[0].speaker.Some? then InsertId(utts[0].speaker.value, rest) else rest
  }

  function Somes(ids: seq<int>): (r: seq<Option<int>>)
    ensures |r| == |ids| && forall i :: 0 <= i < |ids| ==> r[i] == Some(ids[i])
  {
    seq(|ids|, i requires 0 <= i < |ids| => Some(ids[i]))
  }

  /** `sorted(speakers, key=lambda x: (x is None, x))` for the speakers of
      the utterances: the identified ones in increasing order, then `None`
      when it is there. */
  function Breakdown(utts: seq<Utt>): seq<Option<int>> {
    Somes(SortedIds(utts)) + (if None in SpeakersOf(utts) then [None] else [])
  }

  /** The breakdown lists exactly the speakers. */
  lemma BreakdownMembers(utts: seq<Utt>)
    ensures forall k :: k in Breakdown(utts) <==> k in SpeakersOf(utts)
  {
    var ids := SortedIds(utts);
    var b := Breakdown(utts);
    forall k | k in SpeakersOf(utts) ensures k in b {
      if k.Some? {
        assert k.value in ids;
        var i :| 0 <= i < |ids| && ids[i] == k.value;
        assert b[i] == k;
      } else {
        assert b[|b| - 1] == None;
      }
    }
    forall k | k in b ensures k in SpeakersOf(utts) {
      var i :| 0 <= i < |b| && b[i] == k;
      if i < |ids| {
        assert ids[i] in ids;
      }
    }
  }

  /** Identified speakers come in increasing order and before `None`, so
      each speaker is listed once. */
  lemma BreakdownOrder(utts: seq<Utt>)
    ensures forall i, j :: 0 <= i < j < |Breakdown(utts)| && Breakdown(utts)[j].Some? ==>
      Breakdown(utts)[i].Some? && Breakdown(utts)[i].value < Breakdown(utts)[j].value
    ensures None in SpeakersOf(utts) ==> Breakdown(utts)[|Breakdown(utts)| - 1] == None
    ensures forall i, j :: 0 <= i < j < |Breakdown(utts)| ==> Breakdown(utts)[i] != Breakdown(utts)[j]
  {
    var ids := SortedIds(utts);
    var b := Breakdown(utts);
    assert forall j :: 0 <= j < |b| && b[j].Some? ==> j < |ids|;
  }

  /** Each speaker occurs once in the breakdown. */
  lemma BreakdownOnce(utts: seq<Utt>)
    ensures forall k :: k in SpeakersOf(utts) ==> multiset(Breakdown(utts))[k] == 1
  {
    BreakdownMembers(utts);
    BreakdownOrder(utts);
    forall k | k in SpeakersOf(utts) ensures multiset(Breakdown(utts))[k] == 1 {
      DistinctCount(Breakdown(utts), k);
    }
  }

  /** In a sequence without repeats an element occurs once. */
  lemma {:induction false} DistinctCount(s: seq<Option<int>>, k: Option<int>)
    requires k in s && forall i, j :: 0 <= i < j < |s| ==> s[i] != s[j]
    ensures multiset(s)[k] == 1
    decreases |s|
  {
    assert s == [s[0]] + s[1..];
    if s[0] == k {
      assert k !in s[1..];
    } else {
      DistinctCount(s[1..], k);
    }
  }

  /** Stable insertion by start: `x` goes before the first utterance that
      does not start earlier. */
  function InsertByStart(x: Utt, t: seq<Utt>): seq<Utt> {
    if t == [] then [x]
    else if x.start <= t[0].start then [x] + t
    else [t[0]] + InsertByStart(x, t[1..])
  }

  /** `sorted(utterances, key=lambda x: x.start)`: a stable sort. */
  function Timeline(utts: seq<Utt>): seq<Utt> {
    if utts == [] then [] else InsertByStart(utts[0], Timeline(utts[1..]))
  }

  predicate ByStart(s: seq<Utt>) {
    forall i, j :: 0 <= i < j < |s| ==> s[i].start <= s[j].start
  }

  /** The utterances starting at `v`, in order. */
  function StartingAt(s: seq<Utt>, v: real): seq<Utt> {
    if s == [] then [] else (if s[0].start == v then [s[0]] else []) + StartingAt(s[1..], v)
  }

  lemma {:induction false} InsertByStartPerm(x: Utt, t: seq<Utt>)
    ensures multiset(InsertByStart(x, t)) == multiset(t) + multiset{x}
  {
    if t != [] && x.start > t[0].start {
      InsertByStartPerm(x, t[1..]);
      assert t == [t[0]] + t[1..];
    }
  }

  lemma {:induction false} InsertByStartSorted(x: Utt, t: seq<Utt>)
    requires ByStart(t)
    ensures ByStart(InsertByStart(x, t))
  {
    if t != [] && x.start > t[0].start {
      var r := InsertByStart(x, t[1..]);
      InsertByStartSorted(x, t[1..]);
      InsertByStartPerm(x, t[1..]);
      forall y | y in r ensures t[0].start <= y.start {
        assert y in multiset(r);
        if y != x {
          var j :| 0 <= j < |t[1..]| && t[1..][j] == y;
          assert t[1 + j] == y;
        }
      }
      assert InsertByStart(x, t) == [t[0]] + r;
    }
  }

  lemma StartingAtCons(a: Utt, r: seq<Utt>, v: real)
    ensures StartingAt([a] + r, v) == (if a.start == v then [a] else []) + StartingAt(r, v)
  {
    assert ([a] + r)[1..] == r;
  }

  /** Inserting `x` keeps the utterances of each start in their order, with
      `x` ahead of those starting when it does. */
  lemma {:induction false} InsertByStartStable(x: Utt, t: seq<Utt>, v: real)
    ensures StartingAt(InsertByStart(x, t), v) == (if x.start == v then [x] else []) + StartingAt(t, v)
  {
    if t == [] {
      StartingAtCons(x, [], v);
    } else if x.start <= t[0].start {
      StartingAtCons(x, t, v);
    } else {
      InsertByStartStable(x, t[1..], v);
      StartingAtCons(t[0], InsertByStart(x, t[1..]), v);
      StartingAtCons(t[0], t[1..], v);
      assert t == [t[0]] + t[1..];
    }
  }

  /** The timeline is a permutation of the utterances in non-decreasing start
      order, and utterances with the same start keep their input order. */
  lemma {:induction false} TimelineProps(utts: seq<Utt>)
    ensures multiset(Timeline(utts)) == multiset(utts)
    ensures ByStart(Timeline(utts))
    ensures forall v :: StartingAt(Timeline(utts), v) == StartingAt(utts, v)
  {
    if utts != [] {
      TimelineProps(utts[1..]);
      InsertByStartPerm(utts[0], Timeline(utts[1..]));
      InsertByStartSorted(utts[0], Timeline(utts[1..]));
      assert utts == [utts[0]] + utts[1..];
      forall v ensures StartingAt(Timeline(utts), v) == StartingAt(utts, v) {
        InsertByStartStable(utts[0], Timeline(utts[1..]), v);
      }
    }
  }

  /** Whether moving from `prev` to `cur` counts as a transition: only when
      the previous speaker is known and differs. */
  predicate IsTransition(prev: Utt, cur: Utt) {
    prev.speaker.Some? && cur.speaker != prev.speaker
  }

  /** The transitions along a sequence of utterances: the consecutive pairs
      that count. */
  function Transitions(s: seq<Utt>): nat
    decreases |s|
  {
    if |s| < 2 then 0
    else Transitions(s[..|s| - 1]) + (if IsTransition(s[|s| - 2], s[|s| - 1]) then 1 else 0)
  }

  /** There is at most one transition per consecutive pair, and none when
      every utterance has the same speaker. */
  lemma {:induction false} TransitionsBound(s: seq<Utt>)
    ensures Transitions(s) <= if |s| == 0 then 0 else |s| - 1
    ensures (forall i :: 0 <= i < |s| ==> s[i].speaker == s[0].speaker) ==> Transitions(s) == 0
    decreases |s|
  {
    if |s| >= 2 {
      TransitionsBound(s[..|s| - 1]);
    }
  }

  /** A change of speaker right after an unidentified one is not counted:
      speaker 1, no speaker, speaker 2 is one transition. */
  lemma TransitionAfterNone(a: Utt, b: Utt, c: Utt)
    requires a.speaker == Some(1) && b.speaker == None && c.speaker == Some(2)
    ensures Transitions([a, b, c]) == 1
  {
    assert [a, b, c][..2] == [a, b];
    assert [a, b][..1] == [a];
    assert Transitions([a]) == 0;
    assert IsTransition(a, b) && !IsTransition(b, c);
    assert Transitions([a, b]) == 1;
  }

  /** The transition loop over the timeline, with `current_speaker` starting
      at `None`. */
  method CountTransitions(timeline: seq<Utt>) returns (transitions: nat)
    ensures transitions == Transitions(timeline)
  {
    transitions := 0;
    var currentSpeaker: Option<int> := None;
    for i := 0 to |timeline|
      invariant transitions == Transitions(timeline[..i])
      invariant currentSpeaker == if i == 0 then None else timeline[i - 1].speaker
    {
      var utt := timeline[i];
      assert timeline[..i + 1][..i] == timeline[..i];
      if currentSpeaker.Some? && utt.speaker != currentSpeaker {
        transitions := transitions + 1;
      }
      currentSpeaker := utt.speaker;
    }
    assert timeline[..|timeline|] == timeline;
  }

  /** What the analysis reports: the number of speakers detected, the
      utterance count of each speaker in breakdown order, the timeline and the
      transitions along it. */
  datatype Report = Report(detected: nat, breakdown: seq<(Option<int>, nat)>, timeline: seq<Utt>, transitions: nat)

  /** The speaker analysis, run only when there are utterances. */
  method AnalyzeSpeakers(utts: seq<Utt>) returns (r: Option<Report>)
    ensures r.None? <==> utts == []
    ensures r.Some? ==>
      && r.value.detected == |SpeakersOf(utts)|
      && |r.value.breakdown| == |Breakdown(utts)|
      && (forall i :: 0 <= i < |r.value.breakdown| ==>
            r.value.breakdown[i] == (Breakdown(utts)[i], |OfSpeaker(utts, Breakdown(utts)[i])|))
      && r.value.timeline == Timeline(utts)
      && r.value.transitions == Transitions(Timeline(utts))
  {
    if utts == [] {
      return None;
    }
    var speakers, groups := GroupBySpeaker(utts);
    var order := Breakdown(utts);
    BreakdownMembers(utts);
    var breakdown := seq(|order|, i requires 0 <= i < |order| => (order[i], |groups[order[i]]|));
    var timeline := Timeline(utts);
    var transitions := CountTransitions(timeline);
    return Some(Report(|speakers|, breakdown, timeline, transitions));
  }

  /** The breakdown's utterance counts add up to the number of utterances. */
  lemma BreakdownTotal(utts: seq<Utt>)
    ensures GroupTotal(utts, Breakdown(utts)) == |utts|
  {
    BreakdownOnce(utts);
    GroupSizes(utts, Breakdown(utts));
  }
}
