/** The audio streaming loop of the realtime example: the recording is cut
    into chunks of 8000 bytes, each sent as one binary frame on the session,
    the shared "finished" flag is checked before every chunk, and the stop
    message is sent once after the loop. The flag is set by another thread;
    here it is a function telling, for each chunk number, whether the flag is
    set when that chunk is about to be sent. */
module Chunking {
  import opened WsSession

  /** Half a second of 16 kHz 8-bit audio. */
  const ChunkSize: nat := 8000

  function Min(a: int, b: int): int { if a < b then a else b }

  /** The chunks `audio[i:i + k]` for `i` in `range(0, len(audio), k)`. */
  function Chunks(audio: seq<bv8>, k: nat): seq<seq<bv8>>
    requires k > 0
    decreases |audio|
  {
    if |audio| == 0 then []
    else if |audio| <= k then [audio]
    else [audio[..k]] + Chunks(audio[k..], k)
  }

  function Flatten(chunks: seq<seq<bv8>>): seq<bv8> {
    if chunks == [] then [] else chunks[0] + Flatten(chunks[1..])
  }

  /** The chunks put back together are the recording. */
  lemma {:induction false} ChunksConcat(audio: seq<bv8>, k: nat)
    requires k > 0
    ensures Flatten(Chunks(audio, k)) == audio
    decreases |audio|
  {
    if |audio| > k {
      var cs := Chunks(audio, k);
      assert cs[1..] == Chunks(audio[k..], k);
      ChunksConcat(audio[k..], k);
      assert audio == audio[..k] + audio[k..];
    } else if |audio| > 0 {
      assert Chunks(audio, k)[1..] == [];
    }
  }

  /** There are ceil(len / k) chunks, that is the least n with n*k >= len;
      each holds between 1 and k bytes, and all but the last exactly k. */
  lemma {:induction false} ChunkSizes(audio: seq<bv8>, k: nat)
    requires k > 0
    ensures |Chunks(audio, k)| * k >= |audio|
    ensures |Chunks(audio, k)| > 0 ==> (|Chunks(audio, k)| - 1) * k < |audio|
    ensures forall j :: 0 <= j < |Chunks(audio, k)| ==> 1 <= |Chunks(audio, k)[j]| <= k
    ensures forall j :: 0 <= j < |Chunks(audio, k)| - 1 ==> |Chunks(audio, k)[j]| == k
    decreases |audio|
  {
    if |audio| > k {
      var cs := Chunks(audio, k);
      var n := |Chunks(audio[k..], k)|;
      ChunkSizes(audio[k..], k);
      assert |cs| == n + 1;
      assert forall j :: 1 <= j < |cs| ==> cs[j] == Chunks(audio[k..], k)[j - 1];
      MulSucc(n, k);
      MulSucc(n - 1, k);
    }
  }

  lemma MulSucc(j: int, k: int)
    ensures (j + 1) * k == j * k + k
  {
  }

  /** Chunk j starts at offset j*8000, which is below the length, and its
      length is `min(8000, len - j*8000)`: the loop's `actual_size`. */
  lemma {:induction false} ChunkAt(audio: seq<bv8>, j: nat)
    requires j < |Chunks(audio, ChunkSize)|
    ensures j * ChunkSize < |audio|
    ensures Chunks(audio, ChunkSize)[j] == audio[j * ChunkSize .. Min(j * ChunkSize + ChunkSize, |audio|)]
    ensures |Chunks(audio, ChunkSize)[j]| == Min(ChunkSize, |audio| - j * ChunkSize)
    decreases |audio|
  {
    if j > 0 {
      var rest := audio[ChunkSize..];
      ChunkAt(rest, j - 1);
      assert Chunks(audio, ChunkSize)[j] == Chunks(rest, ChunkSize)[j - 1];
      var o := (j - 1) * ChunkSize;
      assert j * ChunkSize == o + ChunkSize;
      assert rest[o..Min(o + ChunkSize, |rest|)] == audio[o + ChunkSize..Min(o + ChunkSize + ChunkSize, |audio|)];
    }
  }

  /** An offset j*8000 below the length begins a chunk. */
  lemma {:induction false} OffsetHasChunk(audio: seq<bv8>, j: nat)
    requires j * ChunkSize < |audio|
    ensures j < |Chunks(audio, ChunkSize)|
    decreases |audio|
  {
    if j > 0 {
      OffsetHasChunk(audio[ChunkSize..], j - 1);
    }
  }

  /** The frame `send_audio_binary(chunk, len(chunk))` writes. */
  function ChunkFrame(chunk: seq<bv8>): Frame { BinaryAudioFrame(chunk, |chunk|) }

  function ChunkFrames(chunks: seq<seq<bv8>>): (fs: seq<Frame>)
    ensures |fs| == |chunks|
    ensures forall j :: 0 <= j < |chunks| ==> fs[j] == ChunkFrame(chunks[j])
  {
    seq(|chunks|, j requires 0 <= j < |chunks| => ChunkFrame(chunks[j]))
  }

  const StopFrame: Frame := Frame(TextOpcode, Json(StopPayload))

  /** The session after sending the given frames, one after the other. */
  function SendAll(st: State, fs: seq<Frame>): State {
    if fs == [] then st else Send(SendAll(st, fs[..|fs| - 1]), fs[|fs| - 1])
  }

  lemma SendAllSnoc(st: State, fs: seq<Frame>, f: Frame)
    ensures SendAll(st, fs + [f]) == Send(SendAll(st, fs), f)
  {
    assert (fs + [f])[..|fs|] == fs;
  }

  /** Sending frames leaves the socket, handlers and log alone; with a socket
      the wire gains exactly those frames, in order, on that socket; without
      one nothing is written. */
  lemma {:induction false} SendAllWire(st: State, fs: seq<Frame>)
    ensures var st' := SendAll(st, fs);
      && st'.ws == st.ws && st'.sockets == st.sockets && st'.handlers == st.handlers && st'.log == st.log
      && (st.ws.None? ==> st'.wire == st.wire)
      && (st.ws.Some? ==> st'.wire == st.wire + seq(|fs|, j requires 0 <= j < |fs| => Sent(st.ws.value, fs[j])))
  {
    if fs != [] {
      var init := fs[..|fs| - 1];
      SendAllWire(st, init);
      if st.ws.Some? {
        var s := st.ws.value;
        assert seq(|fs|, j requires 0 <= j < |fs| => Sent(s, fs[j]))
               == seq(|init|, j requires 0 <= j < |init| => Sent(s, init[j])) + [Sent(s, fs[|fs| - 1])];
      }
    }
  }

  /** The number of the first chunk before which the flag is set, or `count`
      when it never is. */
  function FirstSet(finished: nat -> bool, count: nat, from: nat): (n: nat)
    requires from <= count
    ensures from <= n <= count
    ensures forall j :: from <= j < n ==> !finished(j)
    ensures n < count ==> finished(n)
    decreases count - from
  {
    if from == count then count
    else if finished(from) then from
    else FirstSet(finished, count, from + 1)
  }

  /** The loop and the stop signal. The session ends up having sent, as
      binary frames, exactly the first `chunksSent` chunks and then the stop
      message; `chunksSent` is the number of chunks before the flag was first
      seen set, or all of them. */
  method StreamAudio(session: StreamSession, audio: seq<bv8>, finished: nat -> bool) returns (chunksSent: nat)
    requires session.Valid()
    modifies session
    ensures session.Valid()
    ensures chunksSent == FirstSet(finished, |Chunks(audio, ChunkSize)|, 0)
    ensures session.Snapshot() ==
      SendAll(old(session.Snapshot()), ChunkFrames(Chunks(audio, ChunkSize)[..chunksSent]) + [StopFrame])
  {
    ghost var start := session.Snapshot();
    ghost var chunks := Chunks(audio, ChunkSize);
    var i := 0;
    chunksSent := 0;
    while i < |audio|
      invariant 0 <= i && chunksSent <= |chunks|
      invariant chunks[chunksSent..] == Chunks(audio[Min(i, |audio|)..], ChunkSize)
      invariant forall j :: 0 <= j < chunksSent ==> !finished(j)
      invariant session.Valid()
      invariant session.Snapshot() == SendAll(start, ChunkFrames(chunks[..chunksSent]))
      decreases |audio| - i
    {
      if finished(chunksSent) {
        assert chunksSent < |chunks| && finished(chunksSent);
        break;
      }
      var chunk := audio[i..Min(i + ChunkSize, |audio|)];
      var actualSize := Min(ChunkSize, |audio| - i);
      NextChunk(audio, chunks, chunksSent, i);
      var _ := session.SendAudioBinary(chunk, actualSize);
      SendOneMore(start, chunks, chunksSent);
      chunksSent := chunksSent + 1;
      i := i + ChunkSize;
    }
    assert chunksSent == |chunks| || finished(chunksSent);
    FirstSetUnique(finished, |chunks|, chunksSent);
    var _ := session.SendStopSignal();
    SendAllSnoc(start, ChunkFrames(chunks[..chunksSent]), StopFrame);
  }

  /** The chunks of what follows offset i begin with `audio[i:i + k]`, of
      `min(k, len - i)` bytes, followed by the chunks after it. */
  lemma ChunkAtOffset(audio: seq<bv8>, k: nat, i: nat)
    requires k > 0 && i < |audio|
    ensures |Chunks(audio[i..], k)| > 0
    ensures Chunks(audio[i..], k)[0] == audio[i..Min(i + k, |audio|)]
    ensures |audio[i..Min(i + k, |audio|)]| == Min(k, |audio| - i)
    ensures Chunks(audio[i..], k)[1..] == Chunks(audio[Min(i + k, |audio|)..], k)
  {
    ChunksHead(audio[i..], k);
    assert audio[i..][..Min(k, |audio| - i)] == audio[i..Min(i + k, |audio|)];
    assert audio[i..][Min(k, |audio| - i)..] == audio[Min(i + k, |audio|)..];
  }

  /** One turn of the loop: at offset i the next unsent chunk is
      `audio[i:i + k]`, of `actual_size` bytes, and the rest are the chunks
      after it. */
  lemma NextChunk(audio: seq<bv8>, chunks: seq<seq<bv8>>, n: nat, i: nat)
    requires i < |audio| && n <= |chunks| && chunks[n..] == Chunks(audio[i..], ChunkSize)
    ensures n < |chunks|
    ensures chunks[n] == audio[i..Min(i + ChunkSize, |audio|)]
    ensures Min(ChunkSize, |audio| - i) == |chunks[n]|
    ensures chunks[n + 1..] == Chunks(audio[Min(i + ChunkSize, |audio|)..], ChunkSize)
  {
    ChunkAtOffset(audio, ChunkSize, i);
    assert chunks[n + 1..] == chunks[n..][1..];
  }

  /** Sending chunk n after the first n chunks is sending the first n + 1. */
  lemma SendOneMore(st: State, chunks: seq<seq<bv8>>, n: nat)
    requires n < |chunks|
    ensures SendAll(st, ChunkFrames(chunks[..n + 1])) == Send(SendAll(st, ChunkFrames(chunks[..n])), ChunkFrame(chunks[n]))
  {
    assert ChunkFrames(chunks[..n + 1]) == ChunkFrames(chunks[..n]) + [ChunkFrame(chunks[n])];
    SendAllSnoc(st, ChunkFrames(chunks[..n]), ChunkFrame(chunks[n]));
  }

  /** The first chunk is the first k bytes (or all of them), and the rest are
      the chunks of what follows. */
  lemma ChunksHead(rest: seq<bv8>, k: nat)
    requires k > 0 && |rest| > 0
    ensures |Chunks(rest, k)| > 0
    ensures Chunks(rest, k)[0] == rest[..Min(k, |rest|)]
    ensures Chunks(rest, k)[1..] == Chunks(rest[Min(k, |rest|)..], k)
  {
    if |rest| <= k {
      assert rest[|rest|..] == [];
    }
  }

  /** `FirstSet` is the only count before which the flag is never set and at
      which it is set (or the end is reached). */
  lemma FirstSetUnique(finished: nat -> bool, count: nat, n: nat)
    requires n <= count && (forall j :: 0 <= j < n ==> !finished(j)) && (n < count ==> finished(n))
    ensures n == FirstSet(finished, count, 0)
  {
    var m := FirstSet(finished, count, 0);
    if m < n { assert false; }
    if n < m { assert false; }
  }

  /** Without an early exit every chunk is sent, so the bytes sent are the
      recording; the stop message is the one text frame and comes last. */
  lemma NoEarlyExit(audio: seq<bv8>, finished: nat -> bool)
    requires forall j :: 0 <= j < |Chunks(audio, ChunkSize)| ==> !finished(j)
    ensures FirstSet(finished, |Chunks(audio, ChunkSize)|, 0) == |Chunks(audio, ChunkSize)|
    ensures Flatten(Chunks(audio, ChunkSize)[..|Chunks(audio, ChunkSize)|]) == audio
  {
    var cs := Chunks(audio, ChunkSize);
    FirstSetUnique(finished, |cs|, |cs|);
    assert cs[..|cs|] == cs;
    ChunksConcat(audio, ChunkSize);
  }

  /** The stop message is sent exactly once, after the last chunk: every
      chunk frame is binary and the stop frame is text. */
  lemma StopOnce(chunks: seq<seq<bv8>>)
    ensures var fs := ChunkFrames(chunks) + [StopFrame];
      && fs[|fs| - 1] == StopFrame
      && forall j :: 0 <= j < |fs| - 1 ==> fs[j].opcode == BinaryOpcode && fs[j] != StopFrame
  {
  }

  /** An empty recording sends no chunk, and the stop message still. */
  lemma EmptyAudio(finished: nat -> bool)
    ensures Chunks([], ChunkSize) == []
    ensures FirstSet(finished, |Chunks([], ChunkSize)|, 0) == 0
    ensures ChunkFrames(Chunks([], ChunkSize)[..0]) + [StopFrame] == [StopFrame]
  {
  }
}
