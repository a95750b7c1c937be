/** Raw audio as the capture loop sees it: the byte chunks a stream read
    returns, the outcome of each read, and the joining of the chunks into the
    single buffer that is written to the WAV file. */
module Audio {

  newtype byte = x: int | 0 <= x < 256

  /** One chunk returned by `stream.read`: 16-bit mono PCM bytes. */
  type Chunk = seq<byte>

  /** Stream and WAV parameters the recorder opens the microphone with and
      writes into the WAV header. */
  const SampleRate: nat := 16000
  const ChunkSize: nat := 1024
  const Channels: nat := 1
  const SampleWidth: nat := 2

  /** The outcome of one `stream.read`: a chunk, or an exception. */
  datatype ReadResult = Data(chunk: Chunk) | ReadFailure

  /** What the microphone does during one run of the capture thread:
      whether `audio.open` succeeds, the results made while `is_recording` is
      still set (the end of the sequence is the moment `stop_recording`
      clears the flag), and whether stopping and closing the stream succeed. */
  datatype Microphone = Microphone(opens: bool, results: seq<ReadResult>, closes: bool)

  /** The `threading.Thread` that runs the capture loop; only its identity
      is modelled. */
  class CaptureThread {
    constructor () {}
  }

  /** The chunks the capture loop keeps: every chunk read before the first
      failed read, in read order. */
  function Captured(results: seq<ReadResult>): (r: seq<Chunk>)
    ensures |r| <= |results|
    ensures forall k :: 0 <= k < |r| ==> results[k] == Data(r[k])
    ensures |r| == |results| || results[|r|].ReadFailure?
  {
    if results == [] then []
    else match results[0]
      case ReadFailure => []
      case Data(c) => [c] + Captured(results[1..])
  }

  /** The capture loop ran until `stop_recording` cleared the flag: no read
      failed before that moment. */
  predicate EndedByStop(results: seq<ReadResult>)
  {
    |Captured(results)| == |results|
  }

  /** Whether the flag is still up when `stop_recording` checks it, after the
      capture thread has run up to the moment stop is pressed. Opening the
      stream happens before that moment, so a failed open drops the flag. A
      failed close drops it only when a failed read ended the loop, since the
      thread then finishes on its own; when stop ended the loop, the close
      runs while stop waits in `join` and clears a flag that is already down. */
  predicate FlagSurvivesCapture(mic: Microphone)
  {
    mic.opens && (mic.closes || EndedByStop(mic.results))
  }

  /** A failed close after a normal stop leaves the flag for `stop_recording`
      to clear, so the chunk is still processed; the same failed close after a
      failed read has already dropped the flag when stop is pressed. */
  lemma CloseFailureDependsOnHowCaptureEnded(c: Chunk)
    ensures FlagSurvivesCapture(Microphone(true, [Data(c)], false))
    ensures !FlagSurvivesCapture(Microphone(true, [Data(c), ReadFailure], false))
  {
    assert Captured([Data(c), ReadFailure]) == [c] + Captured([ReadFailure]);
  }

  /** The three facts of `Captured`'s contract pin its result down: any
      sequence of chunks that matches the results one for one and stops at the
      end or at a failure is the captured sequence. */
  lemma CapturedIsUnique(results: seq<ReadResult>, r: seq<Chunk>)
    requires |r| <= |results|
    requires forall k :: 0 <= k < |r| ==> results[k] == Data(r[k])
    requires |r| == |results| || results[|r|].ReadFailure?
    ensures r == Captured(results)
  {
  }

  /** A read failure ends the capture: exactly the chunks before it are kept
      and nothing read after it is. */
  lemma CapturedStopsAtFailure(results: seq<ReadResult>, i: nat)
    requires i < |results| && results[i].ReadFailure?
    requires forall k :: 0 <= k < i ==> results[k].Data?
    ensures Captured(results) == Captured(results[..i])
    ensures |Captured(results)| == i
  {
  }

  /** Without a failure every read is kept. */
  lemma CapturedWithoutFailure(results: seq<ReadResult>)
    requires forall k :: 0 <= k < |results| ==> results[k].Data?
    ensures |Captured(results)| == |results|
    ensures forall k :: 0 <= k < |results| ==> Captured(results)[k] == results[k].chunk
  {
  }

  /** Reads 1 and 2 succeed and read 3 fails: the two chunks are kept,
      in order, and the reads that would have followed never happen. */
  lemma FailureAfterTwoReads(a: Chunk, b: Chunk, rest: seq<ReadResult>)
    ensures Captured([Data(a), Data(b), ReadFailure] + rest) == [a, b]
  {
    CapturedStopsAtFailure([Data(a), Data(b), ReadFailure] + rest, 2);
    assert ([Data(a), Data(b), ReadFailure] + rest)[..2] == [Data(a), Data(b)];
  }

  /** `b''.join(chunks)`: the chunks' bytes, one chunk after the other. */
  function Concat(chunks: seq<Chunk>): (r: seq<byte>)
  {
    if chunks == [] then [] else chunks[0] + Concat(chunks[1..])
  }

  /** The join of two runs of chunks is the join of the first followed by
      the join of the second. */
  lemma {:induction false} ConcatAppend(a: seq<Chunk>, b: seq<Chunk>)
    ensures Concat(a + b) == Concat(a) + Concat(b)
  {
    if a == [] {
      assert a + b == b;
    } else {
      assert (a + b)[1..] == a[1..] + b;
      ConcatAppend(a[1..], b);
    }
  }

  /** Every chunk sits in the joined buffer between the chunks read before
      it and the chunks read after it: no reordering and no loss. */
  lemma ConcatChunkAt(chunks: seq<Chunk>, k: nat)
    requires k < |chunks|
    ensures Concat(chunks) == Concat(chunks[..k]) + chunks[k] + Concat(chunks[k + 1..])
  {
    var before, rest := chunks[..k], chunks[k..];
    assert chunks == before + rest;
    ConcatAppend(before, rest);
    assert rest[0] == chunks[k] && rest[1..] == chunks[k + 1..];
  }

  /** The joined buffer is empty exactly when every chunk is empty; a
      non-empty list of chunks can still join to no bytes. */
  lemma {:induction false} ConcatEmptyIff(chunks: seq<Chunk>)
    ensures Concat(chunks) == [] <==> forall k :: 0 <= k < |chunks| ==> chunks[k] == []
  {
    if chunks != [] {
      ConcatEmptyIff(chunks[1..]);
      assert forall k :: 1 <= k < |chunks| ==> chunks[k] == chunks[1..][k - 1];
    }
  }

  /** The joined buffer's length is the sum of the chunk lengths. */
  function TotalLength(chunks: seq<Chunk>): nat
  {
    if chunks == [] then 0 else |chunks[0]| + TotalLength(chunks[1..])
  }

  lemma {:induction false} ConcatLength(chunks: seq<Chunk>)
    ensures |Concat(chunks)| == TotalLength(chunks)
  {
    if chunks != [] {
      ConcatLength(chunks[1..]);
    }
  }
}
