/**
 * The streaming transcription session (`StreamingSession`) and the result
 * selection of `GoogleSpeechService.transcribe_audio_bytes`.
 *
 * The session's recognition thread first drains the audio queue completely into
 * a request list and only then calls the speech backend, so it is modelled as
 * two sequential steps: drain the queue, then dispatch the backend's responses.
 * The backend is a parameter (a function of the request list); the three result
 * callbacks become a returned sequence of `Callback` events; clock readings are
 * integer timestamps in seconds.
 */
module Streaming {
  import opened Text
  import opened Wrappers

  type Bytes = seq<bv8>

  /** Seconds without audio after which the audio generator gives up. */
  const SessionTimeout: int := 300

  datatype Alternative = Alternative(transcript: string, confidence: real)
  datatype RecognitionResult = RecognitionResult(alternatives: seq<Alternative>, isFinal: bool)
  datatype StreamingResponse = StreamingResponse(errorCode: int, errorMessage: string, results: seq<RecognitionResult>)

  /** A streaming request: the configuration first, then one request per audio chunk. */
  datatype Request = ConfigRequest | AudioRequest(audio: Bytes)

  /** What the backend yields for a request list: responses, then possibly an exception's message. */
  datatype StreamOutcome = StreamOutcome(responses: seq<StreamingResponse>, failure: Option<string>)

  /** The callback invocations, in the order they happen. */
  datatype Callback =
    | Interim(text: string)
    | Final(text: string, confidence: real)
    | Error(message: string)

  const ErrorPrefix := "Speech recognition error: "

  /* ---------------- the audio generator ---------------- */

  /** Queue items: an audio chunk, or `None`, the end-of-stream sentinel. */
  type QueueItem = Option<Bytes>

  /** What one run of the audio generator takes from the queue. */
  datatype Drained = Drained(yielded: seq<Bytes>, consumed: nat)

  /**
   * The generator on an open, not yet idle session: it takes chunks from the
   * front of the queue in FIFO order and stops after the first sentinel, or
   * when the queue runs dry (waiting then ends in the idle timeout, since
   * nothing else feeds the queue meanwhile).
   */
  function Drain(queue: seq<QueueItem>): (d: Drained)
    ensures d.consumed <= |queue|
  {
    if queue == [] then Drained([], 0)
    else if queue[0].None? then Drained([], 1)
    else
      var rest := Drain(queue[1..]);
      Drained([queue[0].value] + rest.yielded, rest.consumed + 1)
  }

  /**
   * What `Drain` takes: a prefix of the queue whose items are the yielded chunks
   * in order, followed either by the first sentinel or by the end of the queue.
   */
  lemma {:induction false} DrainTakesPrefix(queue: seq<QueueItem>)
    ensures var d := Drain(queue);
      |d.yielded| <= d.consumed <= |queue| &&
      (forall i | 0 <= i < |d.yielded| :: queue[i] == Some(d.yielded[i])) &&
      (d.consumed == |d.yielded| + 1 ==> queue[|d.yielded|] == None) &&
      (d.consumed == |d.yielded| ==> d.consumed == |queue|)
    ensures Drain(queue).consumed <= |Drain(queue).yielded| + 1
  {
    if queue != [] && queue[0].Some? {
      DrainTakesPrefix(queue[1..]);
      var d := Drain(queue);
      var rest := Drain(queue[1..]);
      forall i | 0 <= i < |d.yielded|
        ensures queue[i] == Some(d.yielded[i])
      {
        if i > 0 {
          assert queue[i] == queue[1..][i - 1];
        }
      }
    }
  }

  /** The queue items that enqueueing `chunks` one after another produces. */
  function Enqueued(chunks: seq<Bytes>): (q: seq<QueueItem>)
    ensures |q| == |chunks| && forall i | 0 <= i < |chunks| :: q[i] == Some(chunks[i])
  {
    seq(|chunks|, i requires 0 <= i < |chunks| => Some(chunks[i]))
  }

  /**
   * FIFO up to the sentinel: chunks enqueued before the sentinel come out in
   * the order they went in, the sentinel is consumed, and nothing after it is.
   */
  lemma {:induction false} DrainStopsAtSentinel(chunks: seq<Bytes>, rest: seq<QueueItem>)
    ensures Drain(Enqueued(chunks) + [None] + rest) == Drained(chunks, |chunks| + 1)
  {
    var q := Enqueued(chunks) + [None] + rest;
    if chunks == [] {
      assert q[0] == None;
    } else {
      assert q[1..] == Enqueued(chunks[1..]) + [None] + rest;
      DrainStopsAtSentinel(chunks[1..], rest);
      assert [chunks[0]] + chunks[1..] == chunks;
    }
  }

  /** Without a sentinel, the generator yields the whole queue in order. */
  lemma {:induction false} DrainWithoutSentinel(chunks: seq<Bytes>)
    ensures Drain(Enqueued(chunks)) == Drained(chunks, |chunks|)
  {
    if chunks != [] {
      assert Enqueued(chunks)[1..] == Enqueued(chunks[1..]);
      DrainWithoutSentinel(chunks[1..]);
      assert [chunks[0]] + chunks[1..] == chunks;
    }
  }

  /* ---------------- result dispatch ---------------- */

  /** The callback one recognition result fires, if any: none without alternatives. */
  function ResultCallbacks(result: RecognitionResult): seq<Callback> {
    if result.alternatives == [] then []
    else
      var best := result.alternatives[0];
      if result.isFinal then [Final(Strip(best.transcript), best.confidence)]
      else [Interim(Strip(best.transcript))]
  }

  /** The callbacks of a list of results, in result order. */
  function ResultsCallbacks(results: seq<RecognitionResult>): seq<Callback> {
    if results == [] then []
    else ResultsCallbacks(results[..|results| - 1]) + ResultCallbacks(results[|results| - 1])
  }

  /** A response with a non-zero error code fires one `on_error`; otherwise its results are dispatched. */
  function ResponseCallbacks(response: StreamingResponse): seq<Callback> {
    if response.errorCode != 0 then [Error(ErrorPrefix + response.errorMessage)]
    else ResultsCallbacks(response.results)
  }

  /** The callbacks of a list of responses, in response order. */
  function ResponsesCallbacks(responses: seq<StreamingResponse>): seq<Callback> {
    if responses == [] then []
    else ResponsesCallbacks(responses[..|responses| - 1]) + ResponseCallbacks(responses[|responses| - 1])
  }

  /**
   * Everything the recognition loop reports for a backend outcome. On a closed
   * session the loop breaks at the first response; an exception that the
   * backend raises after its responses is reported through `on_error`.
   */
  function LoopCallbacks(outcome: StreamOutcome, closed: bool): seq<Callback> {
    if closed && outcome.responses != [] then []
    else
      (if closed then [] else ResponsesCallbacks(outcome.responses)) +
      (if outcome.failure.Some? then [Error(outcome.failure.value)] else [])
  }

  /** Dispatch preserves order: the callbacks of two result lists are those of the first, then the second. */
  lemma {:induction false} ResultsCallbacksAppend(a: seq<RecognitionResult>, b: seq<RecognitionResult>)
    ensures ResultsCallbacks(a + b) == ResultsCallbacks(a) + ResultsCallbacks(b)
  {
    if b == [] {
      assert a + b == a;
    } else {
      var front, last := b[..|b| - 1], b[|b| - 1];
      var whole := a + b;
      assert whole[..|whole| - 1] == a + front && whole[|whole| - 1] == last;
      assert ResultsCallbacks(whole) == ResultsCallbacks(a + front) + ResultCallbacks(last);
      ResultsCallbacksAppend(a, front);
      assert ResultsCallbacks(b) == ResultsCallbacks(front) + ResultCallbacks(last);
    }
  }

  /** The same for responses. */
  lemma {:induction false} ResponsesCallbacksAppend(a: seq<StreamingResponse>, b: seq<StreamingResponse>)
    ensures ResponsesCallbacks(a + b) == ResponsesCallbacks(a) + ResponsesCallbacks(b)
  {
    if b == [] {
      assert a + b == a;
    } else {
      var front, last := b[..|b| - 1], b[|b| - 1];
      var whole := a + b;
      assert whole[..|whole| - 1] == a + front && whole[|whole| - 1] == last;
      assert ResponsesCallbacks(whole) == ResponsesCallbacks(a + front) + ResponseCallbacks(last);
      ResponsesCallbacksAppend(a, front);
      assert ResponsesCallbacks(b) == ResponsesCallbacks(front) + ResponseCallbacks(last);
    }
  }

  /**
   * Every callback comes from some result in the list: a `Final` from a final
   * result, an `Interim` from a non-final one, carrying the stripped transcript
   * of that result's first alternative; results never produce `Error`.
   */
  lemma {:induction false} ResultsCallbacksSources(results: seq<RecognitionResult>, c: Callback)
    requires c in ResultsCallbacks(results)
    ensures !c.Error?
    ensures exists r | r in results ::
      (r.alternatives != [] && r.isFinal == c.Final? && c.text == Strip(r.alternatives[0].transcript))
  {
    var last := results[|results| - 1];
    if c in ResultsCallbacks(results[..|results| - 1]) {
      ResultsCallbacksSources(results[..|results| - 1], c);
      var r :| r in results[..|results| - 1] && r.alternatives != [] && r.isFinal == c.Final? &&
        c.text == Strip(r.alternatives[0].transcript);
      assert r in results;
    } else {
      assert c in ResultCallbacks(last);
      assert last in results;
    }
  }

  /** An error-coded response fires exactly one `on_error` and none of its results. */
  lemma ErrorResponseFiresOnlyError(response: StreamingResponse)
    requires response.errorCode != 0
    ensures |ResponseCallbacks(response)| == 1 && ResponseCallbacks(response)[0].Error?
  {
  }

  /**
   * A session stopped before its backend answers reports no transcript at all:
   * at most the backend's exception, through `on_error`.
   */
  lemma ClosedLoopReportsOnlyFailure(outcome: StreamOutcome)
    ensures |LoopCallbacks(outcome, true)| <= 1
    ensures forall c | c in LoopCallbacks(outcome, true) :: c.Error?
    ensures outcome.responses == [] && outcome.failure.Some? ==>
      LoopCallbacks(outcome, true) == [Error(outcome.failure.value)]
  {
  }

  /* ---------------- one-shot transcription ---------------- */

  /**
   * `transcribe_audio_bytes`: given the backend's results (`None` when the call
   * raised), the stripped transcript of the first alternative of the first
   * result, or `None`.
   */
  function SelectTranscript(results: Option<seq<RecognitionResult>>): (r: Option<string>)
    ensures r.Some? <==> results.Some? && results.value != [] && results.value[0].alternatives != []
    ensures r.Some? ==> Contains(results.value[0].alternatives[0].transcript, r.value)
    ensures r.Some? ==> r.value == Strip(results.value[0].alternatives[0].transcript)
  {
    match results
    case None => None
    case Some(rs) =>
      if rs != [] && rs[0].alternatives != [] then
        StripSpec(rs[0].alternatives[0].transcript);
        Some(Strip(rs[0].alternatives[0].transcript))
      else None
  }

  /**
   * One-shot and streaming recognition agree: when the first result is final,
   * the transcript the one-shot call returns is the text of the first callback
   * the streaming dispatch fires for the same results.
   */
  lemma SelectTranscriptMatchesFirstFinal(results: seq<RecognitionResult>)
    requires results != [] && results[0].alternatives != [] && results[0].isFinal
    ensures ResultsCallbacks(results) != []
    ensures ResultsCallbacks(results)[0] ==
      Final(SelectTranscript(Some(results)).value, results[0].alternatives[0].confidence)
  {
    ResultsCallbacksAppend([results[0]], results[1..]);
    assert [results[0]] + results[1..] == results;
    assert ResultsCallbacks([results[0]]) == ResultCallbacks(results[0]) by {
      assert [results[0]][..0] == [];
    }
  }

  /* ---------------- the session object ---------------- */

  class StreamingSession {
    var sessionActive: bool
    var closed: bool
    var lastAudioTime: int
    /** `audio_queue`: unbounded, so `put` never raises `queue.Full`. */
    var audioQueue: seq<QueueItem>

    constructor (now: int)
      ensures !sessionActive && !closed && lastAudioTime == now && audioQueue == []
    {
      sessionActive := false;
      closed := false;
      lastAudioTime := now;
      audioQueue := [];
    }

    /** `start`: a no-op on an active session; otherwise marks it active and open. */
    method Start(now: int)
      modifies this
      ensures old(sessionActive) ==> unchanged(this)
      ensures !old(sessionActive) ==>
        sessionActive && !closed && lastAudioTime == now && audioQueue == old(audioQueue)
    {
      if sessionActive {
        return;
      }
      sessionActive := true;
      closed := false;
      lastAudioTime := now;
    }

    /** `add_audio_data`: ignored unless active and open; otherwise the chunk joins the tail of the queue. */
    method AddAudioData(audio: Bytes, now: int)
      modifies this
      ensures !old(sessionActive) || old(closed) ==> unchanged(this)
      ensures old(sessionActive) && !old(closed) ==>
        audioQueue == old(audioQueue) + [Some(audio)] && lastAudioTime == now &&
        sessionActive && !closed
    {
      if !sessionActive || closed {
        return;
      }
      lastAudioTime := now;
      audioQueue := audioQueue + [Some(audio)];
    }

    /** `stop`: marks the session inactive and closed and enqueues the sentinel. */
    method Stop()
      modifies this
      ensures !sessionActive && closed
      ensures audioQueue == old(audioQueue) + [None] && lastAudioTime == old(lastAudioTime)
    {
      sessionActive := false;
      closed := true;
      audioQueue := audioQueue + [None];
    }

    /**
     * `_audio_generator`, run to completion at clock reading `now`: nothing on a
     * closed or idle session; otherwise `Drain` of the queue, whose consumed
     * items leave the queue.
     */
    method AudioGenerator(now: int) returns (yielded: seq<Bytes>)
      modifies this
      ensures sessionActive == old(sessionActive) && closed == old(closed)
      ensures lastAudioTime == old(lastAudioTime)
      ensures old(closed) || now - old(lastAudioTime) > SessionTimeout ==>
        yielded == [] && audioQueue == old(audioQueue)
      ensures !old(closed) && now - old(lastAudioTime) <= SessionTimeout ==>
        var d := Drain(old(audioQueue));
        yielded == d.yielded && audioQueue == old(audioQueue)[d.consumed..]
    {
      yielded := [];
      var queue := audioQueue;
      ghost var start := audioQueue;
      ghost var taken := 0;
      while !closed
        invariant closed == old(closed) && lastAudioTime == old(lastAudioTime)
        invariant taken <= |start| && queue == start[taken..]
        invariant Drain(start) == Drained(yielded + Drain(queue).yielded, taken + Drain(queue).consumed)
        invariant closed || now - lastAudioTime > SessionTimeout ==> yielded == [] && queue == start
        decreases |queue|
      {
        if now - lastAudioTime > SessionTimeout {
          break;
        }
        if queue == [] {
          // `get` times out until the idle timeout fires: nothing else feeds the queue.
          break;
        }
        var item := queue[0];
        queue := queue[1..];
        taken := taken + 1;
        if item.None? {
          break;
        }
        yielded := yielded + [item.value];
      }
      audioQueue := queue;
    }

    /**
     * `_recognition_loop`: the configuration request and the generator's chunks
     * are sent to `recognize`; the callbacks fired are `LoopCallbacks` of its
     * outcome, and the session ends up inactive whatever happens. The queue
     * loses what the generator consumed; the clock is left as it was.
     */
    method RecognitionLoop(now: int, recognize: seq<Request> -> StreamOutcome) returns (callbacks: seq<Callback>)
      modifies this
      ensures !sessionActive && closed == old(closed) && lastAudioTime == old(lastAudioTime)
      ensures old(closed) || now - old(lastAudioTime) > SessionTimeout ==> audioQueue == old(audioQueue)
      ensures !old(closed) && now - old(lastAudioTime) <= SessionTimeout ==>
        audioQueue == old(audioQueue)[Drain(old(audioQueue)).consumed..]
      ensures var chunks := if old(closed) || now - old(lastAudioTime) > SessionTimeout then []
                           else Drain(old(audioQueue)).yielded;
        callbacks == LoopCallbacks(recognize([ConfigRequest] + AudioRequests(chunks)), old(closed))
    {
      var chunks := AudioGenerator(now);
      ghost var rest := audioQueue;
      var requests := [ConfigRequest] + AudioRequests(chunks);
      var outcome := recognize(requests);
      var responses := outcome.responses;
      callbacks := [];
      var broke := false;
      var i := 0;
      while i < |responses|
        invariant 0 <= i <= |responses|
        invariant closed == old(closed) && lastAudioTime == old(lastAudioTime) && audioQueue == rest
        invariant !closed ==> callbacks == ResponsesCallbacks(responses[..i])
        invariant closed ==> callbacks == [] && i == 0
      {
        if closed {
          broke := true;
          break;
        }
        var response := responses[i];
        assert responses[..i + 1][..i] == responses[..i];
        if response.errorCode != 0 {
          callbacks := callbacks + [Error(ErrorPrefix + response.errorMessage)];
          i := i + 1;
          continue;
        }
        var fired := DispatchResults(response.results);
        callbacks := callbacks + fired;
        i := i + 1;
      }
      if !broke {
        assert responses[..i] == responses;
        if outcome.failure.Some? {
          callbacks := callbacks + [Error(outcome.failure.value)];
        }
      }
      sessionActive := false;
    }
  }

  /** The inner loop of `_recognition_loop`: the callbacks for one response's results, in order. */
  method DispatchResults(results: seq<RecognitionResult>) returns (callbacks: seq<Callback>)
    ensures callbacks == ResultsCallbacks(results)
  {
    callbacks := [];
    var j := 0;
    while j < |results|
      invariant 0 <= j <= |results|
      invariant callbacks == ResultsCallbacks(results[..j])
    {
      var result := results[j];
      assert results[..j + 1][..j] == results[..j];
      if result.alternatives != [] {
        var transcript := result.alternatives[0].transcript;
        var confidence := result.alternatives[0].confidence;
        if result.isFinal {
          callbacks := callbacks + [Final(Strip(transcript), confidence)];
        } else {
          callbacks := callbacks + [Interim(Strip(transcript))];
        }
      }
      j := j + 1;
    }
    assert results[..j] == results;
  }

  /** One audio request per chunk, in chunk order. */
  function AudioRequests(chunks: seq<Bytes>): (r: seq<Request>)
    ensures |r| == |chunks| && forall i | 0 <= i < |chunks| :: r[i] == AudioRequest(chunks[i])
  {
    seq(|chunks|, i requires 0 <= i < |chunks| => AudioRequest(chunks[i]))
  }
}
