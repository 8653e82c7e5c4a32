/**
 * The call registry and the media-stream handlers of the real-time routes.
 *
 * Two module-level dicts keyed by call SID — the active calls and their
 * streaming sessions — become the fields of `CallRegistry`; every Twilio event
 * is a method. Everything the handlers write to a websocket is appended to an
 * outbox, tagged with the socket it went to. Speech synthesis, base64 and the
 * µ-law conversion are parameters (functions the caller supplies); the threads
 * that run the welcome message and each transcript are ordinary calls.
 */
module Registry {
  import opened Wrappers
  import opened Text
  import EndDetection
  import Conversation
  import Sessions
  import Streaming

  /** The identity of one websocket connection. */
  type SocketId = nat

  /** One entry of `active_conversations`. */
  datatype CallRecord = CallRecord(
    phoneNumber: string,
    callSid: string,
    audioBuffer: Streaming.Bytes,
    processing: bool,
    connected: bool,
    streamSid: Option<string>,
    websocket: Option<SocketId>,
    conversationStarted: int)

  /** The record `handle_voice` stores for a new call. */
  function NewCall(callSid: string, phoneNumber: string, now: int): (r: CallRecord)
    ensures r.callSid == callSid && r.phoneNumber == phoneNumber && r.conversationStarted == now
    ensures r.audioBuffer == [] && !r.processing && !r.connected
    ensures r.streamSid == None && r.websocket == None
  {
    CallRecord(phoneNumber, callSid, [], false, false, None, None, now)
  }

  const WelcomeText := "أهلاً وسهلاً! أنا مساعدك الذكي. كيف يمكنني مساعدتك اليوم؟"
  const GoodbyeText := "شكراً لك! إلى اللقاء."
  /** The language every transcript is answered in. */
  const ReplyLanguage := "arabic"

  /** Python truthiness of an optional string: set and non-empty. */
  predicate Present(s: Option<string>) {
    s.Some? && s.value != ""
  }

  /* ---------------- outgoing media messages ---------------- */

  /** `{"event": "media", "streamSid": ..., "media": {"payload": ...}}`. */
  datatype MediaMessage = MediaMessage(streamSid: Option<string>, payload: string)

  /** A message written to a socket. */
  datatype Sent = Sent(socket: SocketId, message: MediaMessage)

  /** What speech synthesis produces: the audio chunks it yields, and whether it then raised. */
  datatype Synthesis = Synthesis(chunks: seq<Streaming.Bytes>, failed: bool)

  /** One media message per non-empty chunk, in chunk order, with the chunk's encoding as payload. */
  function MediaFrames(streamSid: Option<string>, chunks: seq<Streaming.Bytes>, encode: Streaming.Bytes -> string): seq<MediaMessage> {
    if chunks == [] then []
    else
      var last := chunks[|chunks| - 1];
      MediaFrames(streamSid, chunks[..|chunks| - 1], encode) +
      (if |last| > 0 then [MediaMessage(streamSid, encode(last))] else [])
  }

  /** The messages `send_twilio_ai_response` writes: the frames, then an empty-payload message if synthesis failed. */
  function ReplyMessages(streamSid: Option<string>, synthesis: Synthesis, encode: Streaming.Bytes -> string): seq<MediaMessage> {
    MediaFrames(streamSid, synthesis.chunks, encode) +
    (if synthesis.failed then [MediaMessage(streamSid, "")] else [])
  }

  /** Messages written to `ws`; with no socket every `ws.send` raises and nothing is written. */
  function Delivered(ws: Option<SocketId>, messages: seq<MediaMessage>): (r: seq<Sent>)
    ensures ws.None? ==> r == []
    ensures ws.Some? ==>
      |r| == |messages| && forall i | 0 <= i < |messages| :: r[i] == Sent(ws.value, messages[i])
  {
    match ws
    case None => []
    case Some(socket) => seq(|messages|, i requires 0 <= i < |messages| => Sent(socket, messages[i]))
  }

  /** Delivery distributes over concatenation: messages go out in the order given. */
  lemma DeliveredAppend(ws: Option<SocketId>, a: seq<MediaMessage>, b: seq<MediaMessage>)
    ensures Delivered(ws, a + b) == Delivered(ws, a) + Delivered(ws, b)
  {
    if ws.Some? {
      var whole, left, right := Delivered(ws, a + b), Delivered(ws, a), Delivered(ws, b);
      forall i | 0 <= i < |whole|
        ensures whole[i] == (left + right)[i]
      {
        if i >= |a| {
          assert (a + b)[i] == b[i - |a|];
        }
      }
    }
  }

  /** Frames of consecutive chunk lists concatenate: order is preserved. */
  lemma {:induction false} MediaFramesAppend(streamSid: Option<string>, a: seq<Streaming.Bytes>, b: seq<Streaming.Bytes>, encode: Streaming.Bytes -> string)
    ensures MediaFrames(streamSid, a + b, encode) == MediaFrames(streamSid, a, encode) + MediaFrames(streamSid, b, encode)
  {
    if b == [] {
      assert a + b == a;
    } else {
      assert (a + b)[..|a + b| - 1] == a + b[..|b| - 1];
      MediaFramesAppend(streamSid, a, b[..|b| - 1], encode);
    }
  }

  /** With no empty chunk, there is exactly one message per chunk, in order, each tagged with the stream SID. */
  lemma {:induction false} MediaFramesOnePerChunk(streamSid: Option<string>, chunks: seq<Streaming.Bytes>, encode: Streaming.Bytes -> string)
    requires forall i | 0 <= i < |chunks| :: |chunks[i]| > 0
    ensures |MediaFrames(streamSid, chunks, encode)| == |chunks|
    ensures forall i | 0 <= i < |chunks| ::
      MediaFrames(streamSid, chunks, encode)[i] == MediaMessage(streamSid, encode(chunks[i]))
  {
    if chunks != [] {
      MediaFramesOnePerChunk(streamSid, chunks[..|chunks| - 1], encode);
    }
  }

  /** An empty chunk produces no message. */
  lemma MediaFramesSkipEmpty(streamSid: Option<string>, a: seq<Streaming.Bytes>, b: seq<Streaming.Bytes>, encode: Streaming.Bytes -> string)
    ensures MediaFrames(streamSid, a + [[]] + b, encode) == MediaFrames(streamSid, a + b, encode)
  {
    MediaFramesAppend(streamSid, a + [[]], b, encode);
    MediaFramesAppend(streamSid, a, b, encode);
    assert (a + [[]])[..|a + [[]]| - 1] == a;
  }

  /** Every message carries the stream SID; a failed synthesis ends with an empty payload. */
  lemma {:induction false} ReplyMessagesTagged(streamSid: Option<string>, synthesis: Synthesis, encode: Streaming.Bytes -> string)
    ensures forall m | m in ReplyMessages(streamSid, synthesis, encode) :: m.streamSid == streamSid
    ensures synthesis.failed <==>
      ReplyMessages(streamSid, synthesis, encode) != [] &&
      ReplyMessages(streamSid, synthesis, encode)[|ReplyMessages(streamSid, synthesis, encode)| - 1].payload == "" &&
      |ReplyMessages(streamSid, synthesis, encode)| == |MediaFrames(streamSid, synthesis.chunks, encode)| + 1
  {
    MediaFramesTagged(streamSid, synthesis.chunks, encode);
  }

  lemma {:induction false} MediaFramesTagged(streamSid: Option<string>, chunks: seq<Streaming.Bytes>, encode: Streaming.Bytes -> string)
    ensures forall m | m in MediaFrames(streamSid, chunks, encode) :: m.streamSid == streamSid
  {
    if chunks != [] {
      MediaFramesTagged(streamSid, chunks[..|chunks| - 1], encode);
    }
  }

  /**
   * The chunk loop of `send_twilio_ai_response`: one media message per
   * non-empty chunk, in chunk order, written to `socket`.
   */
  method SendFrames(socket: SocketId, streamSid: Option<string>, chunks: seq<Streaming.Bytes>, encode: Streaming.Bytes -> string)
    returns (sent: seq<Sent>)
    ensures sent == Delivered(Some(socket), MediaFrames(streamSid, chunks, encode))
  {
    sent := [];
    for i := 0 to |chunks|
      invariant sent == Delivered(Some(socket), MediaFrames(streamSid, chunks[..i], encode))
    {
      assert chunks[..i + 1][..i] == chunks[..i];
      ghost var frame := if |chunks[i]| > 0 then [MediaMessage(streamSid, encode(chunks[i]))] else [];
      DeliveredAppend(Some(socket), MediaFrames(streamSid, chunks[..i], encode), frame);
      if |chunks[i]| > 0 {
        sent := sent + [Sent(socket, MediaMessage(streamSid, encode(chunks[i])))];
      }
    }
    assert chunks[..|chunks|] == chunks;
  }

  /* ---------------- stream-SID lookup ---------------- */

  /** No key occurs twice. */
  predicate Distinct(keys: seq<string>) {
    forall i, j | 0 <= i < j < |keys| :: keys[i] != keys[j]
  }

  /** The call `calls[key]` is streaming on `streamSid` (`conv.get('stream_sid') == stream_sid`). */
  predicate OnStream(calls: map<string, CallRecord>, key: string, streamSid: Option<string>) {
    key in calls && calls[key].streamSid == streamSid
  }

  /** The linear search: the first key, in iteration order, whose call is on `streamSid`. */
  function FirstOnStream(keys: seq<string>, calls: map<string, CallRecord>, streamSid: Option<string>): (r: Option<string>)
    ensures r.Some? ==> r.value in keys && OnStream(calls, r.value, streamSid)
  {
    if keys == [] then None
    else if OnStream(calls, keys[0], streamSid) then Some(keys[0])
    else FirstOnStream(keys[1..], calls, streamSid)
  }

  /**
   * The search finds a key exactly when some key matches, and what it finds is
   * the earliest matching key.
   */
  lemma {:induction false} FirstOnStreamSpec(keys: seq<string>, calls: map<string, CallRecord>, streamSid: Option<string>)
    ensures FirstOnStream(keys, calls, streamSid).None? <==>
      forall i | 0 <= i < |keys| :: !OnStream(calls, keys[i], streamSid)
    ensures FirstOnStream(keys, calls, streamSid).Some? ==>
      exists i | 0 <= i < |keys| :: keys[i] == FirstOnStream(keys, calls, streamSid).value &&
        OnStream(calls, keys[i], streamSid) &&
        forall j | 0 <= j < i :: !OnStream(calls, keys[j], streamSid)
  {
    if keys != [] && !OnStream(calls, keys[0], streamSid) {
      FirstOnStreamSpec(keys[1..], calls, streamSid);
      var r := FirstOnStream(keys, calls, streamSid);
      if r.Some? {
        var i :| 0 <= i < |keys[1..]| && keys[1..][i] == r.value && OnStream(calls, keys[1..][i], streamSid) &&
          forall j | 0 <= j < i :: !OnStream(calls, keys[1..][j], streamSid);
        assert keys[i + 1] == r.value;
        forall j | 0 <= j < i + 1
          ensures !OnStream(calls, keys[j], streamSid)
        {
          if j > 0 {
            assert keys[j] == keys[1..][j - 1];
          }
        }
      } else {
        forall i | 0 <= i < |keys|
          ensures !OnStream(calls, keys[i], streamSid)
        {
          if i > 0 {
            assert keys[i] == keys[1..][i - 1];
          }
        }
      }
    }
  }

  /** `keys` with `key` removed, the others in their order: `del` on an insertion-ordered dict. */
  function Without(keys: seq<string>, key: string): (r: seq<string>)
    ensures forall k :: k in r <==> k in keys && k != key
    ensures key !in keys ==> r == keys
    ensures Distinct(keys) ==> Distinct(r)
  {
    if keys == [] then []
    else if keys[0] == key then Without(keys[1..], key)
    else
      var rest := Without(keys[1..], key);
      assert Distinct(keys) ==> keys[0] !in keys[1..];
      [keys[0]] + rest
  }

  /* ---------------- the media-stream socket ---------------- */

  /**
   * One message read from the Twilio media-stream socket, as the handler sees
   * it after `json.loads` and `data.get('event')`.
   */
  datatype Incoming =
    | Silent                                                 // `ws.receive()` gave an empty message
    | Unparseable                                            // `json.loads` raised
    | StartEvent(callSid: Option<string>, streamSid: Option<string>)
    | MediaEvent(streamSid: Option<string>, payload: Option<string>)
    | StopEvent(streamSid: Option<string>)
    | OtherEvent                                             // any other `event` value

  /** A message together with the clock reading when it arrived. */
  datatype Received = Received(at: int, message: Incoming)

  /**
   * How many messages the handler reads: all of them up to and including the
   * first `stop`, or all of them when none is a `stop` (the socket then closes
   * and `ws.receive()` raises, which ends the loop).
   */
  function Handled(received: seq<Received>): (n: nat)
    ensures n <= |received|
    ensures received != [] ==> n > 0
  {
    if received == [] then 0
    else if received[0].message.StopEvent? then 1
    else 1 + Handled(received[1..])
  }

  /** The handler stops right after the first `stop` and reads nothing after it. */
  lemma {:induction false} HandledStopsAtFirstStop(before: seq<Received>, stop: Received, after: seq<Received>)
    requires forall i | 0 <= i < |before| :: !before[i].message.StopEvent?
    requires stop.message.StopEvent?
    ensures Handled(before + [stop] + after) == |before| + 1
  {
    if before != [] {
      assert (before + [stop] + after)[1..] == before[1..] + [stop] + after;
      HandledStopsAtFirstStop(before[1..], stop, after);
    }
  }

  /** Without a `stop`, every message is read. */
  lemma {:induction false} HandledWithoutStop(received: seq<Received>)
    requires forall i | 0 <= i < |received| :: !received[i].message.StopEvent?
    ensures Handled(received) == |received|
  {
    if received != [] {
      HandledWithoutStop(received[1..]);
    }
  }

  /* ---------------- the registry ---------------- */

  /**
   * What a socket message does to the registry as a whole: the call records,
   * their iteration order, the map of streaming sessions and everything sent.
   * Audio fed to a session changes the session object, not these tables.
   */
  datatype Tables = Tables(
    calls: map<string, CallRecord>,
    order: seq<string>,
    sessions: map<string, Streaming.StreamingSession>,
    outbox: seq<Sent>)

  /** `order` lists each call SID of `calls` exactly once. */
  ghost predicate Ordered(t: Tables) {
    Distinct(t.order) && forall key :: key in t.order <==> key in t.calls
  }

  /**
   * The effect of one message on the tables: `start` connects a known call and
   * sends it the welcome, `stop` removes the earliest call on that stream from
   * every table, and every other message leaves the tables as they are.
   */
  function Step(t: Tables, ws: SocketId, message: Incoming, synthesize: string -> Synthesis,
                encode: Streaming.Bytes -> string): Tables
  {
    match message
    case StartEvent(callSid, streamSid) =>
      if callSid.Some? && callSid.value in t.calls then
        t.(calls := t.calls[callSid.value :=
             t.calls[callSid.value].(connected := true, streamSid := streamSid, websocket := Some(ws))],
           outbox := t.outbox + Delivered(Some(ws), ReplyMessages(streamSid, synthesize(WelcomeText), encode)))
      else t
    case StopEvent(streamSid) =>
      var target := FirstOnStream(t.order, t.calls, streamSid);
      if Present(target) then
        t.(calls := t.calls - {target.value}, order := Without(t.order, target.value),
           sessions := t.sessions - {target.value})
      else t
    case _ => t
  }

  /** The tables after the messages, applied oldest first. */
  function Run(t: Tables, ws: SocketId, messages: seq<Received>, synthesize: string -> Synthesis,
               encode: Streaming.Bytes -> string): Tables
  {
    if messages == [] then t
    else Step(Run(t, ws, messages[..|messages| - 1], synthesize, encode), ws,
              messages[|messages| - 1].message, synthesize, encode)
  }

  /**
   * One message never adds a call or a session, never takes back a sent
   * message, sends nothing unless it is a `start`, and keeps the iteration
   * order in step with the calls.
   */
  lemma StepShrinks(t: Tables, ws: SocketId, message: Incoming, synthesize: string -> Synthesis,
                    encode: Streaming.Bytes -> string)
    requires Ordered(t)
    ensures var u := Step(t, ws, message, synthesize, encode);
      Ordered(u) && u.calls.Keys <= t.calls.Keys && u.sessions.Keys <= t.sessions.Keys &&
      t.outbox <= u.outbox && (!message.StartEvent? ==> u.outbox == t.outbox)
  {
  }

  /** The same for a whole conversation on a socket: calls and sessions only go away, and the outbox only grows. */
  lemma {:induction false} RunShrinks(t: Tables, ws: SocketId, messages: seq<Received>,
                                      synthesize: string -> Synthesis, encode: Streaming.Bytes -> string)
    requires Ordered(t)
    ensures var u := Run(t, ws, messages, synthesize, encode);
      Ordered(u) && u.calls.Keys <= t.calls.Keys && u.sessions.Keys <= t.sessions.Keys && t.outbox <= u.outbox
    ensures (forall i | 0 <= i < |messages| :: !messages[i].message.StartEvent?) ==>
      Run(t, ws, messages, synthesize, encode).outbox == t.outbox
  {
    if messages != [] {
      var front := messages[..|messages| - 1];
      RunShrinks(t, ws, front, synthesize, encode);
      StepShrinks(Run(t, ws, front, synthesize, encode), ws, messages[|messages| - 1].message, synthesize, encode);
      if forall i | 0 <= i < |messages| :: !messages[i].message.StartEvent? {
        assert forall i | 0 <= i < |front| :: front[i] == messages[i];
      }
    }
  }

  class CallRegistry {
    /** `active_conversations`: call SID to call record. */
    var activeConversations: map<string, CallRecord>
    /** The iteration order of `active_conversations`: keys in insertion order. */
    var order: seq<string>
    /** `streaming_sessions`: call SID to its transcription session. */
    var streamingSessions: map<string, Streaming.StreamingSession>
    /** Every message written to any websocket, oldest first. */
    var outbox: seq<Sent>
    const conversation: Conversation.ConversationService
    const sessionStore: Sessions.SessionMiddleware

    /** `order` lists each active call SID exactly once. */
    ghost predicate Valid()
      reads this
    {
      Ordered(Snapshot())
    }

    /** The registry's tables as a value. */
    function Snapshot(): Tables
      reads this
    {
      Tables(activeConversations, order, streamingSessions, outbox)
    }

    constructor (conversation: Conversation.ConversationService, sessionStore: Sessions.SessionMiddleware)
      ensures Valid()
      ensures activeConversations == map[] && order == [] && streamingSessions == map[] && outbox == []
      ensures this.conversation == conversation && this.sessionStore == sessionStore
    {
      activeConversations := map[];
      order := [];
      streamingSessions := map[];
      outbox := [];
      this.conversation := conversation;
      this.sessionStore := sessionStore;
    }

    /**
     * `handle_voice`: store a fresh record for the call and, when the speech
     * backend is available, a started streaming session under the same call
     * SID. Re-using a call SID replaces its record but keeps its place in the
     * iteration order.
     */
    method HandleVoice(callSid: string, phoneNumber: string, now: int, speechAvailable: bool)
      requires Valid()
      modifies this
      ensures Valid()
      ensures activeConversations == old(activeConversations)[callSid := NewCall(callSid, phoneNumber, now)]
      ensures order == if callSid in old(activeConversations) then old(order) else old(order) + [callSid]
      ensures !speechAvailable ==> streamingSessions == old(streamingSessions)
      ensures speechAvailable ==>
        callSid in streamingSessions && fresh(streamingSessions[callSid]) &&
        streamingSessions == old(streamingSessions)[callSid := streamingSessions[callSid]] &&
        streamingSessions[callSid].sessionActive && !streamingSessions[callSid].closed &&
        streamingSessions[callSid].audioQueue == [] && streamingSessions[callSid].lastAudioTime == now
      ensures outbox == old(outbox)
    {
      if callSid !in activeConversations {
        order := order + [callSid];
      }
      activeConversations := activeConversations[callSid := NewCall(callSid, phoneNumber, now)];
      if speechAvailable {
        var session := new Streaming.StreamingSession(now);
        session.Start(now);
        streamingSessions := streamingSessions[callSid := session];
      }
    }

    /**
     * `send_twilio_ai_response`: synthesise `text` and write one media message
     * per non-empty chunk to `ws`, then a single empty-payload message if
     * synthesis failed. Without a socket nothing is written.
     */
    method SendAiResponse(text: string, streamSid: Option<string>, ws: Option<SocketId>,
                          synthesize: string -> Synthesis, encode: Streaming.Bytes -> string)
      modifies this
      ensures outbox == old(outbox) + Delivered(ws, ReplyMessages(streamSid, synthesize(text), encode))
      ensures activeConversations == old(activeConversations) && order == old(order)
      ensures streamingSessions == old(streamingSessions)
    {
      var synthesis := synthesize(text);
      if ws.None? {
        return;
      }
      var socket := ws.value;
      var sent := SendFrames(socket, streamSid, synthesis.chunks, encode);
      ghost var tail := if synthesis.failed then [MediaMessage(streamSid, "")] else [];
      DeliveredAppend(ws, MediaFrames(streamSid, synthesis.chunks, encode), tail);
      if synthesis.failed {
        sent := sent + [Sent(socket, MediaMessage(streamSid, ""))];
      }
      outbox := outbox + sent;
    }

    /**
     * `handle_twilio_stream_start`: for a known call, record the stream SID and
     * socket and mark it connected, then send the welcome message; an unknown
     * call changes nothing.
     */
    method HandleStreamStart(callSid: Option<string>, streamSid: Option<string>, ws: SocketId,
                             synthesize: string -> Synthesis, encode: Streaming.Bytes -> string)
      requires Valid()
      modifies this
      ensures Valid()
      ensures callSid.None? || callSid.value !in old(activeConversations) ==> unchanged(this)
      ensures callSid.Some? && callSid.value in old(activeConversations) ==>
        activeConversations == old(activeConversations)[callSid.value :=
          old(activeConversations)[callSid.value].(connected := true, streamSid := streamSid, websocket := Some(ws))] &&
        outbox == old(outbox) + Delivered(Some(ws), ReplyMessages(streamSid, synthesize(WelcomeText), encode))
      ensures order == old(order) && streamingSessions == old(streamingSessions)
    {
      if callSid.None? || callSid.value !in activeConversations {
        return;
      }
      var key := callSid.value;
      var record := activeConversations[key];
      activeConversations := activeConversations[key := record.(connected := true, streamSid := streamSid, websocket := Some(ws))];
      SendAiResponse(WelcomeText, streamSid, Some(ws), synthesize, encode);
    }

    /** The stream-SID lookup of the media and stop handlers, as a loop over the iteration order. */
    method FindCallByStream(streamSid: Option<string>) returns (callSid: Option<string>)
      ensures callSid == FirstOnStream(order, activeConversations, streamSid)
    {
      var i := 0;
      while i < |order|
        invariant 0 <= i <= |order|
        invariant FirstOnStream(order, activeConversations, streamSid) ==
          FirstOnStream(order[i..], activeConversations, streamSid)
      {
        assert order[i..][1..] == order[i + 1..];
        if OnStream(activeConversations, order[i], streamSid) {
          return Some(order[i]);
        }
        i := i + 1;
      }
      return None;
    }

    /**
     * `handle_twilio_media_chunk`: the payload of a media frame, decoded to
     * linear PCM, goes to the streaming session of the call on that stream. An
     * unknown stream, an empty or missing payload, an undecodable payload or a
     * call without a session changes nothing.
     */
    method HandleMediaChunk(streamSid: Option<string>, payload: Option<string>, now: int,
                            decodeAudio: string -> Option<Streaming.Bytes>)
      modifies streamingSessions.Values
      ensures var target := FirstOnStream(order, activeConversations, streamSid);
        var feeds := Present(target) && Present(payload) && decodeAudio(payload.value).Some? &&
          target.value in streamingSessions;
        (!feeds ==> forall s | s in streamingSessions.Values :: unchanged(s)) &&
        (feeds ==>
          var session := streamingSessions[target.value];
          (forall s | s in streamingSessions.Values && s != session :: unchanged(s)) &&
          (old(session.sessionActive) && !old(session.closed) ==>
            session.audioQueue == old(session.audioQueue) + [Some(decodeAudio(payload.value).value)] &&
            session.lastAudioTime == now && session.sessionActive && !session.closed) &&
          (!old(session.sessionActive) || old(session.closed) ==> unchanged(session)))
    {
      var callSid := FindCallByStream(streamSid);
      if Present(callSid) && callSid.value in activeConversations && Present(payload) {
        var pcm := decodeAudio(payload.value);
        if pcm.Some? && callSid.value in streamingSessions {
          streamingSessions[callSid.value].AddAudioData(pcm.value, now);
        }
      }
    }

    /** The first step of `cleanup_conversation`: stop and drop the call's streaming session, if any. */
    method StopStreaming(callSid: string)
      modifies this, streamingSessions.Values
      ensures streamingSessions == old(streamingSessions) - {callSid}
      ensures streamingSessions.Values <= old(streamingSessions.Values)
      ensures activeConversations == old(activeConversations) && order == old(order) && outbox == old(outbox)
      ensures callSid in old(streamingSessions) ==>
        var stopped := old(streamingSessions)[callSid];
        !stopped.sessionActive && stopped.closed && stopped.audioQueue == old(stopped.audioQueue) + [None] &&
        forall s | s in old(streamingSessions.Values) && s != stopped :: unchanged(s)
      ensures callSid !in old(streamingSessions) ==>
        unchanged(this) && forall s | s in old(streamingSessions.Values) :: unchanged(s)
    {
      if callSid in streamingSessions {
        streamingSessions[callSid].Stop();
        streamingSessions := streamingSessions - {callSid};
      }
      assert streamingSessions.Values <= old(streamingSessions.Values) by {
        forall s | s in streamingSessions.Values
          ensures s in old(streamingSessions.Values)
        {
          var k :| k in streamingSessions && streamingSessions[k] == s;
          assert k in old(streamingSessions);
        }
      }
    }

    /** The second step of `cleanup_conversation`: drop the call's record, if any. */
    method ForgetCall(callSid: string)
      requires Valid()
      modifies this
      ensures Valid()
      ensures activeConversations == old(activeConversations) - {callSid}
      ensures order == Without(old(order), callSid)
      ensures streamingSessions == old(streamingSessions) && outbox == old(outbox)
      ensures callSid !in old(activeConversations) ==> unchanged(this)
    {
      if callSid in activeConversations {
        activeConversations := activeConversations - {callSid};
        order := Without(order, callSid);
      }
    }

    /**
     * `cleanup_conversation`: stop the call's streaming session, then drop the
     * call from both maps. Every other entry is untouched, and on a call that
     * is already gone it changes nothing.
     */
    method CleanupConversation(callSid: string)
      requires Valid()
      modifies this, streamingSessions.Values
      ensures Valid()
      ensures activeConversations == old(activeConversations) - {callSid}
      ensures order == Without(old(order), callSid)
      ensures streamingSessions == old(streamingSessions) - {callSid}
      ensures streamingSessions.Values <= old(streamingSessions.Values)
      ensures outbox == old(outbox)
      ensures callSid in old(streamingSessions) ==>
        var stopped := old(streamingSessions)[callSid];
        !stopped.sessionActive && stopped.closed && stopped.audioQueue == old(stopped.audioQueue) + [None] &&
        forall s | s in old(streamingSessions.Values) && s != stopped :: unchanged(s)
      ensures callSid !in old(streamingSessions) ==> forall s | s in old(streamingSessions.Values) :: unchanged(s)
      ensures callSid !in old(activeConversations) && callSid !in old(streamingSessions) ==> unchanged(this)
    {
      StopStreaming(callSid);
      ForgetCall(callSid);
    }

    /** `handle_twilio_stream_stop`: clean up the call on that stream, if there is one. */
    method HandleStreamStop(streamSid: Option<string>)
      requires Valid()
      modifies this, streamingSessions.Values
      ensures Valid()
      ensures var target := FirstOnStream(old(order), old(activeConversations), streamSid);
        if Present(target) then
          activeConversations == old(activeConversations) - {target.value} &&
          order == Without(old(order), target.value) &&
          streamingSessions == old(streamingSessions) - {target.value}
        else
          unchanged(this) && forall s | s in old(streamingSessions.Values) :: unchanged(s)
      ensures var target := FirstOnStream(old(order), old(activeConversations), streamSid);
        Present(target) && target.value in old(streamingSessions) ==>
          var stopped := old(streamingSessions)[target.value];
          !stopped.sessionActive && stopped.closed && stopped.audioQueue == old(stopped.audioQueue) + [None] &&
          forall s | s in old(streamingSessions.Values) && s != stopped :: unchanged(s)
      ensures var target := FirstOnStream(old(order), old(activeConversations), streamSid);
        Present(target) && target.value !in old(streamingSessions) ==>
          forall s | s in old(streamingSessions.Values) :: unchanged(s)
      ensures streamingSessions.Values <= old(streamingSessions.Values)
      ensures outbox == old(outbox)
    {
      var callSid := FindCallByStream(streamSid);
      if Present(callSid) {
        CleanupConversation(callSid.value);
      }
    }

    /**
     * One turn of the socket loop: a message is routed to its handler by its
     * `event`, and the tables change as `Step` says. A `start` touches no
     * session; a `media` frame feeds the session of the call on its stream, as
     * `HandleMediaChunk` does; a `stop` stops the session of the call it
     * removes; empty, unparseable and unknown messages change nothing.
     */
    method Dispatch(ws: SocketId, received: Received, synthesize: string -> Synthesis, encode: Streaming.Bytes -> string,
                    decodeAudio: string -> Option<Streaming.Bytes>)
      requires Valid()
      modifies this, streamingSessions.Values
      ensures Valid()
      ensures Snapshot() == Step(old(Snapshot()), ws, received.message, synthesize, encode)
      ensures activeConversations.Keys <= old(activeConversations.Keys)
      ensures streamingSessions.Values <= old(streamingSessions.Values)
      ensures old(outbox) <= outbox
      ensures !received.message.StartEvent? ==> outbox == old(outbox)
      ensures received.message.StartEvent? ==> forall s | s in old(streamingSessions.Values) :: unchanged(s)
      ensures received.message.MediaEvent? ==>
        var streamSid, payload := received.message.streamSid, received.message.payload;
        var target := FirstOnStream(order, activeConversations, streamSid);
        var feeds := Present(target) && Present(payload) && decodeAudio(payload.value).Some? &&
          target.value in streamingSessions;
        (!feeds ==> forall s | s in streamingSessions.Values :: unchanged(s)) &&
        (feeds ==>
          var session := streamingSessions[target.value];
          (forall s | s in streamingSessions.Values && s != session :: unchanged(s)) &&
          (old(session.sessionActive) && !old(session.closed) ==>
            session.audioQueue == old(session.audioQueue) + [Some(decodeAudio(payload.value).value)] &&
            session.lastAudioTime == received.at && session.sessionActive && !session.closed) &&
          (!old(session.sessionActive) || old(session.closed) ==> unchanged(session)))
      ensures received.message.StopEvent? ==>
        var target := FirstOnStream(old(order), old(activeConversations), received.message.streamSid);
        if Present(target) && target.value in old(streamingSessions) then
          var stopped := old(streamingSessions)[target.value];
          !stopped.sessionActive && stopped.closed && stopped.audioQueue == old(stopped.audioQueue) + [None] &&
          forall s | s in old(streamingSessions.Values) && s != stopped :: unchanged(s)
        else
          forall s | s in old(streamingSessions.Values) :: unchanged(s)
      ensures received.message.Silent? || received.message.Unparseable? || received.message.OtherEvent? ==>
        unchanged(this) && forall s | s in old(streamingSessions.Values) :: unchanged(s)
    {
      StepShrinks(Snapshot(), ws, received.message, synthesize, encode);
      match received.message
      case StartEvent(callSid, streamSid) =>
        HandleStreamStart(callSid, streamSid, ws, synthesize, encode);
      case MediaEvent(streamSid, payload) =>
        HandleMediaChunk(streamSid, payload, received.at, decodeAudio);
      case StopEvent(streamSid) =>
        HandleStreamStop(streamSid);
      case _ =>
    }

    /**
     * The `/ws` handler: read and dispatch messages until the first `stop`
     * (inclusive) or until the socket runs dry. Returns how many messages were
     * read; the tables end as `Run` of those messages says.
     */
    method Serve(ws: SocketId, received: seq<Received>, synthesize: string -> Synthesis, encode: Streaming.Bytes -> string,
                 decodeAudio: string -> Option<Streaming.Bytes>) returns (handled: nat)
      requires Valid()
      modifies this, streamingSessions.Values
      ensures Valid()
      ensures handled == Handled(received)
      ensures Snapshot() == Run(old(Snapshot()), ws, received[..handled], synthesize, encode)
      ensures activeConversations.Keys <= old(activeConversations.Keys)
      ensures streamingSessions.Values <= old(streamingSessions.Values)
      ensures old(outbox) <= outbox
    {
      handled := 0;
      assert received[0..] == received;
      while handled < |received|
        invariant handled <= |received|
        invariant Handled(received) == handled + Handled(received[handled..])
        invariant Valid()
        invariant Snapshot() == Run(old(Snapshot()), ws, received[..handled], synthesize, encode)
        invariant activeConversations.Keys <= old(activeConversations.Keys)
        invariant streamingSessions.Values <= old(streamingSessions.Values)
        invariant old(outbox) <= outbox
        decreases |received| - handled
      {
        var next := received[handled];
        Dispatch(ws, next, synthesize, encode, decodeAudio);
        assert received[..handled + 1][..handled] == received[..handled];
        assert received[handled..][1..] == received[handled + 1..];
        handled := handled + 1;
        if next.message.StopEvent? {
          return;
        }
      }
    }

    /**
     * `process_transcription_result` for a final transcript of `callSid`:
     * nothing happens for an unknown call or a blank transcript; a farewell is
     * answered with the goodbye message and ends the call without asking the
     * model; anything else is answered by the conversation service, the reply
     * is spoken when the call has a stream and a socket, and the caller's
     * session records the exchange. Only a farewell touches a streaming
     * session: the call's own, which it stops.
     */
    method ProcessTranscriptionResult(callSid: string, userText: string, now: int,
                                      generate: string -> Option<string>,
                                      synthesize: string -> Synthesis, encode: Streaming.Bytes -> string)
      requires Valid() && conversation.Valid()
      modifies this, conversation, sessionStore, streamingSessions.Values
      ensures Valid() && conversation.Valid()
      ensures callSid !in old(activeConversations) || Strip(userText) == [] ==>
        unchanged(this) && unchanged(conversation) && unchanged(sessionStore) &&
        forall s | s in old(streamingSessions.Values) :: unchanged(s)
      ensures callSid in old(activeConversations) && Strip(userText) != [] ==>
        var call := old(activeConversations)[callSid];
        if EndDetection.DetectConversationEnd(userText) then
          outbox == old(outbox) + Delivered(call.websocket, ReplyMessages(call.streamSid, synthesize(GoodbyeText), encode)) &&
          activeConversations == old(activeConversations) - {callSid} &&
          order == Without(old(order), callSid) &&
          streamingSessions == old(streamingSessions) - {callSid} &&
          unchanged(conversation) && unchanged(sessionStore)
        else
          var generated :=
            generate(Conversation.Prompt(Conversation.BuildContext(ReplyLanguage), old(conversation.HistoryOf(call.phoneNumber)), userText));
          var reply := Conversation.ResponseText(conversation.hasModel, generated);
          conversation.history ==
            Conversation.RespondedHistories(conversation.hasModel, old(conversation.history), call.phoneNumber, userText, generated) &&
          outbox == old(outbox) +
            (if Present(call.streamSid) && call.websocket.Some?
             then Delivered(call.websocket, ReplyMessages(call.streamSid, synthesize(reply), encode)) else []) &&
          activeConversations == old(activeConversations) && order == old(order) &&
          streamingSessions == old(streamingSessions) &&
          sessionStore.sessions ==
            Sessions.Touched(old(sessionStore.sessions), call.phoneNumber, ActivityUpdate(now, userText, reply))
      ensures callSid in old(activeConversations) && Strip(userText) != [] ==>
        if EndDetection.DetectConversationEnd(userText) && callSid in old(streamingSessions) then
          var stopped := old(streamingSessions)[callSid];
          !stopped.sessionActive && stopped.closed && stopped.audioQueue == old(stopped.audioQueue) + [None] &&
          forall s | s in old(streamingSessions.Values) && s != stopped :: unchanged(s)
        else
          forall s | s in old(streamingSessions.Values) :: unchanged(s)
    {
      if callSid !in activeConversations {
        return;
      }
      var call := activeConversations[callSid];
      var phone := call.phoneNumber;
      if userText == [] || Strip(userText) == [] {
        return;
      }
      if EndDetection.DetectConversationEnd(userText) {
        SayGoodbye(callSid, synthesize, encode);
        return;
      }
      AnswerTranscript(call, userText, now, generate, synthesize, encode);
    }

    /**
     * The farewell branch of `process_transcription_result`: speak the goodbye
     * to the call's socket, then clean the call up.
     */
    method SayGoodbye(callSid: string, synthesize: string -> Synthesis, encode: Streaming.Bytes -> string)
      requires Valid() && callSid in activeConversations
      modifies this, streamingSessions.Values
      ensures Valid()
      ensures var call := old(activeConversations)[callSid];
        outbox == old(outbox) + Delivered(call.websocket, ReplyMessages(call.streamSid, synthesize(GoodbyeText), encode))
      ensures activeConversations == old(activeConversations) - {callSid}
      ensures order == Without(old(order), callSid)
      ensures streamingSessions == old(streamingSessions) - {callSid}
      ensures callSid in old(streamingSessions) ==>
        var stopped := old(streamingSessions)[callSid];
        !stopped.sessionActive && stopped.closed && stopped.audioQueue == old(stopped.audioQueue) + [None] &&
        forall s | s in old(streamingSessions.Values) && s != stopped :: unchanged(s)
      ensures callSid !in old(streamingSessions) ==> forall s | s in old(streamingSessions.Values) :: unchanged(s)
    {
      var call := activeConversations[callSid];
      SendAiResponse(GoodbyeText, call.streamSid, call.websocket, synthesize, encode);
      CleanupConversation(callSid);
    }

    /**
     * The reply branch of `process_transcription_result`: ask the conversation
     * service, speak the reply when the call has a stream SID and a socket, and
     * record the turn in the caller's session. The registry's maps stay as they are.
     */
    method AnswerTranscript(call: CallRecord, userText: string, now: int,
                            generate: string -> Option<string>,
                            synthesize: string -> Synthesis, encode: Streaming.Bytes -> string)
      requires Valid() && conversation.Valid()
      modifies this, conversation, sessionStore
      ensures Valid() && conversation.Valid()
      ensures var generated :=
          generate(Conversation.Prompt(Conversation.BuildContext(ReplyLanguage), old(conversation.HistoryOf(call.phoneNumber)), userText));
        var reply := Conversation.ResponseText(conversation.hasModel, generated);
        conversation.history ==
          Conversation.RespondedHistories(conversation.hasModel, old(conversation.history), call.phoneNumber, userText, generated) &&
        outbox == old(outbox) +
          (if Present(call.streamSid) && call.websocket.Some?
           then Delivered(call.websocket, ReplyMessages(call.streamSid, synthesize(reply), encode)) else []) &&
        sessionStore.sessions ==
          Sessions.Touched(old(sessionStore.sessions), call.phoneNumber, ActivityUpdate(now, userText, reply))
      ensures activeConversations == old(activeConversations) && order == old(order)
      ensures streamingSessions == old(streamingSessions)
    {
      ghost var generated :=
        generate(Conversation.Prompt(Conversation.BuildContext(ReplyLanguage), conversation.HistoryOf(call.phoneNumber), userText));
      ghost var sessionsBefore := sessionStore.sessions;
      assert sessionStore as object != conversation as object;
      var reply := conversation.GetConversationResponse(userText, call.phoneNumber, ReplyLanguage, generate);
      assert reply == Conversation.ResponseText(conversation.hasModel, generated);
      assert sessionStore.sessions == sessionsBefore;
      assert activeConversations == old(activeConversations) && order == old(order);
      assert streamingSessions == old(streamingSessions) && outbox == old(outbox);
      ghost var histories := conversation.history;
      if Present(call.streamSid) && call.websocket.Some? {
        SendAiResponse(reply, call.streamSid, call.websocket, synthesize, encode);
      }
      RecordActivity(call.phoneNumber, now, userText, reply);
      assert sessionStore.sessions == Sessions.Touched(sessionsBefore, call.phoneNumber, ActivityUpdate(now, userText, reply));
      assert conversation.history == histories;
    }

    /** The session update at the end of `process_transcription_result`: the stored (or default) record, merged with the turn. */
    method RecordActivity(phone: string, now: int, userText: string, reply: string)
      modifies sessionStore
      ensures sessionStore.sessions == Sessions.Touched(old(sessionStore.sessions), phone, ActivityUpdate(now, userText, reply))
    {
      var record := sessionStore.GetSession(phone);
      ghost var stored := record;
      record := record + ActivityUpdate(now, userText, reply);
      Sessions.MergeWithUpdated(stored, ActivityUpdate(now, userText, reply));
      sessionStore.UpdateSession(phone, record);
    }
  }

  /** The keys `process_transcription_result` writes into the caller's session. */
  function ActivityUpdate(now: int, userText: string, reply: string): Sessions.Record {
    map[
      Sessions.LastActivity := Sessions.TimeValue(now),
      "last_user_input" := Sessions.StrValue(userText),
      "last_ai_response" := Sessions.StrValue(reply)
    ]
  }
}
