# Real-time Arabic voice assistant — call pipeline model

This project models, in Dafny, the core of a Flask/Twilio telephone assistant.
The design is as follows. A caller dials in, and Twilio posts to `/voice`. The
service records the call, opens a streaming speech-recognition session for it
and tells Twilio to open a media-stream websocket. On that socket Twilio sends
`start`, `media` and `stop` events. The audio goes to the streaming session.
Each final transcript is answered by a language model, through a per-caller
conversation history, and the answer is spoken back over the socket. A
farewell phrase ends the call.

The code as written does not get that far, in three ways:

- **The `/voice` route cannot be registered.** It is decorated with
  `@twilio_middleware`, `@session_middleware` and `@request_logger`
  (app/routes/real_time_api_routes.py:131-133). These are instances, not
  functions, and `RequestLogger` has no `__call__`. Applying the decorator
  raises `TypeError` when the module is imported, so the import at
  app/__init___realtime.py:24 fails. The model treats the handler bodies as if
  the route were registered.
- **`/voice` always answers with the error TwiML.** After storing the call
  record and starting the session, `handle_voice` calls
  `twilio_service.create_stream_response`
  (app/routes/real_time_api_routes.py:182). `TwilioService` defines no such
  method, so the call raises `AttributeError`. The handler's own
  `except Exception` (app/routes/real_time_api_routes.py:188-191) catches it
  and returns the `create_error_response` TwiML. Twilio is never told to open
  the media stream. The call record and the started session stay in their
  dicts. `Registry.CallRegistry.HandleVoice` states those state effects, which
  happen before the failing call; the TwiML it would return is not modelled.
- **No transcript is produced during a live call.** The recognition thread
  reads the audio generator to its end before calling the recognizer
  (app/services/google_speech_service.py:251). The generator ends only at
  `stop` or after 300 seconds without audio. After `stop` the session is
  closed, and the response loop breaks at its first response
  (app/services/google_speech_service.py:258-259). So transcripts are reported
  only when the caller's audio stops for the idle timeout while the session
  stays open. `Streaming.ClosedLoopReportsOnlyFailure` states the closed case;
  `Streaming.StreamingSession.RecognitionLoop` states both.

The model consists of these modules:

- `Text` (`text.dfy`): the parts of Python's `str` the pipeline relies on.
  - `lower()` and `strip()` are modelled on ASCII.
  - `p in s` is the substring test.
- `EndDetection` (`end_detection.dfy`): `detect_conversation_end`.
  - It searches ten fixed Arabic and English phrases as case-insensitive substrings.
- `Conversation` (`conversation.dfy`): the `ConversationService` class. It holds:
  - the per-phone history, capped at 10 exchanges;
  - the prompt, built from the persona text and the last 5 exchanges;
  - the reply and error texts.
- `Sessions` (`sessions.dfy`): `SessionMiddleware`, the per-caller session store, with
  - its age-based cleanup, including the `TypeError` it raises on a non-datetime `last_activity`;
  - the HTTP method check of the Twilio request decorator.
- `Streaming` (`streaming.dfy`): the `StreamingSession` class. It covers:
  - the audio queue with its `None` sentinel, and the generator that drains it;
  - the idle timeout;
  - the recognition loop, whose callback invocations become a returned sequence of events;
  - the result selection of the one-shot `transcribe_audio_bytes`.
- `Registry` (`registry.dfy`): the `active_conversations` and `streaming_sessions` dicts
  as the `CallRegistry` class. It models:
  - the dicts' insertion order;
  - the stream-SID lookup;
  - every Twilio event handler and the `/ws` message loop;
  - the transcript handler;
  - the reply sender. What is written to each socket is kept as an outbox.

Clocks, the speech backend, the language model, speech synthesis, base64 and
µ-law conversion are parameters, so every contract holds for any backend
behaviour. The threads the source starts (the recognition thread, the delayed
welcome and the per-transcript handler) run here as ordinary sequential calls.

Stream-SID lookup compares optional values, as the source's `conv.get('stream_sid') == stream_sid` does.
So a `media` or `stop` event without a `streamSid` matches the first call whose stream has not
started yet. `Registry.FirstOnStreamSpec` states this behaviour.

## Model

| member | source | states |
|---|---|---|
| Text.Lower | app/services/twilio_service.py:162 | lower-casing keeps the length of the text |
| Text.LowerIdempotent | app/services/twilio_service.py:162 | lower-casing a lower-cased text changes nothing |
| Text.ContainsLower | app/services/twilio_service.py:162-163 | a substring stays a substring after both texts are lower-cased |
| Text.ContainsTransitive | app/services/twilio_service.py:163 | a substring of a substring is a substring |
| Text.StripLeftSpec | app/services/conversation_service.py:54 | left stripping removes exactly a leading run of whitespace and leaves a suffix that does not start with whitespace |
| Text.StripRightSpec | app/services/conversation_service.py:54 | right stripping removes exactly a trailing run of whitespace and leaves a prefix that does not end with whitespace |
| Text.Strip | app/services/conversation_service.py:54 | `str.strip()` on ASCII whitespace: `rstrip` after `lstrip`; what it removes and keeps is stated by `Text.StripTrims`, `Text.StripSpec` and `Text.StripIdempotent` |
| Text.StripSpec | app/services/google_speech_service.py:111 | `strip()` gives a contiguous piece of the text with no whitespace at either end, and it is empty exactly when the text is all whitespace |
| Text.StripTrims | app/services/conversation_service.py:54 | `strip()` removes exactly a leading and a trailing run of whitespace: the text is whitespace, then the result, then whitespace |
| Text.StripIdempotent | app/services/conversation_service.py:54 | stripping twice is stripping once |
| EndDetection.DetectConversationEnd | app/services/twilio_service.py:147-163 | `detect_conversation_end`: the ten fixed phrases searched in the lower-cased input; its meaning is stated by `EndDetection.DetectConversationEndIff`, its case and substring behaviour by the lemmas below |
| EndDetection.AnyPhraseInIff | app/services/twilio_service.py:163 | `any(...)` over the phrase list holds exactly when some phrase of the list occurs in the text |
| EndDetection.DetectConversationEndIff | app/services/twilio_service.py:157-163 | the call ends exactly when one of the ten phrases is a substring of the lower-cased input (both directions) |
| EndDetection.DetectIgnoresCase | app/services/twilio_service.py:162 | an input and its lower-cased form get the same verdict |
| EndDetection.DetectUpwardClosed | app/services/twilio_service.py:162-163 | any text that contains a text that ends the call ends it too |
| EndDetection.PhrasesNonEmpty | app/services/twilio_service.py:157-160 | no end phrase is empty |
| EndDetection.EmptyDoesNotEnd | app/services/twilio_service.py:157-163 | the empty transcript never ends the call |
| EndDetection.UpperCasePhrasesEnd | app/services/twilio_service.py:162-163 | "BYE" and "Thank You" end the call |
| EndDetection.EnglishFarewellEnds | app/services/twilio_service.py:159-163 | an English phrase inside a longer sentence ends the call |
| EndDetection.ArabicFarewellEnds | app/services/twilio_service.py:158-163 | an Arabic farewell after a thank-you ends the call |
| EndDetection.PhraseInsideWordEnds | app/services/twilio_service.py:159-163 | phrases match inside words: "thanksgiving" ends the call |
| EndDetection.QuestionLacksArabicPhrases | app/services/twilio_service.py:158 | no Arabic phrase occurs in an all-ASCII question |
| EndDetection.QuestionLacksEnglishPhrases | app/services/twilio_service.py:159 | no English phrase occurs in the question "what is the weather" |
| EndDetection.QuestionDoesNotEnd | app/services/twilio_service.py:157-163 | an ordinary question does not end the call |
| Conversation.BuildContext | app/services/conversation_service.py:67-86 | `_build_context`: the Syrian-Arabic persona when the language name lower-cases to "arabic", the English one otherwise; stated by `Conversation.LanguageChoiceAnyName` and `Conversation.ContextMatchesWelcome` |
| Conversation.WelcomeMessage | app/services/conversation_service.py:123-128 | `get_welcome_message`: the greeting in the same language choice as the persona; stated by `Conversation.ContextMatchesWelcome` |
| Conversation.ContextMatchesWelcome | app/services/conversation_service.py:67-86 | the persona text and the welcome message always agree on the language (both directions) |
| Conversation.LanguageChoiceAnyName | app/services/conversation_service.py:67-86 | for every language name: its case does not change the persona or the greeting; the Arabic persona is chosen exactly when the name lower-cases to "arabic"; any other name selects the English persona and greeting |
| Conversation.LanguageChoice | app/services/conversation_service.py:69 | examples: "arabic", "Arabic" and "ARABIC" select the Arabic persona, "english" the English persona and greeting |
| Conversation.Recorded | app/services/conversation_service.py:104-116 | after recording, the history holds one more exchange below the cap and exactly 10 at it, and the new exchange is last |
| Conversation.RecordedEvictsOldest | app/services/conversation_service.py:109-116 | below the cap the exchange is appended; at the cap the oldest one is evicted first |
| Conversation.RecentHistory | app/services/conversation_service.py:94 | `history[-5:] if len(history) > 5 else history`; stated by `Conversation.RecentHistoryIsSuffix` |
| Conversation.RecentHistoryIsSuffix | app/services/conversation_service.py:94 | the prompt history is the last min(5, n) exchanges, in order |
| Conversation.RenderHistoryAppend | app/services/conversation_service.py:96-98 | rendering a list of exchanges distributes over concatenation |
| Conversation.RenderHistoryContains | app/services/conversation_service.py:96-98 | every exchange of a list is rendered, whole, inside the rendering of the list |
| Conversation.Prompt | app/services/conversation_service.py:88-102 | the prompt string of `_build_conversation_prompt`: persona, blank line, rendered recent history, then the user turn and the assistant cue; stated by `Conversation.PromptShape` and `Conversation.PromptIgnoresOlderHistory`, and the loop that builds it by `BuildConversationPrompt` |
| Conversation.PromptIgnoresOlderHistory | app/services/conversation_service.py:92-94 | exchanges older than the last five never affect the prompt |
| Conversation.PromptShape | app/services/conversation_service.py:88-102 | for every history, including an empty one: the prompt starts with the persona and a blank line, contains every recent exchange, and ends with the new input followed by the assistant cue |
| Conversation.ResponseEffects | app/services/conversation_service.py:26-65 | the caller's entry exists after a model is asked; it gains the exchange exactly when generation succeeds; every history stays within the cap; other callers are untouched; the reply is the apology, the error text or the stripped generation |
| Conversation.ConversationService.constructor | app/services/conversation_service.py:13-24 | a new service has no history and records whether a model is configured |
| Conversation.ConversationService.UpdateConversationHistory | app/services/conversation_service.py:104-116 | only the caller's history changes, and it becomes the capped history with the exchange appended; the cap invariant is kept |
| Conversation.ConversationService.ClearConversation | app/services/conversation_service.py:118-121 | the caller's history is removed; for an unknown caller nothing changes |
| Conversation.ConversationService.BuildConversationPrompt | app/services/conversation_service.py:88-102 | the string built by the `+=` loop equals the prompt specification for the caller's stored history |
| Conversation.ConversationService.GetConversationResponse | app/services/conversation_service.py:26-65 | with no model: the apology and no state change; otherwise the model sees the prompt for the caller's history, and the reply and new histories are those `ResponseEffects` describes |
| Sessions.Judge | app/middleware/request_handler.py:129-131 | the test `last_activity and last_activity < cutoff_time` on one session: keep, expire, or the comparison that raises `TypeError`; stated by `Sessions.ExpiredKeysExactly` and `Sessions.SessionMiddleware.CleanupOldSessions` |
| Sessions.ExpiredKeys | app/middleware/request_handler.py:128-132 | only stored callers are collected for removal |
| Sessions.ExpiredKeysExactly | app/middleware/request_handler.py:129-132 | a session is collected exactly when its `last_activity` is a timestamp older than the cutoff; a `None` one never is |
| Sessions.CleanupIdempotent | app/middleware/request_handler.py:117-135 | after a cleanup nothing is left to expire at the same cutoff |
| Sessions.ExpiredKeysMonotonic | app/middleware/request_handler.py:126-132 | a later cutoff expires at least the sessions an earlier one does |
| Sessions.DefaultRecordKept | app/middleware/request_handler.py:83-90 | a fresh default session is never expired and never makes cleanup fail |
| Sessions.MergeWithUpdated | app/middleware/request_handler.py:102-103 | updating a stored record with an already-updated copy of itself applies the update once |
| Sessions.CheckMethod | app/middleware/request_handler.py:26-28 | a request is rejected exactly when its method is neither POST nor GET, with status 405 and "Method not allowed" |
| Sessions.SessionMiddleware.constructor | app/middleware/request_handler.py:69-71 | the store starts empty |
| Sessions.SessionMiddleware.GetSession | app/middleware/request_handler.py:73-92 | a known caller's record is returned unchanged; an unknown caller gets the default record, which is also stored |
| Sessions.SessionMiddleware.UpdateSession | app/middleware/request_handler.py:94-105 | a known record is merged (keys of the update win, others stay); an unknown caller's record becomes the update |
| Sessions.SessionMiddleware.ClearSession | app/middleware/request_handler.py:107-115 | the caller is forgotten; an unknown caller changes nothing |
| Sessions.SessionMiddleware.CleanupOldSessions | app/middleware/request_handler.py:117-137 | if every `last_activity` is comparable, exactly the expired callers are removed and their number returned; otherwise nothing is removed |
| Streaming.Drain | app/services/google_speech_service.py:221-240 | the generator never consumes more than the queue holds |
| Streaming.DrainTakesPrefix | app/services/google_speech_service.py:221-240 | the generator yields a prefix of the queue in FIFO order, followed by the first sentinel or the end of the queue |
| Streaming.Enqueued | app/services/google_speech_service.py:202-203 | enqueueing chunks puts exactly those chunks in the queue, in order |
| Streaming.DrainStopsAtSentinel | app/services/google_speech_service.py:207-232 | chunks enqueued before `stop`'s sentinel come out in order, the sentinel is consumed and nothing after it is |
| Streaming.DrainWithoutSentinel | app/services/google_speech_service.py:223-234 | with no sentinel, the whole queue is yielded in order |
| Streaming.LoopCallbacks | app/services/google_speech_service.py:255-296 | everything the recognition loop reports for one backend outcome; stated by `Streaming.ClosedLoopReportsOnlyFailure` and used by `Streaming.StreamingSession.RecognitionLoop` |
| Streaming.ResultsCallbacksAppend | app/services/google_speech_service.py:268-284 | the callbacks of two result lists are those of the first, then the second |
| Streaming.ResponsesCallbacksAppend | app/services/google_speech_service.py:257-284 | the same for response lists: dispatch preserves order |
| Streaming.ResultsCallbacksSources | app/services/google_speech_service.py:268-284 | every callback comes from a result with alternatives: final from final and interim from interim, carrying the stripped first transcript; results never fire errors |
| Streaming.ErrorResponseFiresOnlyError | app/services/google_speech_service.py:261-266 | an error-coded response fires exactly one error callback and none of its results |
| Streaming.ClosedLoopReportsOnlyFailure | app/services/google_speech_service.py:257-259 | a closed session reports no transcript, at most the backend's exception |
| Streaming.SelectTranscript | app/services/google_speech_service.py:102-123 | a transcript is returned exactly when the call succeeded and the first result has an alternative; it is that alternative's transcript stripped, which `Text.StripTrims` and `Text.StripSpec` characterise as the text minus a leading and a trailing run of whitespace |
| Streaming.SelectTranscriptMatchesFirstFinal | app/services/google_speech_service.py:107-111 | one-shot and streaming recognition agree: a final first result gives the one-shot transcript as the first streaming callback |
| Streaming.StreamingSession.constructor | app/services/google_speech_service.py:152-172 | a new session is inactive and open, with an empty queue and the current time as last audio time |
| Streaming.StreamingSession.Start | app/services/google_speech_service.py:174-188 | starting an active session changes nothing; otherwise the session becomes active and open with the clock reset and the queue kept |
| Streaming.StreamingSession.AddAudioData | app/services/google_speech_service.py:190-205 | audio is ignored unless the session is active and open; otherwise it joins the tail of the queue and the clock is reset |
| Streaming.StreamingSession.Stop | app/services/google_speech_service.py:207-219 | the session becomes inactive and closed, and the sentinel joins the queue |
| Streaming.StreamingSession.AudioGenerator | app/services/google_speech_service.py:221-240 | nothing is yielded on a closed or idle session; otherwise it yields what `Drain` specifies and exactly the consumed items leave the queue |
| Streaming.StreamingSession.RecognitionLoop | app/services/google_speech_service.py:242-300 | the backend gets the configuration and one request per drained chunk; the callbacks are those `LoopCallbacks` specifies; the session always ends inactive; the queue loses exactly what the generator consumed, and the clock is unchanged |
| Streaming.DispatchResults | app/services/google_speech_service.py:268-284 | the inner loop fires exactly the callbacks the result-list specification gives |
| Streaming.AudioRequests | app/services/google_speech_service.py:246-251 | one audio request per chunk, in chunk order |
| Registry.NewCall | app/routes/real_time_api_routes.py:144-153 | a new call record has the caller and call SID, and is not yet connected, streaming or processing |
| Registry.Delivered | app/routes/real_time_api_routes.py:397 | with a socket, every message goes to it in order; without one, `ws.send` fails and nothing is written |
| Registry.DeliveredAppend | app/routes/real_time_api_routes.py:385-397 | delivery preserves message order across concatenation |
| Registry.MediaFrames | app/routes/real_time_api_routes.py:385-395 | the media messages of `send_twilio_ai_response`'s chunk loop; stated by `Registry.MediaFramesOnePerChunk`, `Registry.MediaFramesSkipEmpty` and `Registry.MediaFramesTagged` |
| Registry.ReplyMessages | app/routes/real_time_api_routes.py:385-414 | the chunk frames, then one empty-payload message when synthesis failed; stated by `Registry.ReplyMessagesTagged` |
| Registry.MediaFramesAppend | app/routes/real_time_api_routes.py:385-397 | frames of consecutive chunk lists concatenate |
| Registry.MediaFramesOnePerChunk | app/routes/real_time_api_routes.py:385-395 | with no empty chunk there is exactly one message per chunk, in order, carrying the chunk's encoding and the stream SID |
| Registry.MediaFramesSkipEmpty | app/routes/real_time_api_routes.py:386 | an empty chunk produces no message |
| Registry.MediaFramesTagged | app/routes/real_time_api_routes.py:389-395 | every frame carries the stream SID |
| Registry.ReplyMessagesTagged | app/routes/real_time_api_routes.py:389-414 | every message carries the stream SID; a failed synthesis, and only a failed one, adds a final empty-payload message |
| Registry.SendFrames | app/routes/real_time_api_routes.py:385-397 | the chunk loop writes exactly the media frames of the chunks to the socket |
| Registry.FirstOnStream | app/routes/real_time_api_routes.py:328-333 | a found call SID is one of the calls, and its stream SID is the one searched for |
| Registry.FirstOnStreamSpec | app/routes/real_time_api_routes.py:362-366 | the search fails exactly when no call is on the stream; otherwise it finds the earliest such call in dict order |
| Registry.Without | app/routes/real_time_api_routes.py:251-253 | deleting a key removes exactly that key from the iteration order and keeps the keys distinct |
| Registry.Handled | app/routes/real_time_api_routes.py:267-283 | the socket loop reads at most every message, and at least one if any arrives |
| Registry.HandledStopsAtFirstStop | app/routes/real_time_api_routes.py:281-283 | the loop reads through the first `stop` and nothing after it |
| Registry.HandledWithoutStop | app/routes/real_time_api_routes.py:267-270 | without a `stop`, every message is read |
| Registry.Step | app/routes/real_time_api_routes.py:277-283 | what one socket message does to the registry's tables; stated by `Registry.StepShrinks` and realised by `Registry.CallRegistry.Dispatch` |
| Registry.Run | app/routes/real_time_api_routes.py:267-283 | `Registry.Step` folded over the messages the loop reads; stated by `Registry.RunShrinks` and realised by `Registry.CallRegistry.Serve` |
| Registry.StepShrinks | app/routes/real_time_api_routes.py:277-283 | one message never adds a call or a session, never takes back a sent message, sends only on `start`, and keeps the iteration order in step with the calls |
| Registry.RunShrinks | app/routes/real_time_api_routes.py:267-283 | over a whole socket conversation, calls and sessions only go away, the outbox only grows, and nothing is sent without a `start` |
| Registry.CallRegistry.constructor | app/routes/real_time_api_routes.py:30-31 | both registries and the outbox start empty |
| Registry.CallRegistry.HandleVoice | app/routes/real_time_api_routes.py:134-179 | the call gets a fresh record, which keeps its place in dict order when the SID is reused; when speech is available it gets a new started session; nothing is sent |
| Registry.CallRegistry.SendAiResponse | app/routes/real_time_api_routes.py:374-414 | exactly the reply messages (the frames, then the fallback on failure) are written to the socket, and the registries are untouched |
| Registry.CallRegistry.HandleStreamStart | app/routes/real_time_api_routes.py:295-319 | a known call is marked connected with its stream and socket, and receives the welcome; an unknown or missing call SID changes nothing |
| Registry.CallRegistry.FindCallByStream | app/routes/real_time_api_routes.py:328-333 | the lookup loop returns the earliest call on the stream, as `FirstOnStream` specifies |
| Registry.CallRegistry.HandleMediaChunk | app/routes/real_time_api_routes.py:321-353 | decoded audio reaches only the session of the call on that stream; an unknown stream, a missing or undecodable payload, or no session changes nothing |
| Registry.CallRegistry.StopStreaming | app/routes/real_time_api_routes.py:245-248 | the call's session is stopped and dropped; no other session changes |
| Registry.CallRegistry.ForgetCall | app/routes/real_time_api_routes.py:251-253 | the call's record is dropped from the dict and its iteration order |
| Registry.CallRegistry.CleanupConversation | app/routes/real_time_api_routes.py:241-256 | the call leaves both registries after its session is stopped; every other entry is untouched; on a call already gone nothing changes |
| Registry.CallRegistry.HandleStreamStop | app/routes/real_time_api_routes.py:355-372 | the earliest call on the stream is cleaned up, and its streaming session is stopped (inactive, closed, sentinel queued) while every other session is unchanged; if there is no such call, nothing changes |
| Registry.CallRegistry.Dispatch | app/routes/real_time_api_routes.py:269-288 | the tables change as `Step` says: `start` connects a known call and sends the welcome, `stop` removes the earliest call on the stream; `media` feeds decoded audio to that call's session only, as `HandleMediaChunk` does; `stop` stops the removed call's session only; empty, unparseable and unknown messages change nothing |
| Registry.CallRegistry.Serve | app/routes/real_time_api_routes.py:263-293 | the loop reads exactly the messages `Handled` specifies, and the calls, their order, the sessions map and the outbox end as `Run` of those messages says |
| Registry.CallRegistry.ProcessTranscriptionResult | app/routes/real_time_api_routes.py:193-239 | an unknown call or a blank transcript changes nothing; a farewell is answered with the goodbye and ends the call, which leaves the iteration order with the other calls in place, stopping its session and no other, without asking the model; otherwise the reply is generated, spoken when the call has a stream and socket, and recorded in the caller's session, and neither the iteration order nor any streaming session changes |
| Registry.CallRegistry.SayGoodbye | app/routes/real_time_api_routes.py:210-214 | the goodbye is written to the call's socket, then the call leaves both registries and the iteration order, the other calls keeping theirs, and its session is stopped; other sessions are unchanged |
| Registry.CallRegistry.AnswerTranscript | app/routes/real_time_api_routes.py:216-236 | the reply branch: conversation histories, outbox and session store change as specified, and the registries do not |
| Registry.CallRegistry.RecordActivity | app/routes/real_time_api_routes.py:229-236 | the caller's stored (or default) session is merged with the turn's activity, timestamp, input and reply |

## Left out

- The decorator stack on `/voice` is not modelled. As written, it fails when the module is imported; the model treats the handler as registered.
- Registry.CallRegistry.Serve: the fold states the calls, their order, the sessions map and the outbox. What the `media` events queue inside the sessions is stated message by message by `Registry.CallRegistry.Dispatch`, not folded over the loop.
- HTTP routes other than `/voice` and `/ws`, TwiML generation, and the other speech, voice and Twilio service functions are not part of this model.
- The Twilio signature check is only a comment in the source. It is not modelled.
- Threads are not modelled. The recognition thread, the delayed welcome with its 0.5 s sleep, and the per-transcript handler thread run as sequential calls. No interleaving is modelled.
- The recognition thread drains the queue at one clock reading.
  - A queue that runs dry ends the drain, where the source waits for the idle timeout.
  - `closed` is read once per loop run.
- `Streaming.StreamingSession.AddAudioData`: the `queue.Full` branch is not modelled. The queue is unbounded, so that branch cannot be taken.
- `Streaming.StreamingSession.Stop`: the `join` on the recognition thread is not modelled.
- The callback events are listed as if all three callbacks were present. The source guards each call with `if self.on_…:`, so a missing callback drops its events. Every caller in the routes passes all three (app/routes/real_time_api_routes.py:170, 451); the test at app/tests/test_google_speech.py:129 passes none.
- The callback invocations are returned as events, not run.
  - The final-result callback starts `process_transcription_result`, which is modelled separately as `ProcessTranscriptionResult`.
- The speech backend, the language model, speech synthesis, base64 and µ-law conversion are parameters.
  - Synthesis is the chunks it yields plus whether it then raised.
- `Text.Lower`, `Text.Strip`: only ASCII case mapping and ASCII whitespace are modelled. Unicode case folding and Unicode whitespace are not.
- Call SIDs and phone numbers are strings. A missing (`None`) `CallSid` or `From` form field is not modelled.
- Network failures of `ws.send` on a live socket are not modelled. A missing socket sends nothing.
- The socket loop's generic `except Exception` is not modelled. Every handler catches its own errors, and the model's handlers do not raise.
- The socket closing is the end of the message sequence.
- Registry.CallRegistry.HandleVoice: the response is not modelled. As written it is always the error TwiML, because `create_stream_response` does not exist; the contract states only the record and session effects that precede it.
- `Registry.CallRegistry.HandleVoice`: when a call SID is reused, the session it replaces is not stopped. This is as in the source. The model does not track the orphaned session further.
- `Sessions.SessionMiddleware.CleanupOldSessions`: the source logs the count and returns nothing, and a `TypeError` propagates. The model returns the count, or `None` for the `TypeError`.
- Aliasing is not modelled. `get_session` returns the stored dict itself, which the caller then mutates. The model copies values instead; `Sessions.MergeWithUpdated` shows that the resulting store is the same.
- The `audio_buffer` and `processing` fields are stored but never used by the source. They are kept in the record and not otherwise modelled.
- Logging is not modelled.
