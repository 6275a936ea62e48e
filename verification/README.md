# zoal-atc: a verified model of the plugin's state machines, codecs and parsers

`zoal-atc` is an X-Plane plugin: C++ state machines that need no simulator to
run, and a TypeScript page in the simulator's panel that talks to them. This
project models the parts whose behaviour spans several functions, and proves
what every input, every run and every interleaving keeps.

A string is a byte string, one `char` per byte. Ids, clocks and counters that
the source keeps in 64 bits are `nat` and do not wrap, except where the wrap is
the point: `uint_field` and the MD5 length are taken modulo 2^64. Code that
changes state in place is a class or a method with loops. A protocol is given
twice: as functions on a state value, about which runs are proved, and as a
class whose methods are proved to take exactly those steps.

## The parts

**Push-to-talk** (`PushToTalk`, `PttTurns`, `PttAnswers`, `PttOrder`,
`PttRecordings`, `PttMachines`, `BoundedQueue`). The
pilot's controller, the message queue of 256, the socket worker, the queue of
four recordings and the recogniser's thread. One locked section is one step,
and the pilot, other publishers, both workers and `stop` interleave freely.
Each turn is followed as two tokens, its start and its close, which no step
loses or doubles. A full queue discards its oldest message, so a start can be
lost and its close still be sent: the two are in order exactly when the start was
not discarded or no close was sent, and `DiscardedStartLeavesCloseAlone` gives a
run, from the start, that ends with a close alone on the wire. `PttAnswers` reads
off a run what was taken, listed, refused and heard, and says from that which close
a turn gets; `PttRecordings` says from the pilot's commands alone what is published.

**GUI proxy** (`GuiProxy`, `GuiProxyRuns`, `GuiProxyCache`, `GuiLedger`,
`GuiBridge`). Requests, receipts, answers, timeouts, disconnects, page loads, the
last-value cache, its replay and the bounded queues. `GuiLedger` keeps, from the
operations of a run, what the console must be sent and the page answered.
`ConsolePage`, `ConsolePageRuns`, `ConsoleDiary` and `ConsoleBridge` are the page's
half, as timed steps.

**Envelopes** (`JsonUtil`, `JsonScanning`, `JsonKeys`, `Utf8`, `GuiFrames`,
`ConsoleFrames`). The grammar of RFC 8259 (sections 4 to 7) as syntax trees that keep every space, the
hand-written scanner on it, and the frames built from it. The scanner reads each
`\u` escape of a key as `?`: unless each is that of a question mark, a member so
spelt is missed under its name and found under one it does not have. The RFC's
reading is in UTF-8 bytes, an escape being one to three of them, a surrogate pair
four, and half a pair no name at all. `RawFieldMeetsRfc` states exactly when the
answer is the RFC's all the same, and `KeyIsReadRight` when one key is read right.
A control byte other than backspace, form feed, newline, return and tab does not
survive escaping and unquoting, so the round trips are stated as exactly when;
whoever reads the escape by the RFC gets every byte back (`EscapeIsRead`).

**Speech** (`SentenceCutting`, `SentenceBreaks`, `SynthesisSteps`,
`SynthesisRuns`, `SynthesisChoices`, `SynthesisMachine`, `RadioText`,
`RadioHearing`, `ReplyArbiter`, `ArbiterRuns`, `ArbiterLooks`, `ArbiterOrder`,
`ArbiterPasses`, `ArbiterReasons`, `ArbiterMachine`, `SpokenReplies`, `SampleReply`,
`SplitLooksRun`). How a reply is worded, cut into sentences, given a voice and put
on the air, in which order, and why it is given up. A pass of the
flight loop is several steps, with arrivals and the voices' progress enabled
wherever it lets go of a lock. `SpokenReplies` runs receiver, voices and flight
loop together on shared Speeches and proves that the arbiter sees a run of its
own steps, so what it takes a Speech to be is what the voices keep.

**Config file and URL** (`EndpointUrl`, `EndpointConfig`, `ConfigLines`,
`ConfigReading`, `ConfigAgreement`, `ConfigSaving`). The reader and the in-place editor of one
file format, and the URL they hold: when the order of lines matters, and when a
saved value is the one that is read back.

**Bytes and selection** (`Md5Schedule`, `Md5Operations`, `Rfc1321`, `Md5`;
`WebSocketFrames`, `FrameLayout`, `WebSocketClient`; `Traffic`). MD5 against RFC 1321, frames
against RFC 6455, and the nearest aircraft of one TCAS read.

## Where the code and its comments differ

- A full synthesis queue of urgent jobs gives up the newest of them, because
  urgent jobs are pushed to the front; the variable is named `oldest`.
  `UrgentQueueGivesUpItsNewest` is a run.
- An urgent reply that waits ends the reply on the air even when that one is
  urgent too; the comment speaks of routine speech. `CutOffExactlyByUrgent` is the
  rule, `UrgentCutsOffUrgent` a run.
- The panel accepts a pilot ID holding a quote or a backslash, and the file it
  is saved to is then refused whole by the reader.
- The arbiter looks at a Speech twice under its lock. When the last sentence is
  added and the Speech finished between the two looks, that sentence is not
  played and the reply is still acknowledged as delivered.
  `DeliveredWholeUnlessOneCameBetween` says exactly when that is, over every run;
  `SplitLooksMissASentence` and `VoicesOvertakeTheLooks` are such runs.
- Saving a setting rewrites its first live line under the saved name. A later live
  line, or one under the other name (`auth_token` for `token`), still decides, so
  the value that was saved is not read back (`OtherNameOverrules`).
- `uint_field` wraps at 2^64 instead of refusing.

## Model

| member | source | states |
|---|---|---|
| BoundedQueue.PushBounded | include/zoal_atc/transport/bounded_queue.hpp:10-31 | the queue keeps its newest entries up to the cap, in order, and counts those discarded; a cap of zero discards the value itself |
| PttTurns.TurnsAreUniqueAndOrdered | src/transport/async_websocket_ptt_sink.cpp:67-230 | in every interleaving a turn has at most one audio_start and one close on the wire, the start first exactly when it was not discarded or no close was sent, and the queues stay bounded with every discard counted |
| PttTurns.EndedTurnsAreClosed | src/transport/async_websocket_ptt_sink.cpp:104-230 | a turn ended before stop is closed on the wire exactly once when both workers are gone, unless its end was discarded: overflow, no model, failed transcription, recorder failure and shutdown included |
| PttTurns.StepConserves | src/transport/async_websocket_ptt_sink.cpp:134-230 | no step of either worker loses or doubles a turn's start or close |
| PttTurns.CommandKeepsDiscipline | src/ptt/push_to_talk_controller.cpp:13-123 | the controller opens turns 1, 2, 3 in order and ends each once before the next, through faults, short turns and time limits |
| PttTurns.StopDrains | src/transport/async_websocket_ptt_sink.cpp:104-117 | after stop every worker step is progress, and there is one to take until both workers are gone |
| PttTurns.DiscardedStartLeavesCloseAlone | src/transport/async_websocket_ptt_sink.cpp:95-97 | a legal run from the start discards a turn's audio_start in a full queue and ends with its audio_cancel alone on the wire |
| PttAnswers.TranscriptsWereHeard | src/transport/async_websocket_ptt_sink.cpp:150-189 | in every run a transcript is on the wire only for a turn published as ready whose recording the recogniser was given and heard, with that turn's duration |
| PttAnswers.HowATurnIsClosed | src/transport/async_websocket_ptt_sink.cpp:104-230 | once both workers are gone, an ended turn whose end was not discarded has its transcript on the wire exactly when its recording was heard, and a cancel exactly when not; a ready recording was listed and answered once, or refused |
| PttAnswers.RunKeeps | src/transport/async_websocket_ptt_sink.cpp:134-230 | in every run each frame owed for what was taken, refused and heard is on the wire or in a worker's hand, as often as owed, and no other; recordings are heard in the order listed; none is lost between |
| PttOrder.WireIsInOrder | src/transport/async_websocket_ptt_sink.cpp:161-230 | messages are taken in the order accepted, the newest still waiting; starts and texts go out in that order, and transcripts in the order of their recordings |
| PttOrder.OnlyAFullQueueDiscards | src/transport/async_websocket_ptt_sink.cpp:68-97 | a published message goes last; only a queue of 256 discards one for it, the first; a stopping sink takes nothing |
| PttRecordings.TurnsAreAsCommanded | src/ptt/push_to_talk_controller.cpp:13-103 | in every run the starts and ends published are those the commands tell: each turn once, with its own number, times, length, reason and sound, as ready exactly when long enough |
| PttRecordings.IgnoredForItsReason | src/ptt/push_to_talk_controller.cpp:13-52 | a command is ignored exactly when a fault is on, when it begins a turn during one, or ends one outside one, and the event says which |
| PttMachines.AsyncWebSocketPttSink.EnqueueLocked | src/transport/async_websocket_ptt_sink.cpp:95-97 | queues the message, counting what the bound discarded |
| PttMachines.AsyncWebSocketPttSink.Transcribe | src/transport/async_websocket_ptt_sink.cpp:134-145 | a recording is queued for the recogniser, or its turn is cancelled: no model, stopping, or four waiting |
| PttMachines.AsyncWebSocketPttSink.WorkerTake | src/transport/async_websocket_ptt_sink.cpp:191-230 | the socket worker takes the oldest message and routes it by its kind |
| PttMachines.AsyncWebSocketPttSink.Stop | src/transport/async_websocket_ptt_sink.cpp:104-117 | however the two workers interleave, stop ends with both gone, both queues empty and every token accounted for |
| PttMachines.PushToTalkController.CommandBegin | src/ptt/push_to_talk_controller.cpp:13-39 | opens the next turn, or reports a fault or an ignored press |
| PttMachines.PushToTalkController.FinishRecording | src/ptt/push_to_talk_controller.cpp:71-103 | ends the turn as ready, too short, or failed, and publishes that one event |
| GuiProxyRuns.EveryRequestIsSettledOnce | src/gui/gui_bridge.cpp:10-71 | in every run an accepted request is pending, answered once, settled with no page, or abandoned, and only one of these; nothing is pending on a dead link; the only internal entry is the subscribe; the caps hold |
| GuiProxyRuns.AnsweredForGood | src/gui/gui_bridge.cpp:121-139 | in every run an id handed out and no longer pending, however that came about, stays where it is and is answered no further, and a response for it or for an id not handed out yet changes nothing |
| GuiProxyRuns.TickSettlesExpired | src/gui/gui_bridge.cpp:194-214 | a tick settles exactly the requests whose deadline has come |
| GuiProxyRuns.HistoryOnlyGrows | src/gui/gui_bridge.cpp:267-326 | no operation takes back an answer or forgets an accepted request |
| GuiProxyCache.PageSeesTheCache | src/gui/gui_bridge.cpp:141-170 | the cache is the last payload per event name over the whole history, in first-seen order; a visible page with no overflow since the last replay knows exactly that, across hiding and reloading |
| GuiLedger.EveryRequestIsSent | src/gui/gui_bridge.cpp:50-70 | in every run the frames taken by the socket and those that wait are, in order, one for each request accepted for the console, with its own id, action and payload, and one for each subscription made, with the configured topics, and nothing else; ids ascend |
| GuiLedger.EveryWaitIsBounded | src/gui/gui_bridge.cpp:61-62 | what is pending, a request or the subscription, has its deadline the configured time after it was called for |
| GuiLedger.EveryAnswerIsOwed | src/gui/gui_bridge.cpp:267-305 | in every run each post of an answer is the one owed to that request, once: the local handler's, the console's own response with its outcome, payload and error, or the failure that ended the wait |
| GuiLedger.ThePageIsTold | src/gui/gui_bridge.cpp:307-326 | what waits for the page is the newest of what was posted, in order, the same for the notifier and the events; and an attached page was last told how the link is |
| GuiLedger.WhatIsLostIsCounted | src/gui/gui_bridge.cpp:148-169 | the drop count grows by one for each message that overflows and each push that replaces an unseen one, and by nothing else |
| GuiLedger.LoadingIsCounted | src/gui/gui_bridge.cpp:73-85 | a page that loads counts only what its replay overflows; leaving and taking count nothing |
| GuiBridge.GuiBridge.Submit | src/gui/gui_bridge.cpp:10-71 | malformed, local, disconnected, full and accepted requests, with the id handed out and which refusal is given when |
| GuiBridge.GuiBridge.AttachPanel | src/gui/gui_bridge.cpp:73-85 | a loaded page drops the old queue, subscribes when connected, is posted the cached events last and in order, and is told how many |
| GuiBridge.GuiBridge.DetachPanel | src/gui/gui_bridge.cpp:95-106 | a detach abandons what was pending and the subscription |
| GuiBridge.GuiBridge.SetPanelVisible | src/gui/gui_bridge.cpp:108-119 | showing the page again replays the cache, and nothing happens without a change |
| GuiBridge.GuiBridge.OnSocketFrame | src/gui/gui_bridge.cpp:121-175 | a frame settles a pending request, updates the cache and the queues, or is ignored |
| GuiBridge.GuiBridge.FailEach | src/gui/gui_bridge.cpp:288-305 | every listed request is settled as failed, oldest first |
| GuiBridge.GuiBridge.SetConnected | src/gui/gui_bridge.cpp:177-192 | losing the link fails everything pending; regaining it subscribes again; both report the status |
| GuiBridge.GuiBridge.OnTick | src/gui/gui_bridge.cpp:194-214 | expired requests are failed in ascending order of id |
| GuiBridge.GuiBridge.TakeJsMessages | src/gui/gui_bridge.cpp:223-233 | hands over the oldest messages and keeps the rest in order |
| ConsolePageRuns.OrderDoesNotMatter | gui/zoal-atc/src/bridge/ConsoleBridge.ts:148-203 | with the receipt inside its window and the answer up to the request timeout after it, the call settles once, whichever came first: resolved with the payload of an answer that is ok, rejected with the error of one that is not |
| ConsolePageRuns.SettledOnceWithItsOwn | gui/zoal-atc/src/bridge/ConsoleBridge.ts:227-280 | no call settles twice; one that resolves has the payload of the answer to its own id, which was ok, and one rejected with an error of the console has that of an answer to its own id, which was not |
| ConsolePageRuns.EveryCallIsBounded | gui/zoal-atc/src/bridge/ConsoleBridge.ts:145-203 | once the due timers have fired, a call is settled or still inside its receipt or answer window |
| ConsolePageRuns.WithoutHostAllAreRefused | gui/zoal-atc/src/bridge/ConsoleBridge.ts:92-151 | in every run of a page without a host each call settles as refused for that |
| ConsoleDiary.RejectedForItsReason | gui/zoal-atc/src/bridge/ConsoleBridge.ts:145-223 | in every run a rejected call was rejected for what the steps show: no host, not started, shutting down, refused or failed by the host, no receipt in five seconds, no answer in fifteen after it, or the console's own error |
| ConsoleDiary.RefusedInThatOrder | gui/zoal-atc/src/bridge/ConsoleBridge.ts:148-163 | a request is refused at once without a host, else when shut down, else when not started, and in no other case |
| ConsoleBridge.ConsoleBridge.Request | gui/zoal-atc/src/bridge/ConsoleBridge.ts:148-169 | a call is refused without a host, when disposed or when not started, in that order, else posted with its receipt window |
| ConsoleBridge.ConsoleBridge.OnReply | gui/zoal-atc/src/bridge/ConsoleBridge.ts:165-202 | a receipt refuses, claims an early answer, or starts waiting for one |
| ConsoleBridge.ConsoleBridge.Dispatch | gui/zoal-atc/src/bridge/ConsoleBridge.ts:241-280 | an answer settles the call that waits for it, or is held |
| ConsoleBridge.ConsoleBridge.Dispose | gui/zoal-atc/src/bridge/ConsoleBridge.ts:205-223 | every waiting call is rejected once and nothing stays held |
| JsonKeys.RawFieldIsRfcField | src/transport/json_util.cpp:141-177 | for every well-formed object whose keys use no \u escape: the text of the first top-level member with the key, verbatim, and nothing exactly when there is none |
| JsonScanning.RawFieldFindsFirstMember | src/transport/json_util.cpp:141-177 | the same for any keys as the scanner decodes them, with any whitespace, nesting and trailing text |
| JsonScanning.RawFieldOfEmptyObject | src/transport/json_util.cpp:149-153 | an empty object has no field |
| JsonScanning.RawFieldOfOtherValues | src/transport/json_util.cpp:143-147 | a well-formed text that is no object has no field |
| JsonKeys.RawFieldMeetsRfc | src/transport/json_util.cpp:141-177 | for every well-formed object and every key, \u escapes and surrogate pairs included: the answer is RFC 8259's, which compares UTF-8 bytes, exactly when no member's key denotes or is read as the wanted one, the first such member's does both, or the two readings give the same text |
| JsonKeys.KeyIsReadRight | src/transport/json_util.cpp:77-83 | against a wanted key of as many bytes as it has characters, a key is read right exactly when a plain character rules it out or its escapes all fit the plugin's reading (`?`) just when they all fit the one byte each denotes; a longer wanted key is never found, and a shorter one never denoted |
| JsonKeys.WhenEveryKeyIsReadRight | src/transport/json_util.cpp:77-83 | a key is read as RFC 8259 reads it, whatever is wanted, exactly when every escape in it is that of a question mark |
| JsonKeys.WhenOneMemberIsReadRight | src/transport/json_util.cpp:141-177 | every lookup in a one-member object meets the RFC exactly when every escape in its key is that of a question mark |
| JsonKeys.EscapesNeedNotFitOneByOne | src/transport/json_util.cpp:77-83 | a key can be read right though one of its escapes fits only one of the two readings |
| JsonKeys.UnicodeKeyIsMissed | src/transport/json_util.cpp:77-83 | `{"\u0061":1}` has an `a`, and it is not found |
| JsonKeys.UnicodeKeyAnswersFalsely | src/transport/json_util.cpp:77-83 | `{"\u0061":1}` has no `?`, and one is found |
| JsonKeys.LongKeysAreMissed | src/transport/json_util.cpp:77-83 | `{"\u00e9":1}` and `{"\ud83d\ude00":1}` have members whose names take two and four bytes, and neither is found |
| Utf8.EncodedReadsBack | src/transport/json_util.cpp:77-83 | the bytes a \u escape stands for tell its code point, whatever follows |
| JsonScanning.ValueIsStepped | src/transport/json_util.cpp:94-137 | the scanner steps over exactly one value, whatever braces and quotes its strings hold |
| JsonScanning.UnquoteUndoesEscape | src/transport/json_util.cpp:179-229 | unquoting the quoted escape of a string gives it back exactly when its control bytes are only the five with short escapes |
| JsonScanning.JsonEscape | src/transport/json_util.cpp:189-229 | the escape is the text of one JSON string unit per byte |
| JsonUtil.JsonRawField | src/transport/json_util.cpp:141-177 | the position-advancing loops compute the field lookup proved above |
| JsonUtil.ParseStringAt | src/transport/json_util.cpp:36-89 | decodes one string and stops right behind it, or fails |
| JsonUtil.SkipValueAt | src/transport/json_util.cpp:94-137 | stops right behind one value, or fails |
| JsonUtil.JsonUnquote | src/transport/json_util.cpp:179-187 | the string a raw field denotes |
| GuiFrames.FrameReadsBack | src/gui/gui_frames.cpp:59-80 | any field of a built frame is read back verbatim, the first of its name |
| GuiFrames.DecimalReadsBack | src/gui/gui_frames.cpp:36-50 | an id survives printing and reading exactly when it fits 64 bits |
| GuiFrames.UintField | src/gui/gui_frames.cpp:36-50 | the digits' value modulo 2^64, and nothing for any other text |
| GuiFrames.BuildGuiSubscribe | src/gui/gui_frames.cpp:67-80 | the loop lists the quoted topics in order |
| GuiFrames.RequestIdReadsBack | src/gui/gui_frames.cpp:59-65 | the id of a gui_request is read back exactly when it fits 64 bits |
| GuiFrames.RequestActionReadsBack | src/gui/gui_frames.cpp:59-65 | the action is read back exactly when it survives escaping |
| GuiFrames.RequestPayloadReadsBack | src/gui/gui_frames.cpp:59-65 | the payload is read back verbatim, an empty one as null |
| GuiFrames.ResponseIdReadsBack | src/gui/gui_frames.cpp:140-147 | the id of a response envelope is read back exactly when it fits 64 bits |
| GuiFrames.ResponseOutcomeReadsBack | src/gui/gui_frames.cpp:140-147 | outcome and payload are read back verbatim |
| GuiFrames.ResponseErrorReadsBack | src/gui/gui_frames.cpp:140-147 | the error is read back exactly when it survives escaping |
| GuiFrames.EventNameReadsBack | src/gui/gui_frames.cpp:149-154 | the event name is read back exactly when it survives escaping |
| GuiFrames.EventPayloadReadsBack | src/gui/gui_frames.cpp:149-154 | the event payload is read back verbatim |
| ConsoleFrames.EscapeIsRead | src/transport/json_util.cpp:189-229 | whoever reads the escape of a text by RFC 8259 has the text, control bytes and all |
| ConsoleFrames.RequestIsNamed | src/gui/gui_frames.cpp:59-65 | a gui_request holds its type, id, action and payload under those names |
| ConsoleFrames.SubscriptionIsNamed | src/gui/gui_frames.cpp:67-80 | a gui_subscribe holds its type, its id and the JSON list of the quoted topics under those names |
| ConsoleFrames.ResponseIsNamed | src/gui/gui_frames.cpp:140-147 | the response envelope holds kind, id, outcome, payload and error under those names |
| ConsoleFrames.EventIsNamed | src/gui/gui_frames.cpp:149-154 | the event envelope holds kind, name and payload under those names |
| ConsoleFrames.ConsoleResponseIsRead | src/gui/gui_frames.cpp:82-100 | a gui_response is read as it was meant whatever the order of its fields: only `true` is ok, `null` is no payload, no error is an empty one, the id modulo 2^64 |
| ConsoleFrames.ConsoleEventIsRead | src/gui/gui_frames.cpp:102-119 | a gui_event is read as it was meant, if it has a name |
| ConsoleFrames.OtherFramesAreNot | src/gui/gui_frames.cpp:82-124 | a frame of another kind, a response without an id and an event without a name are neither; ours are those whose kind begins with `gui_` |
| ConsoleFrames.PanelRequestIsRead | src/gui/gui_frames.cpp:126-138 | the page's request is read as it was meant, if it has an action |
| SentenceCutting.NothingIsLost | src/tts/synthesis.cpp:107-143 | the words of the pieces, in order, are exactly the words of the text |
| SentenceCutting.NoStubIsLeft | src/tts/synthesis.cpp:136-143 | at most one piece, or every piece has at least three words |
| SentenceCutting.SilenceHasNoSentence | src/tts/synthesis.cpp:128-135 | a text gives no piece exactly when it has no word |
| SentenceBreaks.CutWhereASentenceEnds | src/tts/synthesis.cpp:107-143 | for every text one piece ends and another begins behind so many words exactly when a full stop, question or exclamation mark with a space or nothing behind it stands there, at least three words stand before it, and the sentence behind it has at least three |
| SentenceCutting.CutSentences | src/tts/synthesis.cpp:107-143 | the loop computes the cut proved above |
| SentenceCutting.WordCount | src/tts/synthesis.cpp:20-31 | the number of words of a text |
| SynthesisRuns.EverySpeechIsFinishedOnce | src/tts/synthesis.cpp:224-236 | once the destructor is through every submitted Speech has been finished exactly once |
| SynthesisRuns.FinishedSpeechIsWhole | src/tts/synthesis.cpp:267-297 | a Speech always holds the audio of its first sentences in order, of all of them when finished without failure, and none is finished twice |
| SynthesisRuns.WaitingListIsOrdered | src/tts/synthesis.cpp:246-262 | urgent jobs, newest first, then routine jobs in the order submitted, sixteen at most |
| SynthesisRuns.WhoIsGivenUp | src/tts/synthesis.cpp:248-256 | while a routine job waits the oldest routine one is given up and no urgent one; with urgent jobs alone, the newest |
| SynthesisRuns.UrgentQueueGivesUpItsNewest | src/tts/synthesis.cpp:248-261 | a run of seventeen urgent jobs ends the sixteenth unspoken and keeps the first |
| SynthesisChoices.FullQueueGivesUpOne | src/tts/synthesis.cpp:248-256 | a submission to sixteen waiting jobs ends exactly one of them, unspoken and failed: the routine one with the smallest id while any waits, with urgent ones alone the one with the largest; every other Speech and its place stay |
| SynthesisChoices.RoomGivesUpNone | src/tts/synthesis.cpp:246-262 | a submission to fewer ends none |
| SynthesisChoices.SubmittedWaits | src/tts/synthesis.cpp:238-265 | what is submitted waits, with its text, speaker and urgency |
| SynthesisChoices.NextIsSaid | src/tts/synthesis.cpp:271-281 | the worker takes the newest urgent job, or with routine ones alone the oldest, and the others go on waiting |
| SynthesisChoices.FailedWhenShort | src/tts/synthesis.cpp:282-295 | a Speech ends as failed exactly when there is no voice or a sentence of it is missing |
| SynthesisChoices.VoicesAreNumbered | src/tts/synthesis.cpp:80-88 | voice n is speaker n - 1, and voice 0 the default one kept within the count |
| SynthesisChoices.VoicesGoRound | src/tts/synthesis.cpp:80-88 | voices beyond the count go round again |
| SynthesisMachine.SynthesisQueue.Submit | src/tts/synthesis.cpp:238-265 | evicts when full, then puts an urgent job first and a routine one last |
| SynthesisMachine.SynthesisQueue.SayTheRest | src/tts/synthesis.cpp:282-295 | the Speech is finished with the audio of its first sentences, failed exactly when there is no voice or one is missing, and no other Speech is touched |
| SynthesisMachine.SynthesisQueue.Destroy | src/tts/synthesis.cpp:224-236 | the job in hand is ended, the rest are given up, and every Speech is finished once |
| RadioText.OutputIsCanonical | src/transport/speech_text.cpp:73-119 | the output's words and pauses are the input's from its first word on, each word put as it is said; no words are run together |
| RadioText.SayingTwiceChangesNothing | src/transport/speech_text.cpp:73-119 | applying radio_text again changes nothing, for every text |
| RadioText.SayReply | src/transport/speech_text.cpp:73-119 | the character loop computes that text |
| RadioText.ExpandWord | src/transport/speech_text.cpp:34-69 | headings and frequencies are said digit by digit without trailing zeros, anything else as written, a full stop kept |
| RadioText.DigitSpeech | src/transport/speech_text.cpp:17-26 | the digits' words with single spaces |
| RadioHearing.DigitsAreHeard | src/transport/speech_text.cpp:10-26 | whoever knows a controller's ten words hears the digits that were spoken, in order |
| RadioHearing.HeadingIsSpelt | src/transport/speech_text.cpp:34-45 | three digits after `heading` are said one by one, the full stop kept |
| RadioHearing.ChannelIsSpelt | src/transport/speech_text.cpp:47-68 | a channel is said digit by digit around `point`, without the zeros it ends in but never without a decimal |
| RadioHearing.OthersAreAsWritten | src/transport/speech_text.cpp:42-55 | only a heading's three digits and a channel are said other than written |
| RadioHearing.EachWordIsSaid | src/transport/speech_text.cpp:80-116 | each word is said by itself, and as a heading exactly when the word before it, pauses apart, is `heading` in any case with or without a full stop |
| ArbiterRuns.EveryReplyIsInOnePlace | src/xplane/xplane_plugin.cpp:628-665 | every reply waits, was dropped, is on the air or was settled once, and never two of these |
| ArbiterRuns.EverySettledReplyIsAcknowledgedOnce | src/xplane/xplane_plugin.cpp:667-711 | a settled reply with a generation is acknowledged exactly once; one without, or one dropped, never |
| ArbiterRuns.SentencesNeverOverlap | src/xplane/xplane_plugin.cpp:754-795 | a reply's sentences go out in order, each once, and no sentence starts before the last has ended or been stopped |
| ArbiterRuns.DeliveredMeansHeard | src/xplane/xplane_plugin.cpp:778-791 | of a spoken reply acknowledged as delivered no sentence was stopped, each one played had ended by then, and all were played, once and in order, exactly when none came between the two looks that settled it |
| ArbiterRuns.QueueIsInOrder | src/xplane/xplane_plugin.cpp:635-641 | the queue holds at most sixteen replies in the order they arrived |
| ArbiterOrder.RepliesBeginInTurn | src/xplane/xplane_plugin.cpp:648-665 | over every run: while a reply waits none that came later is on the air or was settled, unless it may cut in, was put ahead by a pass that found the air taken, and the waiting one may not cut in itself; what overflow dropped came before all that waits |
| ArbiterPasses.OnlyAFullQueueDrops | src/xplane/xplane_plugin.cpp:635-641 | a reply that arrives goes last as it came, and only a queue of sixteen drops one for it, the first |
| ArbiterPasses.SilenceIsBounded | src/xplane/xplane_plugin.cpp:754-795 | a reply of which nothing was heard is given up at a second look no sooner than twelve seconds after it went on the air, and no later look keeps it |
| ArbiterPasses.OnePassTakesSixteen | src/xplane/xplane_plugin.cpp:844-859 | a pass takes up sixteen replies at most, and fewer only when the air is taken, nothing waits, or it began by cutting one off |
| ArbiterReasons.SettledForItsReason | src/xplane/xplane_plugin.cpp:754-826 | in every run what the basis of a settlement says of its text, what was asked, the voices, the Speech and what was played is so |
| ArbiterLooks.DeliveredWholeUnlessOneCameBetween | src/xplane/xplane_plugin.cpp:754-791 | over every run: an acknowledged delivery comes from a second look, and the reply was played whole exactly when the voices added no sentence of it between that look and the first one |
| ArbiterLooks.SplitLooksMissASentence | src/xplane/xplane_plugin.cpp:763-791 | a run from the idle desk in which a reply of two sentences is acknowledged as delivered and the second is never played |
| ArbiterLooks.CutOffExactlyByUrgent | src/xplane/xplane_plugin.cpp:828-842 | a pass settles the reply on the air as preempted exactly when a `safety_alert` or an `emergency_assistance` waits, whatever the one on the air is |
| ArbiterLooks.UrgentCutsOffUrgent | src/xplane/xplane_plugin.cpp:828-842 | a run in which an urgent reply on the air is cut off by another |
| SpokenReplies.ArbiterSeesARun | src/xplane/xplane_plugin.cpp:628-641 | every run of receiver, voices and flight loop on shared Speeches is a legal run of the arbiter's own steps |
| SpokenReplies.PlayedIsWhatWasSaid | src/xplane/xplane_plugin.cpp:754-777 | each sentence played is the audio of that sentence of the reply's radio text, by the speaker the reply was received with, from a job as urgent as the reply, and holds the air as long as it lasts and the gap |
| SpokenReplies.DeliveredIsWhatWasSaid | src/xplane/xplane_plugin.cpp:778-791 | a reply acknowledged as delivered was synthesized whole and without failure, and was played whole exactly when no sentence came between the looks |
| SpokenReplies.VoicesAreSeen | src/tts/synthesis.cpp:203-297 | whatever the synthesis queue does is a step the arbiter may see on the shared Speech, or none |
| SplitLooksRun.VoicesOvertakeTheLooks | src/xplane/xplane_plugin.cpp:763-791 | the missed sentence happens with the synthesis queue itself in the run |
| ArbiterMachine.Arbiter.QueueReply | src/xplane/xplane_plugin.cpp:628-641 | a full queue drops its oldest reply, and the new one goes last |
| ArbiterMachine.Arbiter.TakeReply | src/xplane/xplane_plugin.cpp:648-665 | takes the oldest reply, or the first urgent one, and leaves the others in order |
| ArbiterMachine.Arbiter.FinishActiveSpeech | src/xplane/xplane_plugin.cpp:687-711 | stops a sentence still playing and settles the reply |
| ArbiterMachine.Arbiter.AdvanceSynthesizedSpeech | src/xplane/xplane_plugin.cpp:754-795 | the next sentence when the last has ended, or the settlement: refused, failed, failed partway, timed out or played; whatever the other threads do between its two looks |
| ArbiterMachine.Arbiter.StartReply | src/xplane/xplane_plugin.cpp:797-826 | settles at once a reply with no text, no speech wanted or no voice, and puts any other on the air |
| ArbiterMachine.Arbiter.ProcessReplies | src/xplane/xplane_plugin.cpp:828-859 | one pass is one legal run of the arbiter's steps, whatever the other threads do at each pause: preempt, advance, or settle up to sixteen immediate replies |
| EndpointUrl.UrlReadsBack | src/transport/endpoint_config.cpp:206-269 | printing an endpoint as a URL and parsing it gives back its host, port and path, with colons in the host and the default port included |
| EndpointUrl.HeaderSplits | src/transport/endpoint_config.cpp:38-70 | the Host header splits into the host and the port it was printed from |
| EndpointUrl.TrimIs | src/transport/endpoint_config.cpp:23-34 | trimming finds the one text with no space at its ends |
| EndpointUrl.TrimText | src/transport/endpoint_config.cpp:23-34 | the two loops compute that text |
| EndpointUrl.ParsePort | src/transport/endpoint_config.cpp:72-96 | the number from 1 to 65535, or which of the four faults comes first |
| ConfigLines.EverySchemeIsJudged | src/transport/endpoint_config.cpp:213-227 | an address is reached behind `ws`, in any case; `wss` and `https` need TLS and any other scheme is refused |
| ConfigLines.HeaderIsPrinted | src/transport/endpoint_config.cpp:391-398 | the port is printed exactly when it is not 80, and brackets exactly around a host with a colon |
| ConfigLines.PathIsFilledIn | src/transport/endpoint_config.cpp:233-264 | a URL without a path leads to `/plugin` |
| ConfigLines.EveryLineMeans | src/transport/endpoint_config.cpp:274-299 | a line means nothing exactly when blank, commented or without `=` and `:`; else the first of these parts key and value, both trimmed, the key in lower case |
| ConfigLines.EveryLineDoes | src/transport/endpoint_config.cpp:301-339 | what each key does and refuses, by the characters of the value; any other key is passed over |
| ConfigReading.ReadingMeans | src/transport/endpoint_config.cpp:271-345 | a config is refused exactly when one line is bad by itself; else each setting is its last live line's |
| ConfigReading.WhenOrderDoesNotMatter | src/transport/endpoint_config.cpp:301-337 | every permutation of the lines reads alike exactly when a line is bad by itself or all live lines of each setting put the same |
| ConfigReading.OrderOfLinesDoesNotMatter | src/transport/endpoint_config.cpp:301-337 | with at most one live line per setting every permutation of the lines has the same success and endpoint |
| ConfigReading.LaterLineWins | src/transport/endpoint_config.cpp:301-337 | of two lines for one setting, whichever it is, the later one decides |
| ConfigSaving.OrderCanMatter | src/transport/endpoint_config.cpp:313-318 | two assignments of different tokens read differently in their two orders |
| EndpointConfig.ApplyConfigText | src/transport/endpoint_config.cpp:271-345 | the loop applies the lines one by one up to the first fault |
| EndpointConfig.UpsertConfigValue | src/transport/endpoint_config.cpp:126-195 | rewrites the first live line of the key, else its first commented line, else appends one, and ends the file |
| EndpointConfig.ChooseTarget | src/transport/endpoint_config.cpp:153-172 | the first live line, else the first commented one, and nothing exactly when there is neither |
| EndpointConfig.SplitLines | src/transport/endpoint_config.cpp:131-151 | each line with its own ending |
| ConfigAgreement.ReadingSplitLines | src/transport/endpoint_config.cpp:102-113 | the reader and the editor see the same lines |
| ConfigAgreement.RenderOfSplit | src/transport/endpoint_config.cpp:190-194 | the lines and endings of a text are the whole of it |
| ConfigAgreement.AssignmentMeans | src/transport/endpoint_config.cpp:128-129 | the written line assigns the key the value without the spaces around it |
| ConfigSaving.SavedSettingReadsBack | src/transport/endpoint_config.cpp:126-195 | after a save any file that read is refused exactly when the value is; else it reads as before with that one setting replaced, exactly when no line below the saved one sets it too or the value changes nothing |
| ConfigSaving.SavedTokenReadsBack | src/transport/endpoint_config.cpp:313-318 | a control-free token is read back, trimmed, and nothing else changes, exactly when no later line sets the token or that is the token already |
| ConfigSaving.OtherNameOverrules | src/transport/endpoint_config.cpp:313-318 | in a file with a `token` line and an `auth_token` line below it the saved line never decides |
| ConfigSaving.OtherLinesAreUnchanged | src/transport/endpoint_config.cpp:172-194 | every other line and its ending stays, save that an unended last line is ended |
| ConfigSaving.LastSaveWins | src/transport/endpoint_config.cpp:126-195 | a second save leaves what it alone would have left, so saving is idempotent |
| ConfigSaving.QuotedPilotIdSpoilsTheFile | src/xplane/xplane_plugin.cpp:434-449 | a control-free pilot ID makes the saved file unreadable exactly when it holds a quote or a backslash |
| Md5.Md5Hex | src/navdata/md5.cpp:78-113 | for every input the fingerprint is the RFC 1321 digest in lower-case hexadecimal |
| Md5.ProcessBlock | src/navdata/md5.cpp:36-74 | one block: the rotating 64-step loop is the four listed rounds of RFC 1321 section 3.4 |
| Md5Schedule.ListingIsRegular | src/navdata/md5.cpp:26-62 | the computed word index, shift and rotation of each step are those the standard lists |
| Md5Operations.StepIsListed | src/navdata/md5.cpp:63-67 | one turn of the loop is the next listed operation on the named registers |
| Md5.PadTail | src/navdata/md5.cpp:87-96 | the tail buffer holds the remaining bytes, 0x80, zeros and the length in bits |
| Md5.HexReadsBack | src/navdata/md5.cpp:102-112 | the text reads back as the digest's bytes, two lower-case digits each, the high half first |
| Md5.TailCompletes | src/navdata/md5.cpp:82-100 | the full blocks and the tail are the padded message |
| Rfc1321.FoldedConcatenation | src/navdata/md5.cpp:83-100 | hashing block after block is hashing the whole |
| Rfc1321.PaddingIsInjective | src/navdata/md5.cpp:87-96 | messages that are padded alike are equal, whatever their lengths |
| WebSocketFrames.FrameReadsBack | src/transport/websocket_client.cpp:406-433 | a frame of at most 1 MiB, masked or not, is read back whole whatever follows it, and a longer one is refused |
| WebSocketFrames.LengthFormIsShortest | src/transport/websocket_client.cpp:411-419 | the length form sent is the shortest that reads as that length |
| WebSocketFrames.LengthReadsBack | src/transport/websocket_client.cpp:121-144 | each of the three length forms is read back with its size |
| FrameLayout.WhatIsSentIsLaidOut | src/transport/websocket_client.cpp:406-433 | a frame's bytes are those of RFC 6455, sections 5.2 and 5.3: the bits of the first two, the shortest length form with the highest byte first, the mask, and each payload byte met by the mask's at its place modulo four |
| FrameLayout.WhatIsReadIsThere | src/transport/websocket_client.cpp:446-500 | what is read from any bytes is laid out so in them; they are refused for a length above 1 MiB alone, and called short only when no frame is there |
| FrameLayout.TextStartsAFrame | src/transport/websocket_client.cpp:409-419 | a text goes out as one final, masked frame of opcode 1 |
| FrameLayout.EveryFrameIsReceived | src/transport/websocket_client.cpp:473-517 | what the first frame of a stream comes to, by its length, opcode and final bit |
| WebSocketClient.FrameIsReceived | src/transport/websocket_client.cpp:435-515 | a text is received exactly and its frame alone consumed; any other frame but a close is passed over |
| WebSocketClient.TextsArriveInOrder | src/transport/websocket_client.cpp:435-515 | the texts of a stream arrive whole and in order with other frames between them |
| WebSocketClient.WebSocketClient.SendText | src/transport/websocket_client.cpp:406-433 | the socket takes exactly the masked frame, however it splits the bytes, or the connection is closed |
| WebSocketClient.WebSocketClient.ReceiveText | src/transport/websocket_client.cpp:435-515 | however recv splits the bytes, the outcome is the next text of the stream or the fault that comes first; a client that is not connected dials first and says hello before it reads |
| WebSocketClient.WebSocketClient.RecvExact | src/transport/websocket_client.cpp:517-549 | exactly the bytes asked for, or the connection is lost |
| Traffic.ExtractTargets | src/telemetry/traffic.cpp:130-225 | targets, status, truncation and the whole census of one read |
| Traffic.FoundAreTheNearest | src/telemetry/traffic.cpp:154-206 | the in-bounds populated slots scanned, each once, never slot 0, nearest first, the lower slot first of two as near |
| Traffic.NothingNearerIsDropped | src/telemetry/traffic.cpp:203-216 | no target the cap dropped is nearer than one kept |
| Traffic.TargetIsItsSlot | src/telemetry/traffic.cpp:173-183 | a target is element i of each array that holds it, height in feet and speed in knots |
| Traffic.OnGroundMeans | src/telemetry/traffic.cpp:100-128 | on the ground exactly when no faster than 200 knots, climbing or sinking at 1000 feet a minute at most, and below ten metres; the wheels decide only where the height is not known |
| Traffic.BoundsMean | src/telemetry/traffic.cpp:188-200 | a target is kept exactly when within the height and then the range |
| Traffic.EveryTargetIsAccountedFor | src/telemetry/traffic.cpp:161-216 | seen is kept plus dropped for range, height and cap, and truncated holds exactly when the cap dropped something |
| Traffic.WhenEverySlotIsSeen | src/telemetry/traffic.cpp:158-170 | every populated slot is seen exactly when the count is not positive or covers them all |
| Traffic.TcasStringAt | src/telemetry/traffic.cpp:59-89 | the printable text of a record up to its NUL, without its padding, and nothing out of range |
| Traffic.RecordIsClean | src/telemetry/traffic.cpp:71-88 | a record's text is printable, no longer than its slot and does not end in a space |

## Left out

- Sockets, DNS, the HTTP upgrade, files, audio devices, X-Plane and Skyscript calls: foreign code. Recorder, transcriber, synthesizer, socket and radio are arbitrary outcomes.
- Dialling: resolving, the handshake and the pacing of retries are one outcome, no connection or a stream; the hello is any bytes.
- Shutting the plugin down: it clears the replies that wait and drops the one on the air without acknowledging them, so what is said of every reply holds until then.
- Locks and condition variables: one critical section is one step, and threads are steps that interleave.
- Whether `stop` sees a thread that `set_transcriber` starts at the same moment: its look at the thread is outside the lock.
- The JSON text of the sink's own messages, and why an event was ignored or a fault occurred, beyond its kind.
- Speech objects are values in a table by number, not shared pointers; the audio of a sentence is the sentence and its speaker, and how long it plays is any function of its job and its place.
- `radio` and the other signal processing; and the trigonometry of `traffic_distance_nm`, which is any function of the two positions. Numbers are reals with infinities and NaN, without rounding.
- The durations, elapsed times and log lines in a speak_ack, and the receiving radio: they decide nothing in the arbiter.
- The texts of configuration errors: which fault it was is kept, its wording is not.
- Insertion stands for std::stable_sort: only the sorted result is used.
- MD5 on a big-endian host: the source copies words in memory order and notes that it expects little-endian.
- The table of sines of RFC 1321 section 3.4 is taken as the numbers listed there.
- Ids and clocks that wrap, a `max_js_queue` of zero, and the order in which a JavaScript Map is walked on dispose.
- The status and receipt envelopes of `gui_frames.cpp`: the same builder, with fields that would only repeat the round trips.
- `json_string_field` and the other readers that search for a key anywhere; `config_value` in `xplane_plugin.cpp`, a second reader with other rules.
- What the page says for a refusal or an error that came without words.
- React components, notifications, telemetry rates, base64, the varint, the reconnect gate, METAR and navdata scanning: small or file handling.
- PttTurns.EndedTurnsAreClosed: speaks of turns whose end had been published before stop and was not discarded; a discarded end is counted, not closed.
