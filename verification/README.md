# EmblaCoreJS client core, modelled in Dafny

EmblaCoreJS is the client library of the Embla voice assistant. An
application builds an `EmblaSessionConfig`, registers its event handlers on
it and starts an `EmblaSession`. Starting works like this:

1. The session fetches an authentication token. The cached token is static,
   so every configuration in the process shares it.
2. It opens a WebSocket to the Ratatoskur server.
3. It sends a `greetings` message built from the configuration.
4. It then streams microphone audio and reacts to the server's `greetings`,
   `asr_result`, `query_result` and `error` messages.

Along the way it plays UI sounds through a web or a React Native audio player
and reports progress through the handlers. It ends in `done` through one of
two paths: `stop()`/`cancel()`, or the internal `_error`.

The model has one module per source file:

| module | file | form |
|---|---|---|
| `Common` | `common.dfy` | constants of `common.ts`; the dunno table; `Option`; lookup in an insertion-ordered key/value table (a JavaScript object literal) |
| `Util` | `util.dfy` | `asciify` as a method with its loop over the 20 `replaceAll` calls, proved equal to a character-by-character specification; case mapping; `capFirst` |
| `Token` | `token.dfy` | `AuthenticationToken.fromJson` and `isExpired`, with time as a parameter |
| `Config` | `config.dfy` | endpoint URLs; settings; `hasValidToken` and `fetchToken` as functions on the cache; classes `TokenCache` and `SessionConfig` for the shared static cache |
| `Messages` | `messages.dfy` | `GreetingsOutputMessage.fromConfig` and `toJSON`, with a reader proving that the JSON form loses nothing |
| `WebAudio` | `web_audio.dfy` | class `WebAudioPlayer`: its current element and FIFO queue, updated in place |
| `NativeAudio` | `native_audio.dfy` | the stateless `RNAudioPlayer`, one function per operation giving the native call it makes |
| `Session` | `session.dfy` | class `EmblaSession`, described below |

In `EmblaSession`, each event is one atomic method:
- an application call;
- the token request resolving;
- the socket opening or failing;
- a server message;
- a recorder error.

The recorder, player, socket and handler calls are appended to a `log` in the
order the source makes them. Each method is proved to produce a pure
`Outcome`: the next state plus the effects it appends. The protocol
properties are lemmas about those outcomes. Every event method preserves
`Valid()`, which says:
- the socket, recorder and state fit together;
- `onError` and `onDone` have not been called before `done`;
- `onError` has been called at most once.

Differences between the code and its documentation (the code is followed):
- `isExpired` is `expiresAt < now - 30 s` (`src/token.ts:29`). A token expired up to 30 seconds ago still counts as valid. An empty token string is not checked.
- `hasValidToken` is `true` when no token is cached (`src/config.ts:194-197`). After a failed token request the session still connects, and the greeting carries the empty token (`Config.FailedFetchStillPasses`, `Session.FailedFetchScenario`).
- `stop()` does not check the state, so a second `stop()` on a finished session fires `onDone` again (`Session.DoubleStopScenario`).
- When the answer audio fails to play, `onError` is called and then `onDone` (`Session.PlayFailureReportsThenEnds`).
- With no answer, `onQueryAnswerReceived` comes after `onDone` (`Session.NoAnswerHandsDunnoText`).
- A server error reaches `onError` wrapped as "Error handling message: Error: <message>" (`Session.ServerErrorReported`).
- `fetchToken` has no pluggable fetch capability.

## Model

| member | source | states |
|---|---|---|
| Common.Lookup | src/audio.native.ts:92 | a key is absent from the result exactly when no entry of the table has it |
| Common.LookupFound | src/audio.native.ts:92 | a found value is the value of some entry with that key |
| Common.LookupAt | src/audio.native.ts:92 | the first entry with the key decides the result |
| Common.LookupConcat | src/util.ts:9-30 | looking up in a concatenation consults the first part, then the second |
| Util.IceToAsciiEntriesAgree | src/util.ts:9-30 | every entry of the 20-pair table maps its letter to that letter's ASCII text |
| Util.IceToAsciiCoversLetters | src/util.ts:9-30 | every Icelandic letter has an entry in the table |
| Util.LookupIceToAscii | src/util.ts:9-30 | looking a character up in the table gives exactly its ASCII text, or nothing for other characters |
| Util.TranslateIceToAscii | src/util.ts:31-34 | translating by the table is asciifying |
| Util.IceToAsciiHasAsciiTargets | src/util.ts:9-30 | all keys are non-ASCII and all replacement texts are ASCII, so no replacement creates a key for a later pass |
| Util.ReplaceAllConcat | src/util.ts:32 | `replaceAll` of a single-character key distributes over concatenation |
| Util.ReplaceAllAbsent | src/util.ts:32 | `replaceAll` leaves a text without the key unchanged |
| Util.ReplaceAllSubst | src/util.ts:31-33 | one more `replaceAll` pass after substituting by a table equals substituting by the table with that pair added |
| Util.ReplaceAllExtends | src/util.ts:31-33 | the same, for a whole text |
| Util.TranslateEmptyTable | src/util.ts:8 | before any pass the text is unchanged |
| Util.Asciify | src/util.ts:8-35 | the sequential `replaceAll` loop computes exactly the character-by-character asciified text |
| Util.AsciifiedConcat | src/util.ts:8-35 | asciifying distributes over concatenation |
| Util.AsciifiedLength | src/util.ts:8-35 | asciifying never shortens a text |
| Util.AsciifiedLetter | src/__tests__/util.test.ts:26-28 | each Icelandic letter alone becomes its listed ASCII text ("ð"→"d" … "Æ"→"AE") |
| Util.AsciifiedHasNoIcelandic | src/util.ts:3-7 | the result contains no Icelandic letter |
| Util.AsciifiedKeepsOtherText | src/util.ts:8-35 | a text without Icelandic letters is unchanged |
| Util.AsciifiedIdempotent | src/util.ts:8-35 | asciifying twice is asciifying once |
| Util.AsciifiedGudrun | src/__tests__/util.test.ts:23-25 | "Guðrún" becomes "Gudrun" |
| Util.Lower | src/audio.web.ts:142 | lower-casing keeps the length |
| Util.LowerConcat | src/audio.web.ts:142 | lower-casing distributes over concatenation |
| Util.LowerIdempotent | src/audio.web.ts:142 | lower-casing twice is lower-casing once |
| Util.AsciiTextLowerChar | src/audio.native.ts:80 | for one character, lower-casing then asciifying equals asciifying then lower-casing |
| Util.AsciifiedLowerCommute | src/audio.native.ts:80 | the web order (lower, then asciify) and the native order (asciify, then lower) give the same text |
| Util.CapFirst | src/session.ts:303 | same length; the first character is upper-cased and the rest is unchanged |
| Util.CapFirstExamples | src/__tests__/util.test.ts:30-35 | "abcd"→"Abcd", ""→"", "g"→"G", "12"→"12" |
| Util.CapFirstIdempotent | src/session.ts:303 | capitalising twice is capitalising once |
| Token.FromJson | src/token.ts:11-24 | a body that does not parse gives the token "" expiring now; otherwise the token and expiry are the parsed fields, absent ones included |
| Token.FromJsonOfFields | src/token.ts:11-24 | a well-formed body yields exactly its fields, with the same expiry status |
| Token.ExpiryIgnoresTokenString | src/token.ts:26-30 | expiry depends only on the expiry time |
| Token.ExpiryMonotone | src/token.ts:26-30 | once expired, a token stays expired |
| Token.ExpiryBoundary | src/token.ts:26-30 | a token is expired exactly when its expiry lies more than 30 s in the past |
| Token.MalformedNotYetExpired | src/token.ts:18-22 | the token from a body that does not parse is "" and not yet expired |
| Config.IndexOf | src/config.ts:47 | finds the first occurrence of the pattern, or reports that there is none |
| Config.TokenURL | src/config.ts:42 | the token URL is the server followed by the token endpoint |
| Config.SocketURLOfHttps | src/config.ts:44-52 | an "https" server gets the scheme "wss" |
| Config.SocketURLOfHttp | src/config.ts:44-52 | an "http" server gets the scheme "ws" |
| Config.SocketURLWithoutHttp | src/config.ts:44-52 | a server naming no "http" is used unchanged |
| Config.SocketURLRewritesInsideHost | src/config.ts:49 | the substitution is not anchored: in "ws://http…" the first "http", inside the host, is rewritten |
| Config.CachedTokenString | src/config.ts:186-188 | the getter is non-empty exactly when a non-empty token string is cached, and then it is that string |
| Config.AfterFetch | src/config.ts:203-233 | a cached, unexpired token is kept; otherwise the cache becomes the parsed response, or is cleared when the request fails |
| Config.FetchKeepsValidToken | src/config.ts:204-207 | a valid cached token survives a fetch and stays valid |
| Config.FetchStoresReceivedToken | src/config.ts:220 | a non-empty, unexpired token received becomes the valid cached token |
| Config.FailedFetchStillPasses | src/config.ts:194-197 | a failed fetch empties the cache, and `hasValidToken` still holds, with the token "" |
| Config.MalformedBodyFails | src/config.ts:194-197 | a body that does not parse never passes `hasValidToken` |
| Config.BodyWithoutFieldsPasses | src/config.ts:194-197 | a body without its fields passes `hasValidToken` at any later time, with the token "" |
| Config.SessionConfig.constructor | src/config.ts:40-53 | both URLs are derived from the server; default settings; the shared cache |
| Config.SessionConfig.FetchToken | src/config.ts:203-233 | the shared cache becomes `AfterFetch` of its old value |
| Config.SessionConfig.ResetToken | src/session.ts:280 | the shared cached token is cleared |
| Config.SharedCacheScenario | src/config.ts:34 | two configurations on the one cache see the same token, and the second keeps the first's token without fetching |
| Messages.ToJson | src/messages.ts:118-125 | exactly the keys `type` ("greetings"), `token` and `data`, in that order |
| Messages.TopReadsBack | src/messages.ts:118-125 | each top-level key reads back its value |
| Messages.DataFieldsReadBack | src/messages.ts:99-110 | the six keys of `data` are distinct, so each reads back its own value |
| Messages.DataReadsBack | src/messages.ts:99-110 | each `data` key reads back its field |
| Messages.TtsReadsBack | src/messages.ts:94-97 | `voice_id` and `voice_speed` read back |
| Messages.AsrReadsBack | src/messages.ts:62-65 | `engine` is present exactly when set, with its value |
| Messages.QueryLookup | src/messages.ts:72-91 | each key of the query options object gives its field, or nothing |
| Messages.QueryReadsBack | src/messages.ts:72-91 | `url` is always present; each optional query key is present exactly when its field is defined |
| Messages.GreetingsRoundTrip | src/messages.ts:118-125 | reading the JSON form back gives the same greeting |
| Messages.WireTypeAndToken | src/messages.ts:48 | the message type is "greetings" and the token is the configuration's token |
| Messages.WireEngine | src/messages.ts:62-65 | `asr_options.engine` is present exactly when an engine is configured, with that value |
| Messages.WireQueryURL | src/messages.ts:73 | `query_options.url` is the query server followed by "/query.api" |
| Messages.WirePrivateModeWithholdsClient | src/messages.ts:74-92 | in private mode no client field and no coordinates are sent |
| Messages.WirePublicClientFields | src/messages.ts:76-84 | outside private mode each client field is sent exactly when configured, unchanged |
| Messages.WireLocation | src/messages.ts:85-91 | coordinates are sent only outside private mode and only for a two-number location, as latitude then longitude |
| Messages.WireFlagsAndVoice | src/messages.ts:94-110 | `private`, `query`, `tts` and the voice settings are copied |
| WebAudio.VoiceSegment | src/audio.web.ts:140-143 | the voice part is at least as long as the voice and holds no Icelandic letter |
| WebAudio.DefaultVoiceSegment | src/audio.web.ts:142 | the default voice "Guðrún" names the "gudrun" files |
| WebAudio.VoiceSegmentIgnoresCase | src/audio.web.ts:142 | the voice part ignores letter case |
| WebAudio.SoundURLMarksVoice | src/audio.web.ts:138-146 | a voiced sound URL differs from the unvoiced one |
| WebAudio.DunnoKey | src/audio.web.ts:125-127 | the chosen key and the text returned form one entry of the table |
| WebAudio.WebAudioPlayer.constructor | src/audio.web.ts:32-33 | nothing is playing, queued or started |
| WebAudio.WebAudioPlayer.PlayAudioQueue | src/audio.web.ts:201-216 | when idle, the first queued element is dequeued, made current and started; otherwise nothing changes |
| WebAudio.WebAudioPlayer.PlayAudio | src/audio.web.ts:190-196 | the element, at rate `speed ?? 1`, joins the end of what is pending; it starts at once only when nothing was playing |
| WebAudio.WebAudioPlayer.PlayURL | src/audio.web.ts:153-155 | as `PlayAudio` |
| WebAudio.WebAudioPlayer.PlaySound | src/audio.web.ts:138-146 | queues the sound URL built from base, name, optional voice part and extension |
| WebAudio.WebAudioPlayer.OnEnded | src/audio.web.ts:208-212 | the current element is dropped and the next one, if any, starts |
| WebAudio.WebAudioPlayer.Stop | src/audio.web.ts:160-166 | nothing is pending afterwards; nothing new starts |
| WebAudio.WebAudioPlayer.PlaySessionStart | src/audio.web.ts:77-79 | queues the voiceless "rec_begin" cue |
| WebAudio.WebAudioPlayer.PlaySessionConfirm | src/audio.web.ts:84-86 | queues the voiceless "rec_confirm" cue |
| WebAudio.WebAudioPlayer.PlaySessionCancel | src/audio.web.ts:92-95 | everything is dropped, and the "rec_cancel" cue is all that is pending and starts at once |
| WebAudio.WebAudioPlayer.PlayNoMic | src/audio.web.ts:102-108 | queues "nomic" in the given voice, or the default voice |
| WebAudio.WebAudioPlayer.PlayDunno | src/audio.web.ts:116-130 | queues the sound for the chosen key in the given voice and returns that key's text |
| WebAudio.WebAudioPlayer.Speak | src/audio.web.ts:177-183 | without synthesized audio it fails with "Error during speech synthesis", and nothing is queued or started; otherwise that audio is queued at rate 1, and it starts at once when the player is idle |
| WebAudio.QueueOrderScenario | src/audio.web.ts:190-216 | sounds requested while one plays are heard afterwards, in request order and at their rates |
| WebAudio.CancelScenario | src/audio.web.ts:92-95 | cancelling drops the queue: only the cancel cue follows what was playing |
| NativeAudio.FileURLInjective | src/audio.native.ts:139-141 | different files have different URLs |
| NativeAudio.VoiceName | src/audio.native.ts:80 | an empty voice is "gudrun"; any other voice is asciified, then lower-cased |
| NativeAudio.Speak | src/audio.native.ts:119-137 | without synthesized audio it fails with "Error during speech synthesis"; otherwise it plays exactly that URL |
| NativeAudio.DigitString | src/audio.native.ts:85-87 | one decimal digit |
| NativeAudio.PadTwo | src/audio.native.ts:85-87 | a short text is left-padded to length two and ends with the original; a longer one is unchanged |
| NativeAudio.DunnoKeyIsTableKey | src/audio.native.ts:84-88 | the key for a random draw is table entry number `draw`, "dunno01" to "dunno07" |
| NativeAudio.DunnoFallbackUnreachable | src/audio.native.ts:84-93 | the file played and the text returned belong to the same entry; the fallback to "dunno01" is never taken |
| NativeAudio.DunnoAgreesWithWeb | src/audio.native.ts:84-88 | for the same draw, the native and web players choose the same key |
| NativeAudio.EmptyVoiceIsDefault | src/audio.native.ts:80 | the empty voice and the default voice both name the "gudrun" files |
| NativeAudio.SoundURLAgreesWithWeb | src/audio.native.ts:95-109 | for a non-empty voice, both players play the same URL |
| NativeAudio.EmptyVoiceDiffersFromWeb | src/audio.native.ts:102 | for the empty voice, the native file ends "-gudrun" and the web file ends "-" |
| NativeAudio.CancelOnlyPlaysCue | src/audio.native.ts:72-74 | the native cancel plays the cue without stopping what is playing |
| NativeAudio.NoMicIsVoicedSound | src/audio.native.ts:76-82 | the no-microphone message is "nomic" in the given voice |
| Session.ErrorString | src/session.ts:282 | the string form of `new Error(message)`: "Error: " + message, or "Error" alone for an empty message |
| Session.Fire | src/session.ts:142-144 | a handler is called once with its arguments exactly when the application registered it, and never otherwise |
| Session.CallsAppend | src/session.ts:199-201 | counting handler calls distributes over concatenation |
| Session.CallsTeardown | src/session.ts:177-185 | `_stop` calls no handler |
| Session.CallsFire | src/session.ts:142-144 | a fired handler counts once when registered |
| Session.StopCallbacks | src/session.ts:138-145 | `stop()` calls `onDone` once when registered, and never `onError` |
| Session.CancelCallbacks | src/session.ts:151-156 | `cancel()` calls back exactly as `stop()` does |
| Session.ErrorCallbacks | src/session.ts:187-208 | `_error` does nothing once done; otherwise it calls `onError` with its message once when registered, and never `onDone` |
| Session.StopDiscipline | src/session.ts:138-156 | `stop()` and `cancel()` keep the callback discipline |
| Session.ErrorDiscipline | src/session.ts:187-208 | `_error` keeps the callback discipline |
| Session.FetchResolvedDiscipline | src/session.ts:116-131 | resolving the token request ends the session only through `_error`, and otherwise creates the socket |
| Session.OpenCallsNothing | src/session.ts:215-223 | opening the socket calls no handler |
| Session.AsrDiscipline | src/session.ts:298-330 | a transcript keeps the callback discipline |
| Session.QueryDiscipline | src/session.ts:332-384 | a query result keeps the callback discipline, including when the answer audio fails |
| Session.MessageDiscipline | src/session.ts:259-296 | whatever the server sends, `onError` fires at most once and never after `done`; neither it nor `onDone` fires unless the session ends; `done` is final |
| Session.DisciplineExtends | src/session.ts:187-208 | an event keeping the discipline, appended to a log that kept it, gives a log that keeps it |
| Session.OnlyRegisteredAppend | src/session.ts:142-144 | logs calling only registered handlers stay so when concatenated |
| Session.ErrorOnlyRegistered | src/session.ts:199-201 | `_error` calls only registered handlers |
| Session.StopOnlyRegistered | src/session.ts:142-156 | `stop()` and `cancel()` call only registered handlers |
| Session.MessageOnlyRegistered | src/session.ts:259-384 | no server message leads to a call of a handler the application left unset |
| Session.AsrTransitions | src/session.ts:306-329 | while streaming: a non-final transcript keeps streaming; a final one ends the session when empty or when querying is off, and otherwise moves to answering; the recorder stops exactly for final transcripts |
| Session.AsrReportsTranscript | src/session.ts:303-318 | `onSpeechTextReceived` sees the transcript with its first letter capitalised, exactly once |
| Session.NoAnswerHandsDunnoText | src/session.ts:339-359 | without an answer, the dunno utterance plays first, then `stop()`, then `onQueryAnswerReceived` gets the data with the dunno text as its answer; missing data is not handed over |
| Session.PlayFailureEffects | src/session.ts:363-379 | an answer whose audio fails to play: answer handed over, URL played, `_error`, then `stop()` |
| Session.PlayFailureReportsThenEnds | src/session.ts:363-379 | when answer audio fails, `onQueryAnswerReceived` comes first, `onError` carries the failure message, and `onError` and `onDone` are each called once, `onDone` last |
| Session.TimeoutIsQuiet | src/session.ts:274-277 | a server timeout is `cancel()`: the session ends, and `onError` is not called |
| Session.ServerErrorReported | src/session.ts:273-287 | any other server error ends a live session: `onError` once, with the message wrapped twice, and "err" played last; the cached token is reset exactly for "token_error" |
| Session.UnknownTypeReported | src/session.ts:283-287 | a message of unknown type ends a live session with `onError` naming the type |
| Session.ErrorEffectsEnd | src/session.ts:203-207 | a live `_error` ends by playing "err" in the configured voice and speed, and never touches the token |
| Session.EmblaSession.constructor | src/session.ts:80-82 | a new session is idle, with nothing logged, no socket and no recording |
| Session.EmblaSession.ActiveMeansConnection | src/session.ts:162-167 | an active session is waiting for its token or holds a socket that is not closed; an inactive one has no live socket and no running recorder |
| Session.EmblaSession.Start | src/session.ts:108-113 | only an idle session starts; any other state fails with "Session is not idle!" and changes nothing |
| Session.EmblaSession.Teardown | src/session.ts:177-185 | the recorder stops, and the socket, if any, is closed |
| Session.EmblaSession.Stop | src/session.ts:138-145 | in any state: tear down, become `done`, call `onDone` |
| Session.EmblaSession.Cancel | src/session.ts:151-156 | `stop()`, then the cancel cue when audio is on |
| Session.EmblaSession.Error | src/session.ts:187-208 | a no-op once done; otherwise tear down, become `done`, call `onError`, play "err" |
| Session.EmblaSession.UserStop | src/session.ts:138-145 | `stop()` called by the application keeps `Valid()` |
| Session.EmblaSession.UserCancel | src/session.ts:151-156 | `cancel()` called by the application keeps `Valid()` |
| Session.EmblaSession.ResolveTokenFetch | src/session.ts:116-131 | the cache is updated as by `fetchToken`; a cancelled session does nothing more; an invalid token gives `_error("Missing session token!")`; a socket constructor failure gives `_error`; otherwise a socket is created on the configured URL |
| Session.EmblaSession.ChannelOpen | src/session.ts:215-223 | the greeting built from the configuration and the current token is sent, the recorder starts, the start cue plays, and the session streams |
| Session.EmblaSession.ChannelError | src/session.ts:224-228 | a socket error is an `_error`, and a no-op once done; the socket is closed unless the session was already done; `fetching` is unchanged |
| Session.EmblaSession.RecorderError | src/session.ts:244-246 | a recorder error is an `_error` with the recorder's message; the socket is closed unless the session was already done; `fetching` is unchanged |
| Session.EmblaSession.Transcript | src/session.ts:306-318 | a final transcript stops the recorder and moves on to answering when querying is on; then `onSpeechTextReceived` |
| Session.EmblaSession.HandleAsr | src/session.ts:298-330 | the session does exactly what `AsrOutcome` states; the socket is closed exactly when the session ends; `fetching` is unchanged |
| Session.EmblaSession.AnswerDunno | src/session.ts:339-359 | the no-answer path does exactly what `DunnoEffects` states, and ends with the socket closed; `fetching` is unchanged |
| Session.EmblaSession.HandleQuery | src/session.ts:332-384 | the session does exactly what `QueryOutcome` states; the socket is closed exactly when the session ends; `fetching` is unchanged |
| Session.EmblaSession.Answer | src/session.ts:363-379 | the answer path does exactly what `AnswerEffects` states, and ends with the socket closed; `fetching` is unchanged |
| Session.EmblaSession.PlayAnswerAudio | src/session.ts:368-377 | a non-empty audio URL is played, and `_error` follows if playing throws; the session stays answering unless that `_error` ended it, and then its socket is closed; `fetching` is unchanged |
| Session.EmblaSession.HandleServerError | src/session.ts:273-282 | a timeout cancels; any other error is an `_error`, and "token_error" first resets the cached token; the socket is closed exactly when the session ends; `fetching` is unchanged |
| Session.EmblaSession.OnMessage | src/session.ts:259-296 | every server message keeps `Valid()`, does exactly what `MessageOutcome` states, and clears the cached token exactly on "token_error"; the socket is closed exactly when the session ends; `fetching` is unchanged |
| Session.CancelDuringFetchScenario | src/session.ts:116-121 | a session cancelled while its token is being fetched logs only the stop and the cancel cue, and never connects |
| Session.FailedFetchScenario | src/session.ts:124-128 | with nothing cached, a failed token request still connects, and the greeting carries the token "" |
| Session.TokenErrorScenario | src/session.ts:278-282 | a "token_error" clears the shared cache, calls `onError` once, and ends the session |
| Session.DoubleStopScenario | src/session.ts:138-145 | stopping twice calls `onDone` twice and `onError` never |
| Session.AnswerScenario | src/session.ts:210-384 | a whole query from connecting to `done`, effect by effect |

## Left out

- Network and I/O: the HTTP token request, the WebSocket, speech synthesis, the recorder, and `Date.now` are parameters of the model. The outcome of the token request is a `FetchOutcome`. What the `WebSocket` constructor or `playURL` threw is an optional message. The time is an integer count of milliseconds.
- JSON text and ISO dates are not parsed. A token body is either malformed or holds its two fields. A date is either a time or invalid. A server message arrives as an `Inbound` value, with its parse failure as text.
- Numbers: floating-point values (`voiceSpeed`, coordinates, playback rate) are reals.
- `defaultSpeechSynthesisSpeed`, `speechToTextLanguage` and the package version are constants without a value, because `package.json` and the constants that define them are not part of this model.
- Case mapping: `toLowerCase` and the upper-casing in `capFirst` are modelled for ASCII letters and the Icelandic letter pairs. Other characters are left unchanged.
- `replaceAll` is modelled for single-character patterns, which is every pattern `asciify` uses. `String.replace` is modelled for a fixed pattern.
- `Math.random()` is replaced by the index it selects.
- Asynchrony: each event runs to completion before the next starts. Interleavings inside one `await` are not modelled.
- The platform is assumed to fire `onopen` at most once and never after `close()`, and to deliver messages only on an open socket that is not closed. These are preconditions of `ChannelOpen` and `OnMessage`.
- Application handlers are assumed not to throw.
- Recorder and player calls are assumed not to throw, except `playURL` on the answer's audio, which has a failure path. In particular a throwing `playDunno`, which would reach `_error` through the catch at `src/session.ts:380-382`, is not modelled.
- The raw message argument of `onSpeechTextReceived` is not recorded.
- `onStartQuerying` and `onStartAnswering` are declared in the configuration but never called by the session, so they are not modelled.
- The catch at `src/session.ts:129-131` is not modelled. `fetchToken` catches its own failures, so nothing in that `try` can throw.
- The `TypeError` thrown when the dunno text is written into missing query data, and the `_error` it reaches, are modelled as what they amount to: nothing, since `stop()` has already run.
- `resetToken` is called by the session but is not defined in `config.ts`. It is modelled as clearing the cached token.
- Audio data sent on the socket, `init`/`prepare` (pre-fetching sounds), `_attachAudioClasses`, `currentState` and `toString` are not modelled: they move bytes or only report state.
- NativeAudio's playback speed argument is ignored by the source, and so by the model.
