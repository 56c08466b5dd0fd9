/**
 * The session state machine (session.ts). Each event the session reacts to
 * (a call by the application, the token request resolving, the socket
 * opening or failing, a server message, a recorder error) is one atomic
 * method on `EmblaSession`. The recorder, the audio player, the socket and
 * the application's callbacks are capabilities whose uses are appended to
 * the session's `log`, in the order the source performs them.
 *
 * What each event does is first stated as a pure outcome (the next state
 * and the effects it appends); the methods are proved to produce exactly
 * that outcome, and the properties of the protocol are lemmas about the
 * outcome functions.
 */
module Session {
  import opened Common
  import opened Util
  import opened Token
  import opened Config
  import opened Messages

  /** `EmblaSessionState`. */
  datatype State = Idle | Starting | Streaming | Answering | Done

  /** The `data` of a query result, through the three fields the session reads. */
  datatype QueryData = QueryData(valid: Option<bool>, answer: Option<string>, audio: Option<string>)

  /**
   * A message from the server, as the handler sees it after `JSON.parse`.
   * `Unknown` carries a type other than the four known ones; `Unparsable`
   * is a message text that `JSON.parse` rejects, with the text of the
   * resulting exception. An absent `message` of an error reads as "".
   */
  datatype Inbound =
    | GreetingsResponse
    | AsrResponse(transcript: string, isFinal: bool)
    | QueryResponse(data: Option<QueryData>)
    | ErrorResponse(name: string, message: string)
    | Unknown(msgType: string)
    | Unparsable(error: string)

  /** The `type` field of an `Unknown` message is not one of the handled ones. */
  predicate WellFormed(m: Inbound) {
    m.Unknown? ==> m.msgType !in {"greetings", "asr_result", "query_result", "error"}
  }

  /** A call of one of the application's handlers, with its arguments. */
  datatype Callback =
    | StartStreaming
    | SpeechText(text: string, isFinal: bool)
    | QueryAnswer(data: QueryData)
    | DoneCalled
    | ErrorCalled(message: string)

  function KindOf(cb: Callback): Handler {
    match cb
    case StartStreaming => OnStartStreaming
    case SpeechText(_, _) => OnSpeechTextReceived
    case QueryAnswer(_) => OnQueryAnswerReceived
    case DoneCalled => OnDone
    case ErrorCalled(_) => OnError
  }

  /** A call on the audio player (either player implements these). */
  datatype PlayerCall =
    | StartCue
    | ConfirmCue
    | CancelCue
    | Sound(name: string, voice: Option<string>, speed: Option<Float>)
    | Dunno(dunnoVoice: string, dunnoSpeed: Option<Float>)
    | PlayURL(url: string)

  /** One observable use of a capability. */
  datatype Effect =
    | RecorderStarted
    | RecorderStopped
    | SocketCreated(url: string)
    | SocketClosed
    | Sent(greeting: Greetings)
    | Played(call: PlayerCall)
    | TokenReset
    | Called(callback: Callback)

  /** The session's WebSocket: its URL and whether it has opened and whether `close()` was called. */
  datatype Channel = Channel(url: string, isOpen: bool, isClosed: bool)

  /** What one event does: the state it leaves and the effects it appends. */
  datatype Outcome = Outcome(state: State, effects: seq<Effect>)

  // ---- message texts ------------------------------------------------------

  const MissingToken: string := "Missing session token!"
  const SocketEventError: string := "Error listening on WebSocket connection: [object Event]"

  /** The string form of `new Error(message)`: "Error" alone when the message is empty. */
  function ErrorString(message: string): (s: string)
    ensures message != "" ==> s == "Error: " + message
    ensures message == "" ==> s == "Error"
  {
    if message == "" then "Error" else "Error: " + message
  }

  /** The message the handler's catch passes to `_error`. */
  function HandlingError(err: string): string {
    "Error handling message: " + err
  }

  // ---- counting callbacks ---------------------------------------------------

  /** How many times the handler `h` was called in `log`. */
  function Calls(log: seq<Effect>, h: Handler): nat {
    if log == [] then 0
    else (if log[0].Called? && KindOf(log[0].callback) == h then 1 else 0) + Calls(log[1..], h)
  }

  lemma {:induction false} CallsAppend(a: seq<Effect>, b: seq<Effect>, h: Handler)
    ensures Calls(a + b, h) == Calls(a, h) + Calls(b, h)
  {
    if a == [] {
      assert a + b == b;
    } else {
      assert (a + b)[1..] == a[1..] + b;
      CallsAppend(a[1..], b, h);
    }
  }

  // ---- the outcome of each event --------------------------------------------

  /** A handler call, made only when the application registered that handler. */
  function Fire(s: Settings, cb: Callback): (e: seq<Effect>)
    ensures e == [] || e == [Called(cb)]
    ensures e != [] <==> KindOf(cb) in s.handlers
  {
    if KindOf(cb) in s.handlers then [Called(cb)] else []
  }

  /** `_stop`: stop the recorder, then close the socket when there is one. */
  function TeardownEffects(hasSocket: bool): seq<Effect> {
    [RecorderStopped] + (if hasSocket then [SocketClosed] else [])
  }

  /** `stop()`: tear down, become `done`, call `onDone`; it does not look at the state. */
  function StopOutcome(s: Settings, hasSocket: bool): Outcome {
    Outcome(Done, TeardownEffects(hasSocket) + Fire(s, DoneCalled))
  }

  /** `cancel()`: `stop()`, then the cancel cue when audio is on. */
  function CancelOutcome(s: Settings, hasSocket: bool): Outcome {
    Outcome(Done, StopOutcome(s, hasSocket).effects + (if s.audio then [Played(CancelCue)] else []))
  }

  /** `_error(msg)`: nothing once `done`; otherwise tear down, become `done`, call `onError`, play "err". */
  function ErrorOutcome(st: State, s: Settings, hasSocket: bool, msg: string): Outcome {
    if st == Done then Outcome(Done, [])
    else Outcome(Done, TeardownEffects(hasSocket) + Fire(s, ErrorCalled(msg))
      + [Played(Sound("err", Some(s.voiceID), Some(s.voiceSpeed)))])
  }

  /** The rest of `start()` once `fetchToken` has resolved (session.ts:116-131, 210-234). */
  function FetchResolvedOutcome(st: State, s: Settings, tokenValid: bool, socketFailure: Option<string>, url: string): Outcome {
    if st != Starting then Outcome(st, [])
    else if !tokenValid then ErrorOutcome(st, s, false, MissingToken)
    else if socketFailure.Some? then ErrorOutcome(st, s, false, "Error communicating with server: " + socketFailure.value)
    else Outcome(Starting, [SocketCreated(url)])
  }

  /** The socket's `onopen`: send the greeting, then `_startStreaming` (session.ts:215-223, 236-251). */
  function OpenOutcome(s: Settings, greeting: Greetings): Outcome {
    Outcome(Streaming, [Sent(greeting), RecorderStarted] + (if s.audio then [Played(StartCue)] else []))
  }

  /** `_handleASRResultMessage` (session.ts:298-330). */
  function AsrOutcome(st: State, s: Settings, transcript: string, isFinal: bool): Outcome {
    if st != Streaming then ErrorOutcome(st, s, true, HandlingError(ErrorString("Session is not streaming!")))
    else
      var text := CapFirst(transcript);
      var first := TranscriptEffects(s, text, isFinal);
      if isFinal && text == "" then Outcome(Done, first + CancelOutcome(s, true).effects)
      else if isFinal && !s.query then Outcome(Done, first + StopOutcome(s, true).effects)
      else Outcome(if isFinal && s.query then Answering else Streaming, first)
  }

  /**
   * What a transcript does before the session decides whether to go on:
   * a final one stops the recorder and, when it leads to a query, plays the
   * confirm cue; then `onSpeechTextReceived` sees it.
   */
  function TranscriptEffects(s: Settings, text: string, isFinal: bool): seq<Effect> {
    (if isFinal then [RecorderStopped] else [])
      + (if isFinal && s.query && s.audio then [Played(ConfirmCue)] else [])
      + Fire(s, SpeechText(text, isFinal))
  }

  /** The test that selects the "I don't know" path. */
  predicate NoAnswer(data: Option<QueryData>) {
    data.None? || data.value.valid == Some(false) || data.value.answer.None?
  }

  /**
   * `_handleQueryResultMessage` (session.ts:332-384). `dunnoText` is what
   * the player's `playDunno` returned and `playFailure` the text of what
   * `playURL` threw, if it threw. When the data is missing, writing the
   * dunno text into it throws; the catch then calls `_error`, which does
   * nothing because `stop()` has already run.
   */
  function QueryOutcome(st: State, s: Settings, data: Option<QueryData>, dunnoText: string, playFailure: Option<string>): Outcome {
    if st != Answering then ErrorOutcome(st, s, true, HandlingError(ErrorString("Session is not answering query!")))
    else if NoAnswer(data) then Outcome(Done, DunnoEffects(s, data, dunnoText))
    else Outcome(Done, AnswerEffects(s, data.value, playFailure))
  }

  /** No answer: the "I don't know" utterance, `stop()`, then the data with that text as its answer. */
  function DunnoEffects(s: Settings, data: Option<QueryData>, dunnoText: string): seq<Effect> {
    [Played(Dunno(s.voiceID, Some(s.voiceSpeed)))] + StopOutcome(s, true).effects
      + (if data.Some? then Fire(s, QueryAnswer(data.value.(answer := Some(dunnoText)))) else [])
  }

  /** An answer: hand it over, play its audio when it has some (`_error` if that throws), then `stop()`. */
  function AnswerEffects(s: Settings, d: QueryData, playFailure: Option<string>): seq<Effect> {
    Fire(s, QueryAnswer(d)) + PlayAnswer(s, d, playFailure) + StopOutcome(s, true).effects
  }

  /** Playing the answer's audio, when it has a non-empty URL; `_error` when `playURL` throws. */
  function PlayAnswer(s: Settings, d: QueryData, playFailure: Option<string>): seq<Effect> {
    if d.audio.Some? && d.audio.value != "" then
      [Played(PlayURL(d.audio.value))]
      + (if playFailure.Some?
         then ErrorOutcome(Answering, s, true, "Error playing audio at URL " + d.audio.value + ": " + playFailure.value).effects
         else [])
    else []
  }

  /** The socket's message handler (session.ts:259-296). */
  function MessageOutcome(st: State, s: Settings, m: Inbound, dunnoText: string, playFailure: Option<string>): Outcome {
    match m
    case GreetingsResponse => Outcome(st, Fire(s, StartStreaming))
    case AsrResponse(transcript, isFinal) => AsrOutcome(st, s, transcript, isFinal)
    case QueryResponse(data) => QueryOutcome(st, s, data, dunnoText, playFailure)
    case ErrorResponse(name, message) =>
      if name == "timeout_error" then CancelOutcome(s, true)
      else
        var o := ErrorOutcome(st, s, true, HandlingError(ErrorString(message)));
        Outcome(o.state, (if name == "token_error" then [TokenReset] else []) + o.effects)
    case Unknown(t) => ErrorOutcome(st, s, true, HandlingError(ErrorString("Invalid message type: " + t)))
    case Unparsable(err) => ErrorOutcome(st, s, true, HandlingError(err))
  }

  // ---- properties of the outcomes ---------------------------------------------

  lemma CallsSingle(e: Effect, h: Handler)
    ensures Calls([e], h) == if e.Called? && KindOf(e.callback) == h then 1 else 0
  {
    assert [e][1..] == [];
  }

  lemma CallsTeardown(hasSocket: bool, h: Handler)
    ensures Calls(TeardownEffects(hasSocket), h) == 0
  {
    CallsSingle(RecorderStopped, h);
    CallsSingle(SocketClosed, h);
    CallsAppend([RecorderStopped], if hasSocket then [SocketClosed] else [], h);
  }

  lemma CallsFire(s: Settings, cb: Callback, h: Handler)
    ensures Calls(Fire(s, cb), h) == if KindOf(cb) == h && KindOf(cb) in s.handlers then 1 else 0
  {
    CallsSingle(Called(cb), h);
  }

  /**
   * How an event may call `onError` and `onDone`: `onError` at most once,
   * and not at all once the session is done; neither of them unless the
   * event leaves the session done; and nothing leaves `done`. `onDone` is
   * not limited once done: `stop()` does not look at the state.
   */
  ghost predicate CallbackDiscipline(st: State, o: Outcome) {
    Calls(o.effects, OnError) <= (if st == Done then 0 else 1)
    && (o.state != Done ==> st != Done && Calls(o.effects, OnError) == 0 && Calls(o.effects, OnDone) == 0)
  }

  /** `stop()` calls `onDone` once when registered and never `onError`. */
  lemma StopCallbacks(s: Settings, hasSocket: bool)
    ensures Calls(StopOutcome(s, hasSocket).effects, OnError) == 0
    ensures Calls(StopOutcome(s, hasSocket).effects, OnDone) == if OnDone in s.handlers then 1 else 0
  {
    CallsTeardown(hasSocket, OnError);
    CallsTeardown(hasSocket, OnDone);
    CallsFire(s, DoneCalled, OnError);
    CallsFire(s, DoneCalled, OnDone);
    CallsAppend(TeardownEffects(hasSocket), Fire(s, DoneCalled), OnError);
    CallsAppend(TeardownEffects(hasSocket), Fire(s, DoneCalled), OnDone);
  }

  /** `cancel()` calls back exactly as `stop()` does. */
  lemma CancelCallbacks(s: Settings, hasSocket: bool, h: Handler)
    ensures Calls(CancelOutcome(s, hasSocket).effects, h) == Calls(StopOutcome(s, hasSocket).effects, h)
  {
    var cue: seq<Effect> := if s.audio then [Played(CancelCue)] else [];
    CallsSingle(Played(CancelCue), h);
    CallsAppend(StopOutcome(s, hasSocket).effects, cue, h);
  }

  /**
   * `_error` calls `onError` with its message once when registered and
   * never `onDone`; once the session is done it does nothing at all.
   */
  lemma ErrorCallbacks(st: State, s: Settings, hasSocket: bool, msg: string)
    ensures st == Done ==> ErrorOutcome(st, s, hasSocket, msg) == Outcome(Done, [])
    ensures Calls(ErrorOutcome(st, s, hasSocket, msg).effects, OnDone) == 0
    ensures Calls(ErrorOutcome(st, s, hasSocket, msg).effects, OnError)
      == if st != Done && OnError in s.handlers then 1 else 0
    ensures st != Done && OnError in s.handlers ==> Called(ErrorCalled(msg)) in ErrorOutcome(st, s, hasSocket, msg).effects
  {
    if st != Done {
      var t := TeardownEffects(hasSocket);
      var f := Fire(s, ErrorCalled(msg));
      var p: seq<Effect> := [Played(Sound("err", Some(s.voiceID), Some(s.voiceSpeed)))];
      forall h | h == OnDone || h == OnError
        ensures Calls(t + f + p, h) == Calls(f, h)
      {
        CallsTeardown(hasSocket, h);
        CallsSingle(p[0], h);
        CallsAppend(t, f, h);
        CallsAppend(t + f, p, h);
      }
      CallsFire(s, ErrorCalled(msg), OnDone);
      CallsFire(s, ErrorCalled(msg), OnError);
      assert f != [] ==> (t + f + p)[|t|] == Called(ErrorCalled(msg));
    }
  }

  lemma StopDiscipline(st: State, s: Settings, hasSocket: bool)
    ensures CallbackDiscipline(st, StopOutcome(s, hasSocket))
    ensures CallbackDiscipline(st, CancelOutcome(s, hasSocket))
  {
    StopCallbacks(s, hasSocket);
    CancelCallbacks(s, hasSocket, OnError);
  }

  lemma ErrorDiscipline(st: State, s: Settings, hasSocket: bool, msg: string)
    ensures CallbackDiscipline(st, ErrorOutcome(st, s, hasSocket, msg))
  {
    ErrorCallbacks(st, s, hasSocket, msg);
  }

  /** Resolving the token request ends the session only through `_error`, and otherwise creates the socket. */
  lemma FetchResolvedDiscipline(st: State, s: Settings, tokenValid: bool, socketFailure: Option<string>, url: string)
    ensures CallbackDiscipline(st, FetchResolvedOutcome(st, s, tokenValid, socketFailure, url))
  {
    if st == Starting {
      ErrorCallbacks(st, s, false, MissingToken);
      ErrorCallbacks(st, s, false, "Error communicating with server: " + socketFailure.GetOr(""));
      CallsSingle(SocketCreated(url), OnError);
      CallsSingle(SocketCreated(url), OnDone);
    }
  }

  /** Opening the socket calls back nothing: `onStartStreaming` waits for the server's greeting. */
  lemma OpenCallsNothing(s: Settings, greeting: Greetings, h: Handler)
    ensures Calls(OpenOutcome(s, greeting).effects, h) == 0
  {
    var e := OpenOutcome(s, greeting).effects;
    CallsSingle(Sent(greeting), h);
    CallsSingle(RecorderStarted, h);
    CallsSingle(Played(StartCue), h);
    CallsAppend([Sent(greeting)], [RecorderStarted], h);
    assert [Sent(greeting), RecorderStarted] == [Sent(greeting)] + [RecorderStarted];
    CallsAppend([Sent(greeting), RecorderStarted], if s.audio then [Played(StartCue)] else [], h);
  }

  lemma AsrDiscipline(st: State, s: Settings, transcript: string, isFinal: bool)
    ensures CallbackDiscipline(st, AsrOutcome(st, s, transcript, isFinal))
  {
    if st != Streaming {
      ErrorCallbacks(st, s, true, HandlingError(ErrorString("Session is not streaming!")));
    } else {
      var text := CapFirst(transcript);
      var a: seq<Effect> := if isFinal then [RecorderStopped] else [];
      var b: seq<Effect> := if isFinal && s.query && s.audio then [Played(ConfirmCue)] else [];
      var c := Fire(s, SpeechText(text, isFinal));
      forall h | h == OnDone || h == OnError
        ensures Calls(a + b + c, h) == 0
      {
        CallsSingle(RecorderStopped, h);
        CallsSingle(Played(ConfirmCue), h);
        CallsAppend(a, b, h);
        CallsAppend(a + b, c, h);
        CallsFire(s, SpeechText(text, isFinal), h);
      }
      StopCallbacks(s, true);
      CancelCallbacks(s, true, OnError);
      CallsAppend(a + b + c, CancelOutcome(s, true).effects, OnError);
      CallsAppend(a + b + c, StopOutcome(s, true).effects, OnError);
    }
  }

  lemma QueryDiscipline(st: State, s: Settings, data: Option<QueryData>, dunnoText: string, playFailure: Option<string>)
    ensures CallbackDiscipline(st, QueryOutcome(st, s, data, dunnoText, playFailure))
  {
    StopCallbacks(s, true);
    if st != Answering {
      ErrorCallbacks(st, s, true, HandlingError(ErrorString("Session is not answering query!")));
    } else if NoAnswer(data) {
      var p: seq<Effect> := [Played(Dunno(s.voiceID, Some(s.voiceSpeed)))];
      var q: seq<Effect> := if data.Some? then Fire(s, QueryAnswer(data.value.(answer := Some(dunnoText)))) else [];
      CallsSingle(p[0], OnError);
      CallsAppend(p, StopOutcome(s, true).effects, OnError);
      CallsAppend(p + StopOutcome(s, true).effects, q, OnError);
      if data.Some? {
        CallsFire(s, QueryAnswer(data.value.(answer := Some(dunnoText))), OnError);
      }
    } else {
      var d := data.value;
      var f := Fire(s, QueryAnswer(d));
      CallsFire(s, QueryAnswer(d), OnError);
      if d.audio.Some? && d.audio.value != "" {
        var msg := "Error playing audio at URL " + d.audio.value + ": " + playFailure.GetOr("");
        ErrorCallbacks(Answering, s, true, msg);
        var e := if playFailure.Some? then ErrorOutcome(Answering, s, true, msg).effects else [];
        var u: seq<Effect> := [Played(PlayURL(d.audio.value))];
        CallsSingle(u[0], OnError);
        CallsAppend(u, e, OnError);
        CallsAppend(f, u + e, OnError);
        CallsAppend(f + (u + e), StopOutcome(s, true).effects, OnError);
      } else {
        CallsAppend(f, [], OnError);
        CallsAppend(f, StopOutcome(s, true).effects, OnError);
      }
    }
  }

  /** Whatever the server sends, the session keeps the callback discipline. */
  lemma {:induction false} MessageDiscipline(st: State, s: Settings, m: Inbound, dunnoText: string, playFailure: Option<string>)
    ensures CallbackDiscipline(st, MessageOutcome(st, s, m, dunnoText, playFailure))
  {
    match m
    case GreetingsResponse =>
      CallsFire(s, StartStreaming, OnError);
      CallsFire(s, StartStreaming, OnDone);
    case AsrResponse(transcript, isFinal) =>
      AsrDiscipline(st, s, transcript, isFinal);
    case QueryResponse(data) =>
      QueryDiscipline(st, s, data, dunnoText, playFailure);
    case ErrorResponse(name, message) =>
      if name == "timeout_error" {
        StopDiscipline(st, s, true);
      } else {
        var o := ErrorOutcome(st, s, true, HandlingError(ErrorString(message)));
        ErrorCallbacks(st, s, true, HandlingError(ErrorString(message)));
        var pre: seq<Effect> := if name == "token_error" then [TokenReset] else [];
        CallsSingle(TokenReset, OnError);
        CallsSingle(TokenReset, OnDone);
        CallsAppend(pre, o.effects, OnError);
        CallsAppend(pre, o.effects, OnDone);
      }
    case Unknown(t) =>
      ErrorDiscipline(st, s, true, HandlingError(ErrorString("Invalid message type: " + t)));
    case Unparsable(err) =>
      ErrorDiscipline(st, s, true, HandlingError(err));
  }

  lemma Regroup(a: seq<Effect>, b: seq<Effect>, c: seq<Effect>, d: seq<Effect>)
    ensures a + b + c + d == a + (b + c + d)
  {
  }

  /** Appending an event's effects to a log that kept the discipline keeps it. */
  lemma {:induction false} DisciplineExtends(log: seq<Effect>, st: State, o: Outcome)
    requires CallbackDiscipline(st, o)
    requires st != Done ==> Calls(log, OnError) == 0 && Calls(log, OnDone) == 0
    requires Calls(log, OnError) <= 1
    ensures o.state != Done ==> Calls(log + o.effects, OnError) == 0 && Calls(log + o.effects, OnDone) == 0
    ensures Calls(log + o.effects, OnError) <= 1
  {
    CallsAppend(log, o.effects, OnError);
    CallsAppend(log, o.effects, OnDone);
  }

  // ---- what each event promises ---------------------------------------------

  /** Every handler call in `effects` is to a handler the application registered. */
  ghost predicate OnlyRegistered(s: Settings, effects: seq<Effect>) {
    forall i :: 0 <= i < |effects| && effects[i].Called? ==> KindOf(effects[i].callback) in s.handlers
  }

  lemma OnlyRegisteredAppend(s: Settings, a: seq<Effect>, b: seq<Effect>)
    requires OnlyRegistered(s, a) && OnlyRegistered(s, b)
    ensures OnlyRegistered(s, a + b)
  {
    forall i | 0 <= i < |a + b| && (a + b)[i].Called?
      ensures KindOf((a + b)[i].callback) in s.handlers
    {
      if i >= |a| {
        assert (a + b)[i] == b[i - |a|];
      }
    }
  }

  lemma ErrorOnlyRegistered(st: State, s: Settings, hasSocket: bool, msg: string)
    ensures OnlyRegistered(s, ErrorOutcome(st, s, hasSocket, msg).effects)
  {
    if st != Done {
      OnlyRegisteredAppend(s, TeardownEffects(hasSocket), Fire(s, ErrorCalled(msg)));
      OnlyRegisteredAppend(s, TeardownEffects(hasSocket) + Fire(s, ErrorCalled(msg)),
        [Played(Sound("err", Some(s.voiceID), Some(s.voiceSpeed)))]);
    }
  }

  lemma StopOnlyRegistered(s: Settings, hasSocket: bool)
    ensures OnlyRegistered(s, StopOutcome(s, hasSocket).effects)
    ensures OnlyRegistered(s, CancelOutcome(s, hasSocket).effects)
  {
    OnlyRegisteredAppend(s, TeardownEffects(hasSocket), Fire(s, DoneCalled));
    OnlyRegisteredAppend(s, StopOutcome(s, hasSocket).effects, if s.audio then [Played(CancelCue)] else []);
  }

  /** The session never calls a handler the application left unset, whatever the server sends. */
  lemma {:induction false} MessageOnlyRegistered(st: State, s: Settings, m: Inbound, dunnoText: string, playFailure: Option<string>)
    ensures OnlyRegistered(s, MessageOutcome(st, s, m, dunnoText, playFailure).effects)
  {
    StopOnlyRegistered(s, true);
    match m
    case GreetingsResponse =>
    case AsrResponse(transcript, isFinal) =>
      ErrorOnlyRegistered(st, s, true, HandlingError(ErrorString("Session is not streaming!")));
      var text := CapFirst(transcript);
      var a: seq<Effect> := if isFinal then [RecorderStopped] else [];
      var b: seq<Effect> := if isFinal && s.query && s.audio then [Played(ConfirmCue)] else [];
      OnlyRegisteredAppend(s, a, b);
      OnlyRegisteredAppend(s, a + b, Fire(s, SpeechText(text, isFinal)));
      OnlyRegisteredAppend(s, TranscriptEffects(s, text, isFinal), CancelOutcome(s, true).effects);
      OnlyRegisteredAppend(s, TranscriptEffects(s, text, isFinal), StopOutcome(s, true).effects);
    case QueryResponse(data) =>
      ErrorOnlyRegistered(st, s, true, HandlingError(ErrorString("Session is not answering query!")));
      var p: seq<Effect> := [Played(Dunno(s.voiceID, Some(s.voiceSpeed)))];
      OnlyRegisteredAppend(s, p, StopOutcome(s, true).effects);
      if data.Some? {
        OnlyRegisteredAppend(s, p + StopOutcome(s, true).effects, Fire(s, QueryAnswer(data.value.(answer := Some(dunnoText)))));
        var d := data.value;
        var u: seq<Effect> := [Played(PlayURL(d.audio.GetOr("")))];
        var msg := "Error playing audio at URL " + d.audio.GetOr("") + ": " + playFailure.GetOr("");
        ErrorOnlyRegistered(Answering, s, true, msg);
        OnlyRegisteredAppend(s, u, ErrorOutcome(Answering, s, true, msg).effects);
        OnlyRegisteredAppend(s, Fire(s, QueryAnswer(d)), PlayAnswer(s, d, playFailure));
        OnlyRegisteredAppend(s, Fire(s, QueryAnswer(d)) + PlayAnswer(s, d, playFailure), StopOutcome(s, true).effects);
      } else {
        OnlyRegisteredAppend(s, p + StopOutcome(s, true).effects, []);
      }
    case ErrorResponse(name, message) =>
      ErrorOnlyRegistered(st, s, true, HandlingError(ErrorString(message)));
      OnlyRegisteredAppend(s, [TokenReset], ErrorOutcome(st, s, true, HandlingError(ErrorString(message))).effects);
    case Unknown(t) =>
      ErrorOnlyRegistered(st, s, true, HandlingError(ErrorString("Invalid message type: " + t)));
    case Unparsable(err) =>
      ErrorOnlyRegistered(st, s, true, HandlingError(err));
  }

  /**
   * Where a transcript leads while streaming: a non-final one keeps
   * streaming; a final one ends the session when it is empty or querying
   * is off, and otherwise moves on to answering. Only a final transcript
   * stops the recorder.
   */
  lemma AsrTransitions(s: Settings, transcript: string, isFinal: bool)
    ensures var o := AsrOutcome(Streaming, s, transcript, isFinal);
      (o.state == Streaming <==> !isFinal)
      && (o.state == Answering <==> isFinal && s.query && transcript != "")
      && (o.state == Done <==> isFinal && (transcript == "" || !s.query))
      && (RecorderStopped in o.effects <==> isFinal)
  {
    var o := AsrOutcome(Streaming, s, transcript, isFinal);
    var text := CapFirst(transcript);
    assert text == "" <==> transcript == "";
    var t := TranscriptEffects(s, text, isFinal);
    if isFinal {
      assert t[0] == RecorderStopped;
      assert o.effects[0] == RecorderStopped;
    } else {
      assert t == Fire(s, SpeechText(text, isFinal));
      assert o.effects == t;
    }
  }

  /** `onSpeechTextReceived` sees the transcript with its first letter capitalised, once per transcript. */
  lemma AsrReportsTranscript(s: Settings, transcript: string, isFinal: bool)
    requires OnSpeechTextReceived in s.handlers
    ensures Called(SpeechText(CapFirst(transcript), isFinal)) in AsrOutcome(Streaming, s, transcript, isFinal).effects
    ensures Calls(AsrOutcome(Streaming, s, transcript, isFinal).effects, OnSpeechTextReceived) == 1
  {
    var text := CapFirst(transcript);
    var a: seq<Effect> := if isFinal then [RecorderStopped] else [];
    var b: seq<Effect> := if isFinal && s.query && s.audio then [Played(ConfirmCue)] else [];
    var f := Fire(s, SpeechText(text, isFinal));
    var t := TranscriptEffects(s, text, isFinal);
    assert t[|a + b|] == Called(SpeechText(text, isFinal));
    var h := OnSpeechTextReceived;
    CallsSingle(RecorderStopped, h);
    CallsSingle(Played(ConfirmCue), h);
    CallsFire(s, SpeechText(text, isFinal), h);
    CallsAppend(a, b, h);
    CallsAppend(a + b, f, h);
    StopCallbacks(s, true);
    CallsTeardown(true, h);
    CallsFire(s, DoneCalled, h);
    CallsAppend(TeardownEffects(true), Fire(s, DoneCalled), h);
    CancelCallbacks(s, true, h);
    CallsAppend(t, CancelOutcome(s, true).effects, h);
    CallsAppend(t, StopOutcome(s, true).effects, h);
  }

  /**
   * Without an answer the "I don't know" utterance plays and the session
   * stops; `onQueryAnswerReceived` then gets the data with the utterance's
   * text as its answer, after `onDone`. When the data is missing it is not
   * called at all.
   */
  lemma NoAnswerHandsDunnoText(s: Settings, data: Option<QueryData>, dunnoText: string, playFailure: Option<string>)
    requires NoAnswer(data)
    ensures var o := QueryOutcome(Answering, s, data, dunnoText, playFailure);
      o.state == Done
      && o.effects[0] == Played(Dunno(s.voiceID, Some(s.voiceSpeed)))
      && (data.Some? && OnQueryAnswerReceived in s.handlers ==>
            o.effects[|o.effects| - 1] == Called(QueryAnswer(data.value.(answer := Some(dunnoText))))
            && (OnDone in s.handlers ==> o.effects[|o.effects| - 2] == Called(DoneCalled)))
      && (data.None? ==> Calls(o.effects, OnQueryAnswerReceived) == 0)
  {
    var p: seq<Effect> := [Played(Dunno(s.voiceID, Some(s.voiceSpeed)))];
    var e := DunnoEffects(s, data, dunnoText);
    assert e[0] == p[0];
    if data.None? {
      var h := OnQueryAnswerReceived;
      CallsSingle(p[0], h);
      CallsTeardown(true, h);
      CallsFire(s, DoneCalled, h);
      CallsAppend(TeardownEffects(true), Fire(s, DoneCalled), h);
      CallsAppend(p, StopOutcome(s, true).effects, h);
      CallsAppend(p + StopOutcome(s, true).effects, [], h);
    }
  }

  /** The effects of an answer whose audio fails to play, in four parts. */
  lemma PlayFailureEffects(s: Settings, d: QueryData, failure: string)
    requires !NoAnswer(Some(d)) && d.audio.Some? && d.audio.value != ""
    ensures QueryOutcome(Answering, s, Some(d), "", Some(failure)) == Outcome(Done,
      Fire(s, QueryAnswer(d)) + ([Played(PlayURL(d.audio.value))]
        + ErrorOutcome(Answering, s, true, "Error playing audio at URL " + d.audio.value + ": " + failure).effects)
      + StopOutcome(s, true).effects)
  {
  }

  /**
   * An answer is handed to `onQueryAnswerReceived` first; when playing its
   * audio fails, `onError` and then `onDone` are both called, each once.
   */
  lemma PlayFailureReportsThenEnds(s: Settings, d: QueryData, failure: string)
    requires !NoAnswer(Some(d)) && d.audio.Some? && d.audio.value != ""
    requires OnError in s.handlers && OnDone in s.handlers
    ensures var o := QueryOutcome(Answering, s, Some(d), "", Some(failure));
      o.state == Done
      && Calls(o.effects, OnError) == 1 && Calls(o.effects, OnDone) == 1
      && o.effects[|o.effects| - 1] == Called(DoneCalled)
      && Called(ErrorCalled("Error playing audio at URL " + d.audio.value + ": " + failure)) in o.effects
      && (OnQueryAnswerReceived in s.handlers ==> o.effects[0] == Called(QueryAnswer(d)))
  {
    var msg := "Error playing audio at URL " + d.audio.value + ": " + failure;
    var f := Fire(s, QueryAnswer(d));
    var u: seq<Effect> := [Played(PlayURL(d.audio.value))];
    var e := ErrorOutcome(Answering, s, true, msg).effects;
    var stop := StopOutcome(s, true).effects;
    PlayFailureEffects(s, d, failure);
    PlayFailureParts(f, u, e, stop);
    ErrorCallbacks(Answering, s, true, msg);
    StopCallbacks(s, true);
    assert stop[|stop| - 1] == Called(DoneCalled);
    CallsFire(s, QueryAnswer(d), OnError);
    CallsFire(s, QueryAnswer(d), OnDone);
    CallsSingle(u[0], OnError);
    CallsSingle(u[0], OnDone);
    CallsParts(f, u, e, stop, OnError);
    CallsParts(f, u, e, stop, OnDone);
  }

  lemma CallsParts(f: seq<Effect>, u: seq<Effect>, e: seq<Effect>, stop: seq<Effect>, h: Handler)
    requires Calls(f, h) == 0 && Calls(u, h) == 0
    ensures Calls(f + (u + e) + stop, h) == Calls(e, h) + Calls(stop, h)
  {
    CallsAppend(u, e, h);
    CallsAppend(f, u + e, h);
    CallsAppend(f + (u + e), stop, h);
  }

  lemma PlayFailureParts(f: seq<Effect>, u: seq<Effect>, e: seq<Effect>, stop: seq<Effect>)
    requires stop != []
    ensures var all := f + (u + e) + stop;
      all[|all| - 1] == stop[|stop| - 1]
      && (forall x :: x in e ==> x in all)
      && (f != [] ==> all[0] == f[0])
  {
    var all := f + (u + e) + stop;
    forall x | x in e ensures x in all {
      var i :| 0 <= i < |e| && e[i] == x;
      assert all[|f| + |u| + i] == x;
    }
  }

  /** A server timeout is a `cancel()`: the session ends quietly, without `onError`. */
  lemma TimeoutIsQuiet(st: State, s: Settings, message: string)
    ensures var o := MessageOutcome(st, s, ErrorResponse("timeout_error", message), "", None);
      o.state == Done && Calls(o.effects, OnError) == 0
      && (s.audio ==> o.effects[|o.effects| - 1] == Played(CancelCue))
  {
    StopCallbacks(s, true);
    CancelCallbacks(s, true, OnError);
  }

  /**
   * Any server error other than a timeout ends a live session through
   * `_error`: `onError` is called once, with the server's message wrapped
   * as `new Error` and the handler's catch wrap it, and "err" is played; a
   * token error first clears the cached token.
   */
  lemma ServerErrorReported(st: State, s: Settings, name: string, message: string)
    requires st != Done && OnError in s.handlers && name != "timeout_error"
    ensures var o := MessageOutcome(st, s, ErrorResponse(name, message), "", None);
      o.state == Done && Calls(o.effects, OnError) == 1
      && o.effects[|o.effects| - 1] == Played(Sound("err", Some(s.voiceID), Some(s.voiceSpeed)))
      && Called(ErrorCalled(HandlingError(ErrorString(message)))) in o.effects
      && (TokenReset in o.effects <==> name == "token_error")
  {
    var msg := HandlingError(ErrorString(message));
    var e := ErrorOutcome(st, s, true, msg).effects;
    ErrorCallbacks(st, s, true, msg);
    ErrorEffectsEnd(st, s, true, msg);
    var pre: seq<Effect> := if name == "token_error" then [TokenReset] else [];
    assert MessageOutcome(st, s, ErrorResponse(name, message), "", None) == Outcome(Done, pre + e);
    CallsSingle(TokenReset, OnError);
    PrefixParts(pre, e, Called(ErrorCalled(msg)), OnError);
  }

  /** Prefixing `e` with a single effect that is not a handler call. */
  lemma PrefixParts(pre: seq<Effect>, e: seq<Effect>, x: Effect, h: Handler)
    requires |pre| <= 1 && (pre != [] ==> pre[0] == TokenReset) && e != [] && x in e && TokenReset !in e
    requires Calls(pre, h) == 0
    ensures Calls(pre + e, h) == Calls(e, h)
    ensures (pre + e)[|pre + e| - 1] == e[|e| - 1] && x in pre + e
    ensures TokenReset in pre + e <==> pre != []
  {
    CallsAppend(pre, e, h);
    if pre != [] {
      assert (pre + e)[0] == TokenReset;
    }
    assert forall y :: y in pre + e ==> y in pre || y in e;
  }

  /** A message of an unknown type ends a live session with `onError`, naming the type. */
  lemma UnknownTypeReported(st: State, s: Settings, t: string)
    requires st != Done && OnError in s.handlers
    ensures var o := MessageOutcome(st, s, Unknown(t), "", None);
      o.state == Done && Calls(o.effects, OnError) == 1
      && Called(ErrorCalled(HandlingError(ErrorString("Invalid message type: " + t)))) in o.effects
  {
    var msg := HandlingError(ErrorString("Invalid message type: " + t));
    ErrorCallbacks(st, s, true, msg);
  }

  /** A live session's `_error` ends by playing "err" and never touches the token. */
  lemma ErrorEffectsEnd(st: State, s: Settings, hasSocket: bool, msg: string)
    requires st != Done
    ensures var e := ErrorOutcome(st, s, hasSocket, msg).effects;
      e != [] && e[|e| - 1] == Played(Sound("err", Some(s.voiceID), Some(s.voiceSpeed))) && TokenReset !in e
  {
  }

  // ---- the session object -----------------------------------------------------

  class EmblaSession {
    var state: State
    /** `_socket`. */
    var socket: Option<Channel>
    /** Every use of a capability so far, oldest first. */
    var log: seq<Effect>
    /** Whether the recorder is running. */
    var recording: bool
    /** Whether `start()` is waiting for `fetchToken`. */
    var fetching: bool
    /** `_config`. */
    const config: SessionConfig

    /**
     * How state, socket and recorder fit together. A socket exists only
     * after the token request resolved and, while not closed, only in an
     * active state; streaming and answering need an open socket; the
     * recorder runs exactly while streaming.
     */
    ghost predicate Shape()
      reads this
    {
      (state == Idle ==> socket.None? && log == [] && !fetching)
      && (fetching ==> socket.None? && (state == Starting || state == Done))
      && (state == Starting && !fetching ==> socket.Some? && !socket.value.isOpen && !socket.value.isClosed)
      && (socket.Some? && !socket.value.isClosed ==> state == Starting || state == Streaming || state == Answering)
      && (state == Streaming || state == Answering ==> socket.Some? && socket.value.isOpen && !socket.value.isClosed)
      && (recording <==> state == Streaming)
    }

    /** The shape holds, and `onError` and `onDone` have only been called on the way to `done`, `onError` at most once. */
    ghost predicate Valid()
      reads this
    {
      Shape()
      && (state != Done ==> Calls(log, OnError) == 0 && Calls(log, OnDone) == 0)
      && Calls(log, OnError) <= 1
    }

    constructor(cfg: SessionConfig)
      ensures Valid()
      ensures config == cfg && state == Idle && socket == None && log == [] && !recording && !fetching
    {
      config := cfg;
      state := Idle;
      socket := None;
      log := [];
      recording := false;
      fetching := false;
    }

    /** `isActive()`. */
    predicate IsActive()
      reads this
    {
      state != Idle && state != Done
    }

    /**
     * An active session is waiting for its token or holds a socket that is
     * not closed; an inactive one holds no live socket and no running recorder.
     */
    lemma ActiveMeansConnection()
      requires Shape()
      ensures IsActive() ==> fetching || (socket.Some? && !socket.value.isClosed)
      ensures !IsActive() ==> (socket.None? || socket.value.isClosed) && !recording
    {
    }

    /** `start()` up to its `await`: only an idle session starts. */
    method Start() returns (err: Option<string>)
      requires Valid()
      modifies this
      ensures Valid()
      ensures err.Some? <==> old(state) != Idle
      ensures err.Some? ==> err.value == "Session is not idle!" && state == old(state) && fetching == old(fetching)
      ensures err.None? ==> state == Starting && fetching
      ensures socket == old(socket) && log == old(log) && recording == old(recording)
    {
      if state != Idle {
        return Some("Session is not idle!");
      }
      state := Starting;
      fetching := true;
      err := None;
    }

    /** `_stop`. */
    method Teardown()
      modifies this
      ensures log == old(log) + TeardownEffects(old(socket).Some?)
      ensures socket == if old(socket).Some? then Some(old(socket).value.(isClosed := true)) else None
      ensures !recording && state == old(state) && fetching == old(fetching)
    {
      log := log + [RecorderStopped];
      recording := false;
      if socket.Some? {
        socket := Some(socket.value.(isClosed := true));
        log := log + [SocketClosed];
      }
    }

    /** `stop()`. */
    method Stop()
      requires fetching ==> socket.None?
      modifies this
      ensures Shape() && fetching == old(fetching)
      ensures var o := StopOutcome(config.settings, old(socket).Some?);
        state == o.state && log == old(log) + o.effects
      ensures socket == if old(socket).Some? then Some(old(socket).value.(isClosed := true)) else None
    {
      Teardown();
      state := Done;
      if OnDone in config.settings.handlers {
        log := log + [Called(DoneCalled)];
      }
    }

    /** `cancel()`. */
    method Cancel()
      requires fetching ==> socket.None?
      modifies this
      ensures Shape() && fetching == old(fetching)
      ensures var o := CancelOutcome(config.settings, old(socket).Some?);
        state == o.state && log == old(log) + o.effects
      ensures socket == if old(socket).Some? then Some(old(socket).value.(isClosed := true)) else None
    {
      Stop();
      if config.settings.audio {
        log := log + [Played(CancelCue)];
      }
    }

    /** `_error(msg)`. */
    method Error(msg: string)
      requires Shape()
      modifies this
      ensures Shape() && fetching == old(fetching)
      ensures var o := ErrorOutcome(old(state), config.settings, old(socket).Some?, msg);
        state == o.state && log == old(log) + o.effects
      ensures socket == if old(state) != Done && old(socket).Some? then Some(old(socket).value.(isClosed := true)) else old(socket)
    {
      if state == Done {
        return;
      }
      Teardown();
      state := Done;
      if OnError in config.settings.handlers {
        log := log + [Called(ErrorCalled(msg))];
      }
      log := log + [Played(Sound("err", Some(config.settings.voiceID), Some(config.settings.voiceSpeed)))];
    }

    /** The application calls `stop()`: it always ends the session, even an idle or finished one. */
    method UserStop()
      requires Valid()
      modifies this
      ensures Valid()
      ensures var o := StopOutcome(config.settings, old(socket).Some?);
        state == o.state && log == old(log) + o.effects
      ensures socket == if old(socket).Some? then Some(old(socket).value.(isClosed := true)) else None
      ensures fetching == old(fetching)
    {
      StopDiscipline(state, config.settings, socket.Some?);
      DisciplineExtends(log, state, StopOutcome(config.settings, socket.Some?));
      Stop();
    }

    /** The application calls `cancel()`. */
    method UserCancel()
      requires Valid()
      modifies this
      ensures Valid()
      ensures var o := CancelOutcome(config.settings, old(socket).Some?);
        state == o.state && log == old(log) + o.effects
      ensures socket == if old(socket).Some? then Some(old(socket).value.(isClosed := true)) else None
      ensures fetching == old(fetching)
    {
      StopDiscipline(state, config.settings, socket.Some?);
      DisciplineExtends(log, state, CancelOutcome(config.settings, socket.Some?));
      Cancel();
    }

    /**
     * `fetchToken` has resolved; `socketFailure` is what the `WebSocket`
     * constructor threw, if it threw. The catch at session.ts:129-131 is
     * not modelled: nothing in the `try` can throw once `fetchToken` has
     * caught its own failures.
     */
    method ResolveTokenFetch(fetch: FetchOutcome, now: int, socketFailure: Option<string>)
      requires Valid() && fetching
      modifies this, config.cache
      ensures Valid() && !fetching
      ensures config.cache.token == AfterFetch(old(config.cache.token), fetch, now)
      ensures var o := FetchResolvedOutcome(old(state), config.settings, HasValid(config.cache.token, now), socketFailure, config.socketURL);
        state == o.state && log == old(log) + o.effects
      ensures socket == if old(state) == Starting && HasValid(config.cache.token, now) && socketFailure.None?
        then Some(Channel(config.socketURL, false, false)) else None
    {
      config.FetchToken(fetch, now);
      FetchResolvedDiscipline(state, config.settings, config.HasValidToken(now), socketFailure, config.socketURL);
      DisciplineExtends(log, state, FetchResolvedOutcome(state, config.settings, config.HasValidToken(now), socketFailure, config.socketURL));
      if state == Starting {
        if !config.HasValidToken(now) {
          Error(MissingToken);
        } else if socketFailure.Some? {
          Error("Error communicating with server: " + socketFailure.value);
        } else {
          socket := Some(Channel(config.socketURL, false, false));
          log := log + [SocketCreated(config.socketURL)];
        }
      }
      fetching := false;
    }

    /**
     * The socket's `onopen`. `location` is what the configured location
     * provider returned. Assumed: the platform fires it at most once and
     * never after `close()`, which is what keeps `done` final.
     */
    method ChannelOpen(location: Option<seq<Float>>)
      requires Valid() && socket.Some? && !socket.value.isOpen && !socket.value.isClosed
      modifies this
      ensures Valid()
      ensures var o := OpenOutcome(config.settings, FromConfig(config.settings, config.Token(), location));
        state == o.state && log == old(log) + o.effects
      ensures socket == Some(old(socket).value.(isOpen := true))
    {
      var greeting := FromConfig(config.settings, config.Token(), location);
      OpenCallsNothing(config.settings, greeting, OnError);
      OpenCallsNothing(config.settings, greeting, OnDone);
      CallsAppend(log, OpenOutcome(config.settings, greeting).effects, OnError);
      CallsAppend(log, OpenOutcome(config.settings, greeting).effects, OnDone);
      log := log + [Sent(greeting)];
      state := Streaming;
      log := log + [RecorderStarted];
      recording := true;
      if config.settings.audio {
        log := log + [Played(StartCue)];
      }
      socket := Some(socket.value.(isOpen := true));
      assert log == old(log) + OpenOutcome(config.settings, greeting).effects;
    }

    /** The socket's `onerror`, which can also follow `close()`. */
    method ChannelError()
      requires Valid() && socket.Some?
      modifies this
      ensures Valid()
      ensures var o := ErrorOutcome(old(state), config.settings, true, SocketEventError);
        state == o.state && log == old(log) + o.effects
      ensures fetching == old(fetching)
      ensures socket == if old(state) != Done then Some(old(socket).value.(isClosed := true)) else old(socket)
    {
      ErrorDiscipline(state, config.settings, true, SocketEventError);
      DisciplineExtends(log, state, ErrorOutcome(state, config.settings, true, SocketEventError));
      Error(SocketEventError);
    }

    /** The recorder's error callback, registered when streaming began. */
    method RecorderError(msg: string)
      requires Valid() && socket.Some? && socket.value.isOpen
      modifies this
      ensures Valid()
      ensures var o := ErrorOutcome(old(state), config.settings, true, msg);
        state == o.state && log == old(log) + o.effects
      ensures fetching == old(fetching)
      ensures socket == if old(state) != Done then Some(old(socket).value.(isClosed := true)) else old(socket)
    {
      ErrorDiscipline(state, config.settings, true, msg);
      DisciplineExtends(log, state, ErrorOutcome(state, config.settings, true, msg));
      Error(msg);
    }

    /** `TranscriptEffects` on the session: a final transcript stops the recorder and may move on to answering. */
    method Transcript(text: string, isFinal: bool)
      requires state == Streaming
      modifies this
      ensures socket == old(socket) && fetching == old(fetching)
      ensures recording == (old(recording) && !isFinal)
      ensures state == if isFinal && config.settings.query then Answering else Streaming
      ensures log == old(log) + TranscriptEffects(config.settings, text, isFinal)
    {
      ghost var stopped: seq<Effect> := [];
      ghost var cue: seq<Effect> := [];
      if isFinal {
        log := log + [RecorderStopped];
        stopped := [RecorderStopped];
        recording := false;
        if config.settings.query {
          state := Answering;
          if config.settings.audio {
            log := log + [Played(ConfirmCue)];
            cue := [Played(ConfirmCue)];
          }
        }
      }
      assert log == old(log) + stopped + cue;
      if OnSpeechTextReceived in config.settings.handlers {
        log := log + [Called(SpeechText(text, isFinal))];
      }
      Regroup(old(log), stopped, cue, Fire(config.settings, SpeechText(text, isFinal)));
    }

    /** `_handleASRResultMessage`. */
    method HandleAsr(transcript: string, isFinal: bool)
      requires Shape() && socket.Some?
      modifies this
      ensures Shape()
      ensures var o := AsrOutcome(old(state), config.settings, transcript, isFinal);
        state == o.state && log == old(log) + o.effects
      ensures fetching == old(fetching)
      ensures socket == if state == Done then Some(old(socket).value.(isClosed := true)) else old(socket)
    {
      if state != Streaming {
        Error(HandlingError(ErrorString("Session is not streaming!")));
        return;
      }
      var text := CapFirst(transcript);
      Transcript(text, isFinal);
      ghost var first := TranscriptEffects(config.settings, text, isFinal);
      if isFinal && text == "" {
        Cancel();
        Regroup(old(log), first, CancelOutcome(config.settings, true).effects, []);
      } else if isFinal && !config.settings.query {
        Stop();
        Regroup(old(log), first, StopOutcome(config.settings, true).effects, []);
      }
    }

    /** The "I don't know" path of `_handleQueryResultMessage`. */
    method AnswerDunno(data: Option<QueryData>, dunnoText: string)
      requires Shape() && state == Answering
      modifies this
      ensures Shape()
      ensures state == Done && log == old(log) + DunnoEffects(config.settings, data, dunnoText)
      ensures fetching == old(fetching)
      ensures socket == if state == Done then Some(old(socket).value.(isClosed := true)) else old(socket)
    {
      log := log + [Played(Dunno(config.settings.voiceID, Some(config.settings.voiceSpeed)))];
      Stop();
      if OnQueryAnswerReceived in config.settings.handlers && data.Some? {
        log := log + [Called(QueryAnswer(data.value.(answer := Some(dunnoText))))];
      }
    }

    /** `_handleQueryResultMessage`. */
    method HandleQuery(data: Option<QueryData>, dunnoText: string, playFailure: Option<string>)
      requires Shape() && socket.Some?
      modifies this
      ensures Shape()
      ensures var o := QueryOutcome(old(state), config.settings, data, dunnoText, playFailure);
        state == o.state && log == old(log) + o.effects
      ensures fetching == old(fetching)
      ensures socket == if state == Done then Some(old(socket).value.(isClosed := true)) else old(socket)
    {
      if state != Answering {
        Error(HandlingError(ErrorString("Session is not answering query!")));
        return;
      }
      if NoAnswer(data) {
        AnswerDunno(data, dunnoText);
        return;
      }
      Answer(data.value, playFailure);
    }

    /** The answer path of `_handleQueryResultMessage`. */
    method Answer(d: QueryData, playFailure: Option<string>)
      requires Shape() && state == Answering
      modifies this
      ensures Shape()
      ensures state == Done && log == old(log) + AnswerEffects(config.settings, d, playFailure)
      ensures fetching == old(fetching)
      ensures socket == if state == Done then Some(old(socket).value.(isClosed := true)) else old(socket)
    {
      ghost var f := Fire(config.settings, QueryAnswer(d));
      if OnQueryAnswerReceived in config.settings.handlers {
        log := log + [Called(QueryAnswer(d))];
      }
      assert log == old(log) + f;
      PlayAnswerAudio(d, playFailure);
      Stop();
      Regroup(old(log), f, PlayAnswer(config.settings, d, playFailure), StopOutcome(config.settings, true).effects);
    }

    /** `playURL` on the answer's audio, `_error` if it throws. */
    method PlayAnswerAudio(d: QueryData, playFailure: Option<string>)
      requires Shape() && state == Answering
      modifies this
      ensures Shape() && fetching == old(fetching)
      ensures log == old(log) + PlayAnswer(config.settings, d, playFailure)
      ensures state == if d.audio.Some? && d.audio.value != "" && playFailure.Some? then Done else Answering
      ensures socket == if state == Done then Some(old(socket).value.(isClosed := true)) else old(socket)
    {
      if d.audio.Some? && d.audio.value != "" {
        log := log + [Played(PlayURL(d.audio.value))];
        if playFailure.Some? {
          Error("Error playing audio at URL " + d.audio.value + ": " + playFailure.value);
        }
      }
    }

    /** A message of type "error": a timeout cancels; anything else is an error, a token error also clearing the cached token. */
    method HandleServerError(name: string, message: string)
      requires Shape() && socket.Some?
      modifies this, config.cache
      ensures Shape()
      ensures var o := MessageOutcome(old(state), config.settings, ErrorResponse(name, message), "", None);
        state == o.state && log == old(log) + o.effects
      ensures fetching == old(fetching)
      ensures socket == if state == Done then Some(old(socket).value.(isClosed := true)) else old(socket)
      ensures config.cache.token == if name == "token_error" then None else old(config.cache.token)
    {
      if name == "timeout_error" {
        Cancel();
      } else {
        ghost var pre: seq<Effect> := [];
        if name == "token_error" {
          config.ResetToken();
          log := log + [TokenReset];
          pre := [TokenReset];
        }
        Error(HandlingError(ErrorString(message)));
        assert log == old(log) + (pre + ErrorOutcome(old(state), config.settings, true, HandlingError(ErrorString(message))).effects);
      }
    }

    /**
     * A server message arrives. `dunnoText` and `playFailure` are the
     * audio player's answers should the message need them. Assumed: the
     * platform delivers messages only on an open socket not yet closed.
     */
    method OnMessage(m: Inbound, dunnoText: string, playFailure: Option<string>)
      requires Valid() && socket.Some? && socket.value.isOpen && !socket.value.isClosed && WellFormed(m)
      modifies this, config.cache
      ensures Valid()
      ensures var o := MessageOutcome(old(state), config.settings, m, dunnoText, playFailure);
        state == o.state && log == old(log) + o.effects
      ensures fetching == old(fetching)
      ensures socket == if state == Done then Some(old(socket).value.(isClosed := true)) else old(socket)
      ensures config.cache.token == if m.ErrorResponse? && m.name == "token_error" then None else old(config.cache.token)
    {
      MessageDiscipline(state, config.settings, m, dunnoText, playFailure);
      DisciplineExtends(log, state, MessageOutcome(state, config.settings, m, dunnoText, playFailure));
      match m {
        case GreetingsResponse =>
          if OnStartStreaming in config.settings.handlers {
            log := log + [Called(StartStreaming)];
          }
        case AsrResponse(transcript, isFinal) =>
          HandleAsr(transcript, isFinal);
        case QueryResponse(data) =>
          HandleQuery(data, dunnoText, playFailure);
        case ErrorResponse(name, message) =>
          HandleServerError(name, message);
        case Unknown(t) =>
          Error(HandlingError(ErrorString("Invalid message type: " + t)));
        case Unparsable(err) =>
          Error(HandlingError(err));
      }
    }
  }

  // ---- sessions from start to end ----------------------------------------------

  /** A fresh idle session on a fresh default-server configuration with settings `st` and an empty cache. */
  method NewSession(st: Settings) returns (session: EmblaSession)
    ensures fresh(session) && fresh(session.config) && fresh(session.config.cache)
    ensures session.Valid() && session.state == Idle && session.log == [] && session.socket == None
    ensures !session.fetching && !session.recording
    ensures session.config.settings == st && session.config.cache.token == None
    ensures session.config.socketURL == SocketURL(DefaultServer)
  {
    var cache := new TokenCache();
    var config := new SessionConfig(cache);
    config.settings := st;
    session := new EmblaSession(config);
  }

  /** `NewSession` after `start()`: waiting for its token. */
  method StartedSession(st: Settings) returns (session: EmblaSession)
    ensures fresh(session) && fresh(session.config) && fresh(session.config.cache)
    ensures session.Valid() && session.state == Starting && session.fetching
    ensures session.log == [] && session.socket == None
    ensures session.config.settings == st && session.config.cache.token == None
    ensures session.config.socketURL == SocketURL(DefaultServer)
  {
    session := NewSession(st);
    var err := session.Start();
  }

  /**
   * A session cancelled while its token request is outstanding never
   * connects: when the request resolves there is nothing left to do.
   */
  method CancelDuringFetchScenario(st: Settings, fetch: FetchOutcome, now: int) returns (log: seq<Effect>, connected: bool)
    requires st.audio && OnDone in st.handlers
    ensures log == [RecorderStopped, Called(DoneCalled), Played(CancelCue)]
    ensures !connected
  {
    var session := StartedSession(st);
    session.UserCancel();
    session.ResolveTokenFetch(fetch, now, None);
    log, connected := session.log, session.socket.Some?;
  }

  /**
   * With nothing cached, a failed token request does not stop the session:
   * `hasValidToken` passes an empty cache, so the socket is opened and the
   * greeting carries the empty token.
   */
  method FailedFetchScenario(st: Settings, now: int) returns (log: seq<Effect>)
    requires st.audio
    ensures log == [SocketCreated(SocketURL(DefaultServer)), Sent(FromConfig(st, "", None)),
      RecorderStarted, Played(StartCue)]
    ensures log[1].greeting.token == ""
  {
    var session := StartedSession(st);
    session.ResolveTokenFetch(FetchFailed, now, None);
    session.ChannelOpen(None);
    log := session.log;
  }

  /**
   * A "token_error" from the server clears the shared cached token, so the
   * next session fetches a new one, and reaches `onError`.
   */
  method TokenErrorScenario(st: Settings, expiresAt: int, now: int) returns (cached: Option<AuthToken>, errors: nat, done: bool)
    requires expiresAt >= now - ExpiryMarginMs && !st.audio && OnError in st.handlers
    ensures cached == None && errors == 1 && done
  {
    var session := ConnectedSession(st, expiresAt, now);
    ghost var before := session.log;
    session.OnMessage(ErrorResponse("token_error", "Invalid token"), "", None);
    ServerErrorReported(Streaming, st, "token_error", "Invalid token");
    CallsAppend(before, MessageOutcome(Streaming, st, ErrorResponse("token_error", "Invalid token"), "", None).effects, OnError);
    cached, errors, done := session.config.cache.token, Calls(session.log, OnError), session.state == Done;
  }

  /** `stop()` is not guarded by the state: stopping twice calls `onDone` twice. */
  method DoubleStopScenario(st: Settings) returns (dones: nat, errors: nat)
    requires OnDone in st.handlers
    ensures dones == 2 && errors == 0
  {
    var session := NewSession(st);
    var once := StopOutcome(st, false).effects;
    StopCallbacks(st, false);
    CallsAppend(once, once, OnDone);
    CallsAppend(once, once, OnError);
    session.UserStop();
    assert session.log == once;
    session.UserStop();
    dones, errors := Calls(session.log, OnDone), Calls(session.log, OnError);
  }

  /** A fresh session on a fresh configuration with settings `st`, its socket open on a valid token "abc". */
  method ConnectedSession(st: Settings, expiresAt: int, now: int) returns (session: EmblaSession)
    requires expiresAt >= now - ExpiryMarginMs && !st.audio
    ensures fresh(session) && fresh(session.config) && fresh(session.config.cache)
    ensures session.Valid() && session.state == Streaming && session.config.settings == st
    ensures session.socket.Some? && session.socket.value.isOpen && !session.socket.value.isClosed
    ensures session.log == [SocketCreated(SocketURL(DefaultServer)), Sent(FromConfig(st, "abc", None)), RecorderStarted]
  {
    session := StartedSession(st);
    session.ResolveTokenFetch(Fetched(Parsed(Some("abc"), Time(expiresAt))), now, None);
    assert !IsExpired(AuthToken(Some("abc"), Time(expiresAt)), now);
    assert session.log == [SocketCreated(SocketURL(DefaultServer))];
    session.ChannelOpen(None);
    assert session.config.Token() == "abc";
  }

  /** `ConnectedSession` after a final transcript "Halló", with querying on and no speech-text handler. */
  method AnsweringSession(st: Settings, expiresAt: int, now: int) returns (session: EmblaSession)
    requires expiresAt >= now - ExpiryMarginMs && !st.audio && st.query && OnSpeechTextReceived !in st.handlers
    ensures fresh(session) && fresh(session.config) && fresh(session.config.cache)
    ensures session.Valid() && session.state == Answering && session.config.settings == st
    ensures session.socket.Some? && session.socket.value.isOpen && !session.socket.value.isClosed
    ensures session.log == [SocketCreated(SocketURL(DefaultServer)), Sent(FromConfig(st, "abc", None)), RecorderStarted, RecorderStopped]
  {
    session := ConnectedSession(st, expiresAt, now);
    var connected := session.log;
    assert CapFirst("Halló") != "";
    assert TranscriptEffects(st, CapFirst("Halló"), true) == [RecorderStopped];
    session.OnMessage(AsrResponse("Halló", true), "", None);
    assert session.log == connected + [RecorderStopped];
  }

  /**
   * A whole query: the socket opens, a final transcript moves the session
   * on to answering, and the answer is handed over, its audio played and
   * the session stopped.
   */
  method AnswerScenario(st: Settings, expiresAt: int, now: int, answer: string, audioURL: string) returns (log: seq<Effect>)
    requires expiresAt >= now - ExpiryMarginMs && audioURL != ""
    requires !st.audio && st.query
    requires OnQueryAnswerReceived in st.handlers && OnDone in st.handlers && OnSpeechTextReceived !in st.handlers
    ensures var d := QueryData(Some(true), Some(answer), Some(audioURL));
      log == [SocketCreated(SocketURL(DefaultServer)), Sent(FromConfig(st, "abc", None)),
        RecorderStarted, RecorderStopped, Called(QueryAnswer(d)), Played(PlayURL(audioURL)),
        RecorderStopped, SocketClosed, Called(DoneCalled)]
  {
    var session := AnsweringSession(st, expiresAt, now);
    var heard := session.log;
    var d := QueryData(Some(true), Some(answer), Some(audioURL));
    assert AnswerEffects(st, d, None) == [Called(QueryAnswer(d)), Played(PlayURL(audioURL)), RecorderStopped, SocketClosed, Called(DoneCalled)];
    session.OnMessage(QueryResponse(Some(d)), "", None);
    assert session.log == heard + AnswerEffects(st, d, None);
    log := session.log;
  }
}
