/**
 * The greeting sent once the streaming channel opens (messages.ts): a pure
 * transformation of the configuration, and its JSON form as a value tree.
 */
module Messages {
  import opened Common
  import opened Config

  /** A JSON value; an object keeps its keys in insertion order. */
  datatype Json = JBool(b: bool) | JNum(n: Float) | JStr(s: string) | JObj(fields: seq<(string, Json)>)

  /** `ASROptions` as filled by `fromConfig`. */
  datatype AsrOptions = AsrOptions(engine: Option<string>)

  /** `QueryOptions` as filled by `fromConfig`; `url` is always set. */
  datatype QueryOptions = QueryOptions(
    url: string,
    clientID: Option<string>,
    clientType: Option<string>,
    clientVersion: Option<string>,
    latitude: Option<Float>,
    longitude: Option<Float>)

  /** `TTSOptions` as filled by `fromConfig`. */
  datatype TtsOptions = TtsOptions(voiceID: string, voiceSpeed: Float)

  /** `GreetingsData`. */
  datatype GreetingsData = GreetingsData(
    privateMode: bool,
    asrOptions: AsrOptions,
    query: bool,
    queryOptions: QueryOptions,
    tts: bool,
    ttsOptions: TtsOptions)

  /** `GreetingsOutputMessage`; its `type` is always "greetings". */
  datatype Greetings = Greetings(token: string, data: GreetingsData)

  const GreetingsType: string := "greetings"
  const QueryPath: string := "/query.api"

  /**
   * `GreetingsOutputMessage.fromConfig` (messages.ts:60-115). `location` is
   * what `getLocation()` returned (`None` when there is no provider or it
   * returned `undefined`); `token` is the configuration's `token` getter.
   */
  function FromConfig(s: Settings, token: string, location: Option<seq<Float>>): Greetings {
    var public := !s.privateMode;
    var loc := if public && location.Some? && |location.value| == 2 then location else None;
    Greetings(
      token,
      GreetingsData(
        privateMode := s.privateMode,
        asrOptions := AsrOptions(s.engine),
        query := s.query,
        queryOptions := QueryOptions(
          url := s.queryServer + QueryPath,
          clientID := if public then s.clientID else None,
          clientType := if public then s.clientType else None,
          clientVersion := if public then s.clientVersion else None,
          latitude := if loc.Some? then Some(loc.value[0]) else None,
          longitude := if loc.Some? then Some(loc.value[1]) else None),
        tts := s.tts,
        ttsOptions := TtsOptions(s.voiceID, s.voiceSpeed)))
  }

  // ---- JSON form ----------------------------------------------------------

  /** A string-valued key that `JSON.stringify` writes only when its value is defined. */
  function OptStr(key: string, v: Option<string>): seq<(string, Json)> {
    if v.Some? then [(key, JStr(v.value))] else []
  }

  /** A number-valued key that `JSON.stringify` writes only when its value is defined. */
  function OptNum(key: string, v: Option<Float>): seq<(string, Json)> {
    if v.Some? then [(key, JNum(v.value))] else []
  }

  function AsrJson(a: AsrOptions): Json {
    JObj(OptStr("engine", a.engine))
  }

  function QueryJson(q: QueryOptions): Json {
    JObj([("url", JStr(q.url))]
      + OptStr("client_id", q.clientID)
      + OptStr("client_type", q.clientType)
      + OptStr("client_version", q.clientVersion)
      + OptNum("latitude", q.latitude)
      + OptNum("longitude", q.longitude))
  }

  function TtsJson(t: TtsOptions): Json {
    JObj([("voice_id", JStr(t.voiceID)), ("voice_speed", JNum(t.voiceSpeed))])
  }

  function DataJson(d: GreetingsData): Json {
    JObj([
      ("private", JBool(d.privateMode)),
      ("asr_options", AsrJson(d.asrOptions)),
      ("query", JBool(d.query)),
      ("query_options", QueryJson(d.queryOptions)),
      ("tts", JBool(d.tts)),
      ("tts_options", TtsJson(d.ttsOptions))])
  }

  /** `toJSON` (messages.ts:118-125): exactly the keys `type`, `token` and `data`. */
  function ToJson(g: Greetings): (j: Json)
    ensures j.JObj? && |j.fields| == 3
    ensures j.fields[0] == ("type", JStr(GreetingsType))
    ensures j.fields[1] == ("token", JStr(g.token))
    ensures j.fields[2].0 == "data"
  {
    JObj([("type", JStr(GreetingsType)), ("token", JStr(g.token)), ("data", DataJson(g.data))])
  }

  // ---- reading the JSON form back ----------------------------------------

  /** The value at `key` when `o` is an object holding it. */
  function Sel(o: Option<Json>, key: string): Option<Json> {
    if o.Some? && o.value.JObj? then Lookup(o.value.fields, key) else None
  }

  function AsStr(j: Option<Json>): Option<string> {
    if j.Some? && j.value.JStr? then Some(j.value.s) else None
  }

  function AsNum(j: Option<Json>): Option<Float> {
    if j.Some? && j.value.JNum? then Some(j.value.n) else None
  }

  function AsBool(j: Option<Json>): Option<bool> {
    if j.Some? && j.value.JBool? then Some(j.value.b) else None
  }

  /** How a receiver reads a greeting back from its JSON form. */
  function ParseGreetings(j: Json): Option<Greetings> {
    var root := Some(j);
    var d := Sel(root, "data");
    var a := Sel(d, "asr_options");
    var q := Sel(d, "query_options");
    var t := Sel(d, "tts_options");
    var token := AsStr(Sel(root, "token"));
    var priv := AsBool(Sel(d, "private"));
    var query := AsBool(Sel(d, "query"));
    var tts := AsBool(Sel(d, "tts"));
    var url := AsStr(Sel(q, "url"));
    var voice := AsStr(Sel(t, "voice_id"));
    var speed := AsNum(Sel(t, "voice_speed"));
    if AsStr(Sel(root, "type")) == Some(GreetingsType) && a.Some?
       && token.Some? && priv.Some? && query.Some? && tts.Some?
       && url.Some? && voice.Some? && speed.Some?
    then
      Some(Greetings(token.value, GreetingsData(
        priv.value,
        AsrOptions(AsStr(Sel(a, "engine"))),
        query.value,
        QueryOptions(url.value,
          AsStr(Sel(q, "client_id")), AsStr(Sel(q, "client_type")), AsStr(Sel(q, "client_version")),
          AsNum(Sel(q, "latitude")), AsNum(Sel(q, "longitude"))),
        tts.value,
        TtsOptions(voice.value, speed.value))))
    else None
  }

  /** An optional key holds its value when defined, and nothing else. */
  lemma LookupOptStr(key: string, v: Option<string>)
    ensures forall k :: Lookup(OptStr(key, v), k) == if k == key && v.Some? then Some(JStr(v.value)) else None
  {
  }

  lemma LookupOptNum(key: string, v: Option<Float>)
    ensures forall k :: Lookup(OptNum(key, v), k) == if k == key && v.Some? then Some(JNum(v.value)) else None
  {
  }

  lemma TopReadsBack(g: Greetings)
    ensures Sel(Some(ToJson(g)), "type") == Some(JStr(GreetingsType))
    ensures Sel(Some(ToJson(g)), "token") == Some(JStr(g.token))
    ensures Sel(Some(ToJson(g)), "data") == Some(DataJson(g.data))
  {
    var f := ToJson(g).fields;
    LookupAt(f, 0, "type");
    LookupAt(f, 1, "token");
    LookupAt(f, 2, "data");
  }

  /** The six keys of `data` are distinct, so each reads back its own value. */
  lemma DataFieldsReadBack(p: Json, a: Json, q: Json, qo: Json, t: Json, to: Json)
    ensures var f := [("private", p), ("asr_options", a), ("query", q), ("query_options", qo), ("tts", t), ("tts_options", to)];
      Lookup(f, "private") == Some(p) && Lookup(f, "asr_options") == Some(a) && Lookup(f, "query") == Some(q)
      && Lookup(f, "query_options") == Some(qo) && Lookup(f, "tts") == Some(t) && Lookup(f, "tts_options") == Some(to)
  {
    var f := [("private", p), ("asr_options", a), ("query", q), ("query_options", qo), ("tts", t), ("tts_options", to)];
    LookupAt(f, 0, "private");
    LookupAt(f, 1, "asr_options");
    LookupAt(f, 2, "query");
    LookupAt(f, 3, "query_options");
    LookupAt(f, 4, "tts");
    LookupAt(f, 5, "tts_options");
  }

  lemma DataReadsBack(d: GreetingsData)
    ensures Sel(Some(DataJson(d)), "private") == Some(JBool(d.privateMode))
    ensures Sel(Some(DataJson(d)), "asr_options") == Some(AsrJson(d.asrOptions))
    ensures Sel(Some(DataJson(d)), "query") == Some(JBool(d.query))
    ensures Sel(Some(DataJson(d)), "query_options") == Some(QueryJson(d.queryOptions))
    ensures Sel(Some(DataJson(d)), "tts") == Some(JBool(d.tts))
    ensures Sel(Some(DataJson(d)), "tts_options") == Some(TtsJson(d.ttsOptions))
  {
    DataFieldsReadBack(JBool(d.privateMode), AsrJson(d.asrOptions), JBool(d.query),
      QueryJson(d.queryOptions), JBool(d.tts), TtsJson(d.ttsOptions));
  }

  lemma TtsReadsBack(t: TtsOptions)
    ensures Sel(Some(TtsJson(t)), "voice_id") == Some(JStr(t.voiceID))
    ensures Sel(Some(TtsJson(t)), "voice_speed") == Some(JNum(t.voiceSpeed))
  {
    var f := TtsJson(t).fields;
    LookupAt(f, 0, "voice_id");
    LookupAt(f, 1, "voice_speed");
  }

  lemma AsrReadsBack(a: AsrOptions)
    ensures AsStr(Sel(Some(AsrJson(a)), "engine")) == a.engine
    ensures Sel(Some(AsrJson(a)), "engine").Some? <==> a.engine.Some?
  {
    LookupOptStr("engine", a.engine);
  }

  /** The query options object, key by key. */
  lemma QueryLookup(q: QueryOptions, k: string)
    ensures Lookup(QueryJson(q).fields, k) ==
      if k == "url" then Some(JStr(q.url))
      else if k == "client_id" && q.clientID.Some? then Some(JStr(q.clientID.value))
      else if k == "client_type" && q.clientType.Some? then Some(JStr(q.clientType.value))
      else if k == "client_version" && q.clientVersion.Some? then Some(JStr(q.clientVersion.value))
      else if k == "latitude" && q.latitude.Some? then Some(JNum(q.latitude.value))
      else if k == "longitude" && q.longitude.Some? then Some(JNum(q.longitude.value))
      else None
  {
    var u: seq<(string, Json)> := [("url", JStr(q.url))];
    var o1 := OptStr("client_id", q.clientID);
    var o2 := OptStr("client_type", q.clientType);
    var o3 := OptStr("client_version", q.clientVersion);
    var o4 := OptNum("latitude", q.latitude);
    var o5 := OptNum("longitude", q.longitude);
    LookupOptStr("client_id", q.clientID);
    LookupOptStr("client_type", q.clientType);
    LookupOptStr("client_version", q.clientVersion);
    LookupOptNum("latitude", q.latitude);
    LookupOptNum("longitude", q.longitude);
    LookupConcat(u, o1);
    LookupConcat(u + o1, o2);
    LookupConcat(u + o1 + o2, o3);
    LookupConcat(u + o1 + o2 + o3, o4);
    LookupConcat(u + o1 + o2 + o3 + o4, o5);
  }

  /** Each optional query key is present exactly when its field is defined. */
  lemma QueryReadsBack(q: QueryOptions)
    ensures Sel(Some(QueryJson(q)), "url") == Some(JStr(q.url))
    ensures AsStr(Sel(Some(QueryJson(q)), "client_id")) == q.clientID
    ensures AsStr(Sel(Some(QueryJson(q)), "client_type")) == q.clientType
    ensures AsStr(Sel(Some(QueryJson(q)), "client_version")) == q.clientVersion
    ensures AsNum(Sel(Some(QueryJson(q)), "latitude")) == q.latitude
    ensures AsNum(Sel(Some(QueryJson(q)), "longitude")) == q.longitude
    ensures Sel(Some(QueryJson(q)), "client_id").Some? <==> q.clientID.Some?
    ensures Sel(Some(QueryJson(q)), "client_type").Some? <==> q.clientType.Some?
    ensures Sel(Some(QueryJson(q)), "client_version").Some? <==> q.clientVersion.Some?
    ensures Sel(Some(QueryJson(q)), "latitude").Some? <==> q.latitude.Some?
    ensures Sel(Some(QueryJson(q)), "longitude").Some? <==> q.longitude.Some?
  {
    QueryLookup(q, "url");
    QueryLookup(q, "client_id");
    QueryLookup(q, "client_type");
    QueryLookup(q, "client_version");
    QueryLookup(q, "latitude");
    QueryLookup(q, "longitude");
  }

  /** The JSON form loses nothing: reading it back gives the same greeting. */
  lemma GreetingsRoundTrip(g: Greetings)
    ensures ParseGreetings(ToJson(g)) == Some(g)
  {
    TopReadsBack(g);
    DataReadsBack(g.data);
    AsrReadsBack(g.data.asrOptions);
    QueryReadsBack(g.data.queryOptions);
    TtsReadsBack(g.data.ttsOptions);
  }

  // ---- what the wire carries ----------------------------------------------

  /** The JSON `data` object of the greeting built from a configuration. */
  function WireData(s: Settings, token: string, location: Option<seq<Float>>): Option<Json> {
    Sel(Some(ToJson(FromConfig(s, token, location))), "data")
  }

  /** The message type is "greetings" and the token is the configuration's token (messages.ts:48, 113-114). */
  lemma WireTypeAndToken(s: Settings, token: string, location: Option<seq<Float>>)
    ensures Sel(Some(ToJson(FromConfig(s, token, location))), "type") == Some(JStr("greetings"))
    ensures Sel(Some(ToJson(FromConfig(s, token, location))), "token") == Some(JStr(token))
  {
    TopReadsBack(FromConfig(s, token, location));
  }

  /** `asr_options.engine` is present exactly when an engine is configured, and is that engine (messages.ts:62-65). */
  lemma WireEngine(s: Settings, token: string, location: Option<seq<Float>>)
    ensures AsStr(Sel(Sel(WireData(s, token, location), "asr_options"), "engine")) == s.engine
    ensures Sel(Sel(WireData(s, token, location), "asr_options"), "engine").Some? <==> s.engine.Some?
  {
    var g := FromConfig(s, token, location);
    TopReadsBack(g);
    DataReadsBack(g.data);
    AsrReadsBack(g.data.asrOptions);
  }

  /** `query_options.url` is the query server followed by "/query.api" (messages.ts:73). */
  lemma WireQueryURL(s: Settings, token: string, location: Option<seq<Float>>)
    ensures Sel(Sel(WireData(s, token, location), "query_options"), "url") == Some(JStr(s.queryServer + "/query.api"))
  {
    var g := FromConfig(s, token, location);
    TopReadsBack(g);
    DataReadsBack(g.data);
    QueryReadsBack(g.data.queryOptions);
  }

  /** In private mode no client-identifying key is sent, whatever the configuration holds (messages.ts:74-92). */
  lemma WirePrivateModeWithholdsClient(s: Settings, token: string, location: Option<seq<Float>>)
    requires s.privateMode
    ensures var q := Sel(WireData(s, token, location), "query_options");
      Sel(q, "client_id") == None && Sel(q, "client_type") == None && Sel(q, "client_version") == None
      && Sel(q, "latitude") == None && Sel(q, "longitude") == None
  {
    var g := FromConfig(s, token, location);
    TopReadsBack(g);
    DataReadsBack(g.data);
    QueryReadsBack(g.data.queryOptions);
  }

  /** Outside private mode each client field is sent exactly when configured, unchanged (messages.ts:76-84). */
  lemma WirePublicClientFields(s: Settings, token: string, location: Option<seq<Float>>)
    requires !s.privateMode
    ensures AsStr(Sel(Sel(WireData(s, token, location), "query_options"), "client_id")) == s.clientID
    ensures AsStr(Sel(Sel(WireData(s, token, location), "query_options"), "client_type")) == s.clientType
    ensures AsStr(Sel(Sel(WireData(s, token, location), "query_options"), "client_version")) == s.clientVersion
  {
    var g := FromConfig(s, token, location);
    TopReadsBack(g);
    DataReadsBack(g.data);
    QueryReadsBack(g.data.queryOptions);
  }

  /**
   * Coordinates are sent only outside private mode and only when the
   * provider returned exactly two numbers, as its first and second
   * (messages.ts:85-91).
   */
  lemma WireLocation(s: Settings, token: string, location: Option<seq<Float>>)
    ensures var q := Sel(WireData(s, token, location), "query_options");
      if !s.privateMode && location.Some? && |location.value| == 2
      then Sel(q, "latitude") == Some(JNum(location.value[0])) && Sel(q, "longitude") == Some(JNum(location.value[1]))
      else Sel(q, "latitude") == None && Sel(q, "longitude") == None
  {
    var g := FromConfig(s, token, location);
    TopReadsBack(g);
    DataReadsBack(g.data);
    QueryReadsBack(g.data.queryOptions);
  }

  /** `private`, `query` and `tts` are copied, and the voice settings form `tts_options` (messages.ts:94-110). */
  lemma WireFlagsAndVoice(s: Settings, token: string, location: Option<seq<Float>>)
    ensures Sel(WireData(s, token, location), "private") == Some(JBool(s.privateMode))
    ensures Sel(WireData(s, token, location), "query") == Some(JBool(s.query))
    ensures Sel(WireData(s, token, location), "tts") == Some(JBool(s.tts))
    ensures Sel(Sel(WireData(s, token, location), "tts_options"), "voice_id") == Some(JStr(s.voiceID))
    ensures Sel(Sel(WireData(s, token, location), "tts_options"), "voice_speed") == Some(JNum(s.voiceSpeed))
  {
    var g := FromConfig(s, token, location);
    TopReadsBack(g);
    DataReadsBack(g.data);
    TtsReadsBack(g.data.ttsOptions);
  }
}
