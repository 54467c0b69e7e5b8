/** Resolving the avatar page's query string into typed parameters with
    defaults, and merging them into the initial avatar configuration. */
module UrlParams {
  import opened Wrappers
  import opened Text

  /** The decoded query string, pairs in the order they appear; a key may repeat. */
  type Query = seq<(string, string)>

  /** What the streaming-avatar SDK provides: its enums as JavaScript objects
      from member name to member value, and the two fixed members the default
      configuration names (`AvatarQuality.Low`, `VoiceChatTransport.WEBSOCKET`). */
  datatype Sdk = Sdk(
    voiceEmotion: map<string, string>,
    elevenLabsModel: map<string, string>,
    sttProvider: map<string, string>,
    lowQuality: string,
    websocketTransport: string)
  {
    /** The SDK defines the members the defaults refer to. */
    predicate HasDefaults() {
      "SOOTHING" in voiceEmotion && "eleven_flash_v2_5" in elevenLabsModel && "DEEPGRAM" in sttProvider
    }
    function DefaultEmotion(): string requires HasDefaults() { voiceEmotion["SOOTHING"] }
    function DefaultModel(): string requires HasDefaults() { elevenLabsModel["eleven_flash_v2_5"] }
    function DefaultSttProvider(): string requires HasDefaults() { sttProvider["DEEPGRAM"] }
  }

  const DefaultLanguage: string := "zh"
  const DefaultAvatarName: string := "June_HR_public"
  const DefaultVoiceRate: real := 1.0
  const DefaultVoiceId: string := "aa73aedf00974150944a4bb19225f66e"
  const VoissActivityId: string := "689466a637ae3065c9329e08"
  const VoissUserId: string := "demo-user"
  const VoissUserName: string := "Demo"

  /** The tokens `toBool` accepts, compared after lower-casing. */
  const TruthyTokens: seq<string> := ["1", "true", "yes", "on"]

  /** The keys the page reads. */
  const RecognizedKeys: set<string> :=
    {"activity_id", "session_id", "user_id", "user_name", "language", "avatar_id",
     "voice_rate", "voice_emotion", "voice_model", "stt_provider", "autostart"}

  /** `searchParams.get(k)`: the value of the first pair with key `k`, `null` if none. */
  function FirstValue(q: Query, k: string): (r: Option<string>)
    ensures r.Some? ==> (k, r.value) in q
  {
    if q == [] then None
    else if q[0].0 == k then Some(q[0].1)
    else FirstValue(q[1..], k)
  }

  /** `FirstValue` finds the first pair with the key, and finds nothing only
      when no pair has it. */
  lemma {:induction false} FirstValueSpec(q: Query, k: string)
    ensures FirstValue(q, k).None? ==> forall i :: 0 <= i < |q| ==> q[i].0 != k
    ensures FirstValue(q, k).Some? ==>
              exists i :: 0 <= i < |q| && q[i] == (k, FirstValue(q, k).value)
                          && forall j :: 0 <= j < i ==> q[j].0 != k
  {
    if q != [] && q[0].0 != k {
      FirstValueSpec(q[1..], k);
      var r := FirstValue(q, k);
      if r.Some? {
        var i :| 0 <= i < |q[1..]| && q[1..][i] == (k, r.value)
                 && forall j :: 0 <= j < i ==> q[1..][j].0 != k;
        assert q[i + 1] == (k, r.value);
        assert forall j :: 1 <= j < i + 1 ==> q[j].0 == q[1..][j - 1].0;
      }
    }
  }

  /** Pairs appended after the first occurrence of `k` do not change its value. */
  lemma {:induction false} FirstValueAppend(q: Query, pair: (string, string), k: string)
    ensures FirstValue(q + [pair], k) ==
            if FirstValue(q, k).Some? then FirstValue(q, k)
            else if pair.0 == k then Some(pair.1) else None
  {
    if q != [] {
      assert (q + [pair])[1..] == q[1..] + [pair];
      FirstValueAppend(q[1..], pair, k);
    }
  }

  /** `get(k)`: `searchParams.get(k) || undefined`, so an empty value counts as absent. */
  function Get(q: Query, k: string): (r: Option<string>)
    ensures r.Some? ==> r.value != "" && FirstValue(q, k) == r
    ensures r.None? ==> FirstValue(q, k).None? || FirstValue(q, k) == Some("")
  {
    match FirstValue(q, k)
    case Some(v) => if v == "" then None else Some(v)
    case None => None
  }

  /** `toBool`: true only for a present, non-empty value that lower-cases to
      one of "1", "true", "yes", "on". */
  function ToBool(v: Option<string>): (b: bool)
    ensures b <==> v.Some? && var t := ToLower(v.value);
                   t == "1" || t == "true" || t == "yes" || t == "on"
    ensures b ==> 1 <= |v.value| <= 4
  {
    match v
    case None => false
    case Some(s) => s != "" && ToLower(s) in TruthyTokens
  }

  /** `toBool` does not see the case the token is written in. */
  lemma ToBoolIgnoresCase(s: string)
    ensures ToBool(Some(ToUpper(s))) == ToBool(Some(s)) == ToBool(Some(ToLower(s)))
  {}

  /** `toNum`: absent, empty and non-finite inputs give nothing; otherwise the
      parsed number. `parseNum` stands for `Number(v)` followed by the
      `Number.isFinite` test: it answers `None` for NaN and the infinities. */
  function ToNum(v: Option<string>, parseNum: string -> Option<real>): (r: Option<real>)
    ensures r.Some? <==> v.Some? && v.value != "" && parseNum(v.value).Some?
    ensures r.Some? ==> r == parseNum(v.value)
  {
    match v
    case None => None
    case Some(s) => if s == "" then None else parseNum(s)
  }

  /** `mapEmotion` and `mapSttProvider`: the member whose name is the
      upper-cased input, if the enum has one. */
  function MapUpperName(table: map<string, string>, v: Option<string>): (r: Option<string>)
    ensures r.Some? <==> v.Some? && v.value != "" && ToUpper(v.value) in table
    ensures r.Some? ==> r.value in table.Values && r.value == table[ToUpper(v.value)]
  {
    match v
    case None => None
    case Some(s) => if s != "" && ToUpper(s) in table then Some(table[ToUpper(s)]) else None
  }

  /** The name lookup does not see the case the input is written in. */
  lemma MapUpperNameIgnoresCase(table: map<string, string>, s: string)
    ensures MapUpperName(table, Some(ToLower(s))) == MapUpperName(table, Some(s))
  {
    UpperOfLower(s);
  }

  /** The keys every plain JavaScript object inherits from `Object.prototype`;
      the `in` operator sees them as well as the object's own keys. */
  const ObjectPrototypeKeys: set<string> :=
    {"constructor", "hasOwnProperty", "isPrototypeOf", "propertyIsEnumerable",
     "toLocaleString", "toString", "valueOf", "__proto__", "__defineGetter__",
     "__defineSetter__", "__lookupGetter__", "__lookupSetter__"}

  /** No upper-cased input is an inherited key (each contains a lower-case letter),
      so the `!== undefined` test of `mapEmotion`/`mapSttProvider` only ever sees own members. */
  lemma UpperNameNeverInherited(s: string)
    ensures ToUpper(s) !in ObjectPrototypeKeys
  {
    var u := ToUpper(s);
    assert forall i :: 0 <= i < |u| ==> !('a' <= u[i] <= 'z');
    if |u| > 2 {
      assert u[0] != "constructor"[0] && u[0] != "hasOwnProperty"[0] && u[0] != "isPrototypeOf"[0];
      assert u[0] != "propertyIsEnumerable"[0] && u[0] != "toLocaleString"[0];
      assert u[0] != "toString"[0] && u[0] != "valueOf"[0] && u[2] != "__proto__"[2];
      assert u[2] != "__defineGetter__"[2] && u[2] != "__lookupGetter__"[2];
    }
  }

  /** What `mapModel` as written can yield: an enum member, or, when the
      input names a key of `Object.prototype`, that inherited property. */
  datatype ModelLookup = Member(value: string) | Inherited(name: string)

  /** `mapModel` as written: `key in ElevenLabsModel` also holds for inherited keys. */
  function MapModelAsWritten(table: map<string, string>, v: Option<string>): (r: Option<ModelLookup>)
    ensures r.Some? && r.value.Member? ==> r.value.value in table.Values
    ensures r.Some? && r.value.Inherited? ==> r.value.name in ObjectPrototypeKeys && r.value.name !in table
  {
    match v
    case None => None
    case Some(s) =>
      if s == "" then None
      else if s in table then Some(Member(table[s]))
      else if s in ObjectPrototypeKeys then Some(Inherited(s))
      else if s in table.Values then Some(Member(s))
      else None
  }

  /** `?voice_model=toString` sets the voice model to `Object.prototype.toString`
      for any enum that has no own member called so. */
  lemma ModelToStringAccepted(table: map<string, string>)
    requires "toString" !in table
    ensures MapModelAsWritten(table, Some("toString")) == Some(Inherited("toString"))
  {}

  /** `mapModel` as intended: the member named by the input, else the member
      whose value is the input, else nothing; the result is always a member value. */
  function MapModel(table: map<string, string>, v: Option<string>): (r: Option<string>)
    ensures r.Some? <==> v.Some? && v.value != "" && (v.value in table || v.value in table.Values)
    ensures r.Some? ==> r.value in table.Values
    ensures v.Some? && v.value != "" && v.value in table ==> r == Some(table[v.value])
    ensures v.Some? && v.value != "" && v.value !in table && v.value in table.Values ==> r == v
  {
    match v
    case None => None
    case Some(s) =>
      if s == "" then None
      else if s in table then Some(table[s])
      else if s in table.Values then Some(s)
      else None
  }

  /** The corrected lookup agrees with the written one on every input that is
      not an inherited key. */
  lemma MapModelAgreesOffPrototype(table: map<string, string>, v: Option<string>)
    requires v.None? || v.value !in ObjectPrototypeKeys || v.value in table
    ensures MapModelAsWritten(table, v) == (match MapModel(table, v)
                                             case Some(x) => Some(Member(x))
                                             case None => None)
  {}

  /** The resolved URL parameters of the page. */
  datatype Params = Params(
    activityId: string,
    sessionId: string,
    userId: string,
    userName: string,
    language: string,
    avatarName: string,
    voiceRate: real,
    voiceEmotion: string,
    voiceId: string,
    voiceModel: string,
    sttProvider: string,
    autoStart: bool)

  /** A string parameter: the first value of `k` when non-empty, else the default. */
  predicate StringResolved(q: Query, k: string, default: string, x: string) {
    match FirstValue(q, k)
    case Some(v) => x == (if v != "" then v else default)
    case None => x == default
  }

  /** `urlParams`. `generatedSessionId` is the session id the page invents at
      load time from the clock and a random number. */
  function Resolve(q: Query, sdk: Sdk, parseNum: string -> Option<real>, generatedSessionId: string): (p: Params)
    requires sdk.HasDefaults()
    ensures StringResolved(q, "activity_id", VoissActivityId, p.activityId)
    ensures StringResolved(q, "session_id", generatedSessionId, p.sessionId)
    ensures StringResolved(q, "user_id", VoissUserId, p.userId)
    ensures StringResolved(q, "user_name", VoissUserName, p.userName)
    ensures StringResolved(q, "language", DefaultLanguage, p.language)
    ensures StringResolved(q, "avatar_id", DefaultAvatarName, p.avatarName)
    ensures p.voiceId == DefaultVoiceId
    ensures var v := FirstValue(q, "voice_rate");
            p.voiceRate == if v.Some? && v.value != "" && parseNum(v.value).Some?
                           then parseNum(v.value).value else DefaultVoiceRate
    ensures var v := FirstValue(q, "voice_emotion");
            p.voiceEmotion == if v.Some? && v.value != "" && ToUpper(v.value) in sdk.voiceEmotion
                              then sdk.voiceEmotion[ToUpper(v.value)] else sdk.DefaultEmotion()
    ensures var v := FirstValue(q, "stt_provider");
            p.sttProvider == if v.Some? && v.value != "" && ToUpper(v.value) in sdk.sttProvider
                             then sdk.sttProvider[ToUpper(v.value)] else sdk.DefaultSttProvider()
    ensures var v := FirstValue(q, "voice_model");
            p.voiceModel == if v.Some? && v.value != "" && v.value in sdk.elevenLabsModel
                            then sdk.elevenLabsModel[v.value]
                            else if v.Some? && v.value != "" && v.value in sdk.elevenLabsModel.Values
                            then v.value else sdk.DefaultModel()
    ensures p.voiceEmotion in sdk.voiceEmotion.Values && p.sttProvider in sdk.sttProvider.Values
    ensures p.voiceModel in sdk.elevenLabsModel.Values
    ensures p.autoStart <==> var v := FirstValue(q, "autostart");
                             v.Some? && ToLower(v.value) in TruthyTokens
  {
    Params(
      activityId := Get(q, "activity_id").GetOr(VoissActivityId),
      sessionId := Get(q, "session_id").GetOr(generatedSessionId),
      userId := Get(q, "user_id").GetOr(VoissUserId),
      userName := Get(q, "user_name").GetOr(VoissUserName),
      language := Get(q, "language").GetOr(DefaultLanguage),
      avatarName := Get(q, "avatar_id").GetOr(DefaultAvatarName),
      voiceRate := ToNum(Get(q, "voice_rate"), parseNum).GetOr(DefaultVoiceRate),
      voiceEmotion := MapUpperName(sdk.voiceEmotion, Get(q, "voice_emotion")).GetOr(sdk.DefaultEmotion()),
      voiceId := DefaultVoiceId,
      voiceModel := MapModel(sdk.elevenLabsModel, Get(q, "voice_model")).GetOr(sdk.DefaultModel()),
      sttProvider := MapUpperName(sdk.sttProvider, Get(q, "stt_provider")).GetOr(sdk.DefaultSttProvider()),
      autoStart := ToBool(Get(q, "autostart")))
  }

  /** The voice model `urlParams` picks with `mapModel` as written: an inherited
      property when the first `voice_model` value names one, else a member value. */
  function VoiceModelAsWritten(q: Query, sdk: Sdk): (r: ModelLookup)
    requires sdk.HasDefaults()
    ensures r.Member? ==> r.value in sdk.elevenLabsModel.Values
    ensures r.Inherited? <==> var v := FirstValue(q, "voice_model");
                              v.Some? && v.value in ObjectPrototypeKeys && v.value !in sdk.elevenLabsModel
  {
    MapModelAsWritten(sdk.elevenLabsModel, Get(q, "voice_model")).GetOr(Member(sdk.DefaultModel()))
  }

  /** The page as written and the corrected `Resolve` pick the same voice model
      unless the first `voice_model` value is an inherited key the enum lacks. */
  lemma ResolveModelAgreesWithWritten(q: Query, sdk: Sdk, parseNum: string -> Option<real>,
                                      generatedSessionId: string)
    requires sdk.HasDefaults()
    requires var v := FirstValue(q, "voice_model");
             v.None? || v.value !in ObjectPrototypeKeys || v.value in sdk.elevenLabsModel
    ensures VoiceModelAsWritten(q, sdk) == Member(Resolve(q, sdk, parseNum, generatedSessionId).voiceModel)
  {
    MapModelAgreesOffPrototype(sdk.elevenLabsModel, Get(q, "voice_model"));
  }

  /** The parameters depend only on the first values of the keys the page reads. */
  lemma ResolveByFirstValues(q1: Query, q2: Query, sdk: Sdk,
                             parseNum: string -> Option<real>, generatedSessionId: string)
    requires sdk.HasDefaults()
    requires forall k :: k in RecognizedKeys ==> FirstValue(q1, k) == FirstValue(q2, k)
    ensures Resolve(q1, sdk, parseNum, generatedSessionId) == Resolve(q2, sdk, parseNum, generatedSessionId)
  {}

  /** Pairs whose key the page does not read change nothing, wherever they stand. */
  lemma ResolveIgnoresOtherKeys(q: Query, pair: (string, string), sdk: Sdk,
                                parseNum: string -> Option<real>, generatedSessionId: string)
    requires sdk.HasDefaults() && pair.0 !in RecognizedKeys
    ensures Resolve(q + [pair], sdk, parseNum, generatedSessionId) == Resolve(q, sdk, parseNum, generatedSessionId)
    ensures Resolve([pair] + q, sdk, parseNum, generatedSessionId) == Resolve(q, sdk, parseNum, generatedSessionId)
  {
    forall k | k in RecognizedKeys ensures FirstValue(q + [pair], k) == FirstValue(q, k) {
      FirstValueAppend(q, pair, k);
    }
    ResolveByFirstValues(q + [pair], q, sdk, parseNum, generatedSessionId);
    assert ([pair] + q)[1..] == q;
    ResolveByFirstValues([pair] + q, q, sdk, parseNum, generatedSessionId);
  }

  /** A key given again later in the query does not override its first value. */
  lemma ResolveKeepsFirstOccurrence(q: Query, pair: (string, string), sdk: Sdk,
                                    parseNum: string -> Option<real>, generatedSessionId: string)
    requires sdk.HasDefaults() && FirstValue(q, pair.0).Some?
    ensures Resolve(q + [pair], sdk, parseNum, generatedSessionId) == Resolve(q, sdk, parseNum, generatedSessionId)
  {
    forall k | k in RecognizedKeys ensures FirstValue(q + [pair], k) == FirstValue(q, k) {
      FirstValueAppend(q, pair, k);
    }
    ResolveByFirstValues(q + [pair], q, sdk, parseNum, generatedSessionId);
  }

  /** `voice.rate`, `voice.emotion`, `voice.model` and `voice.voiceId`. */
  datatype VoiceSetting = VoiceSetting(rate: real, emotion: string, model: string, voiceId: string)

  /** The SDK's `StartAvatarRequest`, with the fields the page sets. */
  datatype StartAvatarRequest = StartAvatarRequest(
    quality: string,
    avatarName: string,
    knowledgeId: Option<string>,
    voice: VoiceSetting,
    language: string,
    voiceChatTransport: string,
    sttProvider: string)

  /** `DEFAULT_CONFIG`. */
  function DefaultConfig(sdk: Sdk): (c: StartAvatarRequest)
    requires sdk.HasDefaults()
    ensures c.quality == sdk.lowQuality && c.knowledgeId.None?
    ensures c.avatarName == DefaultAvatarName && c.language == DefaultLanguage
    ensures c.voiceChatTransport == sdk.websocketTransport
    ensures c.voice.rate == DefaultVoiceRate && c.voice.voiceId == DefaultVoiceId
    ensures c.voice.emotion in sdk.voiceEmotion.Values && c.voice.model in sdk.elevenLabsModel.Values
    ensures c.sttProvider in sdk.sttProvider.Values
  {
    StartAvatarRequest(
      quality := sdk.lowQuality,
      avatarName := DefaultAvatarName,
      knowledgeId := None,
      voice := VoiceSetting(DefaultVoiceRate, sdk.DefaultEmotion(), sdk.DefaultModel(), DefaultVoiceId),
      language := DefaultLanguage,
      voiceChatTransport := sdk.websocketTransport,
      sttProvider := sdk.DefaultSttProvider())
  }

  /** The initial `config` state: `DEFAULT_CONFIG` with language, avatar, the
      whole voice setting and the STT provider taken from the parameters. */
  function InitialConfig(p: Params, sdk: Sdk): (c: StartAvatarRequest)
    requires sdk.HasDefaults()
    ensures c.quality == DefaultConfig(sdk).quality && c.knowledgeId == DefaultConfig(sdk).knowledgeId
    ensures c.voiceChatTransport == DefaultConfig(sdk).voiceChatTransport
    ensures c.language == p.language && c.avatarName == p.avatarName && c.sttProvider == p.sttProvider
    ensures c.voice == VoiceSetting(p.voiceRate, p.voiceEmotion, p.voiceModel, p.voiceId)
  {
    DefaultConfig(sdk).(
      language := p.language,
      avatarName := p.avatarName,
      voice := VoiceSetting(p.voiceRate, p.voiceEmotion, p.voiceModel, p.voiceId),
      sttProvider := p.sttProvider)
  }

  /** A query that says nothing the page reads leaves the configuration at
      `DEFAULT_CONFIG`, and auto-start off. */
  lemma {:induction false} UnrecognizedQueryGivesDefaults(q: Query, sdk: Sdk,
                                    parseNum: string -> Option<real>, generatedSessionId: string)
    requires sdk.HasDefaults()
    requires forall i :: 0 <= i < |q| ==> q[i].0 !in RecognizedKeys
    ensures InitialConfig(Resolve(q, sdk, parseNum, generatedSessionId), sdk) == DefaultConfig(sdk)
    ensures !Resolve(q, sdk, parseNum, generatedSessionId).autoStart
  {
    var p := Resolve(q, sdk, parseNum, generatedSessionId);
    forall k | k in RecognizedKeys ensures FirstValue(q, k).None? {
      FirstValueSpec(q, k);
    }
  }

  /** `voiceRate` is the parsed number or 1.0. */
  lemma VoiceRateParsedOrDefault(q: Query, sdk: Sdk, parseNum: string -> Option<real>, generatedSessionId: string)
    requires sdk.HasDefaults()
    ensures var rate := Resolve(q, sdk, parseNum, generatedSessionId).voiceRate;
            rate == DefaultVoiceRate || exists i :: 0 <= i < |q| && q[i].0 == "voice_rate" && parseNum(q[i].1) == Some(rate)
  {
    FirstValueSpec(q, "voice_rate");
  }
}
