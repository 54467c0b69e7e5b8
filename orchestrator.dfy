/** The component's in-memory turn pipeline: the refs it mutates
    (`isVoissInitializedRef`, `userUtteranceRef`, `mediaRecorderRef`,
    `audioChunksRef`) and the `isRecording` state, driven by one method per
    handler. Network, SDK and browser calls are not performed: each is
    appended to a ghost trace, and what it answers is a parameter. */
module Orchestrator {
  import opened Wrappers
  import opened Text
  import opened Json
  import opened UrlParams
  import opened VoissResponse

  /** A finished `fetch` as the handlers read it: `res.ok`, `res.status`,
      `res.text()`, and `res.json()` (`None` when the body is not JSON). */
  datatype HttpResponse = HttpResponse(ok: bool, status: int, text: string, json: Option<Json>)

  /** The transcription endpoint's answer: `text` is the `text` field of its
      JSON body, `None` when it is missing or the body is not JSON. */
  datatype SttResponse = SttResponse(ok: bool, errorText: string, text: Option<string>)

  /** What a handler throws. */
  datatype Failure =
    | InitFailed(status: int, text: string)
    | ChatFailed(status: int, text: string)
    | MediaDenied

  /** The body of `POST /api/voiss/initialize`. */
  datatype InitRequest = InitRequest(activityId: string, sessionId: string, userId: string, userName: string)

  /** The body of `POST /api/voiss/chat`. */
  datatype ChatRequest = ChatRequest(activityId: string, sessionId: string, userId: string, message: string)

  /** One piece of recorded audio (a `BlobPart`). */
  datatype Fragment = Fragment(data: seq<bv8>)

  /** `MediaRecorder.state`. */
  datatype RecorderState = Inactive | Recording | Paused

  /** The outside effects, in the order the handlers cause them. */
  datatype Effect =
    | InitCall(initReq: InitRequest, initOk: bool)       // fetch .../initialize, and whether `res.ok`
    | ChatCall(chatReq: ChatRequest, chatOk: bool)       // fetch .../chat, and whether `res.ok`
    | Repeat(message: Json)                              // repeatMessage(...)
    | RecorderStarted                                    // getUserMedia + new MediaRecorder + start()
    | RecorderStopped                                    // mr.stop()
    | Transcribe(audio: seq<Fragment>, language: Option<string>)  // fetch /api/stt/transcribe
    | TracksStopped                                      // stream.getTracks().forEach(t => t.stop())
    | FetchToken                                         // fetch /api/get-access-token
    | InitAvatar(token: string)
    | StartAvatar(config: StartAvatarRequest)
    | StartVoiceChat

  /** Some initialize call in the trace succeeded. */
  ghost predicate InitSucceeded(trace: seq<Effect>) {
    exists i :: 0 <= i < |trace| && trace[i].InitCall? && trace[i].initOk
  }

  /** No initialize call follows a successful one. */
  ghost predicate InitAtMostOnceOk(trace: seq<Effect>) {
    forall i, j :: 0 <= i < j < |trace| && trace[i].InitCall? && trace[i].initOk ==> !trace[j].InitCall?
  }

  /** Effects other than initialize calls leave both facts about the
      initialize calls as they were. */
  lemma AppendWithoutInit(t: seq<Effect>, es: seq<Effect>)
    requires forall k :: 0 <= k < |es| ==> !es[k].InitCall?
    ensures InitSucceeded(t + es) <==> InitSucceeded(t)
    ensures InitAtMostOnceOk(t) ==> InitAtMostOnceOk(t + es)
  {
    var u := t + es;
    assert forall k :: 0 <= k < |t| ==> u[k] == t[k];
    assert forall k :: |t| <= k < |u| ==> u[k] == es[k - |t|];
  }

  /** The effects of `chatVoiss(message)` followed by `if (reply) repeatMessage(reply)`. */
  function ChatEffects(req: ChatRequest, resp: HttpResponse): (es: seq<Effect>)
    ensures 1 <= |es| <= 2 && es[0] == ChatCall(req, resp.ok)
    ensures |es| == 2 <==> resp.ok && Truthy(ChatReply(resp.json))
    ensures |es| == 2 ==> es[1] == Repeat(ChatReply(resp.json).value)
  {
    [ChatCall(req, resp.ok)] +
    (if resp.ok && Truthy(ChatReply(resp.json)) then [Repeat(ChatReply(resp.json).value)] else [])
  }

  class InteractiveAvatar {
    const params: Params
    var config: StartAvatarRequest
    var isVoissInitialized: bool
    var userUtterance: string
    var recorder: Option<RecorderState>
    var audioChunks: seq<Fragment>
    var isRecording: bool
    ghost var trace: seq<Effect>

    /** The recorder slot and `isRecording` move together; only non-empty
        fragments are collected; the flag is set exactly when an initialize
        call has succeeded, and no initialize call follows that one. */
    ghost predicate Valid()
      reads this
    {
      && (isRecording <==> recorder.Some?)
      && (forall i :: 0 <= i < |audioChunks| ==> |audioChunks[i].data| > 0)
      && (isVoissInitialized <==> InitSucceeded(trace))
      && InitAtMostOnceOk(trace)
    }

    function InitRequestOf(): InitRequest {
      InitRequest(params.activityId, params.sessionId, params.userId, params.userName)
    }

    function ChatRequestOf(message: string): ChatRequest {
      ChatRequest(params.activityId, params.sessionId, params.userId, message)
    }

    /** The effects of one end-of-utterance turn on the trimmed text `t`:
        nothing for an empty text; otherwise initialize when not yet done,
        then, unless that failed, chat and repeat. */
    function TurnEffects(initialized: bool, t: string, initResp: HttpResponse, chatResp: HttpResponse): seq<Effect>
    {
      if t == "" then []
      else if initialized then ChatEffects(ChatRequestOf(t), chatResp)
      else [InitCall(InitRequestOf(), initResp.ok)]
           + (if initResp.ok then ChatEffects(ChatRequestOf(t), chatResp) else [])
    }

    /** The effects of `submitUserText(text)`. */
    function SubmitEffects(text: string, chatResp: HttpResponse): seq<Effect> {
      if Trim(text) == "" then [] else ChatEffects(ChatRequestOf(Trim(text)), chatResp)
    }

    /** Text that is all whitespace submits nothing; any other text makes
        exactly one chat call, with the trimmed text. */
    lemma SubmitBlankCallsNothing(text: string, chatResp: HttpResponse)
      ensures AllWhitespace(text) ==> SubmitEffects(text, chatResp) == []
      ensures !AllWhitespace(text) ==>
                |SubmitEffects(text, chatResp)| >= 1 && SubmitEffects(text, chatResp)[0] == ChatCall(ChatRequestOf(Trim(text)), chatResp.ok)
      ensures forall k :: 0 <= k < |SubmitEffects(text, chatResp)| ==> !SubmitEffects(text, chatResp)[k].InitCall?
    {
      TrimEmptyIffWhitespace(text);
    }

    /** In a turn, a chat call comes only once initialized: either the flag
        was already set, or the turn's first effect is a successful initialize. */
    lemma TurnInitializesBeforeChat(initialized: bool, t: string, initResp: HttpResponse, chatResp: HttpResponse)
      ensures var es := TurnEffects(initialized, t, initResp, chatResp);
              forall k :: 0 <= k < |es| && es[k].ChatCall? ==>
                initialized || (0 < k && es[0] == InitCall(InitRequestOf(), true))
      ensures var es := TurnEffects(initialized, t, initResp, chatResp);
              |es| <= 3 && (forall k :: 0 < k < |es| ==> !es[k].InitCall?)
    {}

    /** The component as mounted: parameters from the query, the initial
        config, empty refs. */
    constructor (q: Query, sdk: Sdk, parseNum: string -> Option<real>, generatedSessionId: string)
      requires sdk.HasDefaults()
      ensures Valid()
      ensures params == Resolve(q, sdk, parseNum, generatedSessionId)
      ensures config == InitialConfig(params, sdk)
      ensures !isVoissInitialized && userUtterance == "" && recorder.None? && audioChunks == []
      ensures !isRecording && trace == []
    {
      params := Resolve(q, sdk, parseNum, generatedSessionId);
      config := InitialConfig(Resolve(q, sdk, parseNum, generatedSessionId), sdk);
      isVoissInitialized := false;
      userUtterance := "";
      recorder := None;
      audioChunks := [];
      isRecording := false;
      trace := [];
    }

    /** `initializeVoiss`: once initialized, returns nothing and calls nothing;
        otherwise calls initialize once, throws on a failed status leaving the
        flag unset, and on success sets the flag and returns the opening message. */
    method InitializeVoiss(resp: HttpResponse) returns (r: Result<Option<string>, Failure>)
      requires Valid()
      modifies this`isVoissInitialized, this`trace
      ensures Valid()
      ensures old(isVoissInitialized) ==> r == Ok(None) && isVoissInitialized && trace == old(trace)
      ensures !old(isVoissInitialized) ==> trace == old(trace) + [InitCall(InitRequestOf(), resp.ok)]
      ensures !old(isVoissInitialized) && !resp.ok ==>
                r == Err(InitFailed(resp.status, resp.text)) && !isVoissInitialized
      ensures !old(isVoissInitialized) && resp.ok ==>
                r == Ok(OpeningMessage(resp.json)) && isVoissInitialized
    {
      if isVoissInitialized {
        return Ok(None);
      }
      trace := trace + [InitCall(InitRequestOf(), resp.ok)];
      if !resp.ok {
        assert forall i :: 0 <= i < |old(trace)| ==> trace[i] == old(trace)[i];
        return Err(InitFailed(resp.status, resp.text));
      }
      var message := OpeningMessage(resp.json);
      isVoissInitialized := true;
      assert trace[|trace| - 1].InitCall? && trace[|trace| - 1].initOk;
      return Ok(message);
    }

    /** `chatVoiss`: one chat call; throws on a failed status, else the raw
        `data.message` of the answer. */
    method ChatVoiss(message: string, resp: HttpResponse) returns (r: Result<Option<Json>, Failure>)
      requires Valid()
      modifies this`trace
      ensures Valid()
      ensures trace == old(trace) + [ChatCall(ChatRequestOf(message), resp.ok)]
      ensures r == if resp.ok then Ok(ChatReply(resp.json)) else Err(ChatFailed(resp.status, resp.text))
    {
      trace := trace + [ChatCall(ChatRequestOf(message), resp.ok)];
      assert forall i :: 0 <= i < |old(trace)| ==> trace[i] == old(trace)[i];
      if !resp.ok {
        return Err(ChatFailed(resp.status, resp.text));
      }
      return Ok(ChatReply(resp.json));
    }

    /** `submitUserText`: text that trims to nothing calls nothing; otherwise
        the trimmed text goes to chat and a truthy reply is repeated. Errors
        are swallowed. */
    method SubmitUserText(text: string, chatResp: HttpResponse)
      requires Valid()
      modifies this`trace
      ensures Valid()
      ensures trace == old(trace) + SubmitEffects(text, chatResp)
    {
      var finalText := Trim(text);
      if finalText == "" {
        return;
      }
      var reply := ChatVoiss(finalText, chatResp);
      if reply.Ok? && Truthy(reply.value) {
        RepeatMessage(reply.value.value);
      }
    }

    /** `repeatMessage(...)`: hands the text to the avatar. */
    method RepeatMessage(message: Json)
      requires Valid()
      modifies this`trace
      ensures Valid()
      ensures trace == old(trace) + [Repeat(message)]
    {
      trace := trace + [Repeat(message)];
      assert forall i :: 0 <= i < |old(trace)| ==> trace[i] == old(trace)[i];
    }

    /** `USER_TALKING_MESSAGE`: a non-empty chunk is appended to the utterance. */
    method OnUserTalkingMessage(chunk: Option<string>)
      requires Valid()
      modifies this`userUtterance
      ensures Valid()
      ensures userUtterance == if chunk.Some? && chunk.value != "" then old(userUtterance) + chunk.value
                               else old(userUtterance)
    {
      var c := chunk.GetOr("");
      if c != "" {
        userUtterance := userUtterance + c;
      }
    }

    /** `USER_END_MESSAGE`: takes the trimmed utterance and always clears it;
        an empty utterance calls nothing; otherwise initialize (when not yet
        done) comes first, and a failed initialize stops the turn before chat. */
    method OnUserEndMessage(initResp: HttpResponse, chatResp: HttpResponse)
      requires Valid()
      modifies this`userUtterance, this`isVoissInitialized, this`trace
      ensures Valid()
      ensures userUtterance == ""
      ensures trace == old(trace) + TurnEffects(old(isVoissInitialized), Trim(old(userUtterance)), initResp, chatResp)
      ensures isVoissInitialized == (old(isVoissInitialized) || (Trim(old(userUtterance)) != "" && initResp.ok))
      ensures AllWhitespace(old(userUtterance)) ==> trace == old(trace)
    {
      var finalText := Trim(userUtterance);
      TrimEmptyIffWhitespace(userUtterance);
      userUtterance := "";
      if finalText == "" {
        return;
      }
      var init := InitializeVoiss(initResp);
      if init.Err? {
        return;
      }
      ghost var mid := trace;
      assert mid == old(trace) + (if old(isVoissInitialized) then [] else [InitCall(InitRequestOf(), true)]);
      var reply := ChatVoiss(finalText, chatResp);
      if reply.Ok? && Truthy(reply.value) {
        RepeatMessage(reply.value.value);
      }
      assert trace == mid + ChatEffects(ChatRequestOf(finalText), chatResp);
      assert TurnEffects(old(isVoissInitialized), finalText, initResp, chatResp)
             == (if old(isVoissInitialized) then [] else [InitCall(InitRequestOf(), true)])
                + ChatEffects(ChatRequestOf(finalText), chatResp);
    }

    /** `STREAM_READY`: initialize, and repeat the opening message when it is
        not blank (the untrimmed message is what is repeated). */
    method OnStreamReady(initResp: HttpResponse)
      requires Valid()
      modifies this`isVoissInitialized, this`trace
      ensures Valid()
      ensures isVoissInitialized == (old(isVoissInitialized) || initResp.ok)
      ensures old(isVoissInitialized) ==> trace == old(trace)
      ensures !old(isVoissInitialized) ==>
                var m := OpeningMessage(initResp.json);
                trace == old(trace) + [InitCall(InitRequestOf(), initResp.ok)]
                         + (if initResp.ok && m.Some? && Trim(m.value) != "" then [Repeat(JStr(m.value))] else [])
    {
      var init := InitializeVoiss(initResp);
      if init.Ok? && init.value.Some? && Trim(init.value.value) != "" {
        RepeatMessage(JStr(init.value.value));
      }
    }

    /** `startRecording`: a no-op while a recorder is present and not
        inactive; throws, changing nothing, when the microphone is refused;
        otherwise clears the fragments and starts a fresh recorder. */
    method StartRecording(microphoneGranted: bool) returns (r: Result<bool, Failure>)
      requires Valid()
      modifies this`recorder, this`audioChunks, this`isRecording, this`trace
      ensures Valid()
      ensures old(recorder).Some? && old(recorder).value != Inactive ==>
                r == Ok(false) && recorder == old(recorder) && audioChunks == old(audioChunks)
                && isRecording == old(isRecording) && trace == old(trace)
      ensures (old(recorder).None? || old(recorder).value == Inactive) && !microphoneGranted ==>
                r == Err(MediaDenied) && recorder == old(recorder) && audioChunks == old(audioChunks)
                && isRecording == old(isRecording) && trace == old(trace)
      ensures (old(recorder).None? || old(recorder).value == Inactive) && microphoneGranted ==>
                r == Ok(true) && recorder == Some(Recording) && audioChunks == [] && isRecording
                && trace == old(trace) + [RecorderStarted]
    {
      if recorder.Some? && recorder.value != Inactive {
        return Ok(false);
      }
      if !microphoneGranted {
        return Err(MediaDenied);
      }
      audioChunks := [];
      trace := trace + [RecorderStarted];
      assert forall i :: 0 <= i < |old(trace)| ==> trace[i] == old(trace)[i];
      recorder := Some(Recording);
      isRecording := true;
      return Ok(true);
    }

    /** `ondataavailable`: only fragments with data are kept. */
    method OnDataAvailable(fragment: Fragment)
      requires Valid()
      modifies this`audioChunks
      ensures Valid()
      ensures audioChunks == if |fragment.data| > 0 then old(audioChunks) + [fragment] else old(audioChunks)
    {
      if |fragment.data| > 0 {
        audioChunks := audioChunks + [fragment];
      }
    }

    /** `stopRecordingAndSubmit`: a no-op with no recorder; otherwise stops it
        and always empties the slot and clears `isRecording`. */
    method StopRecordingAndSubmit()
      requires Valid()
      modifies this`recorder, this`isRecording, this`trace
      ensures Valid()
      ensures old(recorder).None? ==> recorder.None? && !isRecording && trace == old(trace)
      ensures old(recorder).Some? ==> recorder.None? && !isRecording && trace == old(trace) + [RecorderStopped]
    {
      if recorder.None? {
        return;
      }
      trace := trace + [RecorderStopped];
      assert forall i :: 0 <= i < |old(trace)| ==> trace[i] == old(trace)[i];
      recorder := None;
      isRecording := false;
    }

    /** `onstop`: sends the collected fragments, with the configured language
        when it is non-empty, for transcription; a non-empty transcript goes
        through `submitUserText`; the microphone tracks are stopped whatever
        happened. */
    method OnRecorderStop(sttResp: SttResponse, chatResp: HttpResponse)
      requires Valid()
      modifies this`trace
      ensures Valid()
      ensures trace == old(trace)
                       + [Transcribe(audioChunks, if config.language != "" then Some(config.language) else None)]
                       + (if sttResp.ok && sttResp.text.Some? then SubmitEffects(sttResp.text.value, chatResp) else [])
                       + [TracksStopped]
    {
      var language := if config.language != "" then Some(config.language) else None;
      trace := trace + [Transcribe(audioChunks, language)];
      AppendWithoutInit(old(trace), [Transcribe(audioChunks, language)]);
      ghost var sent := trace;
      if sttResp.ok && sttResp.text.Some? && sttResp.text.value != "" {
        SubmitUserText(sttResp.text.value, chatResp);
      }
      ghost var submitted := trace;
      assert submitted == sent + (if sttResp.ok && sttResp.text.Some? then SubmitEffects(sttResp.text.value, chatResp) else []);
      trace := trace + [TracksStopped];
      AppendWithoutInit(submitted, [TracksStopped]);
    }

    /** `startSessionV2`: fetch a token, create the avatar, start it with the
        current config, then voice chat when asked; a failure ends the
        sequence where it happens. `token` is `None` when the fetch failed. */
    method StartSession(isVoiceChat: bool, token: Option<string>, avatarStarted: bool)
      requires Valid()
      modifies this`trace
      ensures Valid()
      ensures token.None? ==> trace == old(trace) + [FetchToken]
      ensures token.Some? ==>
                trace == old(trace) + [FetchToken, InitAvatar(token.value), StartAvatar(config)]
                         + (if avatarStarted && isVoiceChat then [StartVoiceChat] else [])
    {
      trace := trace + [FetchToken];
      assert forall i :: 0 <= i < |old(trace)| ==> trace[i] == old(trace)[i];
      if token.None? {
        return;
      }
      ghost var fetched := trace;
      trace := trace + [InitAvatar(token.value), StartAvatar(config)];
      assert forall i :: 0 <= i < |fetched| ==> trace[i] == fetched[i];
      if avatarStarted && isVoiceChat {
        ghost var started := trace;
        trace := trace + [StartVoiceChat];
        assert forall i :: 0 <= i < |started| ==> trace[i] == started[i];
      }
    }

    /** The auto-start effect: with `autostart` set and no session, start one
        without voice chat. */
    method AutoStart(sessionInactive: bool, token: Option<string>, avatarStarted: bool)
      requires Valid()
      modifies this`trace
      ensures Valid()
      ensures !(params.autoStart && sessionInactive) ==> trace == old(trace)
      ensures params.autoStart && sessionInactive && token.None? ==> trace == old(trace) + [FetchToken]
      ensures params.autoStart && sessionInactive && token.Some? ==>
                trace == old(trace) + [FetchToken, InitAvatar(token.value), StartAvatar(config)]
    {
      if params.autoStart && sessionInactive {
        StartSession(false, token, avatarStarted);
      }
    }
  }

  /** Initializing twice issues exactly one initialize call, and the second
      call returns nothing. */
  method InitializeTwiceCallsOnce(q: Query, sdk: Sdk, parseNum: string -> Option<real>, generatedSessionId: string,
                                  first: HttpResponse, second: HttpResponse)
    returns (again: Result<Option<string>, Failure>, ghost calls: nat)
    requires sdk.HasDefaults() && first.ok
    ensures again == Ok(None) && calls == 1
  {
    var o := new InteractiveAvatar(q, sdk, parseNum, generatedSessionId);
    var r1 := o.InitializeVoiss(first);
    again := o.InitializeVoiss(second);
    assert o.trace == [InitCall(o.InitRequestOf(), true)];
    calls := |o.trace|;
  }
}
