# repeatAvatar: a Dafny model of the avatar page's turn pipeline

This project models the logic of `components/repeatAvatar.tsx`, the React component of
HeyGenInterface. The component drives a streaming avatar and relays the user's turns to the
VOISS dialogue backend. It covers three parts:

- **URL-parameter resolution** (`UrlParams`). Each query key the page reads becomes a typed
  value with a default: string passthrough, an allow-list boolean, a parsed number and the SDK
  enum lookups. The result is merged into the initial `StartAvatarRequest` configuration.
- **Reading the dialogue backend's answers** (`VoissResponse`, over the JSON values of `Json`).
  This covers the opening message of `initialize` and the reply of `chat`. Both are total
  functions over a JSON value, and a malformed shape gives "no value" instead of an error.
- **The in-memory orchestrator** (`Orchestrator.InteractiveAvatar`). This class has the
  component's refs as fields: the one-shot `isVoissInitialized` flag, the utterance
  accumulator, the recorder slot, the fragment list and `isRecording`. It has one method per
  handler. The handler's outside effects are never performed. Each is appended to a ghost
  trace, and what it answers (HTTP status and body, a transcript, microphone permission, an
  access token) is a parameter of the method. Each asynchronous handler is one atomic step.

`Text` models the JavaScript string operations the handlers use: `trim`, `toLowerCase` and
`toUpperCase`. `Wrappers` holds `Option` (JavaScript's `undefined`) and `Result` (a call
that throws).

The class invariant `InteractiveAvatar.Valid` says three things:

- the recorder slot is filled exactly when `isRecording` is true;
- only non-empty fragments are collected;
- the initialized flag is set exactly when some initialize call in the trace succeeded, and no
  initialize call ever follows a successful one.

So once the flag is set, nothing resets it, and at most one initialize call succeeds.

Where the model follows the code rather than the stated intent:
- The opening message is `""`, not absent, in one case: the last log's `content` is the empty
  string and `data.message` is not a string. The empty string then stays in `message`. The
  stream-ready handler does not repeat it, because it checks `initMsg.trim()`
  (`OpeningEmptyContentKept`).
- `chatVoiss` casts `data.message` to a string without checking its type. The reply is
  therefore the raw JSON value. The handlers repeat it whenever it is truthy in the JavaScript
  sense, so a non-zero number would be passed to `repeatMessage`.
- `submitUserText` (the global `voissSubmit` hook, which the recorder also uses) calls chat
  without initializing first. Only the end-of-utterance handler initializes before chatting.

## Model

| member | source | states |
|---|---|---|
| `Text.TrimSpec` | components/repeatAvatar.tsx:229 | `trim` keeps a middle part of its input that neither starts nor ends with whitespace, and removes only whitespace on either side |
| `Text.TrimStartSpec` | components/repeatAvatar.tsx:229 | the leading half of `trim` removes a whitespace prefix and stops at the first other character |
| `Text.TrimEndSpec` | components/repeatAvatar.tsx:229 | the trailing half of `trim` removes a whitespace suffix and stops at the last other character |
| `Text.TrimEmptyIffWhitespace` | components/repeatAvatar.tsx:229-230 | a text trims to empty exactly when every character is whitespace, which is when `!finalText` holds |
| `Text.Trim` | components/repeatAvatar.tsx:229 | `trim`, used again on the utterance at line 331, never lengthens its input, and its result is empty or starts and ends with a non-whitespace character |
| `Text.TrimIdempotent` | components/repeatAvatar.tsx:331 | trimming an already trimmed utterance changes nothing |
| `Text.LowerOfUpper` | components/repeatAvatar.tsx:71 | lower-casing gives the same result whatever the case of the input |
| `Text.UpperOfLower` | components/repeatAvatar.tsx:79 | upper-casing gives the same result whatever the case of the input |
| `Text.ToLower` | components/repeatAvatar.tsx:71 | lower-casing keeps the length and maps each character on its own: an ASCII capital becomes its small letter, anything else stays |
| `Text.ToUpper` | components/repeatAvatar.tsx:79 | upper-casing, used by `mapEmotion` and `mapSttProvider` (line 92), keeps the length and maps each ASCII small letter to its capital, anything else unchanged |
| `Json.Field` | components/repeatAvatar.tsx:186 | optional chaining `x?.k` yields a value exactly when `x` is an object with key `k` |
| `Json.LastItem` | components/repeatAvatar.tsx:190-191 | yields a value exactly for a non-empty array, and that value is its last element |
| `Json.AsString` | components/repeatAvatar.tsx:195 | `typeof v === "string"` holds exactly for a JSON string, and gives back that string |
| `Json.Truthy` | components/repeatAvatar.tsx:233 | JavaScript truthiness of a reply, as also tested at lines 195 and 337: a truthy value is present and not `null`; every array and object is truthy |
| `VoissResponse.OpeningMessage` | components/repeatAvatar.tsx:185-203 | the opening message, when there is one, is the string at `data.unit_results[last].conversation_logs[last].content` or the string at `data.message` |
| `VoissResponse.OpeningContentWalk` | components/repeatAvatar.tsx:189-198 | the nested reads follow exactly the two paths, and the `lastLog &&` guard never changes the outcome |
| `VoissResponse.OpeningMessageCases` | components/repeatAvatar.tsx:186-203 | gives the result for each case: a non-empty content wins; a missing or empty content falls back to a string `data.message`; with neither the result is none, or `""` for an empty content |
| `VoissResponse.ChatReply` | components/repeatAvatar.tsx:223-224 | the chat reply is whatever lies at `data.message`, of any JSON type |
| `VoissResponse.OpeningFromLastLog` | components/repeatAvatar.tsx:189-197 | `{data:{unit_results:[{conversation_logs:[{content:"hi"}]}]}}` opens with "hi" |
| `VoissResponse.OpeningFromDataMessage` | components/repeatAvatar.tsx:200-201 | `{data:{message:"hello"}}` opens with "hello" |
| `VoissResponse.OpeningUsesLastUnitAndLog` | components/repeatAvatar.tsx:191-194 | the last unit and, inside it, the last log are the ones read |
| `VoissResponse.OpeningEmptyContentKept` | components/repeatAvatar.tsx:195-201 | an empty content with no string `data.message` gives `""` |
| `VoissResponse.OpeningAbsent` | components/repeatAvatar.tsx:185-203 | a non-JSON body, a `null` body or a body with neither path opens with nothing |
| `UrlParams.FirstValueSpec` | components/repeatAvatar.tsx:70 | `searchParams.get` returns the value of the first pair with the key, and null only when no pair has the key |
| `UrlParams.FirstValueAppend` | components/repeatAvatar.tsx:70 | pairs added after the first occurrence of a key do not change what `get` returns |
| `UrlParams.FirstValue` | components/repeatAvatar.tsx:70 | the value `searchParams.get` returns for a key is the value of some pair with that key in the query |
| `UrlParams.Get` | components/repeatAvatar.tsx:70 | `get` yields only non-empty values, each being the first value of the key; an empty value counts as absent |
| `UrlParams.ToBool` | components/repeatAvatar.tsx:71 | true exactly when the value is present and, lower-cased, is "1", "true", "yes" or "on"; absent or empty gives false |
| `UrlParams.ToBoolIgnoresCase` | components/repeatAvatar.tsx:71 | `toBool` gives the same answer for a token in any case |
| `UrlParams.ToNum` | components/repeatAvatar.tsx:72-76 | yields a number exactly when the value is present, non-empty and parses to a finite number, and that number is the parsed one |
| `UrlParams.MapUpperName` | components/repeatAvatar.tsx:77-82 | `mapEmotion`, and `mapSttProvider` at lines 90-95, succeed exactly when the upper-cased input names a member of the enum, and return that member's value |
| `UrlParams.MapUpperNameIgnoresCase` | components/repeatAvatar.tsx:79 | the emotion and STT-provider lookups give the same answer whatever the case of the input |
| `UrlParams.UpperNameNeverInherited` | components/repeatAvatar.tsx:80 | no upper-cased input names a key inherited from `Object.prototype`, so those two lookups only find real enum members |
| `UrlParams.MapModelAsWritten` | components/repeatAvatar.tsx:83-89 | as written, `mapModel` yields either an enum value or, for an inherited key that is not an own member, that inherited property |
| `UrlParams.ModelToStringAccepted` | components/repeatAvatar.tsx:86 | `voice_model=toString` passes the `key in ElevenLabsModel` test and yields `Object.prototype.toString` |
| `UrlParams.MapModel` | components/repeatAvatar.tsx:83-89 | succeeds exactly for a non-empty input that is a member name or a member value; the name is tried first; the result is always a member value |
| `UrlParams.MapModelAgreesOffPrototype` | components/repeatAvatar.tsx:86-88 | the corrected lookup and the written one agree on every input except an inherited key |
| `UrlParams.VoiceModelAsWritten` | components/repeatAvatar.tsx:107 | the voice model the page as written resolves is an inherited property exactly when the first `voice_model` value is an inherited key the enum lacks, and an enum value otherwise |
| `UrlParams.ResolveModelAgreesWithWritten` | components/repeatAvatar.tsx:107 | on every query whose first `voice_model` value is not such a key, `Resolve` picks the same voice model as the page as written |
| `UrlParams.Resolve` | components/repeatAvatar.tsx:97-125 | for each string parameter: the first query value when non-empty, else its default. `voiceId` is always the default id. For the rest: the parsed rate or 1.0; the named emotion or SOOTHING; the named STT provider or DEEPGRAM; the model by name, then by value, else eleven_flash_v2_5; `autoStart` from the allow-list |
| `UrlParams.ResolveByFirstValues` | components/repeatAvatar.tsx:97-110 | the resolved parameters depend only on the first values of the eleven keys the page reads |
| `UrlParams.ResolveIgnoresOtherKeys` | components/repeatAvatar.tsx:69-126 | a pair with a key the page does not read changes nothing, wherever it stands in the query |
| `UrlParams.ResolveKeepsFirstOccurrence` | components/repeatAvatar.tsx:70 | repeating a key later in the query does not override its first value |
| `UrlParams.InitialConfig` | components/repeatAvatar.tsx:128-141 | the initial config keeps quality, knowledge id and transport from `DEFAULT_CONFIG`, and takes language, avatar, the whole voice setting and the STT provider from the parameters |
| `UrlParams.DefaultConfig` | components/repeatAvatar.tsx:35-50 | `DEFAULT_CONFIG`: low quality, no knowledge id, the default avatar, language, rate and voice id, the WebSocket transport, and an emotion, model and STT provider that are members of their enums |
| `UrlParams.UnrecognizedQueryGivesDefaults` | components/repeatAvatar.tsx:35-50 | a query with none of the page's keys yields exactly `DEFAULT_CONFIG`, with auto-start off |
| `UrlParams.VoiceRateParsedOrDefault` | components/repeatAvatar.tsx:104 | the voice rate is 1.0 or the parsed value of some `voice_rate` pair in the query |
| `Orchestrator.ChatEffects` | components/repeatAvatar.tsx:232-235 | a chat turn makes one chat call, and repeats the reply only when the call succeeded and the reply is truthy |
| `Orchestrator.InteractiveAvatar.constructor` | components/repeatAvatar.tsx:145-151 | on mount the refs are empty, the flag is unset, the parameters are resolved and the config is the merged initial one |
| `Orchestrator.InteractiveAvatar.InitializeVoiss` | components/repeatAvatar.tsx:169-206 | once initialized: returns nothing and makes no call. Otherwise: makes one initialize call; a failed status throws with status and text and leaves the flag unset; success sets the flag and returns the opening message |
| `Orchestrator.InteractiveAvatar.ChatVoiss` | components/repeatAvatar.tsx:208-225 | makes one chat call with the resolved ids and the message; a failed status throws, otherwise it returns the reply |
| `Orchestrator.InteractiveAvatar.SubmitUserText` | components/repeatAvatar.tsx:228-239 | text that trims to nothing makes no call; otherwise chat with the trimmed text, then repeat a truthy reply; errors are swallowed |
| `Orchestrator.InteractiveAvatar.SubmitBlankCallsNothing` | components/repeatAvatar.tsx:229-230 | all-whitespace text submits nothing; any other text makes exactly one chat call with the trimmed text and never an initialize call |
| `Orchestrator.InteractiveAvatar.RepeatMessage` | components/repeatAvatar.tsx:234 | asking the avatar to speak adds that one request to the trace |
| `Orchestrator.InteractiveAvatar.OnUserTalkingMessage` | components/repeatAvatar.tsx:344-350 | a chunk is appended to the utterance only when it is non-empty |
| `Orchestrator.InteractiveAvatar.OnUserEndMessage` | components/repeatAvatar.tsx:329-343 | the utterance is always cleared. An all-whitespace utterance makes no call. Otherwise initialize (if not yet done) comes before chat, a failed initialize stops the turn, and a truthy reply is repeated |
| `Orchestrator.InteractiveAvatar.TurnInitializesBeforeChat` | components/repeatAvatar.tsx:334-339 | within a turn, a chat call happens only when already initialized or after the turn's own successful initialize call |
| `Orchestrator.InteractiveAvatar.OnStreamReady` | components/repeatAvatar.tsx:311-322 | initializes, then repeats the opening message when it is not blank |
| `Orchestrator.InteractiveAvatar.StartRecording` | components/repeatAvatar.tsx:265-290 | does nothing while a recorder is present and not inactive; a refused microphone throws and changes nothing; otherwise clears the fragments, fills the slot and sets `isRecording` |
| `Orchestrator.InteractiveAvatar.OnDataAvailable` | components/repeatAvatar.tsx:273-275 | only fragments with size > 0 are kept |
| `Orchestrator.InteractiveAvatar.StopRecordingAndSubmit` | components/repeatAvatar.tsx:292-301 | does nothing without a recorder; otherwise stops it, and always leaves the slot empty and `isRecording` false |
| `Orchestrator.InteractiveAvatar.OnRecorderStop` | components/repeatAvatar.tsx:276-286 | sends the fragments for transcription, with the language when it is non-empty; submits a non-empty transcript; always stops the microphone tracks last |
| `Orchestrator.InteractiveAvatar.StartSession` | components/repeatAvatar.tsx:303-360 | fetches a token, creates and starts the avatar with the current config, then starts voice chat when asked; a failure ends the sequence there |
| `Orchestrator.InteractiveAvatar.AutoStart` | components/repeatAvatar.tsx:362-366 | starts a session without voice chat only when `autostart` is set and no session is active |
| `Orchestrator.InitializeTwiceCallsOnce` | components/repeatAvatar.tsx:169-170 | initializing twice makes exactly one initialize call, and the second call returns nothing |

## Left out

- `UrlParams.Resolve` uses the corrected own-key lookup `UrlParams.MapModel` from the finding below, and so do the constructor's `params` and `config`. With the lookup as written, `voice_model=toString` would set the voice model to the inherited `Object.prototype.toString`. `UrlParams.VoiceModelAsWritten` gives the voice model as written, and `UrlParams.ResolveModelAgreesWithWritten` shows that the two agree on every other query.
- `Number(v)` and `Number.isFinite` are IEEE floating-point parsing. They are the parameter `parseNum: string -> Option<real>`, which answers `None` for NaN and the infinities.
- The session id built from `Date.now()` and `Math.random()` is the parameter `generatedSessionId`.
- The query string is taken already decoded, as the ordered list of its pairs. Percent-decoding and `+` handling by `URLSearchParams` are not modelled.
- The SDK enums `VoiceEmotion`, `ElevenLabsModel` and `STTProvider`, and the members `AvatarQuality.Low` and `VoiceChatTransport.WEBSOCKET`, are outside this code. They are the `Sdk` parameter: a name→value map per enum, with the default members required to exist.
- `Text.ToLower` and `Text.ToUpper` map only ASCII letters. JavaScript's full Unicode case mapping is not modelled; for example, `'ſ'.toUpperCase()` is `"S"` in JavaScript. `UrlParams.ToBoolIgnoresCase`, `UrlParams.MapUpperNameIgnoresCase`, `Text.LowerOfUpper` and `Text.UpperOfLower` are statements about this ASCII mapping. They do not hold for JavaScript's mapping: `toBool("yeſ")` is false, but `toBool("yeſ".toUpperCase())` is true.
- `fetchAccessToken`, the `fetch` bodies, `res.json()` and `res.text()`, `getUserMedia`, `MediaRecorder`, `Blob`, track stopping, `initAvatar`, `startAvatar`, `startVoiceChat` and `repeatMessage` are browser, SDK or network calls. Each is a trace event, and its answer is a method parameter.
- Async handlers can overlap, in particular a manual submission and an end-of-utterance turn. Each handler is modelled as one atomic step.
- One ordering detail of `onstop` follows from the atomic-step choice. There, `voissSubmit` is not awaited, so in the browser the chat call is issued before the tracks are stopped and the repeat comes after. The model places the whole submission before the tracks are stopped.
- `new MediaRecorder(...)` (line 271) and `mr.start()` (line 287) are assumed to succeed. If `start()` threw, the page would already have cleared the fragments and left the recorder slot as it was, and the `getUserMedia` stream would never be stopped; the model does not capture this path.
- The recorder's own state changes are not modelled. A recorder can become inactive when the browser ends its tracks; such a recorder is never put into the slot here.
- Installing and removing the global `window.voissSubmit` hook (lines 242-250) is global state. The recorder's `onstop` calls `SubmitUserText` directly, as if the hook were installed.
- Chunks of a talking message are taken as strings. The SDK types them so; a non-string payload appended with `+=` is not modelled.
- The configuration form (`setConfig` from the rendered `AvatarConfig`), the JSX render (lines 381-430) and the video-element wiring (lines 372-379) are UI.
- `stopAvatar` on unmount (lines 368-370) is an SDK call with no effect on the modelled state.
- `app/api/stt/transcribe/route.ts` and `app/api/voiss/initialize/route.ts` are HTTP proxies over foreign calls and are not part of this model. `app/repeat/page.tsx` is layout and is not part of it either.

## Findings

| source | as written | input that shows it | evidently intended | confidence | as-written member | corrected member |
|---|---|---|---|---|---|---|
| components/repeatAvatar.tsx:86 | `key in ElevenLabsModel` is also true for keys inherited from `Object.prototype`, so `mapModel` returns the inherited function | `?voice_model=toString` (or `constructor`, `valueOf`, ...) sets the voice model to `Object.prototype.toString` | accept only the enum's own member names (`Object.hasOwn`), then its values | high on the language semantics; not executed | `UrlParams.ModelToStringAccepted` | `UrlParams.MapModel` |
