# PathLight dispatch client: conversation manager

A Dafny model of `DispatchConversationManager`, the Swift class that runs one
voice round trip of the PathLight dispatch client:

1. It records the pilot's speech.
2. It posts the recording to the dispatch backend as a `multipart/form-data`
   body. A cold-start gateway error is retried once, and every other failure
   becomes a distinct error.
3. It shows the transcript and the reply.
4. It carries out the reply's pilot action, such as a speech toggle, a voice
   change, a volume change, a feedback note or a replay.
5. Only then does it cache and play the reply audio.

The Swift file is named `server.py`. The class's fields stay fields: the model
is a Dafny `class` whose methods assign them step by step. Each method that
shows a result or plays audio is proved against a pure function of module
`ConversationSpec` (`Play`, `Apply`, `Replied`, `Cached`, `Show`). The lemmas
beside those functions state what the client promises. The other methods are
proved against these:
- `SetPilotMasterVolume` and `SetMasterVolume` against `Clamp`;
- `ApplyControlAction` against `ApplyControls` and `MixerWrite`;
- `SaveFeedbackNote` against `SavedNote`;
- `PostDispatch` against `DispatchPolicy.Outcome`;
- `BuildRequest` against `DispatchRequest`;
- `SendToBackend` against `DispatchOf` and `RequestsFor`.

The constructor, `StartRecording` and `ReleaseRecorder` state their new fields outright.

The byte-level request body is built by appending to a growing buffer, as
`addField`/`addFile` do. It is checked against an independent reader that splits a body at its delimiters, following RFC 2046
section 5.1.1 and RFC 7578 section 4.

Modules, in dependency order:

| file | module | what it holds |
|---|---|---|
| wrappers.dfy | `Wrappers` | `Option` (Swift's `T?`, with `??` as `GetOr`), `Result` (a thrown error as a value) |
| text.dfy | `Text` | bytes, UTF-8 encoding, trimming of whitespace and newlines, decimal rendering |
| json.dfy | `Json` | the `AnyDecodable` value and its typed projections |
| pilot_actions.dfy | `PilotActions` | `PilotAction`, its accessors, action kinds, the effect of an action on the knobs, the volume clamp, the feedback note |
| multipart.dfy | `Multipart` | the body builder, the body layout, the reader and the round-trip lemmas |
| dispatch_policy.dfy | `DispatchPolicy` | the status/retry policy over a script of network exchanges |
| conversation_spec.dfy | `ConversationSpec` | recordings, the player, requests, the `Snapshot` of observable state, and the functions and lemmas the class is proved against |
| conversation.dfy | `Conversation` | `class DispatchConversationManager` |

Outside effects are modelled as follows:
- The network is a sequence of `Exchange` values, one consumed per request.
- `Data(base64Encoded:)` is a function parameter `base64`.
- Whether `AVAudioPlayer(data:)` accepts the bytes is a function parameter `accepts`.
- The recorder's outcome is a `Result` value.
- The request boundary is a parameter in place of the UUID.
- Three ghost logs record the effects that leave the class: the mixer volume writes, the feedback notes handed to the file, and the audio started.
- A fourth ghost log records the requests sent. Each logged request keeps its multipart boundary and form parts; `ConversationSpec.Body` gives its bytes.

`save_feedback` falls back to the reply text only when the `note` argument is
absent or not a string. A present, empty note is used as it is and then
discarded by the trim check, so nothing is saved. See
`PilotActions.EmptyNoteDoesNotFallBack`.

## Model

| member | source | states |
|---|---|---|
| Json.StringValue | server.py:129 | `stringValue` is present exactly for a JSON string, and is its text |
| Json.BoolValue | server.py:130 | `boolValue` is present exactly for a JSON boolean, and is its value |
| Json.DoubleValue | server.py:131-135 | `doubleValue` is present exactly for a Double or an Int; an Int `n` gives `n` |
| PilotActions.PilotAction.Arg | server.py:116-118 | `args?[key]` is present exactly when there are args and the key is in them |
| PilotActions.PilotAction.ArgString | server.py:116 | present exactly when the key holds a JSON string; missing args or key give absent |
| PilotActions.PilotAction.ArgBool | server.py:117 | present exactly when the key holds a JSON boolean |
| PilotActions.PilotAction.ArgDouble | server.py:118 | present exactly when the key holds a Double or an Int; an Int `n` yields `n` |
| PilotActions.PilotAction.ArgFloat | server.py:119-122 | present under the same condition as `argDouble`, with the same value |
| PilotActions.KindOf | server.py:154-196 | the `switch`: each known name selects its own case, and every other name selects the default |
| PilotActions.KindOfNameOf | server.py:154-196 | every kind `KindOf` can return is recovered from its wire name |
| PilotActions.Clamp | server.py:33 | the result lies in [0, 1], an in-range value is kept, and out-of-range values go to the nearer end |
| PilotActions.ClampIdempotent | server.py:32-34 | clamping an already clamped value changes nothing, so the `didSet` re-clamp after `setMasterVolume` has no effect |
| PilotActions.MixerWrite | server.py:181-188 | a value is written to the audio cue engine exactly for `adjust_volume`, or for `set_volume` with a numeric value, and it is the new volume |
| PilotActions.SavedNote | server.py:209-211 | the note is dropped exactly when it trims to empty; otherwise the trimmed note is kept, and it is non-empty |
| PilotActions.SavedNoteIsTrimmed | server.py:210 | a kept note is already trimmed |
| PilotActions.FeedbackNote | server.py:190-192 | only `save_feedback` hands on a note, and the note is never empty |
| PilotActions.VolumeActionsStayInRange | server.py:181-188 | after `adjust_volume`, or `set_volume` with a value, the volume is in [0, 1] whatever the argument and the old volume |
| PilotActions.ApplyControls | server.py:165-188 | the speech flag changes only under `set_tts`, the voice only under `set_voice`, and the volume only under `adjust_volume` or `set_volume`; a changed volume always lies in [0, 1] |
| PilotActions.Replays | server.py:156 | the replay case is selected exactly by the name `repeat_last` |
| PilotActions.AdjustWithoutDeltaKeepsVolume | server.py:182-183 | `adjust_volume` without a numeric `delta` leaves an in-range volume and every other knob as they were |
| PilotActions.SetTtsSetsFlag | server.py:169-173 | `set_tts` with a Bool `enabled` sets the speech flag to it and changes no other knob |
| PilotActions.SetVoiceSelectsVoice | server.py:175-179 | `set_voice` with a non-empty String `voice` selects that voice and changes no other knob |
| PilotActions.VolumeActionsSetClampedVolume | server.py:181-188 | `adjust_volume` sets the clamped sum of the old volume and `delta` (0.0 when missing); `set_volume` with a numeric `value` sets its clamp; no other knob changes |
| PilotActions.SetVolumeWithoutValueChangesNothing | server.py:185-188 | `set_volume` without a numeric `value` changes no knob |
| PilotActions.EachKnobHasOneWriter | server.py:169-188 | the speech flag changes only under `set_tts` with a Bool `enabled` equal to the new flag; the voice changes only under `set_voice` with that non-empty String; the volume changes only under the two volume actions |
| PilotActions.NonControlActionsChangeNothing | server.py:156-167 | `help`, `repeat_last`, `save_feedback` and unknown names change no knob |
| PilotActions.EmptyNoteDoesNotFallBack | server.py:191 | a present but empty `note` is used as it is, so nothing is saved and the reply text is not used |
| PilotActions.FeedbackSavedIffNotBlank | server.py:209-211 | `save_feedback` saves something exactly when the chosen note is not all whitespace, and then saves the note trimmed |
| Text.Utf8Char | server.py:303-305 | a character encodes to 1 to 4 bytes; exactly an ASCII character takes one byte, which is its own code |
| Text.Utf8 | server.py:303-305 | an encoding is at least as long as the string |
| Text.Utf8Append | server.py:303-305 | encoding `a + b` gives the bytes of `a` followed by those of `b` |
| Text.Utf8AsciiByte | server.py:304 | an ASCII byte occurs in an encoding exactly when its character occurs in the string |
| Text.Trim | server.py:210 | trimming never lengthens a note, and a non-empty result neither starts nor ends with whitespace or a newline |
| Text.TrimStart | server.py:210 | the result is a suffix of the input, the dropped prefix is whitespace, and the result does not start with whitespace |
| Text.TrimEnd | server.py:210 | the result is a prefix of the input, the dropped suffix is whitespace, and the result does not end with whitespace |
| Text.TrimIsMaximalSlice | server.py:210 | the trimmed string is a slice of the input; everything cut away is whitespace; the slice starts and ends with non-whitespace |
| Text.TrimEmptyIffAllWhitespace | server.py:210-211 | a note trims to empty exactly when it is all whitespace |
| Text.TrimIdempotent | server.py:210 | trimming twice is trimming once |
| Text.Decimal | server.py:365 | the rendering of a status code is a non-empty string of digits with no leading zero |
| Text.DecimalRoundTrip | server.py:365 | reading the rendered digits back gives the status code |
| DispatchPolicy.Settle | server.py:349-383 | one deciding exchange becomes a transport error exactly when there is no response; busy exactly for 429; an HTTP error exactly for any other status but 200, carrying that status and the body text or "(no body)"; a decoding error exactly for a 200 that does not decode; success exactly for a 200 that decodes; never the recording's read error |
| DispatchPolicy.Outcome | server.py:339-383 | the first response decides unless it is a gateway status, and then the second one does; the network never yields the recording's read error |
| DispatchPolicy.Description | server.py:349-367 | an HTTP error's message is "HTTP ", the status digits, which read back as the status, then ": " and the body text |
| DispatchPolicy.HttpMessageReadsBack | server.py:365 | the status can be read back from the digits after "HTTP " in the message, and the body text follows ": " |
| DispatchPolicy.RequestsIssued | server.py:339-347 | one dispatch issues one request, or two exactly when the first response is 502, 503 or 504 |
| DispatchPolicy.GatewayIsRetriedOnce | server.py:341-347 | a first gateway status causes exactly one retry, and the second response decides the outcome |
| DispatchPolicy.SecondGatewayFailureSurfaces | server.py:341-367 | a second gateway status is not retried; it becomes an HTTP error with its own status and body |
| DispatchPolicy.RateLimitIsNotRetried | server.py:349-357 | a 429 on the first request is not retried and becomes the busy error |
| DispatchPolicy.BusyIffFinal429 | server.py:349-357 | the busy error arises exactly when the deciding response, on either attempt, is a 429 |
| DispatchPolicy.HttpErrorCarriesFinalStatus | server.py:359-367 | an HTTP error arises exactly for a deciding status other than 200 and 429, and carries that status |
| DispatchPolicy.SuccessOnlyOnFinal200 | server.py:369-383 | a success arises exactly for a deciding 200 whose JSON decodes; it carries that reply's fields, and its audio is the base64 decoding of `audio_b64` |
| DispatchPolicy.ColdStartScenario | server.py:339-347 | a 503 followed by a 200 succeeds after exactly two requests |
| Multipart.Delimiter | server.py:303 | the delimiter a reader splits parts at starts with CRLF and has more after it |
| Multipart.Encapsulations | server.py:302-314 | one encapsulation per part, in order |
| Multipart.AddField | server.py:302-306 | `addField` appends the dash-boundary line, the disposition header, a blank line and the value line to the buffer |
| Multipart.AddFile | server.py:308-314 | `addFile` appends the dash-boundary line, both headers, a blank line, the data unchanged and CRLF to the buffer |
| Multipart.CloseLineBytes | server.py:324 | the closing append is the close-delimiter line `--boundary--` CRLF |
| Multipart.BuildDispatchBody | server.py:300-325 | the built body is the layout of the parts `mode`, `voice`, `tts`, `audio`, followed by the close line |
| Multipart.FourPartBody | server.py:316-324 | appending four parts one by one, then the close line, lays out the form of those four parts |
| Multipart.DispatchParts | server.py:316-321 | four parts in order: three fields and the audio file; the voice field holds the selected voice, the `tts` field holds "1" exactly when server speech is on, and the audio is unchanged; no name, file name or media type holds a carriage return |
| Multipart.FormBodyOpens | server.py:302-325 | the body `FormBody` builds for one or more parts opens with `--boundary` CRLF |
| Multipart.FormBodyCloses | server.py:324 | the body `FormBody` builds always ends with `--boundary--` CRLF |
| Multipart.LayoutIsFramed | server.py:302-324 | the part-by-part `Layout` is one dash-boundary followed by the delimiter-separated parts and the close |
| Multipart.FindFrom | server.py:303 | the reader's search finds the first occurrence of a pattern at or after a position, or reports that there is none |
| Multipart.FirstOccurrence | server.py:303 | a delimiter right after a part free of it is the first one found |
| Multipart.SplitFramed | server.py:302-324 | the reader returns exactly the framed parts when none of them contains the delimiter |
| Multipart.DecodeFormBody | server.py:300-325 | reading a built body gives back every part's encapsulation, in order |
| Multipart.SplitEncapsulation | server.py:304 | a part splits at its first blank line into exactly its headers and its content |
| Multipart.HeadersFreeOfBlankLine | server.py:304-311 | headers without a carriage return in their name, file name or media type hold no blank line |
| Multipart.ReadsBackParts | server.py:300-325 | reading a built body back gives one part per part, in order, each splitting into that part's headers and content |
| Multipart.DispatchBodyReadsBack | server.py:316-325 | the dispatch body reads back as exactly `mode`, `voice`, `tts`, `audio`; the voice field holds the selected voice, `tts` holds "1" exactly when server speech is on, and the audio bytes come back unchanged |
| ConversationSpec.ReplayDelayNanos | server.py:159 | the replay delay is 200 ms |
| ConversationSpec.Stopped | server.py:260 | stopping keeps the player and its data, and stops it playing |
| ConversationSpec.DispatchRequestReadsBack | server.py:290-325 | the Content-Type names the request's own boundary, and splitting the body at that boundary gives back four parts: the voice part holds the selected voice, and the audio part holds the recorded bytes unchanged |
| ConversationSpec.Copies | server.py:346 | a retry re-sends the identical request |
| ConversationSpec.DispatchOf | server.py:321 | the read error is the outcome exactly when the recording cannot be read, so it is told apart from every network outcome |
| ConversationSpec.RequestsFor | server.py:321-346 | an unreadable recording sends nothing; otherwise as many requests are sent as the policy issues, and each one is the dispatch request for the recorded bytes |
| ConversationSpec.DelayNanos | server.py:251-252 | the nanoseconds are the floor of the non-negative delay times 10^9, and a sleep happens exactly when there is at least one |
| ConversationSpec.Play | server.py:258-268 | a new player plays exactly when the platform accepts the bytes, and the bytes are logged as started; when the platform rejects them the old player is kept, stopped, and nothing is logged; nothing else changes |
| ConversationSpec.Apply | server.py:151-197 | an action never changes the status, transcript, reply or audio cache; without a replay of cached audio it does not touch the player |
| ConversationSpec.Replied | server.py:87-94 | a reply shows "Done", its transcript and reply; its action, if any, moves the knobs as `ApplyControls` says, writes a volume action through to the mixer and logs a `save_feedback` note; without an action these stay as they were; the player is untouched unless the action replays cached audio; the audio cache stays as it was while the action runs |
| ConversationSpec.Cached | server.py:97-100 | reply audio replaces the cache and its MIME type and is played: when the player accepts it, it is what now plays and it is appended to the play log, otherwise the old player is stopped; without audio nothing changes; only the cache and the player change |
| ConversationSpec.Show | server.py:85-107 | a failure sets the status to the error text; a success sets "Done", the transcript and the reply (the action and the playback are stated by `SuccessAppliesAction` and `ReplyAudioPlaysLast`) |
| ConversationSpec.SuccessAppliesAction | server.py:92-94 | after a successful reply, its action has taken effect: the knobs follow `ApplyControls`, the mixer log gains the volume write and the feedback log gains the `save_feedback` note, with the reply text as fallback; without an action none of the three changes |
| ConversationSpec.ReplyAudioPlaysLast | server.py:97-100 | accepted reply audio is what plays at the end, and it is the last entry of the play log, appended after whatever the action played |
| ConversationSpec.ApplyReplay | server.py:156-163 | `repeat_last` plays the cached audio, if any, and changes nothing else |
| ConversationSpec.ApplyFeedback | server.py:190-192 | `save_feedback` only hands on its note |
| ConversationSpec.ApplyKnobAction | server.py:165-188 | every other action changes only the knobs, plus the mixer write for a volume action |
| ConversationSpec.ApplyKeepsRange | server.py:181-207 | every action keeps the volume and every mixer write in [0, 1] |
| ConversationSpec.ShowKeepsRange | server.py:85-107 | showing any dispatch result keeps the volume and every mixer write in [0, 1] |
| ConversationSpec.FailureChangesOnlyStatus | server.py:105-107 | a failed send applies no action, leaves the cache and player untouched, and sets the status to the error text |
| ConversationSpec.CacheReplacedOnlyByNewAudio | server.py:97-103 | the cached audio and MIME type are replaced exactly when the new reply carries audio |
| ConversationSpec.RepeatLastReplaysPreviousAudio | server.py:91-100 | a `repeat_last` reply carrying audio first replays the previous reply's audio, then plays its own, which becomes the cache |
| ConversationSpec.PlayLogOnlyGrows | server.py:91-100 | showing a result only appends to the audio started, at most two entries |
| ConversationSpec.ShowOverwritesStatus | server.py:80-106 | the status set before the result (such as "Uploading…" or "Waking server…") is always overwritten |
| Conversation.DispatchConversationManager.constructor | server.py:9-38 | the defaults: "Ready", speech on, voice "nova", delay 3.0 s, volume 0.5, the Render endpoint, no recorder, player or cache |
| Conversation.DispatchConversationManager.StartRecording | server.py:42-73 | a successful set-up holds the recorder and shows "Recording…"; a failed one shows "Mic error: " plus the error and keeps the old recorder |
| Conversation.DispatchConversationManager.SetPilotMasterVolume | server.py:32-34 | the `didSet` observer leaves the clamped value |
| Conversation.DispatchConversationManager.SetMasterVolume | server.py:199-207 | the volume and the mixer both receive the clamped value, and the volume bounds are kept |
| Conversation.DispatchConversationManager.SaveFeedbackNote | server.py:209-237 | the trimmed note is handed to the feedback file exactly when it is not empty |
| Conversation.DispatchConversationManager.PlayServerAudio | server.py:258-268 | playing changes the state as `Play` says |
| Conversation.DispatchConversationManager.PlayServerAudioDelayed | server.py:250-256 | sleeps `DelayNanos` nanoseconds, then plays as `Play` says |
| Conversation.DispatchConversationManager.ReplayLastAudio | server.py:156-163 | `repeat_last` sleeps `DelayNanos(0.2)` and then plays the cached audio as `Play` says; without cached audio it sleeps nothing and changes nothing |
| Conversation.DispatchConversationManager.ApplyControlAction | server.py:165-188 | the knob-setting cases change the knobs as `ApplyControls` says, write a volume through as `MixerWrite` says, and keep the bounds |
| Conversation.DispatchConversationManager.ApplyPilotAction | server.py:151-197 | applying an action changes the state as `Apply` says and keeps the volume bounds |
| Conversation.DispatchConversationManager.PostDispatch | server.py:327-384 | the outcome is the policy's; the identical request is sent once, or twice after a gateway status, and exactly then "Waking server…" is shown and the 1.5 s pause is taken |
| Conversation.DispatchConversationManager.BuildRequest | server.py:290-325 | the request is the dispatch request for the current endpoint, voice and speech flag, and the appended body is exactly its bytes |
| Conversation.DispatchConversationManager.SendToBackend | server.py:288-384 | the outcome is `DispatchOf`; the requests sent are `RequestsFor` with the voice and flag of the moment; the status and the 1.5 s pause happen only on a retry |
| Conversation.DispatchConversationManager.ShowReply | server.py:87-94 | a reply changes the state as `Replied` says and keeps the volume bounds |
| Conversation.DispatchConversationManager.CacheReplyAudio | server.py:97-103 | reply audio changes the state as `Cached` says, after a sleep of `DelayNanos` of the playback delay; without audio nothing is slept |
| Conversation.DispatchConversationManager.ShowResult | server.py:85-107 | the dispatch result changes the state as `Show` says |
| Conversation.DispatchConversationManager.ReleaseRecorder | server.py:76-83 | without a recorder nothing changes; otherwise recording stops, the status is "Uploading…" and the recorder is released |
| Conversation.DispatchConversationManager.SendAndShow | server.py:85-107 | the recording is sent and the result shown as `Show` says |
| Conversation.DispatchConversationManager.StopRecordingAndSend | server.py:75-108 | without a recorder nothing changes; otherwise the recorder is released, the requests are those for the voice and flag of that moment, and the state is `Show` of the outcome |

## Left out

- AVFoundation. Audio session and recorder set-up is left out and the recorded file is an input (`Recording`). Whether `AVAudioPlayer(data:)` accepts the bytes is the parameter `accepts`, and `prepareToPlay`/`play` are assumed to start playback.
- Networking. `URLSession`, the 45-second request timeout, the distinction between a thrown transport error and a non-HTTP response (both are `NoResponse`) and the request's URL object are not modelled; the network is a script of `Exchange` values that answers every request issued.
- Timing. No time passes in the model, and task cancellation is not modelled. Each sleep is given by its length in nanoseconds: `PlayServerAudioDelayed`, `ReplayLastAudio` and `CacheReplyAudio` return the reply and replay sleeps, and `PostDispatch` and `SendToBackend` return the 1.5-second retry pause. `ApplyPilotAction`, `ShowResult` and `SendAndShow` drop these lengths, so the sleeps of a whole round trip are not collected in one place.
- ConversationSpec.DelayNanos: does not model the trap that `UInt64(...)` raises for a delay too large for 64 bits, or for NaN; delays are unbounded reals.
- PilotActions.PilotAction.ArgFloat: does not model the narrowing of `Double` to `Float`; the value is the exact real number.
- PilotActions.Clamp: does not model `Float` rounding or NaN; volumes are reals.
- Library decoding. `JSONDecoder` and the order in which `AnyDecodable` tries Bool, Int, Double, String, object and array are not modelled; a response carries its decoding result, and an argument its decoded `JsonValue`. `Data(base64Encoded:)` is the parameter `base64`, and `String(data:encoding:)` of the response body is carried by the exchange.
- Feedback file. `ensureFeedbackDir`, the JSONL line with its ISO 8601 timestamp, and the file append and its errors are not modelled; a saved note is appended to a ghost log.
- The boundary string. `"Boundary-" + UUID` is a parameter; that no part contains the delimiter is a precondition of the read-back lemmas, not a fact about UUIDs.
- Concurrency and output: `@MainActor`, `async` interleavings, `@Published`/Combine and all `print` logging. The `AudioCueEngine.shared` write is a ghost log of the values written.
- The server-side transcript parser and feedback store are not part of this model.
