/**
 * The client's conversation manager (`DispatchConversationManager`): it
 * records, sends the recording, applies the reply's pilot action, caches
 * and plays the reply audio, and keeps the control knobs the actions
 * change. Every method updates the manager's fields in place and is proved
 * against the pure functions of module ConversationSpec.
 */
module Conversation {
  import opened Wrappers
  import opened Text
  import opened PilotActions
  import opened DispatchPolicy
  import opened ConversationSpec
  import Multipart

  class DispatchConversationManager {
    // UI state
    var isRecording: bool
    var lastTranscript: string
    var lastReply: string
    var status: string

    // Server-side speech knobs
    var useServerTTS: bool
    var selectedVoice: string
    var replyPlaybackDelaySeconds: real

    // Audio
    var recorder: Option<Recording>
    var audioPlayer: Option<Player>
    var lastServerAudioData: Option<Bytes>
    var lastServerAudioMime: Option<string>

    // Pilot control knob
    var pilotMasterVolume: real

    // Where dispatches go
    var dispatchEndpoint: string

    /** The values written to the shared audio cue engine's master volume, in order. */
    ghost var mixerWrites: seq<real>
    /** The audio the player started, in order. */
    ghost var played: seq<Bytes>
    /** The notes handed to the feedback file, in order. */
    ghost var feedbackNotes: seq<string>
    /** The requests sent to the backend, in order. */
    ghost var requestsSent: seq<Request>

    /** The volume knob and every value written through to the mixer lie in [0, 1]. */
    ghost predicate Valid()
      reads this`pilotMasterVolume, this`mixerWrites
    {
      VolumesInRange(pilotMasterVolume, mixerWrites)
    }

    /** The knobs pilot actions can change. */
    function Knobs(): Controls
      reads this`useServerTTS, this`selectedVoice, this`pilotMasterVolume
    {
      Controls(useServerTTS, selectedVoice, pilotMasterVolume)
    }

    /** The observable state the specification functions speak about. */
    ghost function Snap(): Snapshot
      reads this`status, this`lastTranscript, this`lastReply, this`useServerTTS, this`selectedVoice
      reads this`pilotMasterVolume, this`lastServerAudioData, this`lastServerAudioMime
      reads this`audioPlayer, this`played, this`mixerWrites, this`feedbackNotes
    {
      Snapshot(status, lastTranscript, lastReply, Knobs(), lastServerAudioData, lastServerAudioMime,
               audioPlayer, played, mixerWrites, feedbackNotes)
    }

    /** A fresh manager with the client's defaults. */
    constructor ()
      ensures Valid()
      ensures !isRecording && lastTranscript == "" && lastReply == "" && status == "Ready"
      ensures useServerTTS && selectedVoice == "nova" && replyPlaybackDelaySeconds == 3.0
      ensures recorder.None? && audioPlayer.None? && lastServerAudioData.None? && lastServerAudioMime.None?
      ensures pilotMasterVolume == 0.5
      ensures dispatchEndpoint == "https://pathlight-dispatch-v1.onrender.com/dispatch"
      ensures mixerWrites == [] && played == [] && feedbackNotes == [] && requestsSent == []
    {
      isRecording, lastTranscript, lastReply, status := false, "", "", "Ready";
      useServerTTS, selectedVoice, replyPlaybackDelaySeconds := true, "nova", 3.0;
      recorder, audioPlayer, lastServerAudioData, lastServerAudioMime := None, None, None, None;
      pilotMasterVolume := 0.5;
      dispatchEndpoint := "https://pathlight-dispatch-v1.onrender.com/dispatch";
      mixerWrites, played, feedbackNotes, requestsSent := [], [], [], [];
    }

    // ------------------------------------------------------- Recording

    /**
     * `startRecording`, with the audio session and recorder set-up given as
     * its outcome: the recording started, or the error the set-up threw.
     * A failed set-up leaves the previous recorder in place.
     */
    method StartRecording(setUp: Result<Recording, string>)
      modifies this`status, this`recorder, this`isRecording
      ensures setUp.Success? ==> recorder == Some(setUp.value) && isRecording && status == "Recording…"
      ensures setUp.Failure? ==>
        recorder == old(recorder) && isRecording == old(isRecording) && status == "Mic error: " + setUp.error
    {
      status := "Starting mic…";
      match setUp
      case Success(r) =>
        recorder := Some(r);
        isRecording := true;
        status := "Recording…";
      case Failure(e) =>
        status := "Mic error: " + e;
    }

    // ---------------------------------------------------------- Volume

    /** Assigning `pilotMasterVolume`: its `didSet` observer clamps whatever was stored. */
    method SetPilotMasterVolume(v: real)
      modifies this`pilotMasterVolume
      ensures pilotMasterVolume == Clamp(v)
    {
      pilotMasterVolume := v;
      pilotMasterVolume := Clamp(pilotMasterVolume);
    }

    /** `setMasterVolume`: clamps, stores (the observer clamps again, to no effect), and writes the clamped value to the mixer. */
    method SetMasterVolume(v: real)
      requires Valid()
      modifies this`pilotMasterVolume, this`mixerWrites
      ensures Valid()
      ensures pilotMasterVolume == Clamp(v)
      ensures mixerWrites == old(mixerWrites) + [Clamp(v)]
    {
      var clamped := Clamp(v);
      SetPilotMasterVolume(clamped);
      ClampIdempotent(v);
      mixerWrites := mixerWrites + [clamped];
    }

    // -------------------------------------------------------- Feedback

    /** `saveFeedbackNote`: trims the note and hands it to the feedback file unless it is empty. */
    method SaveFeedbackNote(note: string)
      modifies this`feedbackNotes
      ensures feedbackNotes == old(feedbackNotes) + AsSeq(SavedNote(note))
    {
      var trimmed := Trim(note);
      if trimmed == [] {
        return;
      }
      feedbackNotes := feedbackNotes + [trimmed];
    }

    // -------------------------------------------------------- Playback

    /** `playServerAudio`, as `Play` specifies it; `accepts` says whether the platform player takes the bytes. */
    method PlayServerAudio(data: Bytes, accepts: Bytes -> bool)
      modifies this`audioPlayer, this`played
      ensures Snap() == Play(old(Snap()), data, accepts)
    {
      audioPlayer := Stopped(audioPlayer);
      if accepts(data) {
        audioPlayer := Some(Player(data, true));
        played := played + [data];
      }
    }

    /** `playServerAudioDelayed`: sleeps the whole nanoseconds of a positive delay, then plays. */
    method PlayServerAudioDelayed(data: Bytes, delaySeconds: real, accepts: Bytes -> bool) returns (sleptNanos: nat)
      modifies this`audioPlayer, this`played
      ensures sleptNanos == DelayNanos(delaySeconds)
      ensures Snap() == Play(old(Snap()), data, accepts)
    {
      var ns := DelayNanos(delaySeconds);
      sleptNanos := 0;
      if ns > 0 {
        sleptNanos := ns;
      }
      PlayServerAudio(data, accepts);
    }

    // ------------------------------------------------- Pilot actions

    /**
     * The knob-setting cases of `applyPilotAction`, with `help` and unknown
     * names, which set nothing: the knobs change as `ApplyControls` says and
     * a volume action writes the new volume through to the mixer.
     */
    method ApplyControlAction(action: PilotAction)
      requires Valid()
      requires !Replays(action) && KindOf(action.name) != SaveFeedback
      modifies this`useServerTTS, this`selectedVoice, this`pilotMasterVolume, this`mixerWrites
      ensures Valid()
      ensures Knobs() == ApplyControls(action, old(Knobs()))
      ensures mixerWrites == old(mixerWrites) + AsSeq(MixerWrite(action, old(Knobs())))
    {
      match KindOf(action.name)
      case SetTts =>
        if action.ArgBool("enabled").Some? {
          useServerTTS := action.ArgBool("enabled").value;
        }
      case SetVoice =>
        var v := action.ArgString("voice");
        if v.Some? && v.value != [] {
          selectedVoice := v.value;
        }
      case AdjustVolume =>
        var delta := action.ArgFloat("delta").GetOr(0.0);
        SetMasterVolume(pilotMasterVolume + delta);
      case SetVolume =>
        var v := action.ArgFloat("value");
        if v.Some? {
          SetMasterVolume(v.value);
        }
      case Help =>
      case Unknown(_) =>
    }

    /** The `repeat_last` case of `applyPilotAction`: the cached reply audio, if any, played after 0.2 seconds. */
    method ReplayLastAudio(accepts: Bytes -> bool) returns (sleptNanos: nat)
      modifies this`audioPlayer, this`played
      ensures sleptNanos == if old(lastServerAudioData).Some? then DelayNanos(0.2) else 0
      ensures Snap() == if old(lastServerAudioData).Some? then Play(old(Snap()), old(lastServerAudioData).value, accepts) else old(Snap())
    {
      sleptNanos := 0;
      if lastServerAudioData.Some? {
        sleptNanos := PlayServerAudioDelayed(lastServerAudioData.value, 0.2, accepts);
      }
    }

    /** `applyPilotAction`, as `Apply` specifies it; it keeps the volume bounds. */
    method ApplyPilotAction(action: PilotAction, replyText: string, accepts: Bytes -> bool)
      requires Valid()
      modifies this`useServerTTS, this`selectedVoice, this`pilotMasterVolume, this`mixerWrites
      modifies this`audioPlayer, this`played, this`feedbackNotes
      ensures Valid()
      ensures Snap() == Apply(old(Snap()), action, replyText, accepts)
    {
      ghost var s := Snap();
      if Replays(action) {
        ApplyReplay(s, action, replyText, accepts);
        var _ := ReplayLastAudio(accepts);
      } else if KindOf(action.name) == SaveFeedback {
        ApplyFeedback(s, action, replyText, accepts);
        FeedbackNoteIsSavedNote(action, replyText);
        SaveFeedbackNote(action.ArgString("note").GetOr(replyText));
      } else {
        ApplyKnobAction(s, action, replyText, accepts);
        ApplyControlAction(action);
      }
    }

    // ------------------------------------------------------ Networking

    /**
     * The request half of `sendToBackend` (its `doRequest` and the code
     * after it): sends `request` with `body` as its bytes, re-sends it once
     * after a gateway status (showing "Waking server…" meanwhile), and turns
     * the deciding response into the result. `net` stands for the network's
     * answers.
     */
    method PostDispatch(request: Request, body: Bytes, net: seq<Exchange>, base64: string -> Option<Bytes>)
      returns (result: Result<BackendResult, DispatchError>, pausedNanos: nat)
      requires body == Body(request)
      requires Answers(net)
      modifies this`status, this`requestsSent
      ensures result == Outcome(net, base64)
      ensures pausedNanos == if RequestsIssued(net) == 2 then RetryPauseNanos else 0
      ensures requestsSent == old(requestsSent) + Copies(request, RequestsIssued(net))
      ensures status == if RequestsIssued(net) == 2 then "Waking server…" else old(status)
    {
      var x := net[0];
      pausedNanos := 0;
      requestsSent := requestsSent + [request];
      if x.NoResponse? {
        result := Failure(Transport(x.description));
        return;
      }
      if IsGatewayStatus(x.statusCode) {
        status := "Waking server…";
        pausedNanos := RetryPauseNanos;
        x := net[1];
        requestsSent := requestsSent + [request];
        if x.NoResponse? {
          result := Failure(Transport(x.description));
          return;
        }
      }
      if x.statusCode == 429 {
        result := Failure(Busy);
        return;
      }
      if x.statusCode != 200 {
        result := Failure(HttpStatus(x.statusCode, x.bodyText.GetOr("(no body)")));
        return;
      }
      if x.decoded.Failure? {
        result := Failure(Undecodable(x.decoded.error));
        return;
      }
      var decoded := x.decoded.value;
      var audioBytes: Option<Bytes> := None;
      if decoded.audioB64.Some? {
        audioBytes := base64(decoded.audioB64.value);
      }
      result := Success(BackendResult(decoded.transcript, decoded.reply, audioBytes, decoded.audioMime, decoded.action));
    }

    /**
     * The building half of `sendToBackend`: the request for the recorded
     * bytes with the current voice and speech flag (`boundary` stands for
     * the `Boundary-<UUID>` string), and its body bytes, appended part by
     * part.
     */
    method BuildRequest(boundary: string, audio: Bytes) returns (request: Request, body: Bytes)
      ensures request == DispatchRequest(dispatchEndpoint, boundary, selectedVoice, useServerTTS, audio)
      ensures body == Body(request)
    {
      body := Multipart.BuildDispatchBody(boundary, selectedVoice, useServerTTS, audio);
      request := DispatchRequest(dispatchEndpoint, boundary, selectedVoice, useServerTTS, audio);
    }

    /** `sendToBackend`: reads the recording, builds the request and posts it. An unreadable recording sends nothing. */
    method SendToBackend(recording: Recording, boundary: string, net: seq<Exchange>, base64: string -> Option<Bytes>)
      returns (result: Result<BackendResult, DispatchError>, pausedNanos: nat)
      requires recording.contents.Success? ==> Answers(net)
      modifies this`status, this`requestsSent
      ensures result == DispatchOf(recording, net, base64)
      ensures pausedNanos == if recording.contents.Success? && RequestsIssued(net) == 2 then RetryPauseNanos else 0
      ensures requestsSent == old(requestsSent) + RequestsFor(recording, net, old(dispatchEndpoint), boundary, old(selectedVoice), old(useServerTTS))
      ensures status == if recording.contents.Success? && RequestsIssued(net) == 2 then "Waking server…" else old(status)
    {
      if recording.contents.Failure? {
        return Failure(AudioUnreadable(recording.contents.error)), 0;
      }
      var request, body := BuildRequest(boundary, recording.contents.value);
      result, pausedNanos := PostDispatch(request, body, net, base64);
    }

    // ------------------------------------------------------- The flow

    /** A reply arriving in `stopRecordingAndSend`: shown with status "Done", then its action applied, as `Replied` says. */
    method ShowReply(r: BackendResult, accepts: Bytes -> bool)
      requires Valid()
      modifies this`status, this`lastTranscript, this`lastReply, this`useServerTTS, this`selectedVoice
      modifies this`pilotMasterVolume, this`mixerWrites, this`audioPlayer, this`played, this`feedbackNotes
      ensures Valid()
      ensures Snap() == Replied(old(Snap()), r, accepts)
    {
      lastTranscript := r.transcript;
      lastReply := r.reply;
      status := "Done";
      if r.action.Some? {
        ApplyPilotAction(r.action.value, r.reply, accepts);
      }
    }

    /** The reply's audio, if any, cached and played after the playback delay, as `Cached` says. */
    method CacheReplyAudio(r: BackendResult, accepts: Bytes -> bool) returns (sleptNanos: nat)
      modifies this`lastServerAudioData, this`lastServerAudioMime, this`audioPlayer, this`played
      ensures sleptNanos == if r.audioData.Some? then DelayNanos(replyPlaybackDelaySeconds) else 0
      ensures Snap() == Cached(old(Snap()), r, accepts)
    {
      sleptNanos := 0;
      if r.audioData.Some? {
        lastServerAudioData := r.audioData;
        lastServerAudioMime := r.audioMime;
        sleptNanos := PlayServerAudioDelayed(r.audioData.value, replyPlaybackDelaySeconds, accepts);
      }
    }

    /** The `do`/`catch` of `stopRecordingAndSend` once the dispatch has its result, as `Show` specifies it. */
    method ShowResult(result: Result<BackendResult, DispatchError>, accepts: Bytes -> bool)
      requires Valid()
      modifies this`status, this`lastTranscript, this`lastReply, this`useServerTTS, this`selectedVoice
      modifies this`pilotMasterVolume, this`lastServerAudioData, this`lastServerAudioMime
      modifies this`audioPlayer, this`played, this`mixerWrites, this`feedbackNotes
      ensures Valid()
      ensures Snap() == Show(old(Snap()), result, accepts)
    {
      match result
      case Failure(e) =>
        status := "Dispatch error: " + Description(e);
      case Success(r) =>
        ShowReply(r, accepts);
        var _ := CacheReplyAudio(r, accepts);
    }

    /**
     * The start of `stopRecordingAndSend`: without a recorder nothing
     * happens; otherwise recording stops, the status reads "Uploading…"
     * and the recorder is released. Hands back the recording, if any.
     */
    method ReleaseRecorder() returns (recording: Option<Recording>)
      modifies this`isRecording, this`status, this`recorder
      ensures recording == old(recorder)
      ensures recording.None? ==> isRecording == old(isRecording) && status == old(status) && recorder.None?
      ensures recording.Some? ==> !isRecording && status == "Uploading…" && recorder.None?
    {
      recording := recorder;
      if recorder.None? {
        return;
      }
      isRecording := false;
      status := "Uploading…";
      recorder := None;
    }

    /** The rest of `stopRecordingAndSend`: the recording is sent and the result shown, as `Show` says. */
    method SendAndShow(recording: Recording, boundary: string, net: seq<Exchange>, base64: string -> Option<Bytes>, accepts: Bytes -> bool)
      requires Valid()
      requires recording.contents.Success? ==> Answers(net)
      modifies this`requestsSent
      modifies this`status, this`lastTranscript, this`lastReply, this`useServerTTS, this`selectedVoice
      modifies this`pilotMasterVolume, this`lastServerAudioData, this`lastServerAudioMime
      modifies this`audioPlayer, this`played, this`mixerWrites, this`feedbackNotes
      ensures Valid()
      ensures requestsSent == old(requestsSent) + RequestsFor(recording, net, old(dispatchEndpoint), boundary, old(selectedVoice), old(useServerTTS))
      ensures Snap() == Show(old(Snap()), DispatchOf(recording, net, base64), accepts)
    {
      var result, _ := SendToBackend(recording, boundary, net, base64);
      ShowOverwritesStatus(old(Snap()), status, result, accepts);
      ShowResult(result, accepts);
    }

    /**
     * `stopRecordingAndSend`. Without a recorder nothing happens. Otherwise
     * the recorder is released, the recording is sent with the voice and
     * speech flag of that moment, and the result is shown as `Show` says.
     */
    method StopRecordingAndSend(boundary: string, net: seq<Exchange>, base64: string -> Option<Bytes>, accepts: Bytes -> bool)
      requires Valid()
      requires recorder.Some? && recorder.value.contents.Success? ==> Answers(net)
      modifies this`isRecording, this`recorder, this`requestsSent
      modifies this`status, this`lastTranscript, this`lastReply, this`useServerTTS, this`selectedVoice
      modifies this`pilotMasterVolume, this`lastServerAudioData, this`lastServerAudioMime
      modifies this`audioPlayer, this`played, this`mixerWrites, this`feedbackNotes
      ensures Valid()
      ensures old(recorder).None? ==> unchanged(this)
      ensures old(recorder).Some? ==>
        && recorder.None? && !isRecording
        && requestsSent == old(requestsSent) + RequestsFor(old(recorder).value, net, old(dispatchEndpoint), boundary, old(selectedVoice), old(useServerTTS))
        && Snap() == Show(old(Snap()), DispatchOf(old(recorder).value, net, base64), accepts)
    {
      var recording := ReleaseRecorder();
      if recording.None? {
        return;
      }
      ShowOverwritesStatus(old(Snap()), status, DispatchOf(recording.value, net, base64), accepts);
      SendAndShow(recording.value, boundary, net, base64, accepts);
    }
  }
}
