/**
 * The pure specification of the conversation manager: the values it works
 * on (recordings, the player, requests), what one dispatch sends and
 * reaches, and the state each step of `stopRecordingAndSend` leaves,
 * written as functions on a snapshot of the manager's observable state.
 * The class in module Conversation is proved against these functions;
 * the lemmas here state what they promise.
 */
module ConversationSpec {
  import opened Wrappers
  import opened Text
  import opened PilotActions
  import opened DispatchPolicy
  import Multipart

  /** What the audio recorder captured: the bytes reading its file gives, or the error that read throws. */
  datatype Recording = Recording(contents: Result<Bytes, string>)

  /** The one audio player: the bytes it was created with, and whether it is still playing. */
  datatype Player = Player(data: Bytes, playing: bool)

  /** `audioPlayer?.stop()`. */
  function Stopped(p: Option<Player>): (r: Option<Player>)
    ensures r.Some? <==> p.Some?
    ensures r.Some? ==> r.value.data == p.value.data && !r.value.playing
  {
    match p
    case Some(q) => Some(q.(playing := false))
    case None => None
  }

  function AsSeq<T>(o: Option<T>): seq<T> {
    match o
    case Some(v) => [v]
    case None => []
  }

  // ------------------------------------------------------------ Requests

  /**
   * An HTTP request as the client sends it: method, URL, the two headers it
   * sets, and the multipart body, kept as its boundary and the parts it
   * encodes; `Body` gives the bytes.
   */
  datatype Request = Request(
    httpMethod: string, url: string, contentType: string, accept: string,
    boundary: string, form: seq<Multipart.Part>)

  /** The body bytes of a request. */
  function Body(q: Request): Bytes {
    Multipart.FormBody(q.boundary, q.form)
  }

  /**
   * The dispatch request: a POST to the endpoint announcing its boundary and
   * asking for JSON, whose body is the dispatch form of the voice, the
   * speech flag and the recorded bytes.
   */
  function DispatchRequest(endpoint: string, boundary: string, voice: string, tts: bool, audio: Bytes): (q: Request)
    ensures q.contentType == "multipart/form-data; boundary=" + q.boundary
    ensures |q.form| == 4 && q.form[3].File? && q.form[3].data == audio
  {
    Request("POST", endpoint, "multipart/form-data; boundary=" + boundary, "application/json",
            boundary, Multipart.DispatchParts(voice, tts, audio))
  }

  /**
   * What the server receives from a dispatch request: the Content-Type names
   * the request's own boundary, and splitting the body at that boundary gives
   * back four parts, the voice field carrying the selected voice and the
   * audio file carrying the recorded bytes unchanged.
   */
  lemma DispatchRequestReadsBack(endpoint: string, boundary: string, voice: string, tts: bool, audio: Bytes)
    requires Multipart.FreeOf(Multipart.Encapsulation(Multipart.Field("mode", Multipart.DispatchMode())), Multipart.Delimiter(boundary))
    requires Multipart.FreeOf(Multipart.Encapsulation(Multipart.Field("voice", voice)), Multipart.Delimiter(boundary))
    requires Multipart.FreeOf(Multipart.Encapsulation(Multipart.Field("tts", if tts then "1" else "0")), Multipart.Delimiter(boundary))
    requires Multipart.FreeOf(Multipart.Encapsulation(Multipart.File("audio", "speech.m4a", "audio/mp4", audio)), Multipart.Delimiter(boundary))
    ensures var q := DispatchRequest(endpoint, boundary, voice, tts, audio);
      var decoded := Multipart.DecodeForm(q.boundary, Body(q));
      && q.contentType == "multipart/form-data; boundary=" + q.boundary
      && decoded.Some? && |decoded.value| == 4
      && Multipart.SplitHeaders(decoded.value[1]) == Some((Multipart.Headers(Multipart.Field("voice", voice)), Utf8(voice)))
      && Multipart.SplitHeaders(decoded.value[3]).Some? && Multipart.SplitHeaders(decoded.value[3]).value.1 == audio
  {
    Multipart.DispatchBodyReadsBack(boundary, voice, tts, audio);
  }

  /** `n` copies of a request: the client re-sends the identical request on a retry. */
  function Copies(q: Request, n: nat): (r: seq<Request>)
    ensures |r| == n
    ensures forall k :: 0 <= k < n ==> r[k] == q
  {
    if n == 0 then [] else Copies(q, n - 1) + [q]
  }

  /** The outcome `sendToBackend` reaches for a recording: the read error, or the outcome over the network script. */
  function DispatchOf(r: Recording, net: seq<Exchange>, base64: string -> Option<Bytes>): (res: Result<BackendResult, DispatchError>)
    requires r.contents.Success? ==> Answers(net)
    ensures r.contents.Failure? ==> res == Failure(AudioUnreadable(r.contents.error))
    ensures r.contents.Success? ==> res == Outcome(net, base64)
    ensures (res.Failure? && res.error.AudioUnreadable?) <==> r.contents.Failure?
  {
    match r.contents
    case Failure(d) => Failure(AudioUnreadable(d))
    case Success(_) => Outcome(net, base64)
  }

  /** The requests `sendToBackend` puts on the wire for a recording: none when it cannot be read. */
  function RequestsFor(r: Recording, net: seq<Exchange>, endpoint: string, boundary: string, voice: string, tts: bool): (qs: seq<Request>)
    requires r.contents.Success? ==> Answers(net)
    ensures r.contents.Failure? ==> qs == []
    ensures r.contents.Success? ==> |qs| == RequestsIssued(net)
    ensures r.contents.Success? ==>
      forall k :: 0 <= k < |qs| ==> qs[k] == DispatchRequest(endpoint, boundary, voice, tts, r.contents.value)
  {
    match r.contents
    case Failure(_) => []
    case Success(audio) => Copies(DispatchRequest(endpoint, boundary, voice, tts, audio), RequestsIssued(net))
  }

  /** The whole-nanosecond delay `UInt64(max(0.0, delaySeconds) * 1_000_000_000.0)`; nothing is slept when it is zero. */
  function DelayNanos(delaySeconds: real): (ns: nat)
    ensures ns > 0 <==> delaySeconds * 1_000_000_000.0 >= 1.0
    ensures ns as real <= (if delaySeconds <= 0.0 then 0.0 else delaySeconds * 1_000_000_000.0) < ns as real + 1.0
  {
    if delaySeconds <= 0.0 then 0 else (delaySeconds * 1_000_000_000.0).Floor
  }

  /** The 0.2-second replay delay sleeps 200 milliseconds. */
  lemma ReplayDelayNanos()
    ensures DelayNanos(0.2) == 200_000_000
  {
  }

  // -------------------------------------------------------------- State

  /**
   * What the manager shows and has done, apart from recording and
   * networking: status line, transcript, reply, control knobs, the cached
   * reply audio and its MIME type, the player, and the logs of audio
   * started, mixer volume writes and feedback notes.
   */
  datatype Snapshot = Snapshot(
    status: string, transcript: string, reply: string, knobs: Controls,
    audioData: Option<Bytes>, audioMime: Option<string>,
    player: Option<Player>, played: seq<Bytes>,
    mixerWrites: seq<real>, feedbackNotes: seq<string>)

  /** The snapshot's volume knob and mixer writes are in range. */
  predicate InRange(s: Snapshot) {
    VolumesInRange(s.knobs.masterVolume, s.mixerWrites)
  }

  /** The volume knob and every value written through to the mixer lie in [0, 1]. */
  predicate VolumesInRange(volume: real, mixerWrites: seq<real>) {
    && 0.0 <= volume <= 1.0
    && forall k :: 0 <= k < |mixerWrites| ==> 0.0 <= mixerWrites[k] <= 1.0
  }

  /**
   * `playServerAudio`: the current player is stopped; when the platform
   * player accepts the bytes (`accepts`) a new one plays them, otherwise the
   * stopped one stays. Only the player and the play log change.
   */
  function Play(s: Snapshot, data: Bytes, accepts: Bytes -> bool): (t: Snapshot)
    ensures t.player.Some? && t.player.value.playing <==> accepts(data)
    ensures accepts(data) ==> t.player.value.data == data && t.played == s.played + [data]
    ensures !accepts(data) ==> t.played == s.played && t.player == Stopped(s.player)
    ensures t.(player := s.player, played := s.played) == s
  {
    if accepts(data) then s.(player := Some(Player(data, true)), played := s.played + [data])
    else s.(player := Stopped(s.player))
  }

  /**
   * `applyPilotAction`: the knobs change as `ApplyControls` says, a volume
   * action writes the new volume through to the mixer, `save_feedback`
   * hands on its note, and `repeat_last` plays the cached reply audio, if
   * any. The status, transcript, reply and audio cache never change.
   */
  function Apply(s: Snapshot, a: PilotAction, replyText: string, accepts: Bytes -> bool): (t: Snapshot)
    ensures t.status == s.status && t.transcript == s.transcript && t.reply == s.reply
    ensures t.audioData == s.audioData && t.audioMime == s.audioMime
    ensures !(Replays(a) && s.audioData.Some?) ==> t.player == s.player && t.played == s.played
  {
    var t := s.(knobs := ApplyControls(a, s.knobs),
                mixerWrites := s.mixerWrites + AsSeq(MixerWrite(a, s.knobs)),
                feedbackNotes := s.feedbackNotes + AsSeq(FeedbackNote(a, replyText)));
    if Replays(a) && s.audioData.Some? then Play(t, s.audioData.value, accepts) else t
  }

  /** A reply arriving: status "Done", its transcript and reply shown, then its action (if any) applied. */
  function Replied(s: Snapshot, r: BackendResult, accepts: Bytes -> bool): (t: Snapshot)
    ensures t.status == "Done" && t.transcript == r.transcript && t.reply == r.reply
    ensures t.audioData == s.audioData && t.audioMime == s.audioMime
    ensures r.action.None? ==> t.knobs == s.knobs && t.mixerWrites == s.mixerWrites && t.feedbackNotes == s.feedbackNotes
    ensures r.action.Some? ==>
      && t.knobs == ApplyControls(r.action.value, s.knobs)
      && t.mixerWrites == s.mixerWrites + AsSeq(MixerWrite(r.action.value, s.knobs))
      && t.feedbackNotes == s.feedbackNotes + AsSeq(FeedbackNote(r.action.value, r.reply))
    ensures !(r.action.Some? && Replays(r.action.value) && s.audioData.Some?) ==> t.player == s.player && t.played == s.played
  {
    var shown := s.(status := "Done", transcript := r.transcript, reply := r.reply);
    if r.action.Some? then Apply(shown, r.action.value, r.reply, accepts) else shown
  }

  /** The reply's audio (if any) becomes the cache, with its MIME type, and is played; without audio nothing changes. */
  function Cached(s: Snapshot, r: BackendResult, accepts: Bytes -> bool): (t: Snapshot)
    ensures r.audioData.None? ==> t == s
    ensures r.audioData.Some? ==> t.audioData == r.audioData && t.audioMime == r.audioMime
    ensures r.audioData.Some? && accepts(r.audioData.value) ==>
      t.player == Some(Player(r.audioData.value, true)) && t.played == s.played + [r.audioData.value]
    ensures r.audioData.Some? && !accepts(r.audioData.value) ==> t.player == Stopped(s.player) && t.played == s.played
    ensures t.(audioData := s.audioData, audioMime := s.audioMime, player := s.player, played := s.played) == s
  {
    if r.audioData.Some? then Play(s.(audioData := r.audioData, audioMime := r.audioMime), r.audioData.value, accepts)
    else s
  }

  /**
   * The `do`/`catch` of `stopRecordingAndSend` once the dispatch has a
   * result. A failure only sets the status to the error's text. A success
   * shows the transcript and reply with status "Done", applies the action
   * (if any), and only then caches the new reply audio (if any) and plays
   * it.
   */
  function Show(s: Snapshot, result: Result<BackendResult, DispatchError>, accepts: Bytes -> bool): (t: Snapshot)
    ensures result.Failure? ==> t.status == "Dispatch error: " + Description(result.error)
    ensures result.Success? ==> t.status == "Done" && t.transcript == result.value.transcript && t.reply == result.value.reply
  {
    match result
    case Failure(e) => s.(status := "Dispatch error: " + Description(e))
    case Success(r) => Cached(Replied(s, r, accepts), r, accepts)
  }

  /** `repeat_last` changes nothing but what `Play` changes, and only when audio is cached. */
  lemma ApplyReplay(s: Snapshot, a: PilotAction, replyText: string, accepts: Bytes -> bool)
    requires Replays(a)
    ensures Apply(s, a, replyText, accepts) == if s.audioData.Some? then Play(s, s.audioData.value, accepts) else s
  {
    NonControlActionsChangeNothing(a, s.knobs);
  }

  /** `save_feedback` only hands on its note. */
  lemma ApplyFeedback(s: Snapshot, a: PilotAction, replyText: string, accepts: Bytes -> bool)
    requires KindOf(a.name) == SaveFeedback
    ensures Apply(s, a, replyText, accepts) == s.(feedbackNotes := s.feedbackNotes + AsSeq(FeedbackNote(a, replyText)))
  {
    NonControlActionsChangeNothing(a, s.knobs);
  }

  /** Every other action only changes the knobs and, for a volume action, writes through to the mixer. */
  lemma ApplyKnobAction(s: Snapshot, a: PilotAction, replyText: string, accepts: Bytes -> bool)
    requires !Replays(a) && KindOf(a.name) != SaveFeedback
    ensures Apply(s, a, replyText, accepts)
         == s.(knobs := ApplyControls(a, s.knobs), mixerWrites := s.mixerWrites + AsSeq(MixerWrite(a, s.knobs)))
  {
  }

  // --------------------------------------------------------- Properties

  /** Applying any action keeps the volume and every mixer write in [0, 1]. */
  lemma ApplyKeepsRange(s: Snapshot, a: PilotAction, replyText: string, accepts: Bytes -> bool)
    requires InRange(s)
    ensures InRange(Apply(s, a, replyText, accepts))
  {
    var w := MixerWrite(a, s.knobs);
    if w.Some? {
      VolumeActionsStayInRange(a, s.knobs);
    }
  }

  /** Showing any result keeps the volume and every mixer write in [0, 1]. */
  lemma ShowKeepsRange(s: Snapshot, result: Result<BackendResult, DispatchError>, accepts: Bytes -> bool)
    requires InRange(s)
    ensures InRange(Show(s, result, accepts))
  {
    if result.Success? && result.value.action.Some? {
      var r := result.value;
      ApplyKeepsRange(s.(status := "Done", transcript := r.transcript, reply := r.reply), r.action.value, r.reply, accepts);
    }
  }

  /** A failed dispatch changes nothing but the status: no action, no new audio, the cache and player as they were. */
  lemma FailureChangesOnlyStatus(s: Snapshot, e: DispatchError, accepts: Bytes -> bool)
    ensures var t := Show(s, Failure(e), accepts);
      t.status == "Dispatch error: " + Description(e) && t.(status := s.status) == s
  {
  }

  /** The cached reply audio is replaced exactly when the new reply carries audio. */
  lemma CacheReplacedOnlyByNewAudio(s: Snapshot, r: BackendResult, accepts: Bytes -> bool)
    ensures var t := Show(s, Success(r), accepts);
      && t.audioData == (if r.audioData.Some? then r.audioData else s.audioData)
      && t.audioMime == (if r.audioData.Some? then r.audioMime else s.audioMime)
  {
  }

  /**
   * The ordering the flow relies on: a `repeat_last` reply that also carries
   * audio first replays the PREVIOUS reply's audio and then plays its own,
   * which becomes the cache.
   */
  lemma RepeatLastReplaysPreviousAudio(s: Snapshot, r: BackendResult, a: PilotAction, accepts: Bytes -> bool)
    requires r.action == Some(a) && Replays(a)
    requires s.audioData.Some? && accepts(s.audioData.value)
    requires r.audioData.Some? && accepts(r.audioData.value)
    ensures var t := Show(s, Success(r), accepts);
      && t.played == s.played + [s.audioData.value, r.audioData.value]
      && t.audioData == r.audioData
      && t.player == Some(Player(r.audioData.value, true))
  {
    var shown := s.(status := "Done", transcript := r.transcript, reply := r.reply);
    var acted := Apply(shown, a, r.reply, accepts);
    assert acted.played == s.played + [s.audioData.value];
  }

  /** Showing a result only appends to the play log, at most two entries: the replay and the new reply. */
  lemma PlayLogOnlyGrows(s: Snapshot, result: Result<BackendResult, DispatchError>, accepts: Bytes -> bool)
    ensures var t := Show(s, result, accepts);
      |s.played| <= |t.played| <= |s.played| + 2 && t.played[..|s.played|] == s.played
  {
  }

  /**
   * A successful reply's action takes effect: the knobs follow
   * `ApplyControls`, a volume action writes through to the mixer, and
   * `save_feedback` logs its note with the reply text as fallback. Without
   * an action all three stay as they were.
   */
  lemma SuccessAppliesAction(s: Snapshot, r: BackendResult, accepts: Bytes -> bool)
    ensures var t := Show(s, Success(r), accepts);
      && (r.action.Some? ==>
          && t.knobs == ApplyControls(r.action.value, s.knobs)
          && t.mixerWrites == s.mixerWrites + AsSeq(MixerWrite(r.action.value, s.knobs))
          && t.feedbackNotes == s.feedbackNotes + AsSeq(FeedbackNote(r.action.value, r.reply)))
      && (r.action.None? ==> t.knobs == s.knobs && t.mixerWrites == s.mixerWrites && t.feedbackNotes == s.feedbackNotes)
  {
  }

  /**
   * A successful reply's audio is played last: when the player accepts it,
   * it is what plays at the end and the last entry of the play log, after
   * whatever the action played.
   */
  lemma ReplyAudioPlaysLast(s: Snapshot, r: BackendResult, accepts: Bytes -> bool)
    requires r.audioData.Some? && accepts(r.audioData.value)
    ensures var t := Show(s, Success(r), accepts);
      && t.player == Some(Player(r.audioData.value, true))
      && t.played == Replied(s, r, accepts).played + [r.audioData.value]
      && |t.played| > |s.played| && t.played[|t.played| - 1] == r.audioData.value
  {
  }

  /** The status before the result is shown does not matter: showing overwrites it. */
  lemma ShowOverwritesStatus(s: Snapshot, status: string, result: Result<BackendResult, DispatchError>, accepts: Bytes -> bool)
    ensures Show(s.(status := status), result, accepts) == Show(s, result, accepts)
  {
  }
}
