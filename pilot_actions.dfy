/**
 * Pilot actions: the structured command a dispatch reply may carry, its
 * argument accessors, and what applying it does to the client's control
 * knobs (speech on/off, voice, master volume), the feedback note it saves and
 * whether it replays the cached reply audio.
 */
module PilotActions {
  import opened Wrappers
  import opened Json
  import opened Text

  /** `PilotAction`: an action name and an optional map of heterogeneous arguments. */
  datatype PilotAction = PilotAction(name: string, args: Option<map<string, JsonValue>>) {

    /** `args?[key]`: the raw argument, absent when there are no args or no such key. */
    function Arg(key: string): (r: Option<JsonValue>)
      ensures r.Some? <==> args.Some? && key in args.value
      ensures r.Some? ==> r.value == args.value[key]
    {
      if args.Some? && key in args.value then Some(args.value[key]) else None
    }

    /** `argString`: present only when the key holds a JSON string. */
    function ArgString(key: string): (r: Option<string>)
      ensures r.Some? <==> args.Some? && key in args.value && args.value[key].JString?
      ensures r.Some? ==> args.value[key] == JString(r.value)
    {
      match Arg(key)
      case Some(v) => StringValue(v)
      case None => None
    }

    /** `argBool`: present only when the key holds a JSON boolean. */
    function ArgBool(key: string): (r: Option<bool>)
      ensures r.Some? <==> args.Some? && key in args.value && args.value[key].JBool?
      ensures r.Some? ==> args.value[key] == JBool(r.value)
    {
      match Arg(key)
      case Some(v) => BoolValue(v)
      case None => None
    }

    /** `argDouble`: present when the key holds a Double or an Int; an Int `n` yields `n`. */
    function ArgDouble(key: string): (r: Option<real>)
      ensures r.Some? <==> args.Some? && key in args.value && (args.value[key].JDouble? || args.value[key].JInt?)
      ensures r.Some? && args.value[key].JInt? ==> r.value == args.value[key].i as real
      ensures r.Some? && args.value[key].JDouble? ==> r.value == args.value[key].d
    {
      match Arg(key)
      case Some(v) => DoubleValue(v)
      case None => None
    }

    /** `argFloat`: the Double argument narrowed to Float (narrowing is not modelled; see README). */
    function ArgFloat(key: string): (r: Option<real>)
      ensures r.Some? <==> args.Some? && key in args.value && (args.value[key].JDouble? || args.value[key].JInt?)
      ensures r.Some? && args.value[key].JInt? ==> r.value == args.value[key].i as real
      ensures r.Some? && args.value[key].JDouble? ==> r.value == args.value[key].d
    {
      match ArgDouble(key)
      case Some(d) => Some(d)
      case None => None
    }
  }

  // ------------------------------------------------------- Action kinds

  /** The action names the executor knows, plus every other name as `Unknown`. */
  datatype ActionKind =
    | RepeatLast | Help | SetTts | SetVoice | AdjustVolume | SetVolume | SaveFeedback
    | Unknown(name: string)

  /** The wire name of each kind. */
  function NameOf(k: ActionKind): string {
    match k
    case RepeatLast => "repeat_last"
    case Help => "help"
    case SetTts => "set_tts"
    case SetVoice => "set_voice"
    case AdjustVolume => "adjust_volume"
    case SetVolume => "set_volume"
    case SaveFeedback => "save_feedback"
    case Unknown(n) => n
  }

  predicate IsKnownName(name: string) {
    name in {"repeat_last", "help", "set_tts", "set_voice", "adjust_volume", "set_volume", "save_feedback"}
  }

  /** The `switch action.name` of the executor: a known name selects its case, any other name the default. */
  function KindOf(name: string): (k: ActionKind)
    ensures NameOf(k) == name
    ensures k.Unknown? <==> !IsKnownName(name)
  {
    if name == "repeat_last" then RepeatLast
    else if name == "help" then Help
    else if name == "set_tts" then SetTts
    else if name == "set_voice" then SetVoice
    else if name == "adjust_volume" then AdjustVolume
    else if name == "set_volume" then SetVolume
    else if name == "save_feedback" then SaveFeedback
    else Unknown(name)
  }

  /** Every kind is recovered from its name, except an `Unknown` that carries a known name. */
  lemma KindOfNameOf(k: ActionKind)
    requires k.Unknown? ==> !IsKnownName(k.name)
    ensures KindOf(NameOf(k)) == k
  {
  }

  // ------------------------------------------------------------ Volume

  /** `max(0.0, min(1.0, v))`: the master volume bound. */
  function Clamp(v: real): (r: real)
    ensures 0.0 <= r <= 1.0
    ensures 0.0 <= v <= 1.0 ==> r == v
    ensures v < 0.0 ==> r == 0.0
    ensures v > 1.0 ==> r == 1.0
  {
    if v > 1.0 then 1.0 else if v < 0.0 then 0.0 else v
  }

  /** Clamping twice is clamping once. */
  lemma ClampIdempotent(v: real)
    ensures Clamp(Clamp(v)) == Clamp(v)
  {
  }

  // ------------------------------------------------ Applying an action

  /** The client's control knobs that pilot actions can change. */
  datatype Controls = Controls(useServerTTS: bool, selectedVoice: string, masterVolume: real)

  /**
   * What `applyPilotAction` does to the control knobs. `set_tts` needs a Bool
   * `enabled`; `set_voice` a non-empty String `voice`; `adjust_volume` adds
   * the numeric `delta` (0.0 when missing or not a number) and clamps;
   * `set_volume` clamps a numeric `value` and otherwise does nothing; every
   * other action leaves the knobs alone.
   */
  function ApplyControls(a: PilotAction, c: Controls): (r: Controls)
    ensures r.useServerTTS != c.useServerTTS ==> KindOf(a.name) == SetTts
    ensures r.selectedVoice != c.selectedVoice ==> KindOf(a.name) == SetVoice
    ensures r.masterVolume != c.masterVolume ==>
      (KindOf(a.name) == AdjustVolume || KindOf(a.name) == SetVolume) && 0.0 <= r.masterVolume <= 1.0
  {
    match KindOf(a.name)
    case SetTts =>
      (match a.ArgBool("enabled")
       case Some(enabled) => c.(useServerTTS := enabled)
       case None => c)
    case SetVoice =>
      (match a.ArgString("voice")
       case Some(v) => if v != [] then c.(selectedVoice := v) else c
       case None => c)
    case AdjustVolume =>
      c.(masterVolume := Clamp(c.masterVolume + a.ArgFloat("delta").GetOr(0.0)))
    case SetVolume =>
      (match a.ArgFloat("value")
       case Some(v) => c.(masterVolume := Clamp(v))
       case None => c)
    case _ => c
  }

  /** The value the action writes through to the shared audio cue engine, if it writes one. */
  function MixerWrite(a: PilotAction, c: Controls): (w: Option<real>)
    ensures w.Some? ==> w.value == ApplyControls(a, c).masterVolume
    ensures w.Some? <==> KindOf(a.name) == AdjustVolume || (KindOf(a.name) == SetVolume && a.ArgFloat("value").Some?)
  {
    match KindOf(a.name)
    case AdjustVolume => Some(ApplyControls(a, c).masterVolume)
    case SetVolume => if a.ArgFloat("value").Some? then Some(ApplyControls(a, c).masterVolume) else None
    case _ => None
  }

  /** What `saveFeedbackNote` keeps of a note: the note trimmed, or nothing when that leaves it empty. */
  function SavedNote(note: string): (r: Option<string>)
    ensures r.None? <==> Trim(note) == []
    ensures r.Some? ==> r.value != [] && r.value == Trim(note)
  {
    var trimmed := Trim(note);
    if trimmed == [] then None else Some(trimmed)
  }

  /** A saved note is already trimmed: trimming it again changes nothing. */
  lemma SavedNoteIsTrimmed(note: string)
    requires SavedNote(note).Some?
    ensures Trim(SavedNote(note).value) == SavedNote(note).value
  {
    TrimIdempotent(note);
  }

  /**
   * The note `save_feedback` hands to the feedback file: the `note` argument
   * when it is a string (even an empty one), else the reply text, as
   * `SavedNote` keeps it; nothing for any other action.
   */
  function FeedbackNote(a: PilotAction, replyText: string): (r: Option<string>)
    ensures r.Some? ==> KindOf(a.name) == SaveFeedback && r.value != []
  {
    if KindOf(a.name) != SaveFeedback then None
    else SavedNote(a.ArgString("note").GetOr(replyText))
  }

  /** A `save_feedback` keeps its chosen note as `saveFeedbackNote` does. */
  lemma FeedbackNoteIsSavedNote(a: PilotAction, replyText: string)
    requires KindOf(a.name) == SaveFeedback
    ensures FeedbackNote(a, replyText) == SavedNote(a.ArgString("note").GetOr(replyText))
  {
  }

  /** Whether the action replays the cached reply audio (`repeat_last`). */
  function Replays(a: PilotAction): (b: bool)
    ensures b <==> a.name == "repeat_last"
  {
    KindOf(a.name) == RepeatLast
  }

  // --------------------------------------------------------- Properties

  /** After `adjust_volume` or `set_volume` the volume is in [0, 1], whatever the argument and the old volume. */
  lemma VolumeActionsStayInRange(a: PilotAction, c: Controls)
    requires KindOf(a.name) == AdjustVolume || KindOf(a.name) == SetVolume
    requires KindOf(a.name) == SetVolume ==> a.ArgFloat("value").Some?
    ensures 0.0 <= ApplyControls(a, c).masterVolume <= 1.0
  {
  }

  /** `set_tts` with a Bool `enabled` sets the speech flag to it and changes nothing else. */
  lemma SetTtsSetsFlag(a: PilotAction, c: Controls)
    requires KindOf(a.name) == SetTts && a.ArgBool("enabled").Some?
    ensures ApplyControls(a, c) == c.(useServerTTS := a.ArgBool("enabled").value)
  {
  }

  /** `set_voice` with a non-empty String `voice` selects that voice and changes nothing else. */
  lemma SetVoiceSelectsVoice(a: PilotAction, c: Controls)
    requires KindOf(a.name) == SetVoice && a.ArgString("voice").Some? && a.ArgString("voice").value != []
    ensures ApplyControls(a, c) == c.(selectedVoice := a.ArgString("voice").value)
  {
  }

  /**
   * The volume actions set the clamped volume and change nothing else:
   * `adjust_volume` the old volume plus `delta` (0.0 when missing),
   * `set_volume` a numeric `value`.
   */
  lemma VolumeActionsSetClampedVolume(a: PilotAction, c: Controls)
    requires KindOf(a.name) == AdjustVolume || (KindOf(a.name) == SetVolume && a.ArgFloat("value").Some?)
    ensures KindOf(a.name) == AdjustVolume ==>
      ApplyControls(a, c) == c.(masterVolume := Clamp(c.masterVolume + a.ArgFloat("delta").GetOr(0.0)))
    ensures KindOf(a.name) == SetVolume ==>
      ApplyControls(a, c) == c.(masterVolume := Clamp(a.ArgFloat("value").value))
  {
  }

  /** `adjust_volume` without a numeric `delta` adds 0.0, so an in-range volume is left as it is. */
  lemma AdjustWithoutDeltaKeepsVolume(a: PilotAction, c: Controls)
    requires KindOf(a.name) == AdjustVolume && a.ArgFloat("delta").None?
    requires 0.0 <= c.masterVolume <= 1.0
    ensures ApplyControls(a, c) == c
  {
  }

  /** `set_volume` without a numeric `value` changes nothing. */
  lemma SetVolumeWithoutValueChangesNothing(a: PilotAction, c: Controls)
    requires KindOf(a.name) == SetVolume && a.ArgFloat("value").None?
    ensures ApplyControls(a, c) == c
  {
  }

  /**
   * Each knob has one writer. The speech flag changes only under `set_tts`
   * with a Bool `enabled` equal to the new flag; the voice only under
   * `set_voice` with the new, non-empty voice as its String argument; the
   * volume only under `adjust_volume` or `set_volume`.
   */
  lemma EachKnobHasOneWriter(a: PilotAction, c: Controls)
    ensures var r := ApplyControls(a, c);
      && (r.useServerTTS != c.useServerTTS ==> KindOf(a.name) == SetTts && a.ArgBool("enabled") == Some(r.useServerTTS))
      && (r.selectedVoice != c.selectedVoice ==> KindOf(a.name) == SetVoice && a.ArgString("voice") == Some(r.selectedVoice) && r.selectedVoice != [])
      && (r.masterVolume != c.masterVolume ==> KindOf(a.name) == AdjustVolume || KindOf(a.name) == SetVolume)
  {
  }

  /** `help`, `repeat_last`, `save_feedback` and unknown names leave every knob unchanged. */
  lemma NonControlActionsChangeNothing(a: PilotAction, c: Controls)
    requires KindOf(a.name) in {Help, RepeatLast, SaveFeedback} || KindOf(a.name).Unknown?
    ensures ApplyControls(a, c) == c
  {
  }

  /**
   * The note argument wins whenever it is a string, even an empty one: then
   * the reply text is not used and the empty note saves nothing.
   */
  lemma EmptyNoteDoesNotFallBack(a: PilotAction, replyText: string)
    requires KindOf(a.name) == SaveFeedback && a.ArgString("note") == Some("")
    ensures FeedbackNote(a, replyText) == None
  {
  }

  /** A `save_feedback` saves something exactly when the chosen note is not all whitespace, and then saves it trimmed. */
  lemma FeedbackSavedIffNotBlank(a: PilotAction, replyText: string)
    requires KindOf(a.name) == SaveFeedback
    ensures var chosen := a.ArgString("note").GetOr(replyText);
      && (FeedbackNote(a, replyText).Some? <==> !AllWhitespace(chosen))
      && (FeedbackNote(a, replyText).Some? ==> FeedbackNote(a, replyText).value == Trim(chosen))
  {
    TrimEmptyIffAllWhitespace(a.ArgString("note").GetOr(replyText));
  }
}
