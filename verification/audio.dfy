/**
 * The audio handler (src/audio.ts): the first-success-wins fallback chain
 * (audio off, then the custom file, then the bundled file, then a fixed
 * failure record) and the desktop notification that follows the sound.
 * File checks, the player and the desktop notifier are oracles: a World
 * says what each of them does when the handler calls it.
 */
module Audio {

  import opened Types
  import opened Player

  /** What `access(path, R_OK)` does: succeed, or reject with a thrown value. */
  datatype Access = Readable | Unreadable(reason: Thrown)

  /** What starting the player does: deliver events, or throw from spawn itself. */
  datatype PlayerRun = Events(trace: Trace) | SpawnThrows(reason: Thrown)

  /** The environment seen by one playback attempt. */
  datatype Probe = Probe(access: Access, run: PlayerRun)

  /** The environment seen by one playSound call: one probe per attempt. */
  datatype World = World(custom: Probe, bundled: Probe)

  /** The calls the handler makes into the outside world, tagged with the attempt that made them. */
  datatype Action =
    | CheckReadable(attempt: Method, path: string)
    | StartPlayer(attempt: Method, path: string)
    | KillPlayer(attempt: Method)
    | ShowDesktop(title: string, message: string, sound: bool, wait: bool)

  /** A playback outcome with the calls that produced it, in order. */
  datatype Played = Played(result: AudioResult, actions: seq<Action>)

  /** The handler's state: fixed at construction and never changed. */
  datatype AudioHandler = AudioHandler(config: AudioConfig, bundledAudioPath: string)

  const NoCustomPathError := "No custom audio path provided"
  const CustomFallbackError := "Unknown error"
  const BundledFallbackError := "Bundled audio not found or accessible"
  const AllFailedError := "All audio playback methods failed"

  /** The custom path counts only when it is set and not empty (JavaScript truthiness). */
  predicate HasCustomPath(c: AudioConfig) {
    c.customAudioPath.Some? && c.customAudioPath.value != ""
  }

  predicate AudioAction(a: Action) {
    a.CheckReadable? || a.StartPlayer? || a.KillPlayer?
  }

  /** Whether `actions` holds an attempt with the given tag. */
  predicate Attempted(actions: seq<Action>, m: Method) {
    exists i :: 0 <= i < |actions| && actions[i].CheckReadable? && actions[i].attempt == m
  }

  /** Whether a probe lets the player run on the file and exit with code 0 before anything else happens. */
  predicate PlaysClean(probe: Probe) {
    probe.access.Readable? && probe.run.Events? && probe.run.trace[0] == Close(Some(0))
  }

  /**
   * One attempt: check that the file is readable, then run the player on
   * it. Every failure, thrown or reported, becomes a failed result tagged
   * with the attempt.
   */
  function Attempt(via: Method, path: string, probe: Probe, fallback: string): (p: Played)
    ensures p.result.via == via
    ensures |p.actions| > 0 && p.actions[0] == CheckReadable(via, path)
    ensures forall i :: 0 <= i < |p.actions| ==> AudioAction(p.actions[i]) && p.actions[i].attempt == via
    ensures p.result.success <==> PlaysClean(probe)
    ensures probe.access.Unreadable? ==>
              p.actions == [CheckReadable(via, path)] &&
              p.result == AudioResult(false, via, Some(ErrorMessage(probe.access.reason, fallback)))
    ensures probe.access.Readable? ==> |p.actions| >= 2 && p.actions[1] == StartPlayer(via, path)
    ensures probe.access.Readable? && probe.run.SpawnThrows? ==>
              p.result == AudioResult(false, via, Some(ErrorMessage(probe.run.reason, fallback)))
    ensures probe.access.Readable? && probe.run.Events? ==> p.result == Settle(via, probe.run.trace).value
    ensures KillPlayer(via) in p.actions <==>
              probe.access.Readable? && probe.run.Events? && probe.run.trace[0] == TimerFired
  {
    match probe.access
    case Unreadable(t) =>
      Played(AudioResult(false, via, Some(ErrorMessage(t, fallback))), [CheckReadable(via, path)])
    case Readable =>
      match probe.run
      case SpawnThrows(t) =>
        Played(AudioResult(false, via, Some(ErrorMessage(t, fallback))),
               [CheckReadable(via, path), StartPlayer(via, path)])
      case Events(trace) =>
        Played(Settle(via, trace).value,
               [CheckReadable(via, path), StartPlayer(via, path)]
               + (if trace[0] == TimerFired then [KillPlayer(via)] else []))
  }

  /** `tryCustomAudio`: the custom file, played with the 'paplay' tag. */
  function TryCustomAudio(h: AudioHandler, w: World): (p: Played)
    ensures p.result.via == Paplay
    ensures !HasCustomPath(h.config) ==> p == Played(AudioResult(false, Paplay, Some(NoCustomPathError)), [])
    ensures HasCustomPath(h.config) ==> |p.actions| > 0 && p.actions[0] == CheckReadable(Paplay, h.config.customAudioPath.value)
    ensures HasCustomPath(h.config) && w.custom.access.Readable? ==>
              |p.actions| >= 2 && p.actions[1] == StartPlayer(Paplay, h.config.customAudioPath.value)
    ensures p.result.success <==> HasCustomPath(h.config) && PlaysClean(w.custom)
    ensures forall i :: 0 <= i < |p.actions| ==> AudioAction(p.actions[i]) && p.actions[i].attempt == Paplay
  {
    if !HasCustomPath(h.config) then
      Played(AudioResult(false, Paplay, Some(NoCustomPathError)), [])
    else
      Attempt(Paplay, h.config.customAudioPath.value, w.custom, CustomFallbackError)
  }

  /** `tryBundledAudio`: the file shipped with the program, tagged 'bundled-audio'. */
  function TryBundledAudio(h: AudioHandler, w: World): (p: Played)
    ensures p.result.via == BundledAudio
    ensures |p.actions| > 0 && p.actions[0] == CheckReadable(BundledAudio, h.bundledAudioPath)
    ensures w.bundled.access.Readable? ==> |p.actions| >= 2 && p.actions[1] == StartPlayer(BundledAudio, h.bundledAudioPath)
    ensures p.result.success <==> PlaysClean(w.bundled)
    ensures forall i :: 0 <= i < |p.actions| ==> AudioAction(p.actions[i]) && p.actions[i].attempt == BundledAudio
  {
    Attempt(BundledAudio, h.bundledAudioPath, w.bundled, BundledFallbackError)
  }

  /** `playSound`: the ordered chain; the first success ends it. */
  function PlaySound(h: AudioHandler, w: World): (p: Played)
    ensures p.result.success ==> p.result.error == None
    ensures !p.result.success ==> p.result == AudioResult(false, NoMethod, Some(AllFailedError))
    ensures p.result.via == NoMethod ==> (p.result.success <==> !h.config.enableAudio)
    ensures forall i :: 0 <= i < |p.actions| ==> AudioAction(p.actions[i])
  {
    if !h.config.enableAudio then
      Played(AudioResult(true, NoMethod, None), [])
    else if HasCustomPath(h.config) && TryCustomAudio(h, w).result.success then
      TryCustomAudio(h, w)
    else
      var before := if HasCustomPath(h.config) then TryCustomAudio(h, w).actions else [];
      var bundled := TryBundledAudio(h, w);
      if bundled.result.success then
        Played(bundled.result, before + bundled.actions)
      else
        Played(AudioResult(false, NoMethod, Some(AllFailedError)), before + bundled.actions)
  }

  /** Whether the custom attempt, if made, plays the file to a clean exit. */
  predicate CustomSucceeds(h: AudioHandler, w: World) {
    HasCustomPath(h.config) && TryCustomAudio(h, w).result.success
  }

  /** With audio off the result is a silent success and nothing is touched. */
  lemma PlaySoundDisabled(h: AudioHandler, w: World)
    requires !h.config.enableAudio
    ensures PlaySound(h, w) == Played(AudioResult(true, NoMethod, None), [])
  {
  }

  /** A custom success is returned unchanged and the bundled file is never tried. */
  lemma CustomSuccessShortCircuits(h: AudioHandler, w: World)
    requires h.config.enableAudio && CustomSucceeds(h, w)
    ensures PlaySound(h, w) == TryCustomAudio(h, w)
    ensures PlaySound(h, w).result == AudioResult(true, Paplay, None)
    ensures !Attempted(PlaySound(h, w).actions, BundledAudio)
  {
  }

  /**
   * When the custom file is absent or failed, the bundled attempt follows
   * the custom one, and its success is returned as it is.
   */
  lemma BundledFallback(h: AudioHandler, w: World)
    requires h.config.enableAudio && !CustomSucceeds(h, w)
    ensures PlaySound(h, w).actions ==
            (if HasCustomPath(h.config) then TryCustomAudio(h, w).actions else []) + TryBundledAudio(h, w).actions
    ensures TryBundledAudio(h, w).result.success ==>
            PlaySound(h, w).result == TryBundledAudio(h, w).result == AudioResult(true, BundledAudio, None)
    ensures !TryBundledAudio(h, w).result.success ==>
            PlaySound(h, w).result == AudioResult(false, NoMethod, Some(AllFailedError))
  {
  }

  /** Each attempt is made exactly when the chain reaches it. */
  lemma AttemptsMade(h: AudioHandler, w: World)
    ensures Attempted(PlaySound(h, w).actions, Paplay) <==> h.config.enableAudio && HasCustomPath(h.config)
    ensures Attempted(PlaySound(h, w).actions, BundledAudio) <==> h.config.enableAudio && !CustomSucceeds(h, w)
  {
    var p := PlaySound(h, w);
    if h.config.enableAudio && !CustomSucceeds(h, w) {
      var before := if HasCustomPath(h.config) then TryCustomAudio(h, w).actions else [];
      var bundled := TryBundledAudio(h, w).actions;
      assert p.actions == before + bundled;
      if HasCustomPath(h.config) {
        assert p.actions[0] == before[0] == CheckReadable(Paplay, h.config.customAudioPath.value);
      }
      assert p.actions[|before|] == bundled[0];
      if Attempted(p.actions, Paplay) {
        var i :| 0 <= i < |p.actions| && p.actions[i].CheckReadable? && p.actions[i].attempt == Paplay;
        assert i < |before|;
      }
    } else if h.config.enableAudio {
      var c := TryCustomAudio(h, w).actions;
      assert p.actions == c && c[0].CheckReadable?;
    }
  }

  /** The chain succeeds exactly when audio is off or one attempt plays to a clean exit. */
  lemma PlaySoundSucceedsIff(h: AudioHandler, w: World)
    ensures PlaySound(h, w).result.success <==>
            !h.config.enableAudio || CustomSucceeds(h, w) || TryBundledAudio(h, w).result.success
  {
  }

  /** An unreadable file fails its attempt with that attempt's tag, and no player is started. */
  lemma UnreadableStartsNoPlayer(via: Method, path: string, probe: Probe, fallback: string)
    requires probe.access.Unreadable?
    ensures Attempt(via, path, probe, fallback).result ==
            AudioResult(false, via, Some(ErrorMessage(probe.access.reason, fallback)))
    ensures forall i :: 0 <= i < |Attempt(via, path, probe, fallback).actions| ==>
            !Attempt(via, path, probe, fallback).actions[i].StartPlayer?
  {
  }

  /** How the desktop notifier's callback behaves. */
  datatype Notifier =
    | CallsBack(error: Option<string>)   // the callback runs, with or without an error
    | NeverCallsBack
    | ThrowsSync(reason: Thrown)         // notify itself throws

  /** The state a promise ends in. */
  datatype Settlement = Resolved | Rejected(reason: Thrown) | Pending

  datatype Shown = Shown(settled: Settlement, actions: seq<Action>)

  /**
   * `showNotification`: nothing at all when desktop notification is off;
   * otherwise the whole sound step, then the visual notification with its
   * own sound switched off. A notifier error is logged and swallowed.
   */
  function ShowNotification(h: AudioHandler, w: World, title: string, message: string, notifier: Notifier): (s: Shown)
    ensures !h.config.enableDesktopNotification ==> s == Shown(Resolved, [])
    ensures h.config.enableDesktopNotification ==> |s.actions| > 0 && s.actions[|s.actions| - 1] == ShowDesktop(title, message, false, false)
    ensures notifier.CallsBack? ==> s.settled == Resolved
    ensures s.settled.Rejected? ==> notifier.ThrowsSync?
  {
    if !h.config.enableDesktopNotification then
      Shown(Resolved, [])
    else
      var sound := PlaySound(h, w);
      var actions := sound.actions + [ShowDesktop(title, message, false, false)];
      match notifier
      case CallsBack(_) => Shown(Resolved, actions)
      case NeverCallsBack => Shown(Pending, actions)
      case ThrowsSync(t) => Shown(Rejected(t), actions)
  }

  /**
   * With desktop notification on, every sound action comes before the one
   * visual notification, and the visual notification plays no sound.
   */
  lemma SoundThenDesktop(h: AudioHandler, w: World, title: string, message: string, notifier: Notifier)
    requires h.config.enableDesktopNotification
    ensures var s := ShowNotification(h, w, title, message, notifier);
            && s.actions[..|s.actions| - 1] == PlaySound(h, w).actions
            && (forall i :: 0 <= i < |s.actions| - 1 ==> AudioAction(s.actions[i]))
            && s.actions[|s.actions| - 1] == ShowDesktop(title, message, false, false)
  {
    var s := ShowNotification(h, w, title, message, notifier);
    assert s.actions[..|s.actions| - 1] == PlaySound(h, w).actions;
  }

  /** The call settles unless the notifier never calls back, and a notifier error still resolves it. */
  lemma ShowNotificationSettles(h: AudioHandler, w: World, title: string, message: string, notifier: Notifier)
    ensures ShowNotification(h, w, title, message, notifier).settled == Pending <==>
            h.config.enableDesktopNotification && notifier.NeverCallsBack?
    ensures notifier.CallsBack? && notifier.error.Some? ==>
            ShowNotification(h, w, title, message, notifier).settled == Resolved
  {
  }
}
