/**
 * The command-line scanner `parseArguments` (src/index.ts): one pass over
 * the arguments that fills an AudioConfig. `--audio`/`-a` takes the next
 * argument as the custom audio path; `--no-audio` and `--no-notification`
 * switch their option off; anything else is ignored.
 */
module Cli {

  import opened Types

  /** What the scan makes of the argument it is looking at. */
  datatype Directive =
    | SetAudioPath(path: Option<string>)
    | DisableAudio
    | DisableNotification

  predicate IsAudioFlag(t: string) {
    t == "--audio" || t == "-a"
  }

  predicate IsRecognised(t: string) {
    IsAudioFlag(t) || t == "--no-audio" || t == "--no-notification"
  }

  const Defaults := AudioConfig(None, true, true)

  /**
   * The directives read from index `i` on. An audio flag swallows the
   * argument after it; when it is the last argument, it reads `undefined`.
   */
  function TokensFrom(args: seq<string>, i: nat): seq<Directive>
    decreases |args| - i
  {
    if i >= |args| then []
    else if IsAudioFlag(args[i]) then
      [SetAudioPath(if i + 1 < |args| then Some(args[i + 1]) else None)] + TokensFrom(args, i + 2)
    else if args[i] == "--no-audio" then [DisableAudio] + TokensFrom(args, i + 1)
    else if args[i] == "--no-notification" then [DisableNotification] + TokensFrom(args, i + 1)
    else TokensFrom(args, i + 1)
  }

  function Step(d: Directive, c: AudioConfig): AudioConfig {
    match d
    case SetAudioPath(p) => c.(customAudioPath := p)
    case DisableAudio => c.(enableAudio := false)
    case DisableNotification => c.(enableDesktopNotification := false)
  }

  /** The directives applied in order. */
  function Apply(ds: seq<Directive>, c: AudioConfig): AudioConfig
    decreases |ds|
  {
    if ds == [] then c else Apply(ds[1..], Step(ds[0], c))
  }

  /** The configuration the arguments describe. */
  function Parsed(args: seq<string>): AudioConfig {
    Apply(TokensFrom(args, 0), Defaults)
  }

  /** The path of the last SetAudioPath directive, or `d` when there is none. */
  function LastPath(ds: seq<Directive>, d: Option<string>): Option<string>
    decreases |ds|
  {
    if ds == [] then d
    else if ds[|ds| - 1].SetAudioPath? then ds[|ds| - 1].path
    else LastPath(ds[..|ds| - 1], d)
  }

  /** `parseArguments`: the for loop over the arguments, which skips the path after an audio flag. */
  method ParseArguments(args: seq<string>) returns (config: AudioConfig)
    ensures config == Parsed(args)
  {
    var customAudioPath: Option<string> := None;
    var enableAudio := true;
    var enableDesktopNotification := true;
    var i := 0;
    while i < |args|
      invariant 0 <= i <= |args| + 1
      invariant Apply(TokensFrom(args, i), AudioConfig(customAudioPath, enableAudio, enableDesktopNotification)) == Parsed(args)
    {
      if args[i] == "--audio" || args[i] == "-a" {
        customAudioPath := if i + 1 < |args| then Some(args[i + 1]) else None;
        i := i + 1;
      } else if args[i] == "--no-audio" {
        enableAudio := false;
      } else if args[i] == "--no-notification" {
        enableDesktopNotification := false;
      }
      i := i + 1;
    }
    config := AudioConfig(customAudioPath, enableAudio, enableDesktopNotification);
  }

  lemma {:induction false} ApplyAppend(ds: seq<Directive>, es: seq<Directive>, c: AudioConfig)
    ensures Apply(ds + es, c) == Apply(es, Apply(ds, c))
    decreases |ds|
  {
    if ds != [] {
      assert (ds + es)[0] == ds[0] && (ds + es)[1..] == ds[1..] + es;
      ApplyAppend(ds[1..], es, Step(ds[0], c));
    } else {
      assert ds + es == es;
    }
  }

  /** The two switches can only be turned off, and only by their own flag. */
  lemma {:induction false} ApplySwitches(ds: seq<Directive>, c: AudioConfig)
    ensures Apply(ds, c).enableAudio <==> c.enableAudio && DisableAudio !in ds
    ensures Apply(ds, c).enableDesktopNotification <==> c.enableDesktopNotification && DisableNotification !in ds
    decreases |ds|
  {
    if ds != [] {
      ApplySwitches(ds[1..], Step(ds[0], c));
      assert ds == [ds[0]] + ds[1..];
    }
  }

  /** The custom path is set by the last audio flag. */
  lemma {:induction false} ApplyPath(ds: seq<Directive>, c: AudioConfig)
    ensures Apply(ds, c).customAudioPath == LastPath(ds, c.customAudioPath)
    decreases |ds|
  {
    if ds != [] {
      var init, last := ds[..|ds| - 1], ds[|ds| - 1];
      assert ds == init + [last];
      ApplyAppend(init, [last], c);
      ApplyPath(init, c);
    }
  }

  /** The scan from index `i` reads only the arguments from `i` on. */
  lemma {:induction false} TokensFromSuffix(a: seq<string>, b: seq<string>, i: nat)
    requires |a| == |b|
    requires forall k :: i <= k < |a| ==> a[k] == b[k]
    ensures TokensFrom(a, i) == TokensFrom(b, i)
    decreases |a| - i
  {
    if i < |a| {
      TokensFromSuffix(a, b, i + 1);
      TokensFromSuffix(a, b, i + 2);
    }
  }

  /** `--audio` and `-a` are read alike wherever the scan reads a flag. */
  lemma AudioFlagAliases(args: seq<string>, i: nat)
    requires i < |args| && IsAudioFlag(args[i])
    ensures TokensFrom(args[i := "-a"], i) == TokensFrom(args[i := "--audio"], i) == TokensFrom(args, i)
  {
    TokensFromSuffix(args[i := "-a"], args, i + 2);
    TokensFromSuffix(args[i := "--audio"], args, i + 2);
  }

  /** The argument after an audio flag is the path, whatever it says; it is never read as a flag. */
  lemma AudioFlagConsumesNext(args: seq<string>, i: nat)
    requires i + 1 < |args| && IsAudioFlag(args[i])
    ensures TokensFrom(args, i) == [SetAudioPath(Some(args[i + 1]))] + TokensFrom(args, i + 2)
  {
  }

  /**
   * Whether the scan from index `i` stops exactly at the end of the
   * arguments, rather than one past it because the last argument it read
   * was an audio flag.
   */
  predicate ScanEndsAtEnd(args: seq<string>, i: nat)
    decreases |args| - i
  {
    if i >= |args| then i == |args|
    else if IsAudioFlag(args[i]) then ScanEndsAtEnd(args, i + 2)
    else ScanEndsAtEnd(args, i + 1)
  }

  /** Without an audio flag the scan steps one argument at a time and stops at the end. */
  lemma {:induction false} NoAudioFlagEndsAtEnd(args: seq<string>, i: nat)
    requires i <= |args|
    requires forall k :: i <= k < |args| ==> !IsAudioFlag(args[k])
    ensures ScanEndsAtEnd(args, i)
    decreases |args| - i
  {
    if i < |args| {
      NoAudioFlagEndsAtEnd(args, i + 1);
    }
  }

  /** When the scan of `args` stops at its end, one more argument is read after all of them. */
  lemma {:induction false} TokensFromAppend(args: seq<string>, t: string, i: nat)
    requires ScanEndsAtEnd(args, i)
    ensures TokensFrom(args + [t], i) == TokensFrom(args, i) + TokensFrom(args + [t], |args|)
    decreases |args| - i
  {
    var all := args + [t];
    if i < |args| {
      assert all[i] == args[i];
      if IsAudioFlag(args[i]) {
        assert all[i + 1] == args[i + 1];
        TokensFromAppend(args, t, i + 2);
      } else {
        TokensFromAppend(args, t, i + 1);
      }
    }
  }

  /**
   * An audio flag that the scan reads as the last argument sets the path
   * to undefined, whatever path an earlier flag set.
   */
  lemma TrailingAudioFlag(args: seq<string>, flag: string)
    requires IsAudioFlag(flag) && ScanEndsAtEnd(args, 0)
    ensures Parsed(args + [flag]).customAudioPath == None
  {
    var ds := TokensFrom(args, 0);
    TokensFromAppend(args, flag, 0);
    assert TokensFrom(args + [flag], |args|) == [SetAudioPath(None)];
    ApplyPath(ds + [SetAudioPath(None)], Defaults);
    LastAudioFlagWins(ds, None, [], None);
    assert ds + [SetAudioPath(None)] + [] == ds + [SetAudioPath(None)];
  }

  /** A flag right after an audio flag is the path, not a flag: `-a -a` sets the path to "-a". */
  lemma AudioFlagAsPath()
    ensures Parsed(["-a", "-a"]).customAudioPath == Some("-a")
  {
    assert TokensFrom(["-a", "-a"], 0) == [SetAudioPath(Some("-a"))];
  }

  /** Arguments the scan does not recognise produce nothing. */
  lemma {:induction false} UnrecognisedIgnored(args: seq<string>, i: nat)
    requires forall k :: i <= k < |args| ==> !IsRecognised(args[k])
    ensures TokensFrom(args, i) == []
    decreases |args| - i
  {
    if i < |args| {
      UnrecognisedIgnored(args, i + 1);
    }
  }

  /** Without a recognised argument the defaults stand: no custom path, audio and notification on. */
  lemma NoFlagsGiveDefaults(args: seq<string>)
    requires forall k :: 0 <= k < |args| ==> !IsRecognised(args[k])
    ensures Parsed(args) == AudioConfig(None, true, true)
  {
    UnrecognisedIgnored(args, 0);
  }

  /** The parsed configuration in closed form: last path wins, and each switch is off iff its flag was read. */
  lemma ParsedCharacterised(args: seq<string>)
    ensures Parsed(args).customAudioPath == LastPath(TokensFrom(args, 0), None)
    ensures Parsed(args).enableAudio <==> DisableAudio !in TokensFrom(args, 0)
    ensures Parsed(args).enableDesktopNotification <==> DisableNotification !in TokensFrom(args, 0)
  {
    ApplyPath(TokensFrom(args, 0), Defaults);
    ApplySwitches(TokensFrom(args, 0), Defaults);
  }

  /** Of several audio flags, the last one decides the path. */
  lemma {:induction false} LastAudioFlagWins(ds: seq<Directive>, p: Option<string>, rest: seq<Directive>, d: Option<string>)
    requires forall k :: 0 <= k < |rest| ==> !rest[k].SetAudioPath?
    ensures LastPath(ds + [SetAudioPath(p)] + rest, d) == p
    decreases |rest|
  {
    var all := ds + [SetAudioPath(p)] + rest;
    if rest != [] {
      var shorter := rest[..|rest| - 1];
      assert all[..|all| - 1] == ds + [SetAudioPath(p)] + shorter;
      LastAudioFlagWins(ds, p, shorter, d);
    }
  }

  /** The path following `-a` is never read as a flag, so audio stays on. */
  lemma SkippedTokenNotAFlag()
    ensures Parsed(["-a", "--no-audio"]) == AudioConfig(Some("--no-audio"), true, true)
  {
    assert TokensFrom(["-a", "--no-audio"], 0) == [SetAudioPath(Some("--no-audio"))];
  }
}
