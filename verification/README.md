# mcp-notify: the notification dispatch core, in Dafny

mcp-notify is a small tool server with two tools, `notify` and
`task_completed`. Each one plays a sound and shows a desktop notification,
and each always answers with text. The answer is never an error. This
project models the decision logic of that server and proves properties of it:

- **Player run** (`player.dfy`, module `Player`). `playWithPaplay` spawns the
  player, arms a 5000 ms timer and resolves a promise once. The class
  `PaplayRun` holds the timer handle, the promise's outcome and a log of what
  the run did (clear the timer, kill the process, resolve). Its handlers
  `OnClose`, `OnError` and `OnTimeout` mirror the three callbacks.
  `RunPaplay` delivers an event trace to a fresh run. It is proved to give the
  result of the first event (`Settle`). It kills the process exactly when the
  timer fires first, and it leaves the timer pending only while nothing has
  happened.
- **Fallback chain** (`audio.dfy`, module `Audio`). `PlaySound`,
  `TryCustomAudio` and `TryBundledAudio` are functions over a `World`. A
  `World` says, for each attempt, whether the file check succeeds and what the
  player does. Each result carries the calls made (file check, player start,
  kill), tagged with the attempt that made them. This lets the lemmas say which
  attempts happened and in what order.
- **Notification** (`audio.dfy`). `ShowNotification` does nothing at all when
  desktop notification is off. Otherwise the sound step comes first, then one
  visual notification with its own sound off. The result is the promise's
  final state: resolved, rejected or pending.
- **Argument scanner** (`cli.dfy`, module `Cli`). `ParseArguments` is the
  index loop of `parseArguments`. It is proved equal to `Parsed`, which reads
  the arguments into directives (`TokensFrom`) and applies them in order
  (`Apply`).
- **Tool handlers** (`tools.dfy`, module `Tools`). `HandleNotify`,
  `HandleTaskCompleted` and the name dispatch `CallTool` build the response
  text. `Race` is `Promise.race` against the 5000 ms deadline. Which side
  finished first is an input, `innerFirst`.
- `types.dfy` (module `Types`) holds the records of `src/types.ts`.
  `decimal.dfy` (module `Decimal`) renders an exit code as a template literal
  does, and proves the rendering can be read back.

Field naming: `AudioResult.via` is the source's `method` field, because
`method` is a Dafny keyword. The tags `'paplay' | 'bundled-audio' | 'none'`
are `Paplay | BundledAudio | NoMethod`.

A notify call that throws synchronously rejects the notification promise.
If that rejection comes before the 5000 ms deadline, the handler reports
"attempted" with that error's message, or with "Unknown error" when the
thrown value is not an Error. Otherwise it reports "attempted" with
"Notification timeout".

## Model

| member | source | states |
|---|---|---|
| `Decimal.IntRoundTrip` | src/audio.ts:152 | the decimal text of an exit code reads back as the same integer |
| `Player.EventResult` | src/audio.ts:133-165 | the result keeps the attempt's method tag; it succeeds iff the event is `close` with code 0, and carries an error exactly when it fails: the timeout text for the timer, the error's message for an `error` event, `paplay exited with code N` for another exit |
| `Player.Settle` | src/audio.ts:128-166 | the promise is pending iff no event has come; once settled it keeps the method tag and succeeds iff the first event is `close(0)` |
| `Player.LaterEventsIgnored` | src/audio.ts:128-166 | events after the first one do not change the result (the promise resolves once) |
| `Player.ExitCodeRoundTrip` | src/audio.ts:152 | the rendering of an exit code, "null" included, reads back to the same code |
| `Player.CloseErrorNamesCode` | src/audio.ts:146-154 | a nonzero or null code fails with `paplay exited with code N`, and N reads back to the code |
| `Player.CloseErrorInjective` | src/audio.ts:149-153 | different exit codes give different error texts |
| `Player.PaplayRun.constructor` | src/audio.ts:129-141 | a new run has its timer armed, nothing resolved and nothing logged |
| `Player.PaplayRun.Resolve` | src/audio.ts:128 | only the first resolve has an effect |
| `Player.PaplayRun.OnClose` | src/audio.ts:143-155 | the timer is cleared (logged); an unresolved run resolves by the exit code, and a resolved one stays as it was |
| `Player.PaplayRun.OnError` | src/audio.ts:157-165 | the timer is cleared (logged); an unresolved run resolves with the error's message |
| `Player.PaplayRun.OnTimeout` | src/audio.ts:133-141 | an armed timer kills the process and then resolves with the timeout text; a cleared timer does nothing |
| `Player.PaplayRun.Deliver` | src/audio.ts:143-165 | the first event decides the outcome; a close or error logs the timer clear and then, if first, the resolve; an armed timer logs the kill and then the resolve; a cleared timer logs nothing |
| `Player.RunPaplay` | src/audio.ts:124-167 | the outcome of a whole trace is `Settle` of it; the process is killed iff the timer fired first; the timer is still pending iff no event came |
| `Audio.Attempt` | src/audio.ts:93-121 | an attempt keeps its tag and first checks the file; an unreadable file fails with the caught message and makes no other call; a readable file starts the player on that path; a throwing spawn fails with its message; otherwise the result is the player run's `Settle`; the player is killed iff the timer came first; success iff the file is readable and the player exits 0 first |
| `Audio.TryCustomAudio` | src/audio.ts:88-106 | tagged 'paplay'; without a custom path it fails with "No custom audio path provided" and makes no call; with one it checks that path first and, if readable, plays it; success iff a path is set and the custom file plays to exit 0 |
| `Audio.TryBundledAudio` | src/audio.ts:108-122 | tagged 'bundled-audio'; it checks the bundled path first and, if readable, plays it; success iff the bundled file plays to exit 0 |
| `Audio.PlaySound` | src/audio.ts:26-56 | a success has no error; every failure is exactly the all-failed record; a 'none' tag means success iff audio is off |
| `Audio.PlaySoundDisabled` | src/audio.ts:27-32 | with audio off the result is `{success: true, method: 'none'}` and no call is made |
| `Audio.CustomSuccessShortCircuits` | src/audio.ts:35-41 | a custom success is returned unchanged, and the bundled file is never tried |
| `Audio.BundledFallback` | src/audio.ts:43-55 | when custom is absent or failed, the bundled calls follow the custom calls; a bundled success is returned as it is, otherwise the all-failed record |
| `Audio.AttemptsMade` | src/audio.ts:34-48 | the custom attempt is made iff audio is on and a path is set; the bundled attempt is made iff audio is on and custom did not succeed |
| `Audio.PlaySoundSucceedsIff` | src/audio.ts:26-56 | success iff audio is off, or custom succeeds, or bundled succeeds |
| `Audio.UnreadableStartsNoPlayer` | src/audio.ts:93-105 | an unreadable file gives a failure with that attempt's tag and the thrown message, and no player start |
| `Audio.ShowNotification` | src/audio.ts:58-86 | off means resolved with no call; on means the last call is the visual notification with sound off; a notifier callback, with or without error, resolves |
| `Audio.SoundThenDesktop` | src/audio.ts:63-74 | every sound call comes before the single visual notification, which has `sound: false` |
| `Audio.ShowNotificationSettles` | src/audio.ts:67-85 | the call stays pending only when notification is on and the notifier never calls back; a notifier error still resolves it |
| `Cli.ParseArguments` | src/index.ts:50-88 | the loop, which skips the path after an audio flag, computes `Parsed(args)` |
| `Cli.ApplySwitches` | src/index.ts:71-80 | each switch ends on iff it started on and its own flag was never read; flags only turn options off |
| `Cli.ApplyPath` | src/index.ts:61-69 | the final path is the one set by the last audio flag, or the initial one |
| `Cli.LastAudioFlagWins` | src/index.ts:65 | after several audio flags, the last one decides the path |
| `Cli.AudioFlagAliases` | src/index.ts:61-64 | `--audio` and `-a` are read the same wherever the scan reads a flag |
| `Cli.AudioFlagConsumesNext` | src/index.ts:65-67 | the argument after an audio flag becomes the path and the scan resumes after it |
| `Cli.TrailingAudioFlag` | src/index.ts:65-67 | an audio flag read as the last argument leaves the parsed path undefined, whatever an earlier flag set |
| `Cli.NoAudioFlagEndsAtEnd` | src/index.ts:59-80 | without an audio flag the loop index stops exactly at the end of the arguments |
| `Cli.TokensFromAppend` | src/index.ts:59-80 | when the loop stops exactly at the end, an added argument is read after all the others |
| `Cli.AudioFlagAsPath` | src/index.ts:64-67 | `['-a', '-a']` sets the path to "-a": the second flag is consumed as the path |
| `Cli.UnrecognisedIgnored` | src/index.ts:60-80 | arguments the switch does not name produce nothing |
| `Cli.NoFlagsGiveDefaults` | src/index.ts:53-57 | with no recognised argument: no custom path, audio on, notification on |
| `Cli.ParsedCharacterised` | src/index.ts:59-87 | the parsed config in closed form: the last path, and each switch off iff its flag was read |
| `Cli.SkippedTokenNotAFlag` | src/index.ts:64-67 | `['-a', '--no-audio']` sets the path to `--no-audio` and leaves audio on |
| `Tools.Race` | src/index.ts:167-172 | the race never stays pending; a notification that settles first decides it, resolved or rejected with its own reason; otherwise it rejects with 'Notification timeout' |
| `Tools.HandleNotify` | src/index.ts:162-193 | the audio layer receives only title and message; the text is either "Notification sent: …" or "Notification attempted: …" |
| `Tools.NotifyText` | src/index.ts:162-193 | the exact text in each case: sent with the sound type (default 'info'), attempted with the rejection message, attempted with 'Notification timeout' |
| `Tools.NotifySentIff` | src/index.ts:174-191 | the text says "sent" iff the notification resolved before the deadline |
| `Tools.SoundTypeOnlyInText` | src/index.ts:163-168 | changing the sound type changes no call into the audio layer |
| `Tools.HandleTaskCompleted` | src/index.ts:195-226 | notifies with title 'Task Completed'; the text is either "Task completion notification sent: …" or "Task completion attempted: …" |
| `Tools.TaskCompletedText` | src/index.ts:195-226 | the exact text in each case, with default sound type 'success' |
| `Tools.TaskCompletedSentIff` | src/index.ts:207-224 | the text says "sent" iff the notification resolved before the deadline |
| `Tools.TaskCompletedIsFixedTitleNotify` | src/index.ts:201 | task_completed makes the same calls as notify with title 'Task Completed' |
| `Tools.CallTool` | src/index.ts:140-159 | only a name other than notify and task_completed throws, as an InternalError carrying `Unknown tool: <name>`; a known name returns the calls of the notification with its own title or 'Task Completed' |
| `Tools.CallToolDispatches` | src/index.ts:140-159 | the name 'notify' returns exactly `handleNotify`'s response to the call's arguments, and 'task_completed' exactly `handleTaskCompleted`'s |
| `Tools.BundledFallbackScenario` | src/index.ts:162-181 | unreadable custom file, playable bundled file: the bundled file plays and notify("Build", "Done") reports `Notification sent: "Build: Done" with info sound` |
| `Tools.AllOffScenario` | src/index.ts:195-214 | audio and notification off: task_completed makes no call and reports it sent with the 'success' sound |

## Left out

- Protocol plumbing is left out: server construction, the stdio transport, `run`, the ListTools schema, the `onerror` logger and SIGINT shutdown. They are calls into a protocol library that is not part of this model.
- Tool arguments are taken as already typed. The source casts them without checking, so missing or ill-typed fields are not modelled.
- `process.argv.slice(2)` is not modelled: `ParseArguments` receives the argument list directly.
- `spawn`, `access` and `notifier.notify` are oracles in the `World` and the `Notifier`. They are not modelled as I/O.
- `fileURLToPath`, `dirname` and `join` compute the bundled path. That path is a field of `AudioHandler`.
- Time is not modelled. The order of a player run's events is the order of its trace. Whether the notification beat the 5000 ms deadline is the input `innerFirst`.
- `Trace` is non-empty by construction. It stands for the fact that an armed timer eventually fires. That liveness is assumed, not proved.
- `console.error` logging of a notifier error is left out. The error only shows up as the notifier's callback argument.
- Concurrent tool calls are not modelled. Neither is the abandoned inner chain that keeps running after the deadline wins; its calls are still listed as the handler's effects.
- The exact wording of a protocol error's `message` is decided by the protocol library. `MessageOf(code, text)` stands for it.
