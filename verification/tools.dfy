/**
 * The two tool handlers and the tool-name dispatch (src/index.ts). Each
 * handler races the notification against a 5000 ms deadline and renders the
 * outcome as text; neither throws. Which of the two finished first is an
 * input (`innerFirst`), not a clock.
 */
module Tools {

  import opened Types
  import opened Player
  import opened Audio

  const DeadlineMessage := "Notification timeout"
  const UnknownErrorMessage := "Unknown error"
  const TaskCompletedTitle := "Task Completed"

  /**
   * `Promise.race` between the notification and a timer that rejects with
   * Error('Notification timeout'). `innerFirst` says whether the
   * notification settled before the timer fired; one that never settles
   * always loses.
   */
  function Race(inner: Settlement, innerFirst: bool): (r: Settlement)
    ensures r != Pending
    ensures r == Resolved <==> inner == Resolved && innerFirst
    ensures inner != Pending && innerFirst ==> r == inner
    ensures r.Rejected? && !(inner.Rejected? && innerFirst) ==> r.reason == ErrorObject(DeadlineMessage)
  {
    if inner != Pending && innerFirst then inner else Rejected(ErrorObject(DeadlineMessage))
  }

  /** `{ content: [{ type: 'text', text }] }`. */
  datatype ToolResponse = TextResponse(text: string)

  /** A handler's response, with every call the notification made into the outside world. */
  datatype Handled = Handled(response: ToolResponse, effects: seq<Action>)

  predicate StartsWith(s: string, prefix: string) {
    |prefix| <= |s| && s[..|prefix|] == prefix
  }

  function NotifySentText(title: string, message: string, soundType: SoundType): string {
    "Notification sent: \"" + title + ": " + message + "\" with " + SoundName(soundType) + " sound"
  }

  function NotifyAttemptedText(title: string, message: string, why: string): string {
    "Notification attempted: \"" + title + ": " + message + "\" (" + why + ")"
  }

  function TaskSentText(message: string, soundType: SoundType): string {
    "Task completion notification sent: \"" + message + "\" with " + SoundName(soundType) + " sound"
  }

  function TaskAttemptedText(message: string, why: string): string {
    "Task completion attempted: \"" + message + "\" (" + why + ")"
  }

  function OrDefault(s: Option<SoundType>, d: SoundType): SoundType {
    if s.Some? then s.value else d
  }

  /** `handleNotify`: sound type 'info' unless given; "sent" if the notification won the race. */
  function HandleNotify(h: AudioHandler, w: World, params: NotifyParams, notifier: Notifier, innerFirst: bool): (r: Handled)
    ensures r.effects == ShowNotification(h, w, params.title, params.message, notifier).actions
    ensures StartsWith(r.response.text, "Notification sent: ") || StartsWith(r.response.text, "Notification attempted: ")
  {
    var shown := ShowNotification(h, w, params.title, params.message, notifier);
    var text :=
      match Race(shown.settled, innerFirst)
      case Rejected(t) => NotifyAttemptedText(params.title, params.message, ErrorMessage(t, UnknownErrorMessage))
      case _ => NotifySentText(params.title, params.message, OrDefault(params.soundType, InfoSound));
    Handled(TextResponse(text), shown.actions)
  }

  /** `handleTaskCompleted`: the fixed title 'Task Completed', sound type 'success' unless given. */
  function HandleTaskCompleted(h: AudioHandler, w: World, params: TaskCompletedParams, notifier: Notifier, innerFirst: bool): (r: Handled)
    ensures r.effects == ShowNotification(h, w, TaskCompletedTitle, params.message, notifier).actions
    ensures StartsWith(r.response.text, "Task completion notification sent: ") || StartsWith(r.response.text, "Task completion attempted: ")
  {
    var shown := ShowNotification(h, w, TaskCompletedTitle, params.message, notifier);
    var text :=
      match Race(shown.settled, innerFirst)
      case Rejected(t) => TaskAttemptedText(params.message, ErrorMessage(t, UnknownErrorMessage))
      case _ => TaskSentText(params.message, OrDefault(params.soundType, SuccessSound));
    Handled(TextResponse(text), shown.actions)
  }

  /** The notify text in each case: sent with the sound type, or attempted with the reason. */
  lemma NotifyText(h: AudioHandler, w: World, params: NotifyParams, notifier: Notifier, innerFirst: bool)
    ensures var shown := ShowNotification(h, w, params.title, params.message, notifier);
            var text := HandleNotify(h, w, params, notifier, innerFirst).response.text;
            && (shown.settled == Resolved && innerFirst ==>
                  text == NotifySentText(params.title, params.message, OrDefault(params.soundType, InfoSound)))
            && (shown.settled.Rejected? && innerFirst ==>
                  text == NotifyAttemptedText(params.title, params.message, ErrorMessage(shown.settled.reason, UnknownErrorMessage)))
            && (shown.settled == Pending || !innerFirst ==>
                  text == NotifyAttemptedText(params.title, params.message, DeadlineMessage))
  {
  }

  /** "sent" exactly when the notification resolved before the deadline. */
  lemma NotifySentIff(h: AudioHandler, w: World, params: NotifyParams, notifier: Notifier, innerFirst: bool)
    ensures StartsWith(HandleNotify(h, w, params, notifier, innerFirst).response.text, "Notification sent: ") <==>
            ShowNotification(h, w, params.title, params.message, notifier).settled == Resolved && innerFirst
  {
    var text := HandleNotify(h, w, params, notifier, innerFirst).response.text;
    if !(ShowNotification(h, w, params.title, params.message, notifier).settled == Resolved && innerFirst) {
      assert text[13] == 'a';
    }
  }

  /** The sound type shows up only in the text: what the notification does is the same for every sound type. */
  lemma SoundTypeOnlyInText(h: AudioHandler, w: World, params: NotifyParams, other: Option<SoundType>, notifier: Notifier, innerFirst: bool)
    ensures HandleNotify(h, w, params.(soundType := other), notifier, innerFirst).effects ==
            HandleNotify(h, w, params, notifier, innerFirst).effects
  {
  }

  /** The task text in each case. */
  lemma TaskCompletedText(h: AudioHandler, w: World, params: TaskCompletedParams, notifier: Notifier, innerFirst: bool)
    ensures var shown := ShowNotification(h, w, TaskCompletedTitle, params.message, notifier);
            var text := HandleTaskCompleted(h, w, params, notifier, innerFirst).response.text;
            && (shown.settled == Resolved && innerFirst ==>
                  text == TaskSentText(params.message, OrDefault(params.soundType, SuccessSound)))
            && (shown.settled.Rejected? && innerFirst ==>
                  text == TaskAttemptedText(params.message, ErrorMessage(shown.settled.reason, UnknownErrorMessage)))
            && (shown.settled == Pending || !innerFirst ==>
                  text == TaskAttemptedText(params.message, DeadlineMessage))
  {
  }

  /** "sent" exactly when the notification resolved before the deadline. */
  lemma TaskCompletedSentIff(h: AudioHandler, w: World, params: TaskCompletedParams, notifier: Notifier, innerFirst: bool)
    ensures StartsWith(HandleTaskCompleted(h, w, params, notifier, innerFirst).response.text, "Task completion notification sent: ") <==>
            ShowNotification(h, w, TaskCompletedTitle, params.message, notifier).settled == Resolved && innerFirst
  {
    var text := HandleTaskCompleted(h, w, params, notifier, innerFirst).response.text;
    if !(ShowNotification(h, w, TaskCompletedTitle, params.message, notifier).settled == Resolved && innerFirst) {
      assert text[16] == 'a';
    }
  }

  /** task_completed does what notify does with the title 'Task Completed'. */
  lemma TaskCompletedIsFixedTitleNotify(h: AudioHandler, w: World, params: TaskCompletedParams, notifier: Notifier, innerFirst: bool)
    ensures HandleTaskCompleted(h, w, params, notifier, innerFirst).effects ==
            HandleNotify(h, w, NotifyParams(TaskCompletedTitle, params.message, params.soundType), notifier, innerFirst).effects
  {
  }

  datatype ErrorCode = MethodNotFound | InternalError

  /**
   * The message of a protocol error: a plain text, or the `message` of a
   * caught protocol error with the given code and text, whose exact wording
   * the protocol library decides.
   */
  datatype ErrorText = Text(text: string) | MessageOf(code: ErrorCode, text: string)

  datatype McpError = McpError(code: ErrorCode, message: ErrorText)

  /** The arguments of a tool call, read as the parameters of whichever tool is named. */
  datatype ToolArguments = ToolArguments(title: string, message: string, soundType: Option<SoundType>)

  /** A tool call returns a response or throws a protocol error. */
  datatype CallOutcome = Returned(handled: Handled) | Threw(error: McpError)

  /**
   * The CallTool request handler: dispatch on the tool name. An unknown name
   * throws MethodNotFound, which the surrounding catch rethrows as an
   * InternalError carrying the caught error's message.
   */
  function CallTool(h: AudioHandler, w: World, name: string, args: ToolArguments, notifier: Notifier, innerFirst: bool): (r: CallOutcome)
    ensures r.Threw? <==> name != "notify" && name != "task_completed"
    ensures r.Threw? ==> r.error == McpError(InternalError, MessageOf(MethodNotFound, "Unknown tool: " + name))
    ensures r.Returned? ==> r.handled.effects == ShowNotification(h, w, if name == "notify" then args.title else TaskCompletedTitle, args.message, notifier).actions
  {
    if name == "notify" then
      Returned(HandleNotify(h, w, NotifyParams(args.title, args.message, args.soundType), notifier, innerFirst))
    else if name == "task_completed" then
      Returned(HandleTaskCompleted(h, w, TaskCompletedParams(args.message, args.soundType), notifier, innerFirst))
    else
      var caught := McpError(MethodNotFound, Text("Unknown tool: " + name));
      Threw(McpError(InternalError, MessageOf(caught.code, caught.message.text)))
  }

  /** Each known tool name is answered by its own handler, given the call's arguments. */
  lemma CallToolDispatches(h: AudioHandler, w: World, name: string, args: ToolArguments, notifier: Notifier, innerFirst: bool)
    ensures name == "notify" ==>
            CallTool(h, w, name, args, notifier, innerFirst) ==
            Returned(HandleNotify(h, w, NotifyParams(args.title, args.message, args.soundType), notifier, innerFirst))
    ensures name == "task_completed" ==>
            CallTool(h, w, name, args, notifier, innerFirst) ==
            Returned(HandleTaskCompleted(h, w, TaskCompletedParams(args.message, args.soundType), notifier, innerFirst))
  {
  }

  /**
   * An unreadable custom file with a playable bundled file: notify("Build",
   * "Done") plays the bundled file, shows the notification, and reports it
   * sent with the default 'info' sound.
   */
  lemma BundledFallbackScenario(bundledPath: string, reason: Thrown)
    ensures var h := AudioHandler(AudioConfig(Some("/bad/path"), true, true), bundledPath);
            var w := World(Probe(Unreadable(reason), Events([TimerFired])), Probe(Readable, Events([Close(Some(0))])));
            && PlaySound(h, w).result == AudioResult(true, BundledAudio, None)
            && HandleNotify(h, w, NotifyParams("Build", "Done", None), CallsBack(None), true) ==
               Handled(TextResponse("Notification sent: \"Build: Done\" with info sound"),
                       [CheckReadable(Paplay, "/bad/path"), CheckReadable(BundledAudio, bundledPath),
                        StartPlayer(BundledAudio, bundledPath), ShowDesktop("Build", "Done", false, false)])
  {
    var h := AudioHandler(AudioConfig(Some("/bad/path"), true, true), bundledPath);
    var w := World(Probe(Unreadable(reason), Events([TimerFired])), Probe(Readable, Events([Close(Some(0))])));
    assert HasCustomPath(h.config);
    assert TryCustomAudio(h, w).actions == [CheckReadable(Paplay, "/bad/path")];
    assert TryBundledAudio(h, w) ==
           Played(AudioResult(true, BundledAudio, None), [CheckReadable(BundledAudio, bundledPath), StartPlayer(BundledAudio, bundledPath)]);
    var played := PlaySound(h, w);
    assert played.actions == [CheckReadable(Paplay, "/bad/path"), CheckReadable(BundledAudio, bundledPath), StartPlayer(BundledAudio, bundledPath)];
    assert NotifySentText("Build", "Done", InfoSound) == "Notification sent: \"Build: Done\" with info sound";
  }

  /** With audio and desktop notification off, task_completed touches nothing and reports it sent. */
  lemma AllOffScenario(bundledPath: string, path: Option<string>, w: World, notifier: Notifier)
    ensures var h := AudioHandler(AudioConfig(path, false, false), bundledPath);
            HandleTaskCompleted(h, w, TaskCompletedParams("All tests passed", None), notifier, true) ==
            Handled(TextResponse("Task completion notification sent: \"All tests passed\" with success sound"), [])
  {
    var h := AudioHandler(AudioConfig(path, false, false), bundledPath);
    assert ShowNotification(h, w, TaskCompletedTitle, "All tests passed", notifier) == Shown(Resolved, []);
    assert TaskSentText("All tests passed", SuccessSound) ==
           "Task completion notification sent: \"All tests passed\" with success sound";
  }
}
