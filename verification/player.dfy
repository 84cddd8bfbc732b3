/**
 * One run of the external player (`playWithPaplay`): a spawned process and
 * a 5000 ms timer race to resolve a promise that can be resolved only once.
 * The process and the timer are reduced to the events they deliver.
 */
module Player {

  import opened Types
  import Decimal

  const TimeoutMessage := "Timeout - paplay took too long"

  /** What the spawned process or its timer reports. */
  datatype Event =
    | Close(code: Option<int>)       // 'close'; the code is null when a signal ended the process
    | SpawnError(message: string)    // 'error', e.g. the binary is missing
    | TimerFired                     // the timeout callback runs

  /**
   * A complete record of what a run delivered. It is never empty: until
   * something resolves the run the timer stays armed (see PaplayRun.Valid),
   * so its callback eventually fires.
   */
  type Trace = t: seq<Event> | |t| > 0 witness [TimerFired]

  /** How an exit code reads inside a template literal. */
  function ExitCodeText(code: Option<int>): string {
    match code
    case None => "null"
    case Some(n) => Decimal.IntToString(n)
  }

  function CloseError(code: Option<int>): string {
    "paplay exited with code " + ExitCodeText(code)
  }

  /** The value an event resolves the run with, when it is the first to resolve it. */
  function EventResult(via: Method, e: Event): (r: AudioResult)
    ensures r.via == via
    ensures r.success <==> e == Close(Some(0))
    ensures r.success <==> r.error.None?
    ensures e == TimerFired ==> r.error == Some(TimeoutMessage)
    ensures e.SpawnError? ==> r.error == Some(e.message)
    ensures e.Close? && e.code != Some(0) ==> r.error == Some(CloseError(e.code))
  {
    match e
    case Close(code) =>
      if code == Some(0) then AudioResult(true, via, None)
      else AudioResult(false, via, Some(CloseError(code)))
    case SpawnError(message) => AudioResult(false, via, Some(message))
    case TimerFired => AudioResult(false, via, Some(TimeoutMessage))
  }

  /** The promise after the events of `trace`: pending, or decided by the first event. */
  function Settle(via: Method, trace: seq<Event>): (r: Option<AudioResult>)
    ensures r.None? <==> trace == []
    ensures r.Some? ==> r.value.via == via
    ensures (r.Some? && r.value.success) <==> (trace != [] && trace[0] == Close(Some(0)))
  {
    if trace == [] then None else Some(EventResult(via, trace[0]))
  }

  /** Once a run is resolved, whatever it delivers afterwards changes nothing. */
  lemma LaterEventsIgnored(via: Method, trace: seq<Event>, later: seq<Event>)
    requires trace != []
    ensures Settle(via, trace + later) == Settle(via, trace)
  {
    assert (trace + later)[0] == trace[0];
  }

  /** Reads back what ExitCodeText writes. */
  function ParseExitCode(s: string): Option<Option<int>> {
    if s == "null" then Some(None)
    else match Decimal.ParseInt(s)
      case Some(n) => Some(Some(n))
      case None => None
  }

  lemma ExitCodeRoundTrip(code: Option<int>)
    ensures ParseExitCode(ExitCodeText(code)) == Some(code)
  {
    if code.Some? {
      var s := Decimal.IntToString(code.value);
      assert s[0] == '-' || Decimal.IsDigit(s[0]);
      assert s != "null";
      Decimal.IntRoundTrip(code.value);
    }
  }

  /** A nonzero or null exit code fails the run, and the error text names the code. */
  lemma CloseErrorNamesCode(via: Method, code: Option<int>)
    requires code != Some(0)
    ensures EventResult(via, Close(code)) == AudioResult(false, via, Some(CloseError(code)))
    ensures ParseExitCode(CloseError(code)[|"paplay exited with code "|..]) == Some(code)
  {
    assert CloseError(code)[|"paplay exited with code "|..] == ExitCodeText(code);
    ExitCodeRoundTrip(code);
  }

  /** Distinct exit codes give distinct error texts. */
  lemma CloseErrorInjective(a: Option<int>, b: Option<int>)
    requires CloseError(a) == CloseError(b)
    ensures a == b
  {
    var n := |"paplay exited with code "|;
    assert ExitCodeText(a) == CloseError(a)[n..];
    assert ExitCodeText(b) == CloseError(b)[n..];
    ExitCodeRoundTrip(a);
    ExitCodeRoundTrip(b);
  }

  /** What the run does to the outside world, in order. */
  datatype Effect = ClearTimer | KillProcess | ResolveWith(result: AudioResult)

  /** The live state of one player run: the timer handle, and the promise. */
  class PaplayRun {
    const audioPath: string
    const via: Method
    var timerArmed: bool
    var outcome: Option<AudioResult>
    var log: seq<Effect>

    /**
     * The timer is armed exactly while the promise is unresolved, and the
     * process is killed only by the timer, which then decides the result.
     */
    ghost predicate Valid()
      reads this
    {
      && (timerArmed <==> outcome.None?)
      && (KillProcess in log ==> outcome == Some(EventResult(via, TimerFired)))
    }

    /** spawn('paplay', [audioPath]) and then setTimeout(…, 5000). */
    constructor (audioPath: string, via: Method)
      ensures Valid()
      ensures this.audioPath == audioPath && this.via == via
      ensures timerArmed && outcome == None && log == []
    {
      this.audioPath := audioPath;
      this.via := via;
      timerArmed := true;
      outcome := None;
      log := [];
    }

    /** The promise's resolve: only its first call has an effect. */
    method Resolve(r: AudioResult)
      modifies this
      ensures timerArmed == old(timerArmed)
      ensures outcome == if old(outcome).None? then Some(r) else old(outcome)
      ensures log == if old(outcome).None? then old(log) + [ResolveWith(r)] else old(log)
    {
      if outcome.None? {
        outcome := Some(r);
        log := log + [ResolveWith(r)];
      }
    }

    /** The 'close' handler: clear the timer, resolve by the exit code. */
    method OnClose(code: Option<int>)
      requires Valid()
      modifies this
      ensures Valid()
      ensures !timerArmed
      ensures outcome == if old(outcome).None? then Some(EventResult(via, Close(code))) else old(outcome)
      ensures log == old(log) + [ClearTimer] + if old(outcome).None? then [ResolveWith(EventResult(via, Close(code)))] else []
    {
      timerArmed := false;
      log := log + [ClearTimer];
      if code == Some(0) {
        Resolve(AudioResult(true, via, None));
      } else {
        Resolve(AudioResult(false, via, Some(CloseError(code))));
      }
    }

    /** The 'error' handler: clear the timer, resolve with the error's message. */
    method OnError(message: string)
      requires Valid()
      modifies this
      ensures Valid()
      ensures !timerArmed
      ensures outcome == if old(outcome).None? then Some(EventResult(via, SpawnError(message))) else old(outcome)
      ensures log == old(log) + [ClearTimer] + if old(outcome).None? then [ResolveWith(EventResult(via, SpawnError(message)))] else []
    {
      timerArmed := false;
      log := log + [ClearTimer];
      Resolve(AudioResult(false, via, Some(message)));
    }

    /** The timeout callback: it runs only if the timer was not cleared; kill, then resolve. */
    method OnTimeout()
      requires Valid()
      modifies this
      ensures Valid()
      ensures old(timerArmed) ==> !timerArmed && outcome == Some(EventResult(via, TimerFired))
      ensures old(timerArmed) ==> log == old(log) + [KillProcess, ResolveWith(EventResult(via, TimerFired))]
      ensures !old(timerArmed) ==> timerArmed == old(timerArmed) && outcome == old(outcome) && log == old(log)
    {
      if timerArmed {
        timerArmed := false;
        log := log + [KillProcess];
        Resolve(AudioResult(false, via, Some(TimeoutMessage)));
      }
    }

    /** Run the handler the event belongs to. */
    method Deliver(e: Event)
      requires Valid()
      modifies this
      ensures Valid()
      ensures outcome == if old(outcome).None? then Some(EventResult(via, e)) else old(outcome)
      ensures !e.TimerFired? ==>
                log == old(log) + [ClearTimer] + if old(outcome).None? then [ResolveWith(EventResult(via, e))] else []
      ensures e.TimerFired? && old(timerArmed) ==> log == old(log) + [KillProcess, ResolveWith(EventResult(via, e))]
      ensures e.TimerFired? && !old(timerArmed) ==> log == old(log)
      ensures KillProcess in log <==> KillProcess in old(log) || (old(timerArmed) && e == TimerFired)
    {
      match e
      case Close(code) => OnClose(code);
      case SpawnError(message) => OnError(message);
      case TimerFired => OnTimeout();
    }
  }

  /**
   * A whole run: deliver the events of `trace` in order. The result is the
   * first event's, the process is killed exactly when the timer came first,
   * and the timer is still pending only while nothing has happened.
   */
  method RunPaplay(audioPath: string, via: Method, trace: seq<Event>)
    returns (outcome: Option<AudioResult>, killed: bool, timerPending: bool)
    ensures outcome == Settle(via, trace)
    ensures killed <==> trace != [] && trace[0] == TimerFired
    ensures timerPending <==> trace == []
  {
    var run := new PaplayRun(audioPath, via);
    var i := 0;
    while i < |trace|
      invariant 0 <= i <= |trace|
      invariant run.Valid() && run.via == via
      invariant run.outcome == Settle(via, trace[..i])
      invariant KillProcess in run.log <==> i > 0 && trace[0] == TimerFired
    {
      run.Deliver(trace[i]);
      assert trace[..i + 1][0] == trace[0];
      i := i + 1;
    }
    assert trace[..i] == trace;
    outcome := run.outcome;
    killed := KillProcess in run.log;
    timerPending := run.timerArmed;
  }
}
