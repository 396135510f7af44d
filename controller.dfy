/**
 * The process controller of src/process.rs: decoding of wait results into
 * stop reasons, their user-facing text, the `Process` object that owns one
 * traced process, and its teardown.
 *
 * The operating system is abstract. Every tracing, signal or wait call the
 * controller makes is appended to the action log of an `Os` object, and the
 * outcome of each call (success or failure, the status a wait reports) is a
 * parameter of the method that makes it.
 */
module Controller {
  import opened Wrappers
  import opened Format
  import opened Signals

  /** The control state of the traced process. */
  datatype ProcessState = Stopped | Running | Exited | Terminated

  /** What a wait reported: the new state, with the exit code or the signal's name. */
  datatype StopReason = StopReason(reason: ProcessState, exitStatus: Option<int>, signal: Option<string>)

  /** The shapes of the `nix` crate's `WaitStatus`. */
  datatype WaitStatus =
    | Exited(pid: int, status: int)
    | Signaled(pid: int, sig: Signal, coreDumped: bool)
    | Stopped(pid: int, sig: Signal)
    | PtraceEvent(pid: int, sig: Signal, event: int)
    | PtraceSyscall(pid: int)
    | Continued(pid: int)
    | StillAlive

  /** The failures a controller operation reports to its caller. */
  datatype ProcessError = Fork | Traceme | Exec | InvalidPid | Attach | Resume | Wait

  // ---------------------------------------------------------------------------
  // Decoding a wait result

  /** The wait shapes the decoder handles; every other shape reaches `todo!()`. */
  predicate Handled(ws: WaitStatus) {
    ws.Exited? || ws.Signaled? || ws.Stopped?
  }

  /**
   * A stop reason carries exactly the detail its state calls for: an exit
   * code for `Exited`, a signal name for `Terminated` and `Stopped`, nothing
   * for `Running`.
   */
  predicate Consistent(r: StopReason) {
    match r.reason
    case Exited => r.exitStatus.Some? && r.signal.None?
    case Terminated => r.exitStatus.None? && r.signal.Some?
    case Stopped => r.exitStatus.None? && r.signal.Some?
    case Running => r.exitStatus.None? && r.signal.None?
  }

  /** `StopReason::from(WaitStatus)`. */
  function Decode(ws: WaitStatus): (r: StopReason)
    requires Handled(ws)
    ensures Consistent(r) && r.reason != Running
    ensures r.reason == ProcessState.Exited <==> ws.Exited?
    ensures r.reason == ProcessState.Terminated <==> ws.Signaled?
    ensures r.reason == ProcessState.Stopped <==> ws.Stopped?
    ensures ws.Exited? ==> r.exitStatus == Some(ws.status)
    ensures !ws.Exited? ==> r.signal == Some(Name(ws.sig))
  {
    match ws
    case Exited(_, code) => StopReason(ProcessState.Exited, Some(code), None)
    case Signaled(_, sig, _) => StopReason(ProcessState.Terminated, None, Some(Name(sig)))
    case Stopped(_, sig) => StopReason(ProcessState.Stopped, None, Some(Name(sig)))
  }

  // ---------------------------------------------------------------------------
  // Rendering a stop reason

  const ExitedText := "exited with status: "
  const TerminatedText := "terminated with signal: "
  const StoppedText := "stopped with signal: "

  /** The fields `Display` unwraps are present (otherwise `unwrap` panics). */
  predicate Renderable(r: StopReason) {
    (r.reason == ProcessState.Exited ==> r.exitStatus.Some?) &&
    (r.reason == ProcessState.Terminated ==> r.signal.Some?) &&
    (r.reason == ProcessState.Stopped ==> r.signal.Some?)
  }

  /** `Display for StopReason`. */
  function Describe(r: StopReason): (s: string)
    requires Renderable(r)
    ensures s == "" <==> r.reason == Running
  {
    match r.reason
    case Exited => ExitedText + IntToString(r.exitStatus.value)
    case Terminated => TerminatedText + r.signal.value
    case Stopped => StoppedText + r.signal.value
    case Running => ""
  }

  /** Reads a description back into the stop reason it describes. */
  function ParseDescription(s: string): Option<StopReason> {
    if s == "" then
      Some(StopReason(Running, None, None))
    else if ExitedText <= s then
      match ParseInt(s[|ExitedText|..])
      case Some(code) => Some(StopReason(ProcessState.Exited, Some(code), None))
      case None => None
    else if TerminatedText <= s then
      Some(StopReason(ProcessState.Terminated, None, Some(s[|TerminatedText|..])))
    else if StoppedText <= s then
      Some(StopReason(ProcessState.Stopped, None, Some(s[|StoppedText|..])))
    else
      None
  }

  lemma PrefixThenRest(p: string, x: string)
    ensures p <= p + x && (p + x)[|p|..] == x
  {
    assert (p + x)[..|p|] == p;
  }

  /** No two consistent stop reasons share a description: it can be read back. */
  lemma DescribeRoundTrip(r: StopReason)
    requires Consistent(r)
    ensures ParseDescription(Describe(r)) == Some(r)
  {
    match r.reason
    case Exited =>
      PrefixThenRest(ExitedText, IntToString(r.exitStatus.value));
      IntRoundTrip(r.exitStatus.value);
    case Terminated =>
      PrefixThenRest(TerminatedText, r.signal.value);
      assert !(ExitedText <= Describe(r)) by { assert Describe(r)[0] != ExitedText[0]; }
    case Stopped =>
      PrefixThenRest(StoppedText, r.signal.value);
      assert !(ExitedText <= Describe(r)) by { assert Describe(r)[0] != ExitedText[0]; }
      assert !(TerminatedText <= Describe(r)) by { assert Describe(r)[0] != TerminatedText[0]; }
    case Running =>
  }

  /** The text of a decoded wait result names the event and its detail. */
  lemma DescribeDecoded(ws: WaitStatus)
    requires Handled(ws)
    ensures ws.Exited? ==> Describe(Decode(ws)) == ExitedText + IntToString(ws.status)
    ensures ws.Signaled? ==> Describe(Decode(ws)) == TerminatedText + Name(ws.sig)
    ensures ws.Stopped? ==> Describe(Decode(ws)) == StoppedText + Name(ws.sig)
    ensures ParseDescription(Describe(Decode(ws))) == Some(Decode(ws))
    ensures !ws.Exited? ==> FromName(Decode(ws).signal.value) == Some(ws.sig)
  {
    DescribeRoundTrip(Decode(ws));
    if !ws.Exited? {
      NameRoundTrip(ws.sig);
    }
  }

  // ---------------------------------------------------------------------------
  // The operating system, as a log of the calls made to it

  /** One call into the operating system. */
  datatype OsAction =
    | Fork
    | PtraceAttach(pid: int)
    | PtraceCont(pid: int)
    | PtraceDetach(pid: int)
    | WaitPid(pid: int)
    | Kill(pid: int, sig: Signal)

  class Os {
    var log: seq<OsAction>

    constructor ()
      ensures log == []
    {
      log := [];
    }

    method Record(a: OsAction)
      modifies this
      ensures log == old(log) + [a]
    {
      log := log + [a];
    }
  }

  // ---------------------------------------------------------------------------
  // Teardown

  /**
   * The calls `Drop for Process` makes, in order, for a process with this
   * pid, state and ownership. Their outcomes are ignored.
   */
  function TeardownActions(pid: int, state: ProcessState, terminateOnEnd: bool): (t: seq<OsAction>)
    ensures t == [] <==> pid == 0
    ensures pid != 0 ==> |t| == 2 + (if state == Running then 2 else 0) + (if terminateOnEnd then 2 else 0)
  {
    if pid == 0 then []
    else
      (if state == Running then [Kill(pid, SIGSTOP), WaitPid(pid)] else [])
      + [PtraceDetach(pid), Kill(pid, SIGCONT)]
      + (if terminateOnEnd then [Kill(pid, SIGKILL), WaitPid(pid)] else [])
  }

  /** Every occurrence of `a` in `t` comes before every occurrence of `b`. */
  predicate Before(t: seq<OsAction>, a: OsAction, b: OsAction) {
    forall i, j :: 0 <= i < |t| && 0 <= j < |t| && t[i] == a && t[j] == b ==> i < j
  }

  /** Which process a call is about; fork is about none. */
  function Target(a: OsAction): Option<int> {
    if a.Fork? then None else Some(a.pid)
  }

  /** The sentinel pid 0 is never torn down. */
  lemma TeardownOfSentinel(state: ProcessState, terminateOnEnd: bool)
    ensures TeardownActions(0, state, terminateOnEnd) == []
  {
  }

  /** A real process is detached exactly once, and is sent SIGCONT right after. */
  lemma TeardownDetachesThenContinues(pid: int, state: ProcessState, terminateOnEnd: bool)
    requires pid != 0
    ensures var t := TeardownActions(pid, state, terminateOnEnd);
      var d := if state == Running then 2 else 0;
      d + 1 < |t| && t[d] == PtraceDetach(pid) && t[d + 1] == Kill(pid, SIGCONT) &&
      (forall i :: 0 <= i < |t| && i != d ==> t[i] != PtraceDetach(pid)) &&
      Before(t, PtraceDetach(pid), Kill(pid, SIGCONT))
  {
  }

  /**
   * A running process is stopped, and waited for, before it is detached;
   * a process that is not running is sent no SIGSTOP.
   */
  lemma TeardownStopsBeforeDetach(pid: int, state: ProcessState, terminateOnEnd: bool)
    requires pid != 0
    ensures var t := TeardownActions(pid, state, terminateOnEnd);
      (Kill(pid, SIGSTOP) in t <==> state == Running) &&
      (state == Running ==> t[0] == Kill(pid, SIGSTOP) && t[1] == WaitPid(pid)) &&
      Before(t, Kill(pid, SIGSTOP), PtraceDetach(pid))
  {
  }

  /**
   * Only a process the session launched is killed, and then after it was
   * detached and continued, followed by a wait for it to exit.
   */
  lemma TeardownKillsOnlyOwned(pid: int, state: ProcessState, terminateOnEnd: bool)
    ensures var t := TeardownActions(pid, state, terminateOnEnd);
      (Kill(pid, SIGKILL) in t <==> pid != 0 && terminateOnEnd) &&
      (Kill(pid, SIGKILL) in t ==> t[|t| - 2] == Kill(pid, SIGKILL) && t[|t| - 1] == WaitPid(pid)) &&
      Before(t, PtraceDetach(pid), Kill(pid, SIGKILL)) &&
      Before(t, Kill(pid, SIGCONT), Kill(pid, SIGKILL))
  {
  }

  /** Teardown touches the owned process only. */
  lemma TeardownTargetsOwnProcess(pid: int, state: ProcessState, terminateOnEnd: bool)
    ensures forall a :: a in TeardownActions(pid, state, terminateOnEnd) ==> Target(a) == Some(pid)
  {
  }

  // ---------------------------------------------------------------------------
  // The process object

  /** One traced process, owned by the debugger session. */
  class Process {
    var pid: int
    var terminateOnEnd: bool
    var state: ProcessState

    /** The record the parent builds before its first wait. */
    constructor (pid: int, terminateOnEnd: bool)
      ensures this.pid == pid && this.terminateOnEnd == terminateOnEnd && state == ProcessState.Stopped
    {
      this.pid := pid;
      this.terminateOnEnd := terminateOnEnd;
      state := ProcessState.Stopped;
    }

    /**
     * `Process::launch`, parent side. `forked` is what fork returned to the
     * parent (the child's pid, or `None` if fork failed) and `waited` what
     * the first wait reported (`None` if it failed). A wait failure drops the
     * new process, so it is torn down before the error is returned.
     */
    static method Launch(os: Os, forked: Option<int>, waited: Option<WaitStatus>)
      returns (r: Result<Process, ProcessError>)
      requires waited.Some? ==> Handled(waited.value)
      modifies os
      ensures forked.None? ==> r == Err(ProcessError.Fork) && os.log == old(os.log) + [OsAction.Fork]
      ensures forked.Some? && waited.None? ==>
        r == Err(ProcessError.Wait) &&
        os.log == old(os.log) + [OsAction.Fork, WaitPid(forked.value)] + TeardownActions(forked.value, ProcessState.Stopped, true)
      ensures forked.Some? && waited.Some? ==>
        r.Ok? && fresh(r.value) &&
        r.value.pid == forked.value && r.value.terminateOnEnd &&
        r.value.state == Decode(waited.value).reason &&
        os.log == old(os.log) + [OsAction.Fork, WaitPid(forked.value)]
    {
      os.Record(OsAction.Fork);
      if forked.None? {
        return Err(ProcessError.Fork);
      }
      var process := new Process(forked.value, true);
      var reason := process.WaitOnSignal(os, waited);
      if reason.Err? {
        process.Drop(os);
        return Err(ProcessError.Wait);
      }
      return Ok(process);
    }

    /**
     * `Process::attach`. `attached` says whether the attach request
     * succeeded and `waited` what the first wait reported. Pid 0 is refused
     * before any call is made; a wait failure drops the new process.
     */
    static method Attach(os: Os, pid: int, attached: bool, waited: Option<WaitStatus>)
      returns (r: Result<Process, ProcessError>)
      requires waited.Some? ==> Handled(waited.value)
      modifies os
      ensures pid == 0 ==> r == Err(InvalidPid) && os.log == old(os.log)
      ensures pid != 0 && !attached ==> r == Err(ProcessError.Attach) && os.log == old(os.log) + [PtraceAttach(pid)]
      ensures pid != 0 && attached && waited.None? ==>
        r == Err(ProcessError.Wait) &&
        os.log == old(os.log) + [PtraceAttach(pid), WaitPid(pid)] + TeardownActions(pid, ProcessState.Stopped, false)
      ensures pid != 0 && attached && waited.Some? ==>
        r.Ok? && fresh(r.value) &&
        r.value.pid == pid && !r.value.terminateOnEnd &&
        r.value.state == Decode(waited.value).reason &&
        os.log == old(os.log) + [PtraceAttach(pid), WaitPid(pid)]
    {
      if pid == 0 {
        return Err(InvalidPid);
      }
      os.Record(PtraceAttach(pid));
      if !attached {
        return Err(ProcessError.Attach);
      }
      var process := new Process(pid, false);
      var reason := process.WaitOnSignal(os, waited);
      if reason.Err? {
        process.Drop(os);
        return Err(ProcessError.Wait);
      }
      return Ok(process);
    }

    /**
     * `resume`: asks the OS to continue the process (`continued` is whether
     * it agreed) and only then records it as running.
     */
    method Resume(os: Os, continued: bool) returns (r: Result<(), ProcessError>)
      modifies this`state, os
      ensures os.log == old(os.log) + [PtraceCont(pid)]
      ensures continued ==> r == Ok(()) && state == Running
      ensures !continued ==> r == Err(ProcessError.Resume) && state == old(state)
    {
      os.Record(PtraceCont(pid));
      if !continued {
        return Err(ProcessError.Resume);
      }
      state := Running;
      return Ok(());
    }

    /**
     * `wait_on_signal`: blocks for the next state change (`waited`, `None`
     * if the wait failed); on success the state becomes the decoded one.
     */
    method WaitOnSignal(os: Os, waited: Option<WaitStatus>) returns (r: Result<StopReason, ProcessError>)
      requires waited.Some? ==> Handled(waited.value)
      modifies this`state, os
      ensures os.log == old(os.log) + [WaitPid(pid)]
      ensures waited.None? ==> r == Err(ProcessError.Wait) && state == old(state)
      ensures waited.Some? ==>
        r == Ok(Decode(waited.value)) && state == r.value.reason && state != Running
    {
      os.Record(WaitPid(pid));
      if waited.None? {
        return Err(ProcessError.Wait);
      }
      var reason := Decode(waited.value);
      state := reason.reason;
      return Ok(reason);
    }

    /**
     * `Drop for Process`: the best-effort teardown. Every call is made
     * whatever the previous one returned.
     */
    method Drop(os: Os)
      modifies os
      ensures os.log == old(os.log) + TeardownActions(pid, state, terminateOnEnd)
    {
      if pid == 0 {
        return;
      }
      if state == Running {
        os.Record(Kill(pid, SIGSTOP));
        os.Record(WaitPid(pid));
      }
      os.Record(PtraceDetach(pid));
      os.Record(Kill(pid, SIGCONT));
      if terminateOnEnd {
        os.Record(Kill(pid, SIGKILL));
        os.Record(WaitPid(pid));
      }
    }
  }
}
