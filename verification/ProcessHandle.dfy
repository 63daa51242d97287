/** The process handle: drop guards, waiting and the termination loop. */
module ProcessHandles {
  import opened Events
  import opened Termination

  /** While armed, dropping the handle kills the child and an armed panic guard raises a panic. */
  datatype DropMode = Armed(panicArmed: bool) | Disarmed

  datatype TerminationResult = ExitStatus(status: int) | TerminationFailed(errors: seq<AttemptError>)

  datatype WaitOrTerminateResult =
    | Completed(status: int)
    | TerminatedAfterTimeout(status: int)
    | WaitFailedButTerminated(code: int, status: int)
    | TerminationAfterTimeoutFailed(errors: seq<AttemptError>)
    | WaitAndTerminationFailed(code: int, errors: seq<AttemptError>)

  /** The last two fields are history: the signals attempted and the time spent waiting. */
  class ProcessHandle {
    var dropMode: DropMode
    var stdinOpen: bool
    var panicked: bool
    ghost var signals: seq<string>
    ghost var elapsed: nat

    constructor ()
      ensures dropMode == Armed(true) && stdinOpen && !panicked && signals == [] && elapsed == 0
    {
      dropMode, stdinOpen, panicked, signals, elapsed := Armed(true), true, false, [], 0;
    }

    /** Replacing the mode drops the old one, and an armed panic guard in it fires. */
    method ReplaceDropMode(mode: DropMode)
      modifies this`dropMode, this`panicked
      ensures dropMode == mode
      ensures panicked == (old(panicked) || old(dropMode) == Armed(true))
    {
      if dropMode.Armed? && dropMode.panicArmed {
        panicked := true;
      }
      dropMode := mode;
    }

    /** Arms the guards without ever setting off the one that is replaced. */
    method MustBeTerminated()
      modifies this`dropMode, this`panicked
      ensures dropMode == Armed(true) && panicked == old(panicked)
    {
      if !(dropMode.Armed? && dropMode.panicArmed) {
        ReplaceDropMode(Armed(true));
      }
    }

    /** Disarms the guards; the panic guard is defused first, so that it does not fire. */
    method MustNotBeTerminated()
      modifies this`dropMode, this`panicked
      ensures dropMode == Disarmed && panicked == old(panicked)
    {
      if dropMode.Armed? {
        dropMode := Armed(false);
      }
      ReplaceDropMode(Disarmed);
    }

    /** Dropping the handle: an armed one attempts a kill, and its panic guard fires. */
    method Drop()
      modifies this
      ensures signals == old(signals) + if old(dropMode).Armed? then [KILL_LABEL] else []
      ensures panicked == (old(panicked) || old(dropMode) == Armed(true))
    {
      if dropMode.Armed? {
        SendSignal(KILL_LABEL);
        if dropMode.panicArmed {
          panicked := true;
        }
      }
    }

    method SendSignal(signal: string)
      modifies this`signals
      ensures signals == old(signals) + [signal]
    {
      signals := signals + [signal];
    }

    /** A wait with a timeout, whose outcome is the environment's. Only an observed exit disarms. */
    method WaitForExit(outcome: WaitOutcome, duration: nat) returns (result: WaitOutcome)
      modifies this
      ensures result == outcome && !stdinOpen && elapsed == old(elapsed) + duration
      ensures dropMode == if outcome.Exited? then Disarmed else old(dropMode)
      ensures signals == old(signals) && panicked == old(panicked)
    {
      stdinOpen := false;
      elapsed := elapsed + duration;
      match outcome {
        case Exited(_) => MustNotBeTerminated();
        case TimedOut =>
        case WaitFailed(_) =>
      }
      result := outcome;
    }

    /** One graceful phase: the child's status if it exited, and the errors so far. */
    method AttemptGracefulPhase(signal: string, r: Response, recorded: seq<AttemptError>)
      returns (status: Option<int>, errors: seq<AttemptError>)
      modifies this
      ensures status == StatusOf(r.wait) && errors == recorded + PhaseErrors(signal, r)
      ensures signals == old(signals) + [signal] && elapsed == old(elapsed) + r.elapsed && !stdinOpen
      ensures dropMode == if status.Some? then Disarmed else old(dropMode)
      ensures panicked == old(panicked)
    {
      errors := recorded;
      SendSignal(signal);
      match r.send {
        case Sent =>
          var outcome := WaitForExit(r.wait, r.elapsed);
          match outcome {
            case Exited(s) =>
              status := Some(s);
            case TimedOut =>
              errors := errors + [AttemptError(TerminationAction.WaitForExit, TIMED_OUT)];
              status := None;
            case WaitFailed(code) =>
              errors := errors + [AttemptError(TerminationAction.WaitForExit, code)];
              status := None;
          }
        case SendFailed(sendCode) =>
          errors := errors + [AttemptError(TerminationAction.SendSignal(signal), sendCode)];
          var outcome := WaitForExit(r.wait, r.elapsed);
          match outcome {
            case Exited(s) =>
              status := Some(s);
            case TimedOut =>
              status := None;
            case WaitFailed(code) =>
              errors := errors + [AttemptError(CheckStatus, code)];
              status := None;
          }
      }
    }

    /** The kill fallback. A failure always has an error to report. */
    method AttemptForcefulKill(r: Response, recorded: seq<AttemptError>) returns (result: TerminationResult)
      modifies this
      ensures result == if r.wait.Exited? then ExitStatus(r.wait.status)
                        else TerminationFailed(recorded + PhaseErrors(KILL_LABEL, r))
      ensures result.TerminationFailed? ==> result.errors != []
      ensures signals == old(signals) + [KILL_LABEL] && elapsed == old(elapsed) + r.elapsed && !stdinOpen
      ensures dropMode == if result.ExitStatus? then Disarmed else old(dropMode)
      ensures panicked == old(panicked)
    {
      var status, errors := AttemptGracefulPhase(KILL_LABEL, r, recorded);
      result := if status.Some? then ExitStatus(status.value) else TerminationFailed(errors);
    }

    /** The graceful phases, up to the first one during which the child exits. */
    method RunPhases(steps: seq<TerminationStep>, phases: seq<Response>, recorded: seq<AttemptError>)
      returns (status: Option<int>, errors: seq<AttemptError>)
      requires |steps| == |phases|
      modifies this
      ensures var k := FirstExit(phases);
              var n := if k < |steps| then k + 1 else k;
              && status == (if k < |steps| then Some(phases[k].wait.status) else None)
              && RanThrough(steps, phases, n, recorded, errors, old(signals), signals)
              && elapsed == old(elapsed) + TotalElapsed(phases, n)
              && stdinOpen == (old(stdinOpen) && n == 0)
      ensures dropMode == if status.Some? then Disarmed else old(dropMode)
      ensures panicked == old(panicked)
    {
      ghost var k := FirstExit(phases);
      status, errors := None, recorded;
      var i := 0;
      while i < |steps| && status.None?
        invariant 0 <= i <= |steps|
        invariant if status.None? then i <= k else i == k + 1 && status == Some(phases[k].wait.status)
        invariant RanThrough(steps, phases, i, recorded, errors, old(signals), signals)
        invariant elapsed == old(elapsed) + TotalElapsed(phases, i)
        invariant stdinOpen == (old(stdinOpen) && i == 0)
        invariant dropMode == if status.Some? then Disarmed else old(dropMode)
        invariant panicked == old(panicked)
      {
        OnePhaseMore(steps, phases, i, recorded, errors, old(signals), signals);
        status, errors := AttemptGracefulPhase(steps[i].signal, phases[i], errors);
        i := i + 1;
      }
    }

    /** The whole escalation does exactly what its closed form says. A success disarms the guards, a
        failure leaves them as they were. */
    method RunTerminationLoop(steps: seq<TerminationStep>, env: Environment) returns (result: TerminationResult)
      requires Answers(env, steps)
      modifies this
      ensures Did(Terminated(steps, env), result, old(signals), signals, old(elapsed), elapsed)
      ensures stdinOpen == (old(stdinOpen) && env.reap.AlreadyExited?)
      ensures dropMode == if result.ExitStatus? then Disarmed else old(dropMode)
      ensures panicked == old(panicked)
    {
      match env.reap {
        case AlreadyExited(status) =>
          result := ExitStatus(status);
        case StillRunning =>
          result := Escalate(steps, env, []);
        case ReapFailed(code) =>
          result := Escalate(steps, env, [AttemptError(CheckStatus, code)]);
      }
      if result.ExitStatus? {
        MustNotBeTerminated();
      }
    }

    /** The phases and, if none of them sees the child exit, the kill. */
    method Escalate(steps: seq<TerminationStep>, env: Environment, recorded: seq<AttemptError>)
      returns (result: TerminationResult)
      requires Answers(env, steps) && !env.reap.AlreadyExited? && recorded == ReapErrors(env.reap)
      modifies this
      ensures Did(Terminated(steps, env), result, old(signals), signals, old(elapsed), elapsed)
      ensures !stdinOpen
      ensures dropMode == if result.ExitStatus? then Disarmed else old(dropMode)
      ensures panicked == old(panicked)
    {
      var status, errors := RunPhases(steps, env.phases, recorded);
      if status.Some? {
        result := ExitStatus(status.value);
      } else {
        result := AttemptForcefulKill(env.kill, errors);
      }
    }

    /** Kill and wait without a timeout. */
    method Kill(r: Response) returns (result: TerminationResult)
      requires !r.wait.TimedOut?
      modifies this
      ensures result ==
                if r.send.SendFailed? then
                  TerminationFailed([AttemptError(TerminationAction.SendSignal(KILL_LABEL), r.send.code)])
                else if r.wait.Exited? then ExitStatus(r.wait.status)
                else TerminationFailed(PhaseErrors(KILL_LABEL, r))
      ensures elapsed == old(elapsed) + if r.send.Sent? then r.elapsed else 0
      ensures signals == old(signals) + [KILL_LABEL] && !stdinOpen
      ensures dropMode == if result.ExitStatus? then Disarmed else old(dropMode)
      ensures panicked == old(panicked)
    {
      stdinOpen := false;
      SendSignal(KILL_LABEL);
      if r.send.SendFailed? {
        return TerminationFailed([AttemptError(TerminationAction.SendSignal(KILL_LABEL), r.send.code)]);
      }
      var outcome := WaitForExit(r.wait, r.elapsed);
      match outcome {
        case Exited(status) => result := ExitStatus(status);
        case WaitFailed(code) => result := TerminationFailed([AttemptError(TerminationAction.WaitForExit, code)]);
      }
    }

    /** Kill without waiting: a child that has already exited counts as killed. */
    method StartKill(send: SendOutcome, reap: Reap) returns (failure: Option<seq<AttemptError>>)
      modifies this
      ensures failure.None? <==> send.Sent? || reap.AlreadyExited?
      ensures failure.Some? ==>
                failure.value == [AttemptError(TerminationAction.SendSignal(KILL_LABEL), send.code)] + ReapErrors(reap)
      ensures signals == old(signals) + [KILL_LABEL] && !stdinOpen && elapsed == old(elapsed)
      ensures dropMode == if failure.None? then Disarmed else old(dropMode)
      ensures panicked == old(panicked)
    {
      stdinOpen := false;
      SendSignal(KILL_LABEL);
      if send.SendFailed? {
        var errors := [AttemptError(TerminationAction.SendSignal(KILL_LABEL), send.code)];
        match reap {
          case AlreadyExited(_) =>
          case StillRunning => return Some(errors);
          case ReapFailed(code) => return Some(errors + [AttemptError(CheckStatus, code)]);
        }
      }
      MustNotBeTerminated();
      failure := None;
    }

    /** Wait for completion, and terminate if that times out or fails. A completed wait attempts no
        signal. */
    method WaitForCompletionOrTerminate(wait: WaitOutcome, duration: nat, steps: seq<TerminationStep>, env: Environment)
      returns (result: WaitOrTerminateResult)
      requires Answers(env, steps)
      modifies this
      ensures var a := Terminated(steps, env);
              match wait
              case Exited(status) =>
                result == Completed(status) && signals == old(signals) && elapsed == old(elapsed) + duration
              case TimedOut =>
                && signals == old(signals) + a.signals && elapsed == old(elapsed) + duration + a.elapsed
                && result == if a.status.Some? then TerminatedAfterTimeout(a.status.value)
                             else TerminationAfterTimeoutFailed(a.errors)
              case WaitFailed(code) =>
                && signals == old(signals) + a.signals && elapsed == old(elapsed) + duration + a.elapsed
                && result == if a.status.Some? then WaitFailedButTerminated(code, a.status.value)
                             else WaitAndTerminationFailed(code, a.errors)
      ensures dropMode == if result.TerminationAfterTimeoutFailed? || result.WaitAndTerminationFailed? then
                            old(dropMode)
                          else Disarmed
      ensures panicked == old(panicked)
    {
      var outcome := WaitForExit(wait, duration);
      match outcome {
        case Exited(status) =>
          result := Completed(status);
        case TimedOut =>
          var r := RunTerminationLoop(steps, env);
          result := match r
            case ExitStatus(status) => TerminatedAfterTimeout(status)
            case TerminationFailed(errors) => TerminationAfterTimeoutFailed(errors);
        case WaitFailed(code) =>
          var r := RunTerminationLoop(steps, env);
          result := match r
            case ExitStatus(status) => WaitFailedButTerminated(code, status)
            case TerminationFailed(errors) => WaitAndTerminationFailed(code, errors);
      }
    }
  }

  /** A termination behaved as its closed form says, given the history before and after it. */
  ghost predicate Did(a: Attempt, result: TerminationResult, signalsBefore: seq<string>, signalsAfter: seq<string>,
                      before: nat, after: nat)
  {
    && result == (if a.status.Some? then ExitStatus(a.status.value) else TerminationFailed(a.errors))
    && signalsAfter == signalsBefore + a.signals
    && after == before + a.elapsed
  }

  /** The errors and signals after the first `n` phases. */
  ghost predicate RanThrough(steps: seq<TerminationStep>, phases: seq<Response>, n: nat, recorded: seq<AttemptError>,
                             errors: seq<AttemptError>, before: seq<string>, signals: seq<string>)
    requires n <= |steps| == |phases|
  {
    errors == recorded + AllErrors(steps, phases, n) && signals == before + Labels(steps, n)
  }

  lemma OnePhaseMore(steps: seq<TerminationStep>, phases: seq<Response>, n: nat, recorded: seq<AttemptError>,
                     errors: seq<AttemptError>, before: seq<string>, signals: seq<string>)
    requires n < |steps| == |phases| && RanThrough(steps, phases, n, recorded, errors, before, signals)
    ensures RanThrough(steps, phases, n + 1, recorded, errors + PhaseErrors(steps[n].signal, phases[n]),
                       before, signals + [steps[n].signal])
  {
    Assoc(recorded, AllErrors(steps, phases, n), PhaseErrors(steps[n].signal, phases[n]));
    Assoc(before, Labels(steps, n), [steps[n].signal]);
  }
}
