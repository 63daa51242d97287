/** Terminating a child: what the escalation does for every behaviour of the operating system. */
module Termination {
  import opened Events

  /** Durations are in milliseconds. */
  const FORCE_KILL_WAIT_TIMEOUT: nat := 3000

  const REAP_AFTER_SIGNAL_FAILURE_GRACE: nat := 100

  const KILL_LABEL := "SIGKILL"

  /** One graceful phase: the signal to send and how long to wait for the child afterwards. */
  datatype TerminationStep = TerminationStep(signal: string, timeout: nat)

  datatype TerminationAction = CheckStatus | SendSignal(signal: string) | WaitForExit

  /** A failed action and the operating system's error code. */
  datatype AttemptError = AttemptError(action: TerminationAction, code: int)

  const TIMED_OUT: int := -1

  // ------------------------------------------------------------------------- the environment

  /** The outcome of polling the child's state. */
  datatype Reap = AlreadyExited(status: int) | StillRunning | ReapFailed(code: int)

  datatype SendOutcome = Sent | SendFailed(code: int)

  datatype WaitOutcome = Exited(status: int) | TimedOut | WaitFailed(code: int)

  /** How the operating system responds to one signal: to sending it, and to waiting for the child
      afterwards, which takes some time. */
  datatype Response = Response(send: SendOutcome, wait: WaitOutcome, elapsed: nat)

  /** The responses to a whole termination; those of phases that are never reached do not matter. */
  datatype Environment = Environment(reap: Reap, phases: seq<Response>, kill: Response)

  predicate Answers(env: Environment, steps: seq<TerminationStep>)
  {
    |env.phases| == |steps|
  }

  /** The longest a wait may take: a failed send is only granted a short grace. */
  function WaitBound(timeout: nat, send: SendOutcome): nat
  {
    if send.Sent? then timeout else REAP_AFTER_SIGNAL_FAILURE_GRACE
  }

  /** Every wait returns within its bound. */
  predicate Timely(env: Environment, steps: seq<TerminationStep>)
    requires Answers(env, steps)
  {
    && (forall i :: 0 <= i < |steps| ==> env.phases[i].elapsed <= WaitBound(steps[i].timeout, env.phases[i].send))
    && env.kill.elapsed <= WaitBound(FORCE_KILL_WAIT_TIMEOUT, env.kill.send)
  }

  // ------------------------------------------------------------------------- specification

  /** What a part of a termination did: the exit status if the child was seen to exit, the signals
      attempted, the errors recorded, and the time spent waiting. */
  datatype Attempt = Attempt(status: Option<int>, signals: seq<string>, errors: seq<AttemptError>, elapsed: nat)

  /** The errors one phase records. */
  function PhaseErrors(signal: string, r: Response): (errors: seq<AttemptError>)
  {
    if r.send.Sent? then
      match r.wait
      case Exited(_) => []
      case TimedOut => [AttemptError(WaitForExit, TIMED_OUT)]
      case WaitFailed(code) => [AttemptError(WaitForExit, code)]
    else
      [AttemptError(SendSignal(signal), r.send.code)]
      + if r.wait.WaitFailed? then [AttemptError(CheckStatus, r.wait.code)] else []
  }

  function StatusOf(wait: WaitOutcome): Option<int>
  {
    if wait.Exited? then Some(wait.status) else None
  }

  /** The first phase during which the child exits, or the number of phases. */
  function FirstExit(phases: seq<Response>): (k: nat)
    ensures k <= |phases|
    ensures k < |phases| ==> phases[k].wait.Exited?
    ensures forall i :: 0 <= i < k ==> !phases[i].wait.Exited?
  {
    if phases == [] || phases[0].wait.Exited? then 0 else 1 + FirstExit(phases[1..])
  }

  /** The signals of the first `n` phases. */
  function Labels(steps: seq<TerminationStep>, n: nat): (labels: seq<string>)
    requires n <= |steps|
    ensures |labels| == n && forall i :: 0 <= i < n ==> labels[i] == steps[i].signal
  {
    if n == 0 then [] else Labels(steps, n - 1) + [steps[n - 1].signal]
  }

  /** The errors of the first `n` phases. */
  function AllErrors(steps: seq<TerminationStep>, phases: seq<Response>, n: nat): (errors: seq<AttemptError>)
    requires n <= |steps| == |phases|
  {
    if n == 0 then []
    else AllErrors(steps, phases, n - 1) + PhaseErrors(steps[n - 1].signal, phases[n - 1])
  }

  /** The time spent waiting in the first `n` phases. */
  function TotalElapsed(phases: seq<Response>, n: nat): (ms: nat)
    requires n <= |phases|
  {
    if n == 0 then 0 else TotalElapsed(phases, n - 1) + phases[n - 1].elapsed
  }

  function ReapErrors(reap: Reap): (errors: seq<AttemptError>)
  {
    if reap.ReapFailed? then [AttemptError(CheckStatus, reap.code)] else []
  }

  /** The whole escalation in closed form: nothing if the child had already exited, otherwise the
      phases up to the first one during which it exits, and the kill if there is none. */
  function Terminated(steps: seq<TerminationStep>, env: Environment): (a: Attempt)
    requires Answers(env, steps)
  {
    if env.reap.AlreadyExited? then Attempt(Some(env.reap.status), [], [], 0)
    else
      var k := FirstExit(env.phases);
      var n := if k < |steps| then k + 1 else k;
      var errors := ReapErrors(env.reap) + AllErrors(steps, env.phases, n);
      var elapsed := TotalElapsed(env.phases, n);
      if k < |steps| then Attempt(Some(env.phases[k].wait.status), Labels(steps, n), errors, elapsed)
      else Attempt(StatusOf(env.kill.wait), Labels(steps, |steps|) + [KILL_LABEL],
                   errors + PhaseErrors(KILL_LABEL, env.kill), elapsed + env.kill.elapsed)
  }

  // ------------------------------------------------------------------------- properties

  lemma PhaseErrorCount(signal: string, r: Response)
    ensures |PhaseErrors(signal, r)| <= 2
    ensures !r.wait.Exited? ==> |PhaseErrors(signal, r)| >= 1
  {
  }

  lemma {:induction false} ErrorCount(steps: seq<TerminationStep>, phases: seq<Response>, n: nat)
    requires n <= |steps| == |phases|
    requires forall i :: 0 <= i < n ==> !phases[i].wait.Exited?
    ensures n <= |AllErrors(steps, phases, n)| <= 2 * n
  {
    if n > 0 {
      ErrorCount(steps, phases, n - 1);
      PhaseErrorCount(steps[n - 1].signal, phases[n - 1]);
    }
  }

  /** A failed termination has tried every phase in order and then the kill, once each, and reports
      between n+1 and 2n+3 errors for n phases. */
  lemma {:induction false} FailureTriedEverything(steps: seq<TerminationStep>, env: Environment)
    requires Answers(env, steps) && Terminated(steps, env).status.None?
    ensures var a := Terminated(steps, env);
            && a.signals == Labels(steps, |steps|) + [KILL_LABEL]
            && |steps| + 1 <= |a.errors| <= 2 * |steps| + 3
  {
    ErrorCount(steps, env.phases, |steps|);
    PhaseErrorCount(KILL_LABEL, env.kill);
  }

  /** Both bounds on the number of errors are attained. */
  lemma ErrorBoundsAreTight(steps: seq<TerminationStep>) returns (fewest: Environment, most: Environment)
    ensures Answers(fewest, steps) && Answers(most, steps)
    ensures Terminated(steps, fewest).status.None? && |Terminated(steps, fewest).errors| == |steps| + 1
    ensures Terminated(steps, most).status.None? && |Terminated(steps, most).errors| == 2 * |steps| + 3
  {
    var few, many := Response(Sent, TimedOut, 0), Response(SendFailed(1), WaitFailed(2), 0);
    fewest := Environment(StillRunning, seq(|steps|, _ => few), few);
    most := Environment(ReapFailed(0), seq(|steps|, _ => many), many);
    UniformErrors(steps, fewest.phases, few, 1, |steps|);
    UniformErrors(steps, most.phases, many, 2, |steps|);
  }

  lemma {:induction false} UniformErrors(steps: seq<TerminationStep>, phases: seq<Response>, r: Response,
                                         count: nat, n: nat)
    requires n <= |steps| == |phases| && forall i :: 0 <= i < n ==> phases[i] == r
    requires forall signal :: |PhaseErrors(signal, r)| == count
    ensures |AllErrors(steps, phases, n)| == count * n
  {
    if n > 0 {
      UniformErrors(steps, phases, r, count, n - 1);
    }
  }

  /** Signals are attempted in the order of the phases, each at most once and only while no exit was
      observed; the kill is attempted exactly if no poll and no phase observed an exit. */
  lemma SignalsAreInOrder(steps: seq<TerminationStep>, env: Environment)
    requires Answers(env, steps)
    ensures var a := Terminated(steps, env);
            var killed := !env.reap.AlreadyExited? && forall i :: 0 <= i < |steps| ==> !env.phases[i].wait.Exited?;
            && a.signals <= Labels(steps, |steps|) + [KILL_LABEL]
            && (|a.signals| == |steps| + 1 <==> killed)
            && (forall i :: 0 <= i < |a.signals| - 1 && i < |steps| ==> !env.phases[i].wait.Exited?)
            && (a.signals == [] ==> a.status.Some? || steps == [])
  {
  }

  // ------------------------------------------------------------------------- time

  /** The sum of the first `n` phases' timeouts. */
  function TimeoutUpTo(steps: seq<TerminationStep>, n: nat): (ms: nat)
    requires n <= |steps|
  {
    if n == 0 then 0 else TimeoutUpTo(steps, n - 1) + steps[n - 1].timeout
  }

  function TotalTimeout(steps: seq<TerminationStep>): (ms: nat)
  {
    TimeoutUpTo(steps, |steps|)
  }

  function Max(a: nat, b: nat): nat {
    if a < b then b else a
  }

  /** The sum of the first `n` phases' timeouts, each at least the grace after a failed send. */
  function GracedUpTo(steps: seq<TerminationStep>, n: nat): (ms: nat)
    requires n <= |steps|
  {
    if n == 0 then 0 else GracedUpTo(steps, n - 1) + Max(steps[n - 1].timeout, REAP_AFTER_SIGNAL_FAILURE_GRACE)
  }

  function GracedTimeout(steps: seq<TerminationStep>): (ms: nat)
  {
    GracedUpTo(steps, |steps|)
  }

  lemma {:induction false} ElapsedBound(steps: seq<TerminationStep>, phases: seq<Response>, n: nat)
    requires n <= |steps| == |phases|
    requires forall i :: 0 <= i < n ==> phases[i].elapsed <= WaitBound(steps[i].timeout, phases[i].send)
    ensures TotalElapsed(phases, n) <= GracedUpTo(steps, n)
    ensures (forall i :: 0 <= i < n ==> phases[i].send.Sent?) ==> TotalElapsed(phases, n) <= TimeoutUpTo(steps, n)
  {
    if n > 0 {
      ElapsedBound(steps, phases, n - 1);
    }
  }

  lemma {:induction false} TimeoutsGrow(steps: seq<TerminationStep>, n: nat, m: nat)
    requires n <= m <= |steps|
    ensures TimeoutUpTo(steps, n) <= TimeoutUpTo(steps, m) && GracedUpTo(steps, n) <= GracedUpTo(steps, m)
    decreases m
  {
    if n < m {
      TimeoutsGrow(steps, n, m - 1);
    }
  }

  /** Termination finishes within the phases' timeouts, each at least the grace, plus the wait after
      the kill; and within the plain timeouts plus that wait if every graceful send succeeds. */
  lemma TerminationTimeBound(steps: seq<TerminationStep>, env: Environment)
    requires Answers(env, steps) && Timely(env, steps)
    ensures Terminated(steps, env).elapsed <= GracedTimeout(steps) + FORCE_KILL_WAIT_TIMEOUT
    ensures (forall i :: 0 <= i < |steps| ==> env.phases[i].send.Sent?) ==>
              Terminated(steps, env).elapsed <= TotalTimeout(steps) + FORCE_KILL_WAIT_TIMEOUT
  {
    var k := FirstExit(env.phases);
    var n := if k < |steps| then k + 1 else k;
    ElapsedBound(steps, env.phases, n);
    TimeoutsGrow(steps, n, |steps|);
  }

  /** Time spent in the graceful phases. */
  function GracefulElapsed(steps: seq<TerminationStep>, env: Environment): (ms: nat)
    requires Answers(env, steps)
  {
    var k := FirstExit(env.phases);
    if env.reap.AlreadyExited? then 0 else TotalElapsed(env.phases, if k < |steps| then k + 1 else k)
  }

  predicate WithinTotalTimeout(steps: seq<TerminationStep>, env: Environment)
    requires Answers(env, steps)
  {
    Timely(env, steps) ==> GracefulElapsed(steps, env) <= TotalTimeout(steps)
  }

  /** A phase with a short timeout outlasts the total timeout if its signal cannot be sent. */
  lemma ShortPhaseOverruns()
    ensures var steps := [TerminationStep("SIGTERM", 50)];
            var phases := [Response(SendFailed(1), TimedOut, 100)];
            var env := Environment(StillRunning, phases, Response(Sent, Exited(9), 0));
            Timely(env, steps) && GracefulElapsed(steps, env) == 100 && TotalTimeout(steps) == 50
  {
    assert TotalElapsed([Response(SendFailed(1), TimedOut, 100)], 1) == 100;
  }

  /** The total timeout bounds the graceful phases in every environment exactly if no phase's timeout
      is shorter than the grace after a failed send. */
  lemma TotalTimeoutIffNoShortPhase(steps: seq<TerminationStep>)
    ensures (forall env :: Answers(env, steps) ==> WithinTotalTimeout(steps, env))
       <==> (forall i :: 0 <= i < |steps| ==> steps[i].timeout >= REAP_AFTER_SIGNAL_FAILURE_GRACE)
  {
    if forall i :: 0 <= i < |steps| ==> steps[i].timeout >= REAP_AFTER_SIGNAL_FAILURE_GRACE {
      forall env | Answers(env, steps) ensures WithinTotalTimeout(steps, env) {
        if Timely(env, steps) {
          var k := FirstExit(env.phases);
          var n := if k < |steps| then k + 1 else k;
          ElapsedBound(steps, env.phases, n);
          LongPhasesSuffice(steps, n);
          TimeoutsGrow(steps, n, |steps|);
        }
      }
    } else {
      var i :| 0 <= i < |steps| && steps[i].timeout < REAP_AFTER_SIGNAL_FAILURE_GRACE;
      var env := Overrun(steps, i);
      OverrunElapsed(steps, i, |steps|);
      assert !WithinTotalTimeout(steps, env);
    }
  }

  lemma {:induction false} LongPhasesSuffice(steps: seq<TerminationStep>, n: nat)
    requires n <= |steps| && forall i :: 0 <= i < n ==> steps[i].timeout >= REAP_AFTER_SIGNAL_FAILURE_GRACE
    ensures GracedUpTo(steps, n) == TimeoutUpTo(steps, n)
  {
    if n > 0 {
      LongPhasesSuffice(steps, n - 1);
    }
  }

  /** Every phase times out, and the signal of phase `i` cannot be sent. */
  function Overrun(steps: seq<TerminationStep>, i: nat): (env: Environment)
    ensures Answers(env, steps) && Timely(env, steps) && FirstExit(env.phases) == |steps|
  {
    var phases := seq(|steps|, j requires 0 <= j < |steps| =>
      if j == i then Response(SendFailed(1), TimedOut, REAP_AFTER_SIGNAL_FAILURE_GRACE)
      else Response(Sent, TimedOut, steps[j].timeout));
    Environment(StillRunning, phases, Response(Sent, Exited(9), 0))
  }

  lemma {:induction false} OverrunElapsed(steps: seq<TerminationStep>, i: nat, n: nat)
    requires i < |steps| && n <= |steps|
    ensures TotalElapsed(Overrun(steps, i).phases, n) ==
              TimeoutUpTo(steps, n) + if i < n then REAP_AFTER_SIGNAL_FAILURE_GRACE - steps[i].timeout else 0
  {
    if n > 0 {
      OverrunElapsed(steps, i, n - 1);
    }
  }
}
