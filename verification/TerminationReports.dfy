/** What a termination reports: which exit status, and for which poll, send or wait each error stands. */
module TerminationReports {
  import opened Events
  import opened Termination

  /** How the operating system responded to the attempt number `i`; the kill comes last. */
  function ResponseTo(env: Environment, i: nat): Response
  {
    if i < |env.phases| then env.phases[i] else env.kill
  }

  // ------------------------------------------------------------------------- the exit status

  /** The reported status is the one that was observed: by the poll, and then nothing is attempted, or
      by the last attempt. Without one, no attempt observed an exit. */
  lemma StatusIsObserved(steps: seq<TerminationStep>, env: Environment)
    requires Answers(env, steps)
    ensures var a := Terminated(steps, env);
            if env.reap.AlreadyExited? then a == Attempt(Some(env.reap.status), [], [], 0)
            else
              && a.signals != []
              && (a.status.Some? ==> ResponseTo(env, |a.signals| - 1).wait == Exited(a.status.value))
              && (a.status.None? ==> |a.signals| == |steps| + 1 && !env.kill.wait.Exited?)
              && (forall i :: 0 <= i < |a.signals| - 1 ==> !ResponseTo(env, i).wait.Exited?)
  {
  }

  // ------------------------------------------------------------------------- the errors

  /** The error says what went wrong in an attempt to terminate with `signal`: its send failed; or it
      was sent, and the wait timed out or failed; or its send failed, and so did the wait after that. */
  predicate Tells(e: AttemptError, signal: string, r: Response)
  {
    match e.action
    case SendSignal(name) => name == signal && r.send == SendFailed(e.code)
    case WaitForExit => r.send.Sent? && (r.wait == WaitFailed(e.code) || (r.wait.TimedOut? && e.code == TIMED_OUT))
    case CheckStatus => r.send.SendFailed? && r.wait == WaitFailed(e.code)
  }

  /** The error tells what went wrong in attempt `i`, or in the poll if that is -1. */
  predicate TellsOf(e: AttemptError, i: int, reap: Reap, signals: seq<string>, responses: seq<Response>)
    requires |signals| == |responses|
  {
    if i == -1 then reap == ReapFailed(e.code) && e.action.CheckStatus?
    else 0 <= i < |signals| && Tells(e, signals[i], responses[i])
  }

  predicate IsReported(e: AttemptError, i: int, errors: seq<AttemptError>, about: seq<int>)
    requires |errors| == |about|
  {
    exists j :: 0 <= j < |errors| && about[j] == i && errors[j] == e
  }

  /** `about` says what each error is about. Every error tells of its attempt, they are in the order of
      the attempts, and of one attempt only a failed send and the failed wait after it, in this order;
      and everything that went wrong is reported. */
  ghost predicate IsAccurate(errors: seq<AttemptError>, about: seq<int>, reap: Reap, signals: seq<string>,
                             responses: seq<Response>)
  {
    && |errors| == |about| && |signals| == |responses|
    && (forall j :: 0 <= j < |errors| ==> TellsOf(errors[j], about[j], reap, signals, responses))
    && (forall j, k :: 0 <= j < k < |errors| ==>
          || about[j] < about[k]
          || (about[j] == about[k] && errors[j].action.SendSignal? && errors[k].action.CheckStatus?))
    && (reap.ReapFailed? ==> IsReported(AttemptError(CheckStatus, reap.code), -1, errors, about))
    && (forall e, i :: 0 <= i < |signals| && Tells(e, signals[i], responses[i]) ==> IsReported(e, i, errors, about))
  }

  lemma PollIsAccurate(reap: Reap) returns (about: seq<int>)
    ensures IsAccurate(ReapErrors(reap), about, reap, [], [])
  {
    about := if reap.ReapFailed? then [-1] else [];
    if reap.ReapFailed? {
      assert ReapErrors(reap)[0] == AttemptError(CheckStatus, reap.code);
    }
  }

  /** The errors of one attempt by themselves. */
  lemma PhaseTells(signal: string, r: Response)
    ensures var errors := PhaseErrors(signal, r);
            && (forall j :: 0 <= j < |errors| ==> Tells(errors[j], signal, r))
            && (forall j, k :: 0 <= j < k < |errors| ==> errors[j].action.SendSignal? && errors[k].action.CheckStatus?)
            && (forall e :: Tells(e, signal, r) ==> e in errors)
  {
    var errors := PhaseErrors(signal, r);
    forall e | Tells(e, signal, r) ensures e in errors {
      match e.action
      case SendSignal(_) => assert errors[0] == e;
      case WaitForExit => assert errors[0] == e;
      case CheckStatus => assert errors[1] == e;
    }
  }

  /** One more attempt. */
  lemma AttemptIsAccurate(errors: seq<AttemptError>, about: seq<int>, reap: Reap, signals: seq<string>,
                          responses: seq<Response>, signal: string, r: Response) returns (more: seq<int>)
    requires IsAccurate(errors, about, reap, signals, responses)
    ensures IsAccurate(errors + PhaseErrors(signal, r), more, reap, signals + [signal], responses + [r])
  {
    PhaseTells(signal, r);
    var n, added := |signals|, PhaseErrors(signal, r);
    more := about + seq(|added|, _ => n);
    var all, names, rs := errors + added, signals + [signal], responses + [r];
    forall j | 0 <= j < |all| ensures TellsOf(all[j], more[j], reap, names, rs) {
      if j < |errors| {
        assert TellsOf(errors[j], about[j], reap, signals, responses);
      } else {
        assert all[j] == added[j - |errors|];
      }
    }
    MoreInOrder(errors, about, reap, signals, responses, added);
    StillReported(errors, about, added, more);
    forall e, i | 0 <= i < |names| && Tells(e, names[i], rs[i]) ensures IsReported(e, i, all, more) {
      if i == n {
        var j :| 0 <= j < |added| && added[j] == e;
        assert all[|errors| + j] == e && more[|errors| + j] == n;
      } else {
        assert Tells(e, signals[i], responses[i]);
      }
    }
  }

  lemma MoreInOrder(errors: seq<AttemptError>, about: seq<int>, reap: Reap, signals: seq<string>,
                    responses: seq<Response>, added: seq<AttemptError>)
    requires IsAccurate(errors, about, reap, signals, responses)
    requires forall j, k :: 0 <= j < k < |added| ==> added[j].action.SendSignal? && added[k].action.CheckStatus?
    ensures var all, more := errors + added, about + seq(|added|, _ => |signals|);
            forall j, k :: 0 <= j < k < |all| ==>
              more[j] < more[k] || (more[j] == more[k] && all[j].action.SendSignal? && all[k].action.CheckStatus?)
  {
    var all, more := errors + added, about + seq(|added|, _ => |signals|);
    forall j, k | 0 <= j < k < |all|
      ensures more[j] < more[k] || (more[j] == more[k] && all[j].action.SendSignal? && all[k].action.CheckStatus?)
    {
      if j < |errors| {
        assert TellsOf(errors[j], about[j], reap, signals, responses);
        assert all[j] == errors[j];
      } else {
        assert all[j] == added[j - |errors|] && all[k] == added[k - |errors|];
      }
    }
  }

  lemma StillReported(errors: seq<AttemptError>, about: seq<int>, added: seq<AttemptError>, more: seq<int>)
    requires |errors| == |about| && about <= more && |more| == |errors + added|
    ensures forall e, i :: IsReported(e, i, errors, about) ==> IsReported(e, i, errors + added, more)
  {
    forall e, i | IsReported(e, i, errors, about) ensures IsReported(e, i, errors + added, more) {
      var j :| 0 <= j < |errors| && about[j] == i && errors[j] == e;
      assert (errors + added)[j] == e && more[j] == i;
    }
  }

  lemma {:induction false} PhasesAreAccurate(steps: seq<TerminationStep>, env: Environment, n: nat)
    returns (about: seq<int>)
    requires Answers(env, steps) && n <= |steps|
    ensures IsAccurate(ReapErrors(env.reap) + AllErrors(steps, env.phases, n), about, env.reap, Labels(steps, n),
                       env.phases[..n])
    decreases n
  {
    if n == 0 {
      about := PollIsAccurate(env.reap);
      assert ReapErrors(env.reap) + [] == ReapErrors(env.reap);
    } else {
      var before := PhasesAreAccurate(steps, env, n - 1);
      var errors, signal, r := AllErrors(steps, env.phases, n - 1), steps[n - 1].signal, env.phases[n - 1];
      about := AttemptIsAccurate(ReapErrors(env.reap) + errors, before, env.reap, Labels(steps, n - 1),
                                 env.phases[..n - 1], signal, r);
      Assoc(ReapErrors(env.reap), errors, PhaseErrors(signal, r));
      assert env.phases[..n - 1] + [r] == env.phases[..n];
    }
  }

  /** The responses to what a termination attempted. */
  function Responses(env: Environment, n: nat): (rs: seq<Response>)
    ensures |rs| == n && forall i :: 0 <= i < n ==> rs[i] == ResponseTo(env, i)
  {
    seq(n, i requires 0 <= i < n => ResponseTo(env, i))
  }

  /** The errors of every termination of a child that had not exited before are accurate. A failed poll
      comes first. */
  lemma ErrorsAreAccurate(steps: seq<TerminationStep>, env: Environment) returns (about: seq<int>)
    requires Answers(env, steps) && !env.reap.AlreadyExited?
    ensures var a := Terminated(steps, env);
            && IsAccurate(a.errors, about, env.reap, a.signals, Responses(env, |a.signals|))
            && (env.reap.ReapFailed? ==> a.errors != [] && a.errors[0] == AttemptError(CheckStatus, env.reap.code))
  {
    var a, k := Terminated(steps, env), FirstExit(env.phases);
    var n := if k < |steps| then k + 1 else k;
    about := PhasesAreAccurate(steps, env, n);
    if k == |steps| {
      about := AttemptIsAccurate(ReapErrors(env.reap) + AllErrors(steps, env.phases, n), about, env.reap,
                                 Labels(steps, n), env.phases[..n], KILL_LABEL, env.kill);
      assert env.phases[..n] + [env.kill] == Responses(env, |a.signals|);
    } else {
      assert env.phases[..n] == Responses(env, |a.signals|);
    }
  }
}
