/**
 * The Windows service wrapper: `Execute` answers the service manager's requests around one
 * life of the application, and `runAndBlock` combines the errors of the application with
 * that of the service runner.
 */
module WindowsService {
  import opened Wrappers

  type AppError = nat

  datatype Cmd = Stop | Shutdown | Interrogate | OtherCmd(code: nat)

  datatype State = StartPending | Running | StopPending | OtherState(code: nat)

  /** `accepts` lists the commands the service takes. */
  datatype Status = Status(state: State, accepts: set<Cmd>)

  datatype Request = Request(cmd: Cmd, current: Status)

  /** What `Execute` does, in its order: it reports statuses and calls the application. */
  datatype Action = Report(status: Status) | StartApp | StopApp

  /**
   * What one call of `Execute` meets: the requests on its channel, and what the application
   * returns from `Start` and `Stop`.
   */
  datatype Session = Session(requests: nat -> Request, startErr: Option<AppError>, stopErr: Option<AppError>)

  const STARTING: Status := Status(StartPending, {})
  const STARTED: Status := Status(Running, {Stop, Shutdown})
  const STOPPING: Status := Status(StopPending, {})

  predicate Ends(cmd: Cmd) {
    cmd.Stop? || cmd.Shutdown?
  }

  /** Request `n` is the first Stop or Shutdown. */
  ghost predicate IsFirstEnd(requests: nat -> Request, n: nat) {
    Ends(requests(n).cmd) && forall i: nat :: i < n ==> !Ends(requests(i).cmd)
  }

  /** The statuses echoed for the first `n` requests. */
  function Echoes(requests: nat -> Request, n: nat): seq<Status> {
    if n == 0 then []
    else
      var c := requests(n - 1);
      Echoes(requests, n - 1) + if c.cmd.Interrogate? then [c.current] else []
  }

  /** The statuses of a session whose request `n` ends it. */
  function Trace(requests: nat -> Request, n: nat): seq<Status> {
    [STARTING, STARTED] + Echoes(requests, n) + [STOPPING]
  }

  function Reports(statuses: seq<Status>): seq<Action> {
    seq(|statuses|, i requires 0 <= i < |statuses| => Report(statuses[i]))
  }

  /** The statuses reported among the actions. */
  function Reported(actions: seq<Action>): seq<Status> {
    if actions == [] then []
    else
      var front, last := actions[..|actions| - 1], actions[|actions| - 1];
      Reported(front) + if last.Report? then [last.status] else []
  }

  lemma ReportedOne(actions: seq<Action>, a: Action)
    ensures Reported(actions + [a]) == Reported(actions) + if a.Report? then [a.status] else []
  {
    assert (actions + [a])[..|actions|] == actions;
  }

  lemma {:induction false} ReportedBehind(before: seq<Action>, statuses: seq<Status>)
    ensures Reported(before + Reports(statuses)) == Reported(before) + statuses
  {
    if statuses == [] {
      assert before + Reports(statuses) == before;
    } else {
      var front, last := statuses[..|statuses| - 1], statuses[|statuses| - 1];
      ReportedBehind(before, front);
      ReportedOne(before + Reports(front), Report(last));
      assert before + Reports(statuses) == before + Reports(front) + [Report(last)];
    }
  }

  /** A life of the application, told to stop after request `n`, reports the statuses of `Trace`. */
  lemma OneLifeReports(requests: nat -> Request, n: nat)
    ensures Reported([Report(STARTING), StartApp, Report(STARTED)] + Reports(Echoes(requests, n)) + [Report(STOPPING), StopApp])
         == Trace(requests, n)
  {
    ReportedOne([], Report(STARTING));
    ReportedOne([Report(STARTING)], StartApp);
    ReportedOne([Report(STARTING), StartApp], Report(STARTED));
    var before := [Report(STARTING), StartApp, Report(STARTED)];
    assert [] + [Report(STARTING)] == [Report(STARTING)];
    assert [Report(STARTING)] + [StartApp] + [Report(STARTED)] == before;
    assert Reported(before) == [STARTING, STARTED];
    ReportedBehind(before, Echoes(requests, n));
    var running := before + Reports(Echoes(requests, n));
    ReportedOne(running, Report(STOPPING));
    ReportedOne(running + [Report(STOPPING)], StopApp);
    assert running + [Report(STOPPING), StopApp] == running + [Report(STOPPING)] + [StopApp];
  }

  /** The session comes to an end: it fails to start, or is told to stop some time. */
  ghost predicate IsFinite(s: Session) {
    s.startErr.Some? || exists n: nat :: Ends(s.requests(n).cmd)
  }

  class ServiceWrapper {
    var lastErr: Option<AppError>

    constructor ()
      ensures lastErr == None
    {
      lastErr := None;
    }

    method SetStartStopError(err: Option<AppError>)
      modifies this
      ensures lastErr == err
    {
      lastErr := err;
    }

    /**
     * `Execute`. The results are its actions, how many requests were received, and Go's
     * `(svcSpecificEC, exitCode)`.
     */
    method Execute(s: Session)
      returns (actions: seq<Action>, consumed: nat, specific: bool, code: nat)
      requires IsFinite(s)
      modifies this
      ensures s.startErr.Some? ==> lastErr == s.startErr
      ensures s.startErr.None? && s.stopErr.Some? ==> lastErr == s.stopErr
      ensures s.startErr.None? && s.stopErr.None? ==> lastErr == old(lastErr)
      ensures s.startErr.Some? ==>
                actions == [Report(Status(StartPending, {})), StartApp] && consumed == 0 && specific && code == 1
      ensures s.startErr.None? ==>
                && consumed > 0 && s.requests(consumed - 1).cmd in {Stop, Shutdown}
                && (forall i: nat :: i < consumed - 1 ==> s.requests(i).cmd !in {Stop, Shutdown})
                && actions == [Report(Status(StartPending, {})), StartApp, Report(Status(Running, {Stop, Shutdown}))]
                              + Reports(Echoes(s.requests, consumed - 1)) + [Report(Status(StopPending, {})), StopApp]
                && specific == s.stopErr.Some? && code == if s.stopErr.Some? then 2 else 0
      ensures s.startErr.None? ==>
                Reported(actions) == Trace(s.requests, consumed - 1) &&
                forall n: nat :: IsFirstEnd(s.requests, n) <==> n == consumed - 1
    {
      hide Reported, Trace;
      actions, consumed := [Report(STARTING), StartApp], 0;
      if s.startErr.Some? {
        SetStartStopError(s.startErr);
        return actions, consumed, true, 1;
      }
      actions := actions + [Report(STARTED)];
      ghost var end: nat :| Ends(s.requests(end).cmd);
      while true
        invariant consumed <= end
        invariant forall i: nat :: i < consumed ==> !Ends(s.requests(i).cmd)
        invariant actions == [Report(STARTING), StartApp, Report(STARTED)] + Reports(Echoes(s.requests, consumed))
        invariant lastErr == old(lastErr)
        decreases end - consumed
      {
        var c := s.requests(consumed);
        consumed := consumed + 1;
        match c.cmd
        case Interrogate =>
          actions := actions + [Report(c.current)];
        case Stop =>
          break;
        case Shutdown =>
          break;
        case OtherCmd(_) =>
      }
      OneLifeReports(s.requests, consumed - 1);
      FirstEndIsUnique(s.requests, consumed - 1);
      actions := actions + [Report(STOPPING)];
      actions := actions + [StopApp];
      if s.stopErr.Some? {
        SetStartStopError(s.stopErr);
        return actions, consumed, true, 2;
      }
      return actions, consumed, false, 0;
    }

    /**
     * `runAndBlock`. The service runner calls `Execute` at most once, `session` telling with
     * what, and returns `runErr` itself.
     */
    method RunAndBlock(session: Option<Session>, runErr: Option<AppError>) returns (err: Option<AppError>)
      requires session.Some? ==> IsFinite(session.value)
      modifies this
      ensures session.Some? && session.value.startErr.Some? ==> err == lastErr == session.value.startErr
      ensures session.Some? && session.value.startErr.None? && session.value.stopErr.Some? ==>
                err == lastErr == session.value.stopErr
      ensures session.None? || (session.value.startErr.None? && session.value.stopErr.None?) ==>
                err == runErr && lastErr == None
      ensures err == None <==>
              runErr == None && (session.None? || (session.value.startErr == None && session.value.stopErr == None))
    {
      SetStartStopError(None);
      if session.Some? {
        var actions, consumed, specific, code := Execute(session.value);
      }
      if lastErr.Some? {
        return lastErr;
      }
      if runErr.Some? {
        return runErr;
      }
      return None;
    }
  }

  // ----- the trace -----

  lemma FirstEndIsUnique(requests: nat -> Request, n: nat)
    requires IsFirstEnd(requests, n)
    ensures forall m: nat :: IsFirstEnd(requests, m) <==> m == n
  {
    forall m: nat | IsFirstEnd(requests, m) ensures m == n {
      assert m < n ==> !Ends(requests(m).cmd);
    }
  }

  function Interrogations(requests: nat -> Request, n: nat): nat {
    if n == 0 then 0 else Interrogations(requests, n - 1) + if requests(n - 1).cmd.Interrogate? then 1 else 0
  }

  /** Every Interrogate among the first `n` requests has its echo, at its place in their order. */
  lemma {:induction false} EchoOfEach(requests: nat -> Request, n: nat, i: nat)
    requires i < n && requests(i).cmd == Interrogate
    ensures |Echoes(requests, n)| == Interrogations(requests, n)
    ensures Interrogations(requests, i) < Interrogations(requests, n)
    ensures Echoes(requests, n)[Interrogations(requests, i)] == requests(i).current
  {
    EchoCount(requests, n - 1);
    EchoCount(requests, i);
    if i < n - 1 {
      EchoOfEach(requests, n - 1, i);
    }
  }

  /** And there is no other echo: each one answers an Interrogate. */
  lemma {:induction false} EachEchoAnswers(requests: nat -> Request, n: nat, k: nat)
    requires k < |Echoes(requests, n)|
    ensures exists i: nat :: i < n && requests(i).cmd == Interrogate && Interrogations(requests, i) == k &&
                             Echoes(requests, n)[k] == requests(i).current
  {
    EchoCount(requests, n - 1);
    if k < |Echoes(requests, n - 1)| {
      EachEchoAnswers(requests, n - 1, k);
    } else {
      assert requests(n - 1).cmd == Interrogate;
    }
  }

  lemma {:induction false} EchoCount(requests: nat -> Request, n: nat)
    ensures |Echoes(requests, n)| == Interrogations(requests, n)
  {
    if n > 0 {
      EchoCount(requests, n - 1);
    }
  }

  /** Each Interrogate before request `n` carries the status that was reported last. */
  ghost predicate EchoesLast(requests: nat -> Request, n: nat) {
    forall i: nat :: i < n && requests(i).cmd.Interrogate? ==>
      var reported := [STARTING, STARTED] + Echoes(requests, i);
      requests(i).current == reported[|reported| - 1]
  }

  lemma {:induction false} EchoesAreStarted(requests: nat -> Request, n: nat)
    requires EchoesLast(requests, n)
    ensures forall k :: 0 <= k < |Echoes(requests, n)| ==> Echoes(requests, n)[k] == STARTED
  {
    if n > 0 {
      EchoesAreStarted(requests, n - 1);
      var reported := [STARTING, STARTED] + Echoes(requests, n - 1);
      assert reported[|reported| - 1] == STARTED;
    }
  }

  function Rank(state: State): nat {
    match state
    case StartPending => 0
    case Running => 1
    case StopPending => 2
    case OtherState(_) => 3
  }

  /** When the manager echoes what it was last told, the reported states never go backwards. */
  lemma TraceNeverGoesBack(requests: nat -> Request, n: nat, i: nat, j: nat)
    requires EchoesLast(requests, n) && i <= j < |Trace(requests, n)|
    ensures Rank(Trace(requests, n)[i].state) <= Rank(Trace(requests, n)[j].state)
    ensures Trace(requests, n)[i].state in {StartPending, Running, StopPending}
  {
    EchoesAreStarted(requests, n);
    var echoes := Echoes(requests, n);
    assert forall k :: 0 <= k < |Trace(requests, n)| ==>
      Trace(requests, n)[k] == if k == 0 then STARTING else if k < |echoes| + 2 then STARTED else STOPPING;
  }
}
