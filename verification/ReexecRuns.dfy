/**
 * What the runs of `Reexec` come to: who returns nil, and that applications do start, both in
 * an ordinary start and at the end of the longest chain.
 */
module ReexecRuns {
  import opened Wrappers
  import opened Text
  import opened Proc
  import opened PidFile
  import opened Reexec

  // ----- who returns nil -----

  /** The pids that a run writes to the pid file, in their order. */
  ghost function Writes(outer: Outer, s: State, events: seq<Event>): seq<nat>
    requires IsRun(outer, s, events)
    decreases |events|
  {
    if events == [] then []
    else WrittenBy(s, events[0]) + Writes(outer, Next(outer, s, events[0]), events[1..])
  }

  function WrittenBy(s: State, e: Event): seq<nat> {
    if e.Proceed? && e.ok && e.i < |s.pcs| && s.pcs[e.i].Writing? then [s.pcs[e.i].child] else []
  }

  /** Exactly those have returned nil whose child's pid is among `written`. */
  ghost predicate NilOk(s: State, written: seq<nat>) {
    && |s.chain| == |s.pcs| > 0
    && (forall w :: w in written ==> w in s.used)
    && (forall i :: 0 <= i < |s.pcs| && s.pcs[i].Writing? ==> i + 1 < |s.chain| && s.pcs[i].child == s.chain[i + 1])
    && (forall i :: 0 <= i < |s.pcs| ==> NilAt(s, written, i))
  }

  ghost predicate NilAt(s: State, written: seq<nat>, i: nat)
    requires i < |s.chain| == |s.pcs|
  {
    s.pcs[i].ReturnedNil? <==> i + 1 < |s.chain| && s.chain[i + 1] in written
  }

  lemma StepKeepsNil(outer: Outer, s: State, written: seq<nat>, e: Event)
    requires Inv(s) && NilOk(s, written) && Enabled(outer, s, e)
    ensures NilOk(Next(outer, s, e), written + WrittenBy(s, e))
  {
    hide LinkOk, PcOk, TableOk, PidLine, Overwrite, ReadScript, ReadParent, TableAfterExit;
    var t, after := Next(outer, s, e), written + WrittenBy(s, e);
    forall i | 0 <= i < |t.pcs| ensures NilAt(t, after, i) {
      assert i < |s.pcs| ==> NilAt(s, written, i);
    }
  }

  lemma {:induction false} RunKeepsNil(outer: Outer, s: State, written: seq<nat>, events: seq<Event>)
    requires Inv(s) && NilOk(s, written) && IsRun(outer, s, events)
    ensures NilOk(After(outer, s, events), written + Writes(outer, s, events))
    decreases |events|
  {
    if events == [] {
      assert written + Writes(outer, s, events) == written;
    } else {
      var t := Next(outer, s, events[0]);
      StepKeepsInv(outer, s, events[0]);
      StepKeepsNil(outer, s, written, events[0]);
      RunKeepsNil(outer, t, written + WrittenBy(s, events[0]), events[1..]);
      assert written + WrittenBy(s, events[0]) + Writes(outer, t, events[1..]) == written + Writes(outer, s, events);
    }
  }

  /**
   * In every run a process has returned nil exactly when it spawned a child and wrote that
   * child's pid; in particular the last process of the chain, the daemon, has not.
   */
  lemma NilMeansWritten(outer: Outer, s: State, events: seq<Event>, i: nat)
    requires Initial(s) && IsRun(outer, s, events)
    requires i < |After(outer, s, events).chain| == |After(outer, s, events).pcs|
    ensures var t := After(outer, s, events);
            t.pcs[i].ReturnedNil? <==> i + 1 < |t.chain| && t.chain[i + 1] in Writes(outer, s, events)
  {
    InitialIsOk(s);
    RunKeepsNil(outer, s, [], events);
    assert [] + Writes(outer, s, events) == Writes(outer, s, events);
    assert NilAt(After(outer, s, events), Writes(outer, s, events), i);
  }

  // ----- applications do start -----

  /** A walk from a process whose parent is init is negative. */
  lemma AdoptedWalk(s: State, i: nat)
    requires TableOk(s) && i < |s.chain| == |s.pcs| && s.chain[i] in s.table
    requires s.pcs[i] == AtCmdline(0, INIT_PID)
    ensures Settled(s, i) == DaemonBranch
  {
    var t := WithPc(s, i, AtStat(1, INIT_PID));
    assert NextPc(s, i) == t.pcs[i];
    assert NextPc(t, i) == DaemonBranch;
    assert Settled(t, i) == Settled(WithPc(t, i, DaemonBranch), i) == DaemonBranch;
  }

  /** The child of a process that has exited checks its ancestors and starts the application. */
  lemma AdoptedChildStarts(outer: Outer, s: State, i: nat) returns (events: seq<Event>)
    requires TableOk(s) && i < |s.chain| == |s.pcs| && s.pcs[i].Begin?
    requires s.chain[i] in s.table && s.table[s.chain[i]].status.Alive? && s.table[s.chain[i]].ppid == INIT_PID
    ensures IsRun(outer, s, events) && After(outer, s, events) == WithPc(s, i, AppStarted)
  {
    hide Settled, TableOk;
    WalkStep(outer, s, i);
    var t := WithPc(s, i, AtCmdline(0, INIT_PID));
    SameTableIsOk(s, t);
    AdoptedWalk(t, i);
    var walk := SettledIsReached(outer, t, i);
    events := [Proceed(i, true, 0)] + walk;
    events := ApplicationStarts(outer, s, events, i);
  }

  lemma SameTableIsOk(s: State, t: State)
    requires TableOk(s) && t.table == s.table && t.used == s.used
    ensures TableOk(t)
  {
  }

  lemma ApplicationStarts(outer: Outer, s: State, events: seq<Event>, i: nat) returns (longer: seq<Event>)
    requires IsRun(outer, s, events)
    requires var t := After(outer, s, events);
             && i < |t.chain| == |t.pcs| && t.pcs[i].DaemonBranch?
             && t.chain[i] in t.table && t.table[t.chain[i]].status.Alive?
    ensures IsRun(outer, s, longer)
    ensures After(outer, s, longer) == WithPc(After(outer, s, events), i, AppStarted)
  {
    longer := Append(outer, s, events, Proceed(i, true, 0));
  }

  /**
   * An ordinary start: the program finds the script, forks, writes the child's pid, returns nil
   * and exits; the child finds nobody but init and starts the application, with the file naming it.
   */
  lemma OrdinaryStart(outer: Outer, s: State)
    requires NearestIsLast(outer, s) && |outer| <= 5
    ensures exists events :: IsRun(outer, s, events) &&
              var t := After(outer, s, events);
              |t.chain| == 2 && t.pcs == [ReturnedNil, AppStarted] && t.file == PidLine(t.chain[1])
  {
    StartIsStanding(outer, s);
    var pid := FreshAbove(s.used, 0);
    var events := ForkUndisturbed(outer, s, pid);
    events := ParentLeaves(outer, s, events, pid);
    var child := AdoptedChildStarts(outer, After(outer, s, events), 1);
    RunsCompose(outer, s, events, child);
    assert IsRun(outer, s, events + child);
  }

  /** The parent writes, returns and exits, and init adopts the child. */
  lemma ParentLeaves(outer: Outer, s: State, fork: seq<Event>, pid: nat) returns (events: seq<Event>)
    requires NearestIsLast(outer, s) && IsRun(outer, s, fork)
    requires var t := After(outer, s, fork);
             && Standing(outer, t) && t.chain == s.chain + [pid] && t.pcs == [Writing(pid), Begin] && t.file == ""
    ensures IsRun(outer, s, events)
    ensures var t := After(outer, s, events);
            && TableOk(t) && t.chain == s.chain + [pid] && t.pcs == [ReturnedNil, Begin] && t.file == PidLine(pid)
            && pid in t.table && t.table[pid] == Process(INIT_PID, None, Alive)
  {
    hide Standing, PidLine, Overwrite, Enabled, Next, LinkOk, PcOk, TableOk;
    var t := After(outer, s, fork);
    InitialIsOk(s);
    RunKeepsInv(outer, s, fork);
    assert t.chain[0] == s.chain[0] && t.chain[0] != t.chain[1];
    ParentWrites(outer, t, s.chain[0], pid);
    events := Append(outer, s, fork, Proceed(0, true, 0));
    var u := After(outer, s, events);
    ExitAdopts(outer, u, s.chain[0], pid);
    events := Append(outer, s, events, Exit(s.chain[0]));
    RunKeepsInv(outer, s, events);
  }

  lemma ParentWrites(outer: Outer, s: State, parent: nat, pid: nat)
    requires Standing(outer, s) && s.chain == [parent, pid] && s.pcs == [Writing(pid), Begin] && s.file == ""
    ensures Enabled(outer, s, Proceed(0, true, 0))
    ensures Next(outer, s, Proceed(0, true, 0)) == s.(pcs := [ReturnedNil, Begin], file := PidLine(pid))
    ensures parent in s.table && s.table[parent].status.Alive?
    ensures pid in s.table && s.table[pid] == Process(parent, None, Alive)
  {
    OverwriteAtStart("", PidLine(pid));
    hide PidLine, Overwrite;
    assert s.chain[1] in s.table && s.table[s.chain[1]] == Process(Ancestor(outer, s, 1, 0), None, Alive);
    assert s.chain[0] in s.table && s.table[s.chain[0]] == Process(Ancestor(outer, s, 0, 0), None, Alive);
  }

  lemma ExitAdopts(outer: Outer, s: State, parent: nat, pid: nat)
    requires s.chain == [parent, pid] && s.pcs == [ReturnedNil, Begin]
    requires parent != pid && parent != INIT_PID
    requires parent in s.table && s.table[parent].status.Alive?
    requires pid in s.table && s.table[pid] == Process(parent, None, Alive)
    ensures Enabled(outer, s, Exit(parent))
    ensures var t := Next(outer, s, Exit(parent));
            && t.chain == s.chain && t.pcs == s.pcs && t.file == s.file
            && pid in t.table && t.table[pid] == Process(INIT_PID, None, Alive)
  {
  }

  /**
   * Wherever the script is, there is a run whose last process starts the application; at the end
   * of the longest chain nobody before it has even written.
   */
  lemma LongestChainStarts(outer: Outer, s: State)
    requires NearestIsLast(outer, s)
    ensures exists events :: IsRun(outer, s, events) &&
              var t := After(outer, s, events);
              && |t.chain| == |t.pcs| == (if |outer| <= 5 then 7 - |outer| else 1)
              && t.pcs[|t.pcs| - 1].AppStarted?
              && forall j :: 0 <= j < |t.pcs| - 1 ==> t.pcs[j].Writing?
  {
    var i := if |outer| <= MAX_ANCESTORS then MAX_ANCESTORS + 1 - |outer| else 0;
    var events := DaemonMayStartFirst(outer, s, i);
    InitialIsOk(s);
    RunKeepsInv(outer, s, events);
    assert LinkOk(After(outer, s, events), i);
    var longer := ApplicationStarts(outer, s, events, i);
    assert IsRun(outer, s, longer);
  }
}
