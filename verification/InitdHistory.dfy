/**
 * The runs of `InitdProtocol`, by their events alone: what has happened so far decides what
 * may happen next, and there are runs in which a daemon is started and stopped in full.
 */
module InitdHistory {
  import opened Wrappers
  import opened Text
  import opened PidFile
  import opened InitdProtocol

  // ----- histories -----

  /** `e` is a step of process `p` itself, or creates it. */
  predicate Moves(e: Event, p: nat) {
    match e
    case SpawnChild(pid) => pid == p
    case CheckIsNegative(pid) => pid == p
    case CheckFails(pid) => pid == p
    case CheckFindsScript(pid) => pid == p
    case ForkFails(pid) => pid == p
    case ReopenFile(pid, _) => pid == p
    case Respawn(pid, child) => pid == p || child == p
    case Rewrite(pid, _) => pid == p
    case StartReturns(pid, _) => pid == p
    case TakeSignal(pid) => pid == p
    case StopReturns(pid) => pid == p
    case SeekFile(pid) => pid == p
    case TruncateFile(pid) => pid == p
    case Exit(pid) => pid == p
    case Kill(pid) => pid == p
    case _ => false
  }

  /** The latest move of `p`. */
  function LastMove(events: seq<Event>, p: nat): (m: Option<Event>)
    ensures m.None? ==> forall k :: 0 <= k < |events| ==> !Moves(events[k], p)
    ensures m.Some? ==> Moves(m.value, p) && exists i :: 0 <= i < |events| && events[i] == m.value &&
                                                         forall k :: i < k < |events| ==> !Moves(events[k], p)
  {
    if events == [] then None
    else
      var front, e := events[..|events| - 1], events[|events| - 1];
      if Moves(e, p) then Some(e) else LastMove(front, p)
  }

  /** `e` is a step of the script or of the program it runs in the foreground. */
  predicate IsOfScript(e: Event) {
    || e.Invoke? || e.ReadStatus? || e.Probe? || e.LauncherFails? || e.OpenFile? || e.SpawnChild? || e.WritePid?
    || e.ReadTarget? || e.SendTerm?
  }

  /** The latest step of the script. */
  function LastOfScript(events: seq<Event>): (m: Option<Event>)
    ensures m.None? ==> forall k :: 0 <= k < |events| ==> !IsOfScript(events[k])
    ensures m.Some? ==> IsOfScript(m.value) && exists i :: 0 <= i < |events| && events[i] == m.value &&
                                                           forall k :: i < k < |events| ==> !IsOfScript(events[k])
  {
    if events == [] then None
    else
      var front, e := events[..|events| - 1], events[|events| - 1];
      if IsOfScript(e) then Some(e) else LastOfScript(front)
  }

  /** What the script was last invoked for. */
  function LastAction(events: seq<Event>): (a: Option<Action>)
    ensures a.None? ==> forall k :: 0 <= k < |events| ==> !events[k].Invoke?
    ensures a.Some? ==> exists i :: 0 <= i < |events| && events[i] == Invoke(a.value) &&
                                    forall k :: i < k < |events| ==> !events[k].Invoke?
  {
    if events == [] then None
    else
      var front, e := events[..|events| - 1], events[|events| - 1];
      if e.Invoke? then Some(e.action) else LastAction(front)
  }

  lemma LastMoveStep(events: seq<Event>, e: Event, p: nat)
    ensures LastMove(events + [e], p) == if Moves(e, p) then Some(e) else LastMove(events, p)
  {
    assert (events + [e])[..|events|] == events;
  }

  lemma LastOfScriptStep(events: seq<Event>, e: Event)
    ensures LastOfScript(events + [e]) == if IsOfScript(e) then Some(e) else LastOfScript(events)
    ensures LastAction(events + [e]) == if e.Invoke? then Some(e.action) else LastAction(events)
  {
    assert (events + [e])[..|events|] == events;
  }

  // ----- the state by the history -----

  /** Where `p` is, by its latest move. */
  predicate IsWhereItMoved(phase: Phase, m: Event, p: nat) {
    match m
    case SpawnChild(_) => phase == Checking
    case CheckIsNegative(_) => phase == Starting
    case CheckFails(_) => phase == Exiting
    case CheckFindsScript(_) => phase == Reopening
    case ForkFails(_) => phase == Exiting
    case ReopenFile(_, file) => phase == Respawning(file)
    case Respawn(pid, child) => if child == p then phase == Checking else phase.Rewriting? && phase.child == child
    case Rewrite(_, _) => phase == Exiting
    case StartReturns(_, ok) => phase == if ok then Running else Seeking
    case TakeSignal(_) => phase == Stopping
    case StopReturns(_) => phase == Seeking
    case SeekFile(_) => phase == Truncating
    case TruncateFile(_) => phase == Exiting
    case _ => phase == Gone
  }

  predicate DaemonMatches(t: State, m: Option<Event>, p: nat) {
    if m.None? then p !in t.daemons
    else
      && p in t.daemons && t.daemons[p].file in t.offsets
      && IsWhereItMoved(t.daemons[p].phase, m.value, p)
      && (t.daemons[p].phase.Respawning? ==> t.daemons[p].phase.own in t.offsets)
      && (t.daemons[p].phase.Rewriting? ==> t.daemons[p].phase.own in t.offsets)
  }

  /** Where the script is, by its latest step and what it was invoked for. */
  predicate ScriptMatches(t: State, m: Option<Event>, a: Option<Action>) {
    if m.None? then t.script.Idle?
    else
      && a.Some?
      && match m.value
         case Invoke(action) => action == a.value && t.script == ReadingStatus(action)
         case ReadStatus => t.script.Probing? && t.script.action == a.value
         case Probe(alive) =>
           t.script == (match a.value
                        case Start => if alive then Idle else Waiting(Opening)
                        case Stop => if alive then ReadingTarget else Idle)
         case OpenFile(file) => t.script == Waiting(Spawning(file)) && file in t.offsets
         case SpawnChild(pid) =>
           t.script.Waiting? && t.script.launcher.Writing? && t.script.launcher.child == pid &&
           t.script.launcher.file in t.offsets
         case ReadTarget => t.script.Signalling?
         case _ => t.script.Idle?
  }

  ghost predicate Matches(t: State, events: seq<Event>) {
    && ScriptMatches(t, LastOfScript(events), LastAction(events))
    && forall p: nat :: DaemonMatches(t, LastMove(events, p), p)
  }

  lemma StepMatchesScript(t: State, events: seq<Event>, e: Event)
    requires Matches(t, events) && Enabled(t, e)
    ensures ScriptMatches(Next(t, e), LastOfScript(events + [e]), LastAction(events + [e]))
  {
    hide NamedPid, PidLine, Overwrite, LastOfScript, LastAction, DaemonMatches, Enabled, Next;
    LastOfScriptStep(events, e);
    if IsOfScript(e) {
      ScriptStepMatches(t, LastOfScript(events), LastAction(events), e);
    } else {
      DaemonStepsLeaveScript(t, e);
      FilesStayOpen(t, e);
    }
  }

  lemma ScriptStepMatches(t: State, m: Option<Event>, a: Option<Action>, e: Event)
    requires ScriptMatches(t, m, a) && Enabled(t, e) && IsOfScript(e)
    requires (m.None? || IsOfScript(m.value))
    ensures ScriptMatches(Next(t, e), Some(e), if e.Invoke? then Some(e.action) else a)
  {
    hide NamedPid, PidLine, Overwrite;
  }

  lemma DaemonStepsLeaveScript(t: State, e: Event)
    requires Enabled(t, e) && !IsOfScript(e)
    ensures Next(t, e).script == t.script
  {
    hide NamedPid, PidLine, Overwrite, Apply;
  }

  lemma StepMatchesDaemon(t: State, events: seq<Event>, e: Event, p: nat)
    requires Matches(t, events) && Enabled(t, e)
    ensures DaemonMatches(Next(t, e), LastMove(events + [e], p), p)
  {
    hide NamedPid, PidLine, Overwrite, LastMove, Enabled, Next, DaemonMatches, ScriptMatches;
    assert DaemonMatches(t, LastMove(events, p), p);
    LastMoveStep(events, e, p);
    if Moves(e, p) {
      OwnStepMatches(t, events, e, p);
    } else {
      OtherStepsLeaveAlone(t, e, p, LastMove(events, p));
    }
  }

  lemma OtherStepsLeaveAlone(t: State, e: Event, p: nat, m: Option<Event>)
    requires DaemonMatches(t, m, p) && Enabled(t, e) && !Moves(e, p)
    ensures DaemonMatches(Next(t, e), m, p)
  {
    hide Enabled, Next, IsWhereItMoved;
    OtherStepsKeepDaemon(t, e, p);
    FilesStayOpen(t, e);
  }

  lemma OtherStepsKeepDaemon(t: State, e: Event, p: nat)
    requires Enabled(t, e) && !Moves(e, p)
    ensures p in Next(t, e).daemons <==> p in t.daemons
    ensures p in t.daemons ==> Next(t, e).daemons[p] == t.daemons[p]
  {
    hide NamedPid, PidLine, Overwrite, Apply;
  }

  lemma FilesStayOpen(t: State, e: Event)
    requires Enabled(t, e)
    ensures t.offsets.Keys <= Next(t, e).offsets.Keys
  {
    hide NamedPid, PidLine, Overwrite, Apply;
  }

  lemma OwnStepMatches(t: State, events: seq<Event>, e: Event, p: nat)
    requires Matches(t, events) && Enabled(t, e) && Moves(e, p)
    ensures DaemonMatches(Next(t, e), Some(e), p)
  {
    hide NamedPid, PidLine, Overwrite, LastMove, LastOfScript, LastAction;
    assert DaemonMatches(t, LastMove(events, p), p);
    if e.Respawn? {
      assert DaemonMatches(t, LastMove(events, e.pid), e.pid);
    }
  }

  lemma {:induction false} RunMatches(s: State, done: seq<Event>, events: seq<Event>)
    requires Matches(s, done) && IsRun(s, events)
    ensures Matches(After(s, events), done + events)
    decreases |events|
  {
    if events == [] {
      assert done + events == done;
    } else {
      var e, t := events[0], Next(s, events[0]);
      StepMatchesScript(s, done, e);
      forall p: nat ensures DaemonMatches(t, LastMove(done + [e], p), p) {
        StepMatchesDaemon(s, done, e, p);
      }
      RunMatches(t, done + [e], events[1..]);
      assert done + [e] + events[1..] == done + events;
    }
  }

  // ----- what may happen next -----

  /** Every step of a daemon may happen exactly when the latest one was the one before it in the program. */
  lemma DaemonFollowsTheProgram(s: State, events: seq<Event>, p: nat)
    requires Initial(s) && IsRun(s, events)
    ensures var t, m := After(s, events), LastMove(events, p);
            var born := m.Some? && (m.value == SpawnChild(p) || (m.value.Respawn? && m.value.child == p));
            && (Enabled(t, CheckIsNegative(p)) <==> born)
            && (Enabled(t, CheckFails(p)) <==> born)
            && (Enabled(t, CheckFindsScript(p)) <==> born)
            && (forall ok :: Enabled(t, StartReturns(p, ok)) <==> m == Some(CheckIsNegative(p)))
            && (Enabled(t, TakeSignal(p)) <==> m == Some(StartReturns(p, true)) && p in t.signalled)
            && (Enabled(t, StopReturns(p)) <==> m == Some(TakeSignal(p)))
            && (Enabled(t, SeekFile(p)) <==> m == Some(StartReturns(p, false)) || m == Some(StopReturns(p)))
            && (Enabled(t, TruncateFile(p)) <==> m == Some(SeekFile(p)))
            && (Enabled(t, Kill(p)) <==> m.Some? && m != Some(Exit(p)) && m != Some(Kill(p)))
            && (Enabled(t, Exit(p)) <==>
                  || m == Some(TruncateFile(p)) || m == Some(CheckFails(p)) || m == Some(ForkFails(p))
                  || (m.Some? && m.value.Rewrite?))
  {
    hide LastMove, Enabled, DaemonMatches, ScriptMatches;
    AfterMatches(s, events);
    CheckFollows(After(s, events), LastMove(events, p), p);
    ApplicationFollows(After(s, events), LastMove(events, p), p);
    EndFollows(After(s, events), LastMove(events, p), p);
  }

  /** An event of a run was enabled when it happened. */
  lemma {:induction false} EventWasEnabled(s: State, events: seq<Event>, j: nat)
    requires IsRun(s, events) && j < |events|
    ensures IsRun(s, events[..j]) && Enabled(After(s, events[..j]), events[j])
    decreases |events|
  {
    hide Enabled, Next;
    if j > 0 {
      EventWasEnabled(Next(s, events[0]), events[1..], j - 1);
      assert events[1..][..j - 1] == events[..j][1..];
    }
  }

  /**
   * Over whole runs: an application is told to stop only after it started and a signal was
   * taken, and the file is emptied only after it stopped or failed to start.
   */
  lemma CleanUpComesLast(s: State, events: seq<Event>, j: nat, p: nat)
    requires Initial(s) && IsRun(s, events) && j < |events|
    ensures events[j] == TruncateFile(p) ==> SeekFile(p) in events[..j]
    ensures events[j] == SeekFile(p) ==> StartReturns(p, false) in events[..j] || StopReturns(p) in events[..j]
    ensures events[j] == StopReturns(p) ==> TakeSignal(p) in events[..j]
    ensures events[j] == TakeSignal(p) ==> StartReturns(p, true) in events[..j]
    ensures events[j] in {StartReturns(p, true), StartReturns(p, false)} ==> CheckIsNegative(p) in events[..j]
  {
    hide LastMove, Enabled, IsRun, After;
    EventWasEnabled(s, events, j);
    DaemonFollowsTheProgram(s, events[..j], p);
  }

  lemma CheckFollows(t: State, m: Option<Event>, p: nat)
    requires DaemonMatches(t, m, p) && (m.Some? ==> Moves(m.value, p))
    ensures var born := m.Some? && (m.value == SpawnChild(p) || (m.value.Respawn? && m.value.child == p));
            && (Enabled(t, CheckIsNegative(p)) <==> born)
            && (Enabled(t, CheckFails(p)) <==> born)
            && (Enabled(t, CheckFindsScript(p)) <==> born)
  {
  }

  lemma ApplicationFollows(t: State, m: Option<Event>, p: nat)
    requires DaemonMatches(t, m, p) && (m.Some? ==> Moves(m.value, p))
    ensures forall ok :: Enabled(t, StartReturns(p, ok)) <==> m == Some(CheckIsNegative(p))
    ensures Enabled(t, TakeSignal(p)) <==> m == Some(StartReturns(p, true)) && p in t.signalled
    ensures Enabled(t, StopReturns(p)) <==> m == Some(TakeSignal(p))
  {
  }

  lemma EndFollows(t: State, m: Option<Event>, p: nat)
    requires DaemonMatches(t, m, p) && (m.Some? ==> Moves(m.value, p))
    ensures Enabled(t, SeekFile(p)) <==> m == Some(StartReturns(p, false)) || m == Some(StopReturns(p))
    ensures Enabled(t, TruncateFile(p)) <==> m == Some(SeekFile(p))
    ensures Enabled(t, Kill(p)) <==> m.Some? && m != Some(Exit(p)) && m != Some(Kill(p))
    ensures Enabled(t, Exit(p)) <==>
              || m == Some(TruncateFile(p)) || m == Some(CheckFails(p)) || m == Some(ForkFails(p))
              || (m.Some? && m.value.Rewrite?)
  {
  }

  /** The same for a program that finds the script and forks once more. */
  lemma SecondForkFollowsTheProgram(s: State, events: seq<Event>, p: nat)
    requires Initial(s) && IsRun(s, events)
    ensures var t, m := After(s, events), LastMove(events, p);
            && (forall file :: Enabled(t, ReopenFile(p, file)) <==> m == Some(CheckFindsScript(p)) && file !in t.offsets)
            && (forall child :: Enabled(t, Respawn(p, child)) <==>
                                m.Some? && m.value.ReopenFile? && LastMove(events, child).None?)
            && (forall ok :: Enabled(t, Rewrite(p, ok)) <==> m.Some? && m.value.Respawn? && m.value.child != p)
            && (Enabled(t, ForkFails(p)) <==> m == Some(CheckFindsScript(p)) || (m.Some? && m.value.ReopenFile?))
  {
    hide LastMove, Enabled, ScriptMatches, IsWhereItMoved;
    AfterMatches(s, events);
    SecondForkFollows(After(s, events), LastMove(events, p), p);
    forall child: nat ensures child in After(s, events).daemons <==> LastMove(events, child).Some? {
      assert DaemonMatches(After(s, events), LastMove(events, child), child);
    }
  }

  lemma SecondForkFollows(t: State, m: Option<Event>, p: nat)
    requires DaemonMatches(t, m, p) && (m.Some? ==> Moves(m.value, p))
    ensures forall file :: Enabled(t, ReopenFile(p, file)) <==> m == Some(CheckFindsScript(p)) && file !in t.offsets
    ensures forall child :: Enabled(t, Respawn(p, child)) <==> m.Some? && m.value.ReopenFile? && child !in t.daemons
    ensures forall ok :: Enabled(t, Rewrite(p, ok)) <==> m.Some? && m.value.Respawn? && m.value.child != p
    ensures Enabled(t, ForkFails(p)) <==> m == Some(CheckFindsScript(p)) || (m.Some? && m.value.ReopenFile?)
  {
  }

  /** And for the script: its steps are those of the action it was last invoked for, in their order. */
  lemma ScriptFollowsItsAction(s: State, events: seq<Event>)
    requires Initial(s) && IsRun(s, events)
    ensures var t, m, a := After(s, events), LastOfScript(events), LastAction(events);
            var launching := m == Some(Probe(false)) && a == Some(Start);
            && (forall action :: Enabled(t, Invoke(action)) <==>
                  || m.None? || m.value.WritePid? || m.value.LauncherFails? || m.value.SendTerm?
                  || (m == Some(Probe(true)) && a == Some(Start)) || (m == Some(Probe(false)) && a == Some(Stop)))
            && (Enabled(t, ReadStatus) <==> m.Some? && m.value.Invoke?)
            && (Enabled(t, Probe(true)) || Enabled(t, Probe(false)) <==> m == Some(ReadStatus))
            && (forall file :: Enabled(t, OpenFile(file)) <==> launching && file !in t.offsets)
            && (forall pid :: Enabled(t, SpawnChild(pid)) <==> m.Some? && m.value.OpenFile? && LastMove(events, pid).None?)
            && (forall ok :: Enabled(t, WritePid(ok)) <==> m.Some? && m.value.SpawnChild?)
            && (Enabled(t, LauncherFails) <==> launching || (m.Some? && m.value.OpenFile?))
            && (Enabled(t, ReadTarget) <==> m == Some(Probe(true)) && a == Some(Stop))
            && (Enabled(t, SendTerm) <==> m == Some(ReadTarget))
  {
    hide LastMove, LastOfScript, LastAction, Enabled, ScriptMatches, IsWhereItMoved;
    AfterMatches(s, events);
    ActionFollows(After(s, events), LastOfScript(events), LastAction(events));
    LauncherFollows(After(s, events), LastOfScript(events), LastAction(events));
    forall pid: nat ensures pid in After(s, events).daemons <==> LastMove(events, pid).Some? {
      assert DaemonMatches(After(s, events), LastMove(events, pid), pid);
    }
  }

  lemma ActionFollows(t: State, m: Option<Event>, a: Option<Action>)
    requires ScriptMatches(t, m, a) && (m.Some? ==> IsOfScript(m.value))
    ensures forall action :: Enabled(t, Invoke(action)) <==>
              || m.None? || m.value.WritePid? || m.value.LauncherFails? || m.value.SendTerm?
              || (m == Some(Probe(true)) && a == Some(Start)) || (m == Some(Probe(false)) && a == Some(Stop))
    ensures Enabled(t, ReadStatus) <==> m.Some? && m.value.Invoke?
    ensures Enabled(t, Probe(true)) || Enabled(t, Probe(false)) <==> m == Some(ReadStatus)
    ensures Enabled(t, ReadTarget) <==> m == Some(Probe(true)) && a == Some(Stop)
    ensures Enabled(t, SendTerm) <==> m == Some(ReadTarget)
  {
  }

  lemma LauncherFollows(t: State, m: Option<Event>, a: Option<Action>)
    requires ScriptMatches(t, m, a) && (m.Some? ==> IsOfScript(m.value))
    ensures var launching := m == Some(Probe(false)) && a == Some(Start);
            && (forall file :: Enabled(t, OpenFile(file)) <==> launching && file !in t.offsets)
            && (forall pid :: Enabled(t, SpawnChild(pid)) <==> m.Some? && m.value.OpenFile? && pid !in t.daemons)
            && (forall ok :: Enabled(t, WritePid(ok)) <==> m.Some? && m.value.SpawnChild?)
            && (Enabled(t, LauncherFails) <==> launching || (m.Some? && m.value.OpenFile?))
  {
  }

  lemma AfterMatches(s: State, events: seq<Event>)
    requires Initial(s) && IsRun(s, events)
    ensures Matches(After(s, events), events)
  {
    RunMatches(s, [], events);
    assert [] + events == events;
  }

  // ----- whom the script looks at and signals -----

  /** What the pid file named when the script read it last, and who has been signalled. */
  datatype Memory = Memory(named: Option<nat>, got: set<nat>)

  function Remember(s: State, m: Memory, e: Event): Memory {
    match e
    case ReadStatus => m.(named := NamedPid(s.content))
    case ReadTarget => m.(named := NamedPid(s.content))
    case SendTerm => if m.named.Some? && Alive(s, m.named.value) then m.(got := m.got + {m.named.value}) else m
    case OtherSignal(pid) => m.(got := m.got + {pid})
    case _ => m
  }

  function MemoryAfter(s: State, m: Memory, events: seq<Event>): Memory
    requires IsRun(s, events)
    decreases |events|
  {
    if events == [] then m else MemoryAfter(Next(s, events[0]), Remember(s, m, events[0]), events[1..])
  }

  predicate Remembers(t: State, m: Memory) {
    && t.signalled == m.got
    && (t.script.Probing? ==> t.script.named == m.named)
    && (t.script.Signalling? ==> t.script.target == m.named)
  }

  lemma {:induction false} RunRemembers(s: State, m: Memory, events: seq<Event>)
    requires Remembers(s, m) && IsRun(s, events)
    ensures Remembers(After(s, events), MemoryAfter(s, m, events))
    decreases |events|
  {
    hide NamedPid, PidLine, Overwrite;
    if events != [] {
      RunRemembers(Next(s, events[0]), Remember(s, m, events[0]), events[1..]);
    }
  }

  /**
   * A signal is pending exactly for those somebody else signalled and those that the pid file
   * named when `stop` read it and that were still there; the status test looks at whom the file
   * named when it was read.
   */
  lemma SignalsGoWhereThePidFilePoints(s: State, events: seq<Event>, alive: bool)
    requires Initial(s) && IsRun(s, events)
    ensures var t, m := After(s, events), MemoryAfter(s, Memory(None, {}), events);
            && t.signalled == m.got
            && (Enabled(t, Probe(alive)) <==>
                  && LastOfScript(events) == Some(ReadStatus)
                  && (m.named.None? ==> !alive)
                  && (m.named.Some? && LastMove(events, m.named.value).Some? ==> alive == Alive(t, m.named.value)))
  {
    hide LastMove, LastOfScript, LastAction, NamedPid;
    RunRemembers(s, Memory(None, {}), events);
    AfterMatches(s, events);
    var m := MemoryAfter(s, Memory(None, {}), events);
    if m.named.Some? {
      assert DaemonMatches(After(s, events), LastMove(events, m.named.value), m.named.value);
    }
  }

  // ----- a life in full -----

  /** A `start` that finds no daemon of ours leads to an application that waits for its signal. */
  function StartEvents(file: nat, pid: nat): seq<Event> {
    [Invoke(Start), ReadStatus, Probe(false), OpenFile(file), SpawnChild(pid), WritePid(true)]
  }

  function StopEvents(pid: nat): seq<Event> {
    [Invoke(Stop), ReadStatus, Probe(true), ReadTarget, SendTerm]
  }

  function EndEvents(pid: nat): seq<Event> {
    [SeekFile(pid), TruncateFile(pid), Exit(pid)]
  }

  lemma StartRuns(s: State, file: nat, pid: nat)
    requires s.script.Idle? && file !in s.offsets && pid !in s.daemons
    requires NamedPid(s.content).Some? ==> !Alive(s, NamedPid(s.content).value)
    ensures IsRun(s, StartEvents(file, pid))
    ensures After(s, StartEvents(file, pid)) ==
            State(PidLine(pid), s.offsets[file := |PidLine(pid)|], s.daemons[pid := Daemon(Checking, file)], s.signalled, Idle)
  {
    hide NamedPid, PidLine, Overwrite;
    var tested := s.(script := Waiting(Opening));
    var forked := State("", s.offsets[file := 0], s.daemons[pid := Daemon(Checking, file)], s.signalled,
                        Waiting(Writing(file, pid)));
    StatusTestRuns(s);
    ForkRuns(tested, file, pid);
    RunsCompose(s, [Invoke(Start), ReadStatus, Probe(false)], [OpenFile(file), SpawnChild(pid)]);
    OverwriteAtStart("", PidLine(pid));
    var last := OneStep(forked, WritePid(true));
    RunsCompose(s, [Invoke(Start), ReadStatus, Probe(false)] + [OpenFile(file), SpawnChild(pid)], last);
    assert StartEvents(file, pid) == [Invoke(Start), ReadStatus, Probe(false)] + [OpenFile(file), SpawnChild(pid)] + last;
    assert s.offsets[file := 0][file := |PidLine(pid)|] == s.offsets[file := |PidLine(pid)|];
  }

  lemma OneStep(s: State, e: Event) returns (events: seq<Event>)
    requires Enabled(s, e)
    ensures events == [e] && IsRun(s, events) && After(s, events) == Next(s, e)
  {
    events := [e];
  }

  lemma StatusTestRuns(s: State)
    requires s.script.Idle? && (NamedPid(s.content).Some? ==> !Alive(s, NamedPid(s.content).value))
    ensures var events := [Invoke(Start), ReadStatus, Probe(false)];
            IsRun(s, events) && After(s, events) == s.(script := Waiting(Opening))
  {
    hide NamedPid;
    var s1 := Next(s, Invoke(Start));
    var s2 := Next(s1, ReadStatus);
    var events := Prepend(s2, Probe(false), []);
    events := Prepend(s1, ReadStatus, events);
    events := Prepend(s, Invoke(Start), events);
  }

  lemma ForkRuns(s: State, file: nat, pid: nat)
    requires s.script == Waiting(Opening) && file !in s.offsets && pid !in s.daemons
    ensures var events := [OpenFile(file), SpawnChild(pid)];
            IsRun(s, events) && After(s, events) ==
            State("", s.offsets[file := 0], s.daemons[pid := Daemon(Checking, file)], s.signalled, Waiting(Writing(file, pid)))
  {
    var s1 := Next(s, OpenFile(file));
    var events := Prepend(s1, SpawnChild(pid), []);
    events := Prepend(s, OpenFile(file), events);
  }

  /** The child's check and the start of its application. */
  lemma ApplicationStarts(s: State, pid: nat, ok: bool)
    requires At(s, pid, Checking)
    ensures var events := [CheckIsNegative(pid), StartReturns(pid, ok)];
            IsRun(s, events) && After(s, events) == Move(s, pid, if ok then Running else Seeking)
  {
    var s1 := Next(s, CheckIsNegative(pid));
    var events := Prepend(s1, StartReturns(pid, ok), []);
    events := Prepend(s, CheckIsNegative(pid), events);
    assert Move(s1, pid, if ok then Running else Seeking) == Move(s, pid, if ok then Running else Seeking);
  }

  /** The deferred clean-up. */
  lemma CleanUpRuns(s: State, pid: nat)
    requires At(s, pid, Seeking)
    ensures IsRun(s, EndEvents(pid))
    ensures After(s, EndEvents(pid)) == Move(s, pid, Gone).(content := "", offsets := s.offsets[s.daemons[pid].file := 0])
  {
    var rewound := Move(s, pid, Truncating).(offsets := s.offsets[s.daemons[pid].file := 0]);
    SeekRewinds(s, pid);
    var first := OneStep(s, SeekFile(pid));
    TruncateAndExit(rewound, pid);
    RunsCompose(s, first, [TruncateFile(pid), Exit(pid)]);
    assert Move(rewound, pid, Gone).(content := "") ==
           Move(s, pid, Gone).(content := "", offsets := s.offsets[s.daemons[pid].file := 0]);
    assert EndEvents(pid) == first + [TruncateFile(pid), Exit(pid)];
  }

  lemma SeekRewinds(s: State, pid: nat)
    requires At(s, pid, Seeking)
    ensures Next(s, SeekFile(pid)) == Move(s, pid, Truncating).(offsets := s.offsets[s.daemons[pid].file := 0])
  {
  }

  lemma TruncateAndExit(s: State, pid: nat)
    requires At(s, pid, Truncating)
    ensures var events := [TruncateFile(pid), Exit(pid)];
            IsRun(s, events) && After(s, events) == Move(s, pid, Gone).(content := "")
  {
    var s1 := Next(s, TruncateFile(pid));
    assert s1.offsets == s.offsets;
    var events := Prepend(s1, Exit(pid), []);
    events := Prepend(s, TruncateFile(pid), events);
    assert Move(s1, pid, Gone).daemons == Move(s, pid, Gone).daemons;
  }

  lemma StopRuns(s: State, pid: nat)
    requires s.script.Idle? && At(s, pid, Running) && s.content == PidLine(pid)
    ensures IsRun(s, StopEvents(pid))
    ensures After(s, StopEvents(pid)) == s.(signalled := s.signalled + {pid})
  {
    hide NamedPid, PidLine, Enabled, Next;
    StopFinds(s, pid);
    StopSignals(s.(script := ReadingTarget), pid);
    RunsCompose(s, [Invoke(Stop), ReadStatus, Probe(true)], [ReadTarget, SendTerm]);
    assert StopEvents(pid) == [Invoke(Stop), ReadStatus, Probe(true)] + [ReadTarget, SendTerm];
  }

  lemma StopFinds(s: State, pid: nat)
    requires s.script.Idle? && At(s, pid, Running) && s.content == PidLine(pid)
    ensures var events := [Invoke(Stop), ReadStatus, Probe(true)];
            IsRun(s, events) && After(s, events) == s.(script := ReadingTarget)
  {
    NamedPidOfPidLine(pid);
    hide NamedPid, PidLine;
    var s1 := Next(s, Invoke(Stop));
    var s2 := Next(s1, ReadStatus);
    var events := Prepend(s2, Probe(true), []);
    events := Prepend(s1, ReadStatus, events);
    events := Prepend(s, Invoke(Stop), events);
  }

  lemma StopSignals(s: State, pid: nat)
    requires s.script.ReadingTarget? && At(s, pid, Running) && s.content == PidLine(pid)
    ensures var events := [ReadTarget, SendTerm];
            IsRun(s, events) && After(s, events) == s.(script := Idle, signalled := s.signalled + {pid})
  {
    NamedPidOfPidLine(pid);
    hide NamedPid, PidLine;
    var s1 := Next(s, ReadTarget);
    var events := Prepend(s1, SendTerm, []);
    events := Prepend(s, ReadTarget, events);
  }

  lemma SignalEnds(s: State, pid: nat)
    requires At(s, pid, Running) && pid in s.signalled
    ensures var events := [TakeSignal(pid), StopReturns(pid)];
            IsRun(s, events) && After(s, events) == Move(s, pid, Seeking)
  {
    var s1 := Next(s, TakeSignal(pid));
    var events := Prepend(s1, StopReturns(pid), []);
    events := Prepend(s, TakeSignal(pid), events);
    assert Move(s1, pid, Seeking) == Move(s, pid, Seeking);
  }

  /**
   * A child that finds the script opens the file anew, hands it to a child of its own, writes
   * that one's pid and exits without emptying the file.
   */
  lemma SecondForkRuns(s: State, p: nat, file: nat, child: nat)
    requires At(s, p, Checking) && file !in s.offsets && child !in s.daemons
    ensures var events := [CheckFindsScript(p), ReopenFile(p, file)] + [Respawn(p, child), Rewrite(p, true), Exit(p)];
            && IsRun(s, events)
            && After(s, events) == State(PidLine(child), s.offsets[file := |PidLine(child)|],
                                         s.daemons[p := s.daemons[p].(phase := Gone)][child := Daemon(Checking, file)],
                                         s.signalled, s.script)
  {
    hide PidLine, Overwrite, NamedPid;
    ReopenRuns(s, p, file);
    var t := Move(s, p, Respawning(file)).(content := "", offsets := s.offsets[file := 0]);
    RespawnRuns(t, p, file, child);
    RunsCompose(s, [CheckFindsScript(p), ReopenFile(p, file)], [Respawn(p, child), Rewrite(p, true), Exit(p)]);
    assert t.daemons[p := t.daemons[p].(phase := Gone)] == s.daemons[p := s.daemons[p].(phase := Gone)];
    assert t.offsets[file := |PidLine(child)|] == s.offsets[file := |PidLine(child)|];
  }

  lemma ReopenRuns(s: State, p: nat, file: nat)
    requires At(s, p, Checking) && file !in s.offsets
    ensures var events := [CheckFindsScript(p), ReopenFile(p, file)];
            && IsRun(s, events)
            && After(s, events) == Move(s, p, Respawning(file)).(content := "", offsets := s.offsets[file := 0])
  {
    hide PidLine, Overwrite, NamedPid;
    var s1 := Next(s, CheckFindsScript(p));
    var s2 := Next(s1, ReopenFile(p, file));
    assert s2.daemons == Move(s, p, Respawning(file)).daemons;
    var rest := OneStep(s1, ReopenFile(p, file));
    var first := OneStep(s, CheckFindsScript(p));
    RunsCompose(s, first, rest);
    assert first + rest == [CheckFindsScript(p), ReopenFile(p, file)];
  }

  lemma RespawnRuns(s: State, p: nat, file: nat, child: nat)
    requires At(s, p, Respawning(file)) && child !in s.daemons && s.content == ""
    requires file in s.offsets && s.offsets[file] == 0
    ensures var events := [Respawn(p, child), Rewrite(p, true), Exit(p)];
            && IsRun(s, events)
            && After(s, events) == State(PidLine(child), s.offsets[file := |PidLine(child)|],
                                         s.daemons[p := s.daemons[p].(phase := Gone)][child := Daemon(Checking, file)],
                                         s.signalled, s.script)
  {
    hide PidLine, Overwrite, NamedPid;
    RespawnIs(s, p, file, child);
    var t := s.(
      daemons := s.daemons[p := s.daemons[p].(phase := Rewriting(file, child))][child := Daemon(Checking, file)]);
    RewriteAndExit(t, p, file, child);
    var first := OneStep(s, Respawn(p, child));
    RunsCompose(s, first, [Rewrite(p, true), Exit(p)]);
    assert first + [Rewrite(p, true), Exit(p)] == [Respawn(p, child), Rewrite(p, true), Exit(p)];
    assert t.daemons[p := t.daemons[p].(phase := Gone)] ==
           s.daemons[p := s.daemons[p].(phase := Gone)][child := Daemon(Checking, file)];
  }

  lemma RespawnIs(s: State, p: nat, file: nat, child: nat)
    requires At(s, p, Respawning(file)) && child !in s.daemons
    ensures Enabled(s, Respawn(p, child))
    ensures Next(s, Respawn(p, child)) == s.(
              daemons := s.daemons[p := s.daemons[p].(phase := Rewriting(file, child))][child := Daemon(Checking, file)])
  {
  }

  lemma RewriteAndExit(s: State, p: nat, file: nat, child: nat)
    requires At(s, p, Rewriting(file, child)) && s.content == "" && file in s.offsets && s.offsets[file] == 0
    ensures var events := [Rewrite(p, true), Exit(p)];
            && IsRun(s, events)
            && After(s, events) == State(PidLine(child), s.offsets[file := |PidLine(child)|],
                                         s.daemons[p := s.daemons[p].(phase := Gone)], s.signalled, s.script)
  {
    hide PidLine, Enabled, Next;
    RewriteIs(s, p, file, child);
    var t := Move(s, p, Exiting).(content := PidLine(child), offsets := s.offsets[file := |PidLine(child)|]);
    ExitIs(t, p);
    var first := OneStep(s, Rewrite(p, true));
    var last := OneStep(t, Exit(p));
    RunsCompose(s, first, last);
    assert first + last == [Rewrite(p, true), Exit(p)];
    assert Move(t, p, Gone).daemons == s.daemons[p := s.daemons[p].(phase := Gone)];
  }

  lemma RewriteIs(s: State, p: nat, file: nat, child: nat)
    requires At(s, p, Rewriting(file, child)) && s.content == "" && file in s.offsets && s.offsets[file] == 0
    ensures Enabled(s, Rewrite(p, true))
    ensures Next(s, Rewrite(p, true)) ==
            Move(s, p, Exiting).(content := PidLine(child), offsets := s.offsets[file := |PidLine(child)|])
  {
    OverwriteAtStart("", PidLine(child));
    hide PidLine, Overwrite;
  }

  lemma ExitIs(s: State, p: nat)
    requires At(s, p, Exiting)
    ensures Enabled(s, Exit(p)) && Next(s, Exit(p)) == Move(s, p, Gone)
  {
  }

  /** The pid file names no live daemon of ours, and no action is under way. */
  predicate AtRest(s: State) {
    s.script.Idle? && (NamedPid(s.content).Some? ==> !Alive(s, NamedPid(s.content).value))
  }

  function LifeEvents(file: nat, pid: nat): seq<Event> {
    StartEvents(file, pid) + [CheckIsNegative(pid), StartReturns(pid, true)] +
    (StopEvents(pid) + [TakeSignal(pid), StopReturns(pid)] + EndEvents(pid))
  }

  /**
   * From every state at rest, `start` brings an application to wait for its signal, with the
   * pid file naming it and nobody else disturbed.
   */
  lemma StartBringsUp(s: State, file: nat, pid: nat, ok: bool)
    requires AtRest(s) && file !in s.offsets && pid !in s.daemons
    ensures var events := StartEvents(file, pid) + [CheckIsNegative(pid), StartReturns(pid, ok)];
            && IsRun(s, events)
            && After(s, events) == State(PidLine(pid), s.offsets[file := |PidLine(pid)|],
                                         s.daemons[pid := Daemon(if ok then Running else Seeking, file)], s.signalled, Idle)
  {
    hide NamedPid, PidLine, Overwrite, Enabled, Next;
    StartRuns(s, file, pid);
    var t := After(s, StartEvents(file, pid));
    ApplicationStarts(t, pid, ok);
    RunsCompose(s, StartEvents(file, pid), [CheckIsNegative(pid), StartReturns(pid, ok)]);
    assert Move(t, pid, if ok then Running else Seeking).daemons ==
           s.daemons[pid := Daemon(if ok then Running else Seeking, file)];
  }

  /** From there `stop` ends it: the application has stopped, the file is empty and the process gone. */
  lemma StopBringsDown(s: State, pid: nat)
    requires s.script.Idle? && At(s, pid, Running) && s.content == PidLine(pid)
    ensures var events := StopEvents(pid) + [TakeSignal(pid), StopReturns(pid)] + EndEvents(pid);
            && IsRun(s, events)
            && After(s, events) == State("", s.offsets[s.daemons[pid].file := 0],
                                         s.daemons[pid := s.daemons[pid].(phase := Gone)], s.signalled + {pid}, Idle)
  {
    hide NamedPid, PidLine, Overwrite, Enabled, Next;
    StopRuns(s, pid);
    var t := After(s, StopEvents(pid));
    SignalEnds(t, pid);
    RunsCompose(s, StopEvents(pid), [TakeSignal(pid), StopReturns(pid)]);
    var u := Move(t, pid, Seeking);
    CleanUpRuns(u, pid);
    RunsCompose(s, StopEvents(pid) + [TakeSignal(pid), StopReturns(pid)], EndEvents(pid));
    assert Move(u, pid, Gone).daemons == s.daemons[pid := s.daemons[pid].(phase := Gone)];
  }

  /** Together they are a whole life, after which the service is at rest again. */
  lemma StartAndStop(s: State, file: nat, pid: nat)
    requires AtRest(s) && file !in s.offsets && pid !in s.daemons
    ensures IsRun(s, LifeEvents(file, pid))
    ensures var t := After(s, LifeEvents(file, pid));
            && AtRest(t) && t.content == ""
            && t.daemons == s.daemons[pid := Daemon(Gone, file)] && t.signalled == s.signalled + {pid}
  {
    hide PidLine, Overwrite, Enabled, Next, StartEvents, StopEvents, EndEvents;
    var up := StartEvents(file, pid) + [CheckIsNegative(pid), StartReturns(pid, true)];
    StartBringsUp(s, file, pid, true);
    StopBringsDown(After(s, up), pid);
    RunsCompose(s, up, StopEvents(pid) + [TakeSignal(pid), StopReturns(pid)] + EndEvents(pid));
  }

  /** An application that fails to start is cleaned up without a signal. */
  lemma FailedStartCleansUp(s: State, file: nat, pid: nat)
    requires AtRest(s) && file !in s.offsets && pid !in s.daemons
    ensures var events := StartEvents(file, pid) + [CheckIsNegative(pid), StartReturns(pid, false)] + EndEvents(pid);
            && IsRun(s, events)
            && var t := After(s, events);
               AtRest(t) && t.content == "" && t.daemons == s.daemons[pid := Daemon(Gone, file)] && t.signalled == s.signalled
  {
    hide PidLine, Overwrite, Enabled, Next, StartEvents, EndEvents;
    var up := StartEvents(file, pid) + [CheckIsNegative(pid), StartReturns(pid, false)];
    StartBringsUp(s, file, pid, false);
    CleanUpRuns(After(s, up), pid);
    RunsCompose(s, up, EndEvents(pid));
  }

  lemma LifeCounts(file: nat, pid: nat)
    ensures var count := multiset(LifeEvents(file, pid)); count[Invoke(Start)] == count[Invoke(Stop)] == 1
  {
    UpCounts(file, pid);
    DownCounts(pid);
    hide StartEvents, StopEvents, EndEvents;
    CountInTwo(StartEvents(file, pid) + [CheckIsNegative(pid), StartReturns(pid, true)],
               StopEvents(pid) + [TakeSignal(pid), StopReturns(pid)] + EndEvents(pid));
  }

  lemma UpCounts(file: nat, pid: nat)
    ensures var count := multiset(StartEvents(file, pid) + [CheckIsNegative(pid), StartReturns(pid, true)]);
            count[Invoke(Start)] == 1 && count[Invoke(Stop)] == 0
  {
  }

  lemma DownCounts(pid: nat)
    ensures var count := multiset(StopEvents(pid) + [TakeSignal(pid), StopReturns(pid)] + EndEvents(pid));
            count[Invoke(Start)] == 0 && count[Invoke(Stop)] == 1
  {
  }

  lemma CountInTwo(a: seq<Event>, b: seq<Event>)
    ensures multiset(a + b) == multiset(a) + multiset(b)
  {
  }

  /** From every initial state there are runs with any number of whole lives, one after the other. */
  lemma {:induction false} LivesFollowOneAnother(s: State, n: nat) returns (events: seq<Event>)
    requires AtRest(s)
    ensures IsRun(s, events) && multiset(events)[Invoke(Start)] == multiset(events)[Invoke(Stop)] == n
    ensures AtRest(After(s, events)) && After(s, events).content == if n > 0 then "" else s.content
    ensures |After(s, events).daemons| == |s.daemons| + n
    decreases n
  {
    if n == 0 {
      events := [];
    } else {
      hide NamedPid, PidLine, Enabled, Next;
      var file := FreshAbove(s.offsets.Keys, 0);
      var pid := FreshAbove(s.daemons.Keys, 0);
      StartAndStop(s, file, pid);
      hide LifeEvents, AtRest, IsRun, After;
      LifeCounts(file, pid);
      var t := After(s, LifeEvents(file, pid));
      assert |t.daemons| == |s.daemons| + 1;
      var rest := LivesFollowOneAnother(t, n - 1);
      RunsCompose(s, LifeEvents(file, pid), rest);
      events := LifeEvents(file, pid) + rest;
      CountInTwo(LifeEvents(file, pid), rest);
    }
  }
}
