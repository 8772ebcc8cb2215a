/**
 * The System V protocol around one init.d script: the script's `start` and `stop`
 * actions (the branch that is not Red Hat), the program the script runs in the
 * foreground, and the re-executed daemons, all advancing in any order.
 *
 * What is taken as given: the foreground program finds the script; pids are not reused;
 * script actions run one at a time. A pid file write may fail here and a re-executed
 * program may find the script again, and just when that lets a second application in is
 * proved too.
 */
module InitdProtocol {
  import opened Wrappers
  import opened Text
  import opened PidFile

  datatype Action = Start | Stop

  /** Where the foreground program is in the forking branch of `RunUntilExit`. */
  datatype Launcher =
    | Opening
    | Spawning(file: nat)
    | Writing(file: nat, child: nat)

  datatype Script =
    | Idle
    | ReadingStatus(action: Action)
    | Probing(action: Action, named: Option<nat>)
    | Waiting(launcher: Launcher)
    | ReadingTarget
    | Signalling(target: Option<nat>)

  /** Where a re-executed daemon is in `RunUntilExit`. */
  datatype Phase =
    | Checking       // isInitdOurParent
    | Starting       // application.Start
    | Running        // waiting for a signal
    | Stopping       // application.Stop
    | Seeking        // the deferred Seek
    | Truncating     // the deferred Truncate
    | Exiting
    | Gone
    // of a program that finds the script again and forks once more
    | Reopening
    | Respawning(own: nat)
    | Rewriting(own: nat, child: nat)

  /** `file` is the open file description the daemon inherited. */
  datatype Daemon = Daemon(phase: Phase, file: nat)

  datatype State = State(
    content: string,           // of the pid file
    offsets: map<nat, nat>,    // of each open file description
    daemons: map<nat, Daemon>, // by pid, including those that are gone
    signalled: set<nat>,
    script: Script)

  datatype Event =
    | Invoke(action: Action)                  // someone runs the script
    | ReadStatus                              // start-stop-daemon --status reads the pid file
    | Probe(alive: bool)                      //   ... and looks the process up
    | LauncherFails                           // any error before the child exists
    | OpenFile(file: nat)
    | SpawnChild(pid: nat)
    | WritePid(ok: bool)                      // the write, and the program's return
    | ReadTarget                              // start-stop-daemon --stop reads the pid file
    | SendTerm
    | OtherSignal(pid: nat)                   // a signal that does not come from the script
    | CheckIsNegative(pid: nat)
    | CheckFails(pid: nat)
    | CheckFindsScript(pid: nat)              // what the walk found may be gone when it returns
    | ForkFails(pid: nat)
    | ReopenFile(pid: nat, file: nat)
    | Respawn(pid: nat, child: nat)
    | Rewrite(pid: nat, ok: bool)
    | StartReturns(pid: nat, ok: bool)
    | TakeSignal(pid: nat)
    | StopReturns(pid: nat)
    | SeekFile(pid: nat)
    | TruncateFile(pid: nat)
    | Exit(pid: nat)
    | Kill(pid: nat)                          // the daemon dies wherever it is

  predicate Alive(s: State, pid: nat) {
    pid in s.daemons && !s.daemons[pid].phase.Gone?
  }

  predicate At(s: State, pid: nat, phase: Phase) {
    pid in s.daemons && s.daemons[pid].phase == phase && s.daemons[pid].file in s.offsets
  }

  /** The process the pid file names: its content is a line of digits. */
  function NamedPid(content: string): Option<nat> {
    if |content| > 1 && content[|content| - 1] == '\n' && AllDigits(content[..|content| - 1])
    then Some(DecimalValue(content[..|content| - 1])) else None
  }

  predicate Enabled(s: State, e: Event) {
    match e
    case Invoke(_) => s.script.Idle?
    case ReadStatus => s.script.ReadingStatus?
    case Probe(alive) =>
      && s.script.Probing?
      && (s.script.named.None? ==> !alive)
      // Of a pid that is not ours, nothing is known.
      && (s.script.named.Some? && s.script.named.value in s.daemons ==> alive == Alive(s, s.script.named.value))
    case LauncherFails => s.script.Waiting? && !s.script.launcher.Writing?
    case OpenFile(file) => s.script.Waiting? && s.script.launcher.Opening? && file !in s.offsets
    case SpawnChild(pid) => s.script.Waiting? && s.script.launcher.Spawning? && pid !in s.daemons
    case WritePid(_) => s.script.Waiting? && s.script.launcher.Writing? && s.script.launcher.file in s.offsets
    case ReadTarget => s.script.ReadingTarget?
    case SendTerm => s.script.Signalling?
    case OtherSignal(pid) => Alive(s, pid)
    case CheckIsNegative(pid) => At(s, pid, Checking)
    case CheckFails(pid) => At(s, pid, Checking)
    case CheckFindsScript(pid) => At(s, pid, Checking)
    case ForkFails(pid) => pid in s.daemons && (s.daemons[pid].phase.Reopening? || s.daemons[pid].phase.Respawning?)
    case ReopenFile(pid, file) => At(s, pid, Reopening) && file !in s.offsets
    case Respawn(pid, child) => pid in s.daemons && s.daemons[pid].phase.Respawning? && child !in s.daemons
    case Rewrite(pid, _) =>
      pid in s.daemons && s.daemons[pid].phase.Rewriting? && s.daemons[pid].phase.own in s.offsets
    case StartReturns(pid, _) => At(s, pid, Starting)
    case TakeSignal(pid) => At(s, pid, Running) && pid in s.signalled
    case StopReturns(pid) => At(s, pid, Stopping)
    case SeekFile(pid) => At(s, pid, Seeking)
    case TruncateFile(pid) => At(s, pid, Truncating)
    case Exit(pid) => At(s, pid, Exiting)
    case Kill(pid) => Alive(s, pid)
  }

  function Move(s: State, pid: nat, phase: Phase): State
    requires pid in s.daemons
  {
    s.(daemons := s.daemons[pid := s.daemons[pid].(phase := phase)])
  }

  /** The pid file seen through one open file description. */
  function Seen(s: State, file: nat): Shared
    requires file in s.offsets
  {
    Shared(s.content, s.offsets[file])
  }

  function Touch(s: State, file: nat, after: Shared): State {
    s.(content := after.content, offsets := s.offsets[file := after.offset])
  }

  function Next(s: State, e: Event): State
    requires Enabled(s, e)
  {
    match e
    case Invoke(action) => s.(script := ReadingStatus(action))
    case ReadStatus => s.(script := Probing(s.script.action, NamedPid(s.content)))
    case Probe(alive) =>
      s.(script := match s.script.action
                   case Start => if alive then Idle else Waiting(Opening)
                   case Stop => if alive then ReadingTarget else Idle)
    case LauncherFails => s.(script := Idle)
    case OpenFile(file) =>
      Touch(s, file, Apply(Shared(s.content, 0), Op.Open, 0)).(script := Waiting(Spawning(file)))
    case SpawnChild(pid) =>
      var file := s.script.launcher.file;
      s.(daemons := s.daemons[pid := Daemon(Checking, file)], script := Waiting(Writing(file, pid)))
    case WritePid(ok) =>
      var file, child := s.script.launcher.file, s.script.launcher.child;
      (if ok then Touch(s, file, Apply(Seen(s, file), Op.Write, child)) else s).(script := Idle)
    case ReadTarget => s.(script := Signalling(NamedPid(s.content)))
    case SendTerm =>
      var target := s.script.target;
      s.(script := Idle, signalled := if target.Some? && Alive(s, target.value) then s.signalled + {target.value}
                                      else s.signalled)
    case OtherSignal(pid) => s.(signalled := s.signalled + {pid})
    case CheckIsNegative(pid) => Move(s, pid, Starting)
    case CheckFails(pid) => Move(s, pid, Exiting)
    case CheckFindsScript(pid) => Move(s, pid, Reopening)
    case ForkFails(pid) => Move(s, pid, Exiting)
    case ReopenFile(pid, file) =>
      Move(Touch(s, file, Apply(Shared(s.content, 0), Op.Open, 0)), pid, Respawning(file))
    case Respawn(pid, child) =>
      var own := s.daemons[pid].phase.own;
      Move(s.(daemons := s.daemons[child := Daemon(Checking, own)]), pid, Rewriting(own, child))
    case Rewrite(pid, ok) =>
      var own, child := s.daemons[pid].phase.own, s.daemons[pid].phase.child;
      Move(if ok then Touch(s, own, Apply(Seen(s, own), Op.Write, child)) else s, pid, Exiting)
    case StartReturns(pid, ok) => Move(s, pid, if ok then Running else Seeking)
    case TakeSignal(pid) => Move(s, pid, Stopping)
    case StopReturns(pid) => Move(s, pid, Seeking)
    case SeekFile(pid) =>
      var file := s.daemons[pid].file;
      Move(Touch(s, file, Apply(Seen(s, file), Op.Seek, pid)), pid, Truncating)
    case TruncateFile(pid) =>
      var file := s.daemons[pid].file;
      Move(Touch(s, file, Apply(Seen(s, file), Op.Truncate, pid)), pid, Exiting)
    case Exit(pid) => Move(s, pid, Gone)
    case Kill(pid) => Move(s, pid, Gone)
  }

  // ----- runs -----

  /** Nothing of ours has run yet; the pid file holds anything at all. */
  predicate Initial(s: State) {
    s.offsets == map[] && s.daemons == map[] && s.signalled == {} && s.script.Idle?
  }

  predicate IsRun(s: State, events: seq<Event>)
    decreases |events|
  {
    events == [] || (Enabled(s, events[0]) && IsRun(Next(s, events[0]), events[1..]))
  }

  function After(s: State, events: seq<Event>): State
    requires IsRun(s, events)
    decreases |events|
  {
    if events == [] then s else After(Next(s, events[0]), events[1..])
  }

  // ----- what every step keeps -----

  /** Between calling `application.Start` and returning from `application.Stop`. */
  predicate RunsApplication(s: State, pid: nat) {
    pid in s.daemons && s.daemons[pid].phase in {Starting, Running, Stopping}
  }

  /** The daemon may yet run the application or empty the pid file. */
  predicate Pending(s: State, pid: nat) {
    pid in s.daemons && s.daemons[pid].phase in {Checking, Starting, Running, Stopping, Seeking, Truncating}
  }

  predicate ScriptAwaitsWriteFor(s: State, pid: nat) {
    s.script.Waiting? && s.script.launcher.Writing? && s.script.launcher.child == pid
  }

  /** The program in the foreground has not spawned its child yet. */
  predicate BeforeSpawn(s: State) {
    s.script.Waiting? && !s.script.launcher.Writing?
  }

  ghost predicate Inv(s: State) {
    // one daemon at a time matters, and the pid file names it unless its pid is about to be written
    && (forall p: nat, q: nat :: Pending(s, p) && Pending(s, q) ==> p == q)
    && (forall p: nat :: Pending(s, p) ==> ScriptAwaitsWriteFor(s, p) || s.content == PidLine(p))
    // a start gets past its status test only when there is no such daemon
    && (BeforeSpawn(s) ==> forall p: nat :: !Pending(s, p))
    && (s.script.Probing? ==> forall p: nat :: Pending(s, p) ==> s.script.named == Some(p))
    && (s.script.Signalling? ==> forall p: nat :: Pending(s, p) ==> s.script.target == Some(p))
    // the write will go to the start of an empty file
    && (s.script.Waiting? && s.script.launcher.Spawning? ==>
          s.content == "" && s.script.launcher.file in s.offsets && s.offsets[s.script.launcher.file] == 0)
    && (s.script.Waiting? && s.script.launcher.Writing? ==>
          && s.content == "" && s.script.launcher.file in s.offsets && s.offsets[s.script.launcher.file] == 0)
    && (forall p :: p in s.daemons ==> s.daemons[p].file in s.offsets)
    // nobody forks a second time
    && (forall p :: p in s.daemons ==> !ForksAgain(s.daemons[p].phase))
  }

  predicate ForksAgain(phase: Phase) {
    phase.Reopening? || phase.Respawning? || phase.Rewriting?
  }

  lemma NamedPidOfPidLine(pid: nat)
    ensures NamedPid(PidLine(pid)) == Some(pid)
  {
    assert PidLine(pid)[..|PidLine(pid)| - 1] == Dec(pid);
    DecimalValueOfDec(pid);
  }

  /** The foreground program is about to write the pid of a daemon that is still there. */
  predicate AwaitsPending(s: State) {
    s.script.Waiting? && s.script.launcher.Writing? && Pending(s, s.script.launcher.child)
  }

  /** No write fails while its child may yet run, and no child finds the script again. */
  predicate IsHarmless(s: State, e: Event) {
    (e == WritePid(false) ==> !AwaitsPending(s)) && !e.CheckFindsScript?
  }

  predicate IsHarmlessRun(s: State, events: seq<Event>)
    decreases |events|
  {
    events == [] ||
    (Enabled(s, events[0]) && IsHarmless(s, events[0]) && IsHarmlessRun(Next(s, events[0]), events[1..]))
  }

  lemma ScriptStepKeepsInv(s: State, e: Event)
    requires Inv(s) && Enabled(s, e)
    requires e.Invoke? || e.ReadStatus? || e.Probe? || e.LauncherFails? || e.ReadTarget? || e.SendTerm?
             || e.OtherSignal?
    ensures Inv(Next(s, e))
  {
    forall p: nat | Pending(s, p) ensures NamedPid(PidLine(p)) == Some(p) {
      NamedPidOfPidLine(p);
    }
    var t := Next(s, e);
    assert forall p: nat :: Pending(t, p) <==> Pending(s, p);
  }

  lemma LauncherStepKeepsInv(s: State, e: Event)
    requires Inv(s) && Enabled(s, e)
    requires e.OpenFile? || e.SpawnChild? || e.WritePid?
    requires IsHarmless(s, e)
    ensures Inv(Next(s, e))
  {
    var t := Next(s, e);
    if e == WritePid(true) {
      OverwriteAtStart("", PidLine(s.script.launcher.child));
      assert t.content == PidLine(s.script.launcher.child);
    }
    assert forall p: nat :: Pending(t, p) <==> Pending(s, p) || e == SpawnChild(p);
  }

  /** A daemon goes on, without becoming pending again. */
  lemma MoveKeepsInv(s: State, pid: nat, phase: Phase)
    requires Inv(s) && Alive(s, pid) && !ForksAgain(phase)
    requires Pending(s, pid) || phase.Exiting? || phase.Gone?
    ensures Inv(Move(s, pid, phase))
  {
    hide PidLine, NamedPid;
    var t := Move(s, pid, phase);
    assert forall p: nat :: Pending(t, p) ==> Pending(s, p);
  }

  lemma DaemonStepKeepsInv(s: State, e: Event, pid: nat)
    requires Inv(s) && Enabled(s, e)
    requires || e == CheckIsNegative(pid) || e == CheckFails(pid) || e == TakeSignal(pid) || e == StopReturns(pid)
             || e == StartReturns(pid, true) || e == StartReturns(pid, false) || e == Exit(pid) || e == Kill(pid)
    ensures Inv(Next(s, e))
  {
    hide Inv;
    MoveKeepsInv(s, pid, Next(s, e).daemons[pid].phase);
  }

  lemma CleanUpStepKeepsInv(s: State, e: Event, pid: nat)
    requires Inv(s) && Enabled(s, e)
    requires e == SeekFile(pid) || e == TruncateFile(pid)
    ensures Inv(Next(s, e))
  {
    var t := Next(s, e);
    assert forall p: nat :: Pending(t, p) ==> Pending(s, p);
    assert Pending(s, pid);
  }

  lemma StepKeepsInv(s: State, e: Event)
    requires Inv(s) && Enabled(s, e) && IsHarmless(s, e)
    ensures Inv(Next(s, e))
  {
    hide PidLine, NamedPid, Overwrite;
    match e
    case OpenFile(_) => LauncherStepKeepsInv(s, e);
    case SpawnChild(_) => LauncherStepKeepsInv(s, e);
    case WritePid(_) => LauncherStepKeepsInv(s, e);
    case CheckIsNegative(pid) => DaemonStepKeepsInv(s, e, pid);
    case CheckFails(pid) => DaemonStepKeepsInv(s, e, pid);
    case StartReturns(pid, ok) => DaemonStepKeepsInv(s, e, pid);
    case TakeSignal(pid) => DaemonStepKeepsInv(s, e, pid);
    case StopReturns(pid) => DaemonStepKeepsInv(s, e, pid);
    case SeekFile(pid) => CleanUpStepKeepsInv(s, e, pid);
    case TruncateFile(pid) => CleanUpStepKeepsInv(s, e, pid);
    case Exit(pid) => DaemonStepKeepsInv(s, e, pid);
    case Kill(pid) => DaemonStepKeepsInv(s, e, pid);
    case ForkFails(_) =>
    case ReopenFile(_, _) =>
    case Respawn(_, _) =>
    case Rewrite(_, _) =>
    case _ => ScriptStepKeepsInv(s, e);
  }

  lemma {:induction false} RunKeepsInv(s: State, events: seq<Event>)
    requires Inv(s) && IsHarmlessRun(s, events)
    ensures IsRun(s, events) && Inv(After(s, events))
    decreases |events|
  {
    if events != [] {
      StepKeepsInv(s, events[0]);
      RunKeepsInv(Next(s, events[0]), events[1..]);
    }
  }

  // ----- main results -----

  /**
   * Over every sequence of `start` and `stop` actions and every interleaving, at most one
   * process is running the application, as long as no pid file write fails while its child
   * may yet run and no child finds the script again. `HarmlessRunsExactly` says that without
   * that condition it fails.
   */
  lemma AtMostOneApplication(s: State, events: seq<Event>, p: nat, q: nat)
    requires Initial(s) && IsHarmlessRun(s, events)
    ensures IsRun(s, events)
    ensures RunsApplication(After(s, events), p) && RunsApplication(After(s, events), q) ==> p == q
  {
    RunKeepsInv(s, events);
    assert forall r: nat :: RunsApplication(After(s, events), r) ==> Pending(After(s, events), r);
  }

  /** Once the script has returned, the pid file holds the pid of the running application. */
  lemma RunningApplicationIsNamed(s: State, events: seq<Event>, p: nat)
    requires Initial(s) && IsHarmlessRun(s, events) && IsRun(s, events)
    requires RunsApplication(After(s, events), p)
    ensures After(s, events).script.Idle? ==> After(s, events).content == PidLine(p)
    ensures !ScriptAwaitsWriteFor(After(s, events), p) ==> NamedPid(After(s, events).content) == Some(p)
  {
    RunKeepsInv(s, events);
    assert Pending(After(s, events), p);
    NamedPidOfPidLine(p);
  }

  /** `stop` signals the running application, if there is one, and `start` leaves it alone. */
  lemma ScriptActsOnTheRunningApplication(s: State, events: seq<Event>, p: nat)
    requires Initial(s) && IsHarmlessRun(s, events) && IsRun(s, events)
    requires RunsApplication(After(s, events), p)
    ensures var t := After(s, events);
            && (t.script.Signalling? ==> p in Next(t, SendTerm).signalled)
            && (t.script.Probing? && t.script.action.Start? ==>
                  !Enabled(t, Probe(false)) && Next(t, Probe(true)).script.Idle?)
            && (t.script.Probing? && t.script.action.Stop? ==>
                  !Enabled(t, Probe(false)) && Next(t, Probe(true)).script.ReadingTarget?)
  {
    RunKeepsInv(s, events);
    assert Pending(After(s, events), p);
  }

  /** Some program opened, and so emptied, the pid file. */
  predicate Opens(events: seq<Event>) {
    exists i :: 0 <= i < |events| && events[i].OpenFile?
  }

  lemma OpensFirst(events: seq<Event>)
    requires events != []
    ensures Opens(events) <==> events[0].OpenFile? || Opens(events[1..])
  {
    assert forall i :: 0 < i < |events| ==> events[i] == events[1..][i - 1];
    assert Opens(events[1..]) ==> exists i :: 0 < i < |events| && events[i].OpenFile?;
  }

  /** The pid file holds nothing, one whole pid line of a daemon of ours, or what is left from before. */
  ghost predicate Shaped(s: State, before: Option<string>) {
    || s.content == "" || before == Some(s.content)
    || exists p: nat :: p in s.daemons && s.content == PidLine(p)
  }

  lemma StepKeepsShape(s: State, e: Event, before: Option<string>)
    requires Inv(s) && Shaped(s, before) && Enabled(s, e) && IsHarmless(s, e)
    requires s.script.Waiting? && s.script.launcher.Writing? ==> s.script.launcher.child in s.daemons
    ensures Shaped(Next(s, e), if e.OpenFile? then None else before)
    ensures var t := Next(s, e);
            t.script.Waiting? && t.script.launcher.Writing? ==> t.script.launcher.child in t.daemons
  {
    hide PidLine, NamedPid, Overwrite;
    var t := Next(s, e);
    assert forall p :: p in s.daemons ==> p in t.daemons;
    if e == WritePid(true) {
      OverwriteAtStart("", PidLine(s.script.launcher.child));
      assert t.content == PidLine(s.script.launcher.child);
    } else if !e.OpenFile? && !e.TruncateFile? {
      assert t.content == s.content;
    }
  }

  lemma {:induction false} RunKeepsShape(s: State, events: seq<Event>, before: Option<string>)
    requires Inv(s) && Shaped(s, before) && IsHarmlessRun(s, events)
    requires s.script.Waiting? && s.script.launcher.Writing? ==> s.script.launcher.child in s.daemons
    ensures IsRun(s, events) && Shaped(After(s, events), if Opens(events) then None else before)
    decreases |events|
  {
    if events != [] {
      OpensFirst(events);
      StepKeepsInv(s, events[0]);
      StepKeepsShape(s, events[0], before);
      RunKeepsShape(Next(s, events[0]), events[1..], if events[0].OpenFile? then None else before);
    }
  }

  /**
   * Across all generations, from the first open on, the pid file is empty or exactly the pid
   * line of a daemon: it never holds a gap or leftover digits.
   */
  lemma PidFileHoldsWholeLines(s: State, events: seq<Event>)
    requires Initial(s) && IsHarmlessRun(s, events)
    ensures IsRun(s, events)
    ensures var t := After(s, events);
            || t.content == "" || (!Opens(events) && t.content == s.content)
            || exists p: nat :: p in t.daemons && t.content == PidLine(p)
  {
    RunKeepsShape(s, events, Some(s.content));
  }

  // ----- cleaning up -----

  /**
   * The daemon gets to its deferred truncation only after its pid was written, and dies in no
   * other way.
   */
  predicate IsOrderly(s: State, e: Event) {
    match e
    case WritePid(ok) => ok
    case CheckFails(_) => false
    case CheckFindsScript(_) => false
    case Kill(_) => false
    case TruncateFile(pid) => !ScriptAwaitsWriteFor(s, pid)
    case _ => true
  }

  predicate IsOrderlyRun(s: State, events: seq<Event>)
    decreases |events|
  {
    events == [] ||
    (Enabled(s, events[0]) && IsOrderly(s, events[0]) && IsOrderlyRun(Next(s, events[0]), events[1..]))
  }

  /** The file is empty, names a daemon that has yet to empty it, or holds what is left from before. */
  ghost predicate NamesOnlyPending(s: State, before: Option<string>) {
    && (forall p: nat :: ScriptAwaitsWriteFor(s, p) ==> Pending(s, p))
    && (s.content == "" || before == Some(s.content) || exists p: nat :: Pending(s, p) && s.content == PidLine(p))
  }

  lemma OrderlyStepCleansUp(s: State, e: Event, before: Option<string>)
    requires Inv(s) && NamesOnlyPending(s, before) && Enabled(s, e) && IsOrderly(s, e)
    ensures NamesOnlyPending(Next(s, e), if e.OpenFile? then None else before)
  {
    hide PidLine, NamedPid, Overwrite;
    var t := Next(s, e);
    if e.WritePid? {
      OverwriteAtStart("", PidLine(s.script.launcher.child));
      assert Pending(t, s.script.launcher.child) && t.content == PidLine(s.script.launcher.child);
    } else if e.OpenFile? || e.TruncateFile? {
      assert t.content == "";
    } else {
      assert t.content == s.content;
      assert forall p: nat :: Pending(s, p) ==> Pending(t, p);
    }
  }

  lemma {:induction false} OrderlyRunKeeps(s: State, events: seq<Event>, before: Option<string>)
    requires Inv(s) && NamesOnlyPending(s, before) && IsOrderlyRun(s, events)
    ensures IsRun(s, events) && NamesOnlyPending(After(s, events), if Opens(events) then None else before)
    decreases |events|
  {
    if events != [] {
      OpensFirst(events);
      StepKeepsInv(s, events[0]);
      OrderlyStepCleansUp(s, events[0], before);
      OrderlyRunKeeps(Next(s, events[0]), events[1..], if events[0].OpenFile? then None else before);
    }
  }

  /**
   * When daemons end in good order, the pid file is empty as soon as none is left that could
   * be running, or as it was at first if no start ever opened it.
   */
  lemma OrderlyRunsLeaveNoPid(s: State, events: seq<Event>)
    requires Initial(s) && IsOrderlyRun(s, events)
    ensures IsRun(s, events)
    ensures (forall p: nat :: !Pending(After(s, events), p)) ==>
              After(s, events).content == "" || (!Opens(events) && After(s, events).content == s.content)
  {
    OrderlyRunKeeps(s, events, Some(s.content));
  }

  // ----- just when a second application is let in -----

  /** Two processes run the application. */
  ghost predicate TwoRun(s: State) {
    exists p: nat, q: nat :: p != q && RunsApplication(s, p) && RunsApplication(s, q)
  }

  /** Neither a failed write nor a child that finds the script. */
  predicate IsSmooth(e: Event) {
    e != WritePid(false) && !e.CheckFindsScript?
  }

  predicate AllSmooth(events: seq<Event>) {
    forall e :: e in events ==> IsSmooth(e)
  }

  /** By such events alone, two processes can come to run the application. */
  ghost predicate CanReachTwo(s: State) {
    exists events :: AllSmooth(events) && IsRun(s, events) && TwoRun(After(s, events))
  }

  lemma {:induction false} SmoothIsHarmless(s: State, events: seq<Event>)
    requires IsRun(s, events) && AllSmooth(events)
    ensures IsHarmlessRun(s, events)
    decreases |events|
  {
    if events != [] {
      assert IsSmooth(events[0]);
      SmoothIsHarmless(Next(s, events[0]), events[1..]);
    }
  }

  lemma InvNeverReachesTwo(s: State)
    requires Inv(s)
    ensures !CanReachTwo(s)
  {
    forall events | AllSmooth(events) && IsRun(s, events) ensures !TwoRun(After(s, events)) {
      SmoothIsHarmless(s, events);
      RunKeepsInv(s, events);
      assert forall p: nat :: RunsApplication(After(s, events), p) ==> Pending(After(s, events), p);
    }
  }

  lemma {:induction false} RunsCompose(s: State, first: seq<Event>, second: seq<Event>)
    requires IsRun(s, first) && IsRun(After(s, first), second)
    ensures IsRun(s, first + second) && After(s, first + second) == After(After(s, first), second)
    decreases |first|
  {
    if first == [] {
      assert first + second == second;
    } else {
      RunsCompose(Next(s, first[0]), first[1..], second);
      assert (first + second)[1..] == first[1..] + second;
    }
  }

  lemma Prepend(s: State, e: Event, rest: seq<Event>) returns (events: seq<Event>)
    requires Enabled(s, e) && IsSmooth(e) && AllSmooth(rest) && IsRun(Next(s, e), rest)
    ensures events == [e] + rest && AllSmooth(events) && IsRun(s, events)
    ensures After(s, events) == After(Next(s, e), rest)
  {
    events := [e] + rest;
  }

  lemma TwoRunReached(s: State, p: nat, q: nat)
    requires p != q && RunsApplication(s, p) && RunsApplication(s, q)
    ensures CanReachTwo(s)
  {
    assert AllSmooth([]) && IsRun(s, []) && TwoRun(After(s, []));
  }

  lemma StepReachesTwo(s: State, e: Event)
    requires Enabled(s, e) && IsSmooth(e) && CanReachTwo(Next(s, e))
    ensures CanReachTwo(s)
  {
    var rest :| AllSmooth(rest) && IsRun(Next(s, e), rest) && TwoRun(After(Next(s, e), rest));
    var events := Prepend(s, e, rest);
  }

  lemma RunReachesTwo(s: State, first: seq<Event>)
    requires AllSmooth(first) && IsRun(s, first) && CanReachTwo(After(s, first))
    ensures CanReachTwo(s)
  {
    var t := After(s, first);
    var rest :| AllSmooth(rest) && IsRun(t, rest) && TwoRun(After(t, rest));
    RunsCompose(s, first, rest);
    assert AllSmooth(first + rest) && IsRun(s, first + rest);
  }

  /** A whole `start` that finds an empty pid file puts one more application beside those that run. */
  lemma OneStart(s: State) returns (events: seq<Event>, pid: nat)
    requires s.script.Idle? && s.content == ""
    ensures AllSmooth(events) && IsRun(s, events)
    ensures pid !in s.daemons
    ensures var t := After(s, events);
            && t.script.Idle? && s.offsets.Keys <= t.offsets.Keys
            && exists file :: t.daemons == s.daemons[pid := Daemon(Starting, file)]
  {
    var test := StatusAllowsStart(s);
    var t := After(s, test);
    var fork, file;
    fork, file, pid := Fork(t);
    var rest := WriteAndCheck(After(t, fork), file, pid);
    RunsCompose(s, test, fork);
    RunsCompose(s, test + fork, rest);
    events := test + fork + rest;
  }

  lemma WriteAndCheck(s: State, file: nat, pid: nat) returns (events: seq<Event>)
    requires s.script == Waiting(Writing(file, pid)) && file in s.offsets
    requires pid in s.daemons && s.daemons[pid] == Daemon(Checking, file)
    ensures AllSmooth(events) && IsRun(s, events)
    ensures var t := After(s, events);
            t.script.Idle? && t.offsets.Keys == s.offsets.Keys && t.daemons == s.daemons[pid := Daemon(Starting, file)]
  {
    var s1 := Next(s, WritePid(true));
    events := Prepend(s1, CheckIsNegative(pid), []);
    events := Prepend(s, WritePid(true), events);
  }

  /** A status test on a pid file that names none of our daemons lets `start` go on. */
  lemma StatusAllowsStart(s: State) returns (events: seq<Event>)
    requires s.script.Idle?
    requires NamedPid(s.content).None? || NamedPid(s.content).value !in s.daemons
    ensures AllSmooth(events) && IsRun(s, events) && After(s, events) == s.(script := Waiting(Opening))
  {
    var s1 := Next(s, Invoke(Start));
    var s2 := Next(s1, ReadStatus);
    events := Prepend(s2, Probe(false), []);
    events := Prepend(s1, ReadStatus, events);
    events := Prepend(s, Invoke(Start), events);
  }

  /** From there the program forks. */
  lemma Fork(s: State) returns (events: seq<Event>, file: nat, pid: nat)
    requires s.script == Waiting(Opening)
    ensures AllSmooth(events) && IsRun(s, events) && file !in s.offsets && pid !in s.daemons
    ensures After(s, events) ==
            State("", s.offsets[file := 0], s.daemons[pid := Daemon(Checking, file)], s.signalled, Waiting(Writing(file, pid)))
  {
    file := FreshAbove(s.offsets.Keys, 0);
    pid := FreshAbove(s.daemons.Keys, 0);
    var s1 := Next(s, OpenFile(file));
    var s2 := Next(s1, SpawnChild(pid));
    assert s2.offsets == s.offsets[file := 0];
    events := Prepend(s1, SpawnChild(pid), []);
    events := Prepend(s, OpenFile(file), events);
  }

  /** Beside a daemon that runs, or may yet, an empty pid file lets a second one in. */
  lemma EmptyFileReachesTwo(s: State, p: nat)
    requires s.script.Idle? && s.content == ""
    requires RunsApplication(s, p) || At(s, p, Checking)
    ensures CanReachTwo(s)
  {
    var events, q := OneStart(s);
    var t := After(s, events);
    if RunsApplication(s, p) {
      TwoRunReached(t, p, q);
    } else {
      TwoRunReached(Next(t, CheckIsNegative(p)), p, q);
      StepReachesTwo(t, CheckIsNegative(p));
    }
    RunReachesTwo(s, events);
  }

  /** So does one that is about to empty the file: it empties it under the next daemon. */
  lemma TruncationReachesTwo(s: State, p: nat)
    requires s.script.Idle? && s.content == "" && At(s, p, Truncating)
    ensures CanReachTwo(s)
  {
    var events, q := OneStart(s);
    var t := After(s, events);
    EmptyFileReachesTwo(Next(t, TruncateFile(p)), q);
    StepReachesTwo(t, TruncateFile(p));
    RunReachesTwo(s, events);
  }

  lemma FailedWriteReachesTwo(s: State)
    requires Inv(s) && Enabled(s, WritePid(false)) && AwaitsPending(s)
    ensures CanReachTwo(Next(s, WritePid(false)))
  {
    var t, p := Next(s, WritePid(false)), s.script.launcher.child;
    if At(t, p, Truncating) {
      TruncationReachesTwo(t, p);
    } else if At(t, p, Seeking) {
      TruncationReachesTwo(Next(t, SeekFile(p)), p);
      StepReachesTwo(t, SeekFile(p));
    } else {
      EmptyFileReachesTwo(t, p);
    }
  }

  /** How many steps the script takes before it returns, when the process it looks for is there. */
  function StepsLeft(script: Script): nat {
    match script
    case ReadingStatus(_) => 4
    case Probing(_, _) => 3
    case ReadingTarget => 2
    case Signalling(_) => 1
    case _ => 0
  }

  /** A script that is not in a start returns, and changes only who has been signalled. */
  lemma {:induction false} ScriptReturns(s: State, p: nat) returns (events: seq<Event>)
    requires !s.script.Waiting? && Alive(s, p) && NamedPid(s.content) == Some(p)
    requires s.script.Probing? ==> s.script.named == Some(p)
    ensures AllSmooth(events) && IsRun(s, events)
    ensures After(s, events) == s.(script := Idle, signalled := After(s, events).signalled)
    decreases StepsLeft(s.script)
  {
    if s.script.Idle? {
      events := [];
    } else {
      var e := match s.script
               case ReadingStatus(_) => ReadStatus
               case Probing(_, _) => Probe(true)
               case ReadingTarget => ReadTarget
               case _ => SendTerm;
      events := ScriptReturns(Next(s, e), p);
      events := Prepend(s, e, events);
    }
  }

  /** A child that finds the script empties the file and forks, and a `start` fits in between. */
  lemma SecondForkReachesTwo(s: State, p: nat)
    requires s.script.Idle? && At(s, p, Reopening)
    ensures CanReachTwo(s)
  {
    var file := FreshAbove(s.offsets.Keys, 0);
    var s1 := Next(s, ReopenFile(p, file));
    var events, q := OneStart(s1);
    var s2 := After(s1, events);
    var child := FreshAbove(s2.daemons.Keys, 0);
    var s3 := Next(s2, Respawn(p, child));
    TwoRunReached(Next(s3, CheckIsNegative(child)), q, child);
    StepReachesTwo(s3, CheckIsNegative(child));
    StepReachesTwo(s2, Respawn(p, child));
    RunReachesTwo(s1, events);
    StepReachesTwo(s, ReopenFile(p, file));
  }

  lemma FoundScriptReachesTwo(s: State, p: nat)
    requires Inv(s) && Enabled(s, CheckFindsScript(p))
    ensures CanReachTwo(Next(s, CheckFindsScript(p)))
  {
    var t := Next(s, CheckFindsScript(p));
    assert Pending(s, p);
    if s.script.Waiting? {
      assert s.script.launcher.Writing?;
      SecondForkReachesTwo(Next(t, WritePid(true)), p);
      StepReachesTwo(t, WritePid(true));
    } else {
      NamedPidOfPidLine(p);
      var events := ScriptReturns(t, p);
      SecondForkReachesTwo(After(t, events), p);
      RunReachesTwo(t, events);
    }
  }

  /**
   * From a state that the harmless steps lead to, an event lets a second application in exactly
   * when it is a pid file write that fails while its child may yet run, or a child that finds
   * the script again.
   */
  lemma SecondIsLetInExactly(s: State, e: Event)
    requires Inv(s) && Enabled(s, e)
    ensures CanReachTwo(Next(s, e)) <==> !IsHarmless(s, e)
  {
    if IsHarmless(s, e) {
      StepKeepsInv(s, e);
      InvNeverReachesTwo(Next(s, e));
    } else if e.CheckFindsScript? {
      FoundScriptReachesTwo(s, e.pid);
    } else {
      FailedWriteReachesTwo(s);
    }
  }

  /** At no moment of the run can a second application still be let in by smooth steps alone. */
  ghost predicate NeverReachesTwo(s: State, events: seq<Event>)
    requires IsRun(s, events)
    decreases |events|
  {
    !CanReachTwo(s) && (events == [] || NeverReachesTwo(Next(s, events[0]), events[1..]))
  }

  /** A run keeps a second application out for good exactly when it is harmless. */
  lemma HarmlessRunsExactly(s: State, events: seq<Event>)
    requires Initial(s) && IsRun(s, events)
    ensures NeverReachesTwo(s, events) <==> IsHarmlessRun(s, events)
  {
    HarmlessFromExactly(s, events);
  }

  lemma {:induction false} HarmlessFromExactly(s: State, events: seq<Event>)
    requires Inv(s) && IsRun(s, events)
    ensures NeverReachesTwo(s, events) <==> IsHarmlessRun(s, events)
    decreases |events|
  {
    InvNeverReachesTwo(s);
    if events != [] {
      SecondIsLetInExactly(s, events[0]);
      if IsHarmless(s, events[0]) {
        StepKeepsInv(s, events[0]);
        HarmlessFromExactly(Next(s, events[0]), events[1..]);
      }
    }
  }

  /** Both kinds of event can happen, whatever the pid file held at first. */
  lemma BothExceptionsCanHappen(s: State)
    requires Initial(s)
    ensures exists events, pid: nat :: IsHarmlessRun(s, events) && IsRun(s, events) &&
              var t := After(s, events);
              && Enabled(t, WritePid(false)) && !IsHarmless(t, WritePid(false))
              && Enabled(t, CheckFindsScript(pid))
  {
    var test := StatusAllowsStart(s);
    var fork, file, pid := Fork(After(s, test));
    RunsCompose(s, test, fork);
    SmoothIsHarmless(s, test + fork);
    var t := After(s, test + fork);
    assert Enabled(t, CheckFindsScript(pid)) && AwaitsPending(t);
  }
}
