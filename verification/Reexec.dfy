/**
 * The chain of processes one `start` can create. The program that init.d starts
 * re-executes itself when the ancestor walk finds the script, and nothing stops the new
 * process from finding it again. The walk is not atomic: every read of `/proc` is a step
 * of its own, and between two of them any process may exit, be reaped or appear.
 */
module Reexec {
  import opened Wrappers
  import opened Text
  import opened Proc
  import opened PidFile

  datatype Status = Alive | Zombie

  /**
   * One entry of the process table. `script` is the init.d script named by the first four
   * arguments, if any; `IsEntry` below gives it its meaning.
   */
  datatype Process = Process(ppid: nat, script: Option<string>, status: Status)

  /** Where a process of the chain is in `RunUntilExit`. */
  datatype Pc =
    | Begin                              // about to call os.Getppid
    | AtCmdline(k: nat, cur: int)        // about to look at ancestor k
    | AtStat(k: nat, cur: int)           // about to read the parent of cur, to get ancestor k
    | Opening                            // found the script; about to open the pid file
    | Spawning
    | Writing(child: nat)
    | DaemonBranch                       // the walk was negative; about to call application.Start
    | AppStarted
    | ReturnedNil
    | ReturnedError
    | Killed

  /**
   * `chain[0]` is the program the script started and `chain[i + 1]` was spawned by `chain[i]`;
   * `pcs` runs parallel to it. `used` holds every pid that ever was. `file` is the pid file.
   */
  datatype State = State(
    table: map<nat, Process>,
    used: set<nat>,
    chain: seq<nat>,
    pcs: seq<Pc>,
    file: string)

  datatype Event =
    | Appear(pid: nat, process: Process)  // some process is created
    | Exit(pid: nat)                      // some process becomes a zombie
    | Reap(pid: nat)
    | Proceed(i: nat, ok: bool, pid: nat) // chain[i] takes a step; ok and pid answer its system call

  const INIT_PID: nat := 1

  // ----- reading the table -----

  /**
   * What a look at `/proc/<cur>/cmdline` finds, or `None` when it cannot be read. The
   * `cmdline` of a zombie is empty.
   */
  function ReadScript(table: map<nat, Process>, cur: int): Option<Option<string>> {
    if cur < 0 || cur !in table then None
    else Some(if table[cur].status.Zombie? then None else table[cur].script)
  }

  /** What a look at `/proc/<cur>/stat` finds. It names the parent of a zombie too. */
  function ReadParent(table: map<nat, Process>, cur: int): Option<nat> {
    if cur < 0 || cur !in table then None else Some(table[cur].ppid)
  }

  // ----- steps -----

  /**
   * The processes above the first program that wait for it: `outer[0]` is its parent, and
   * each one's parent is the next.
   */
  type Outer = seq<nat>

  /** Still walking or forking: the process is inside `RunUntilExit` and has not reached the application. */
  predicate Busy(pc: Pc) {
    !pc.AppStarted? && !Left(pc)
  }

  predicate Left(pc: Pc) {
    pc.ReturnedNil? || pc.ReturnedError? || pc.Killed?
  }

  predicate Enabled(outer: Outer, s: State, e: Event)
    requires |s.chain| == |s.pcs| > 0
  {
    match e
    case Appear(pid, p) =>
      && pid !in s.used && p.status.Alive? && p.ppid in s.table && s.table[p.ppid].status.Alive?
    case Exit(pid) =>
      && pid in s.table && s.table[pid].status.Alive? && pid != INIT_PID
      && (pid in outer ==> !Busy(s.pcs[0]))
    case Reap(pid) => pid in s.table && s.table[pid].status.Zombie?
    case Proceed(i, ok, pid) =>
      && i < |s.chain| && Busy(s.pcs[i])
      && s.chain[i] in s.table && s.table[s.chain[i]].status.Alive?
      && (s.pcs[i].Spawning? && ok ==> pid !in s.used)
  }

  /** `pid` becomes a zombie and its children move to init. */
  function TableAfterExit(table: map<nat, Process>, pid: nat): map<nat, Process> {
    map q: nat | q in table ::
      if q == pid then table[q].(status := Zombie)
      else if table[q].ppid == pid then table[q].(ppid := INIT_PID)
      else table[q]
  }

  function PcsAfterExit(chain: seq<nat>, pcs: seq<Pc>, pid: nat): (r: seq<Pc>)
    requires |chain| == |pcs|
    ensures |r| == |pcs|
    ensures forall i :: 0 <= i < |pcs| ==> r[i] == if chain[i] == pid && Busy(pcs[i]) then Killed else pcs[i]
  {
    seq(|pcs|, i requires 0 <= i < |pcs| => if chain[i] == pid && Busy(pcs[i]) then Killed else pcs[i])
  }

  /** The walk and the daemon branch: the steps that change nothing but the process itself. */
  function NextPc(s: State, i: nat): Pc
    requires i < |s.chain| == |s.pcs| && s.chain[i] in s.table
  {
    match s.pcs[i]
    case Begin => AtCmdline(0, s.table[s.chain[i]].ppid)
    case AtCmdline(k, cur) =>
      (match ReadScript(s.table, cur)
       case None => ReturnedError
       case Some(None) => if k + 1 < MAX_ANCESTORS then AtStat(k + 1, cur) else DaemonBranch
       case Some(Some(_)) => Opening)
    case AtStat(k, cur) =>
      (match ReadParent(s.table, cur)
       case None => ReturnedError
       case Some(parent) => if parent == 0 then DaemonBranch else AtCmdline(k, parent))
    case DaemonBranch => AppStarted
    case other => other
  }

  function Next(outer: Outer, s: State, e: Event): State
    requires |s.chain| == |s.pcs| > 0 && Enabled(outer, s, e)
  {
    match e
    case Appear(pid, p) => s.(table := s.table[pid := p], used := s.used + {pid})
    case Exit(pid) => s.(table := TableAfterExit(s.table, pid), pcs := PcsAfterExit(s.chain, s.pcs, pid))
    case Reap(pid) => s.(table := s.table - {pid})
    case Proceed(i, ok, pid) =>
      match s.pcs[i]
      case Opening =>
        if ok then s.(pcs := s.pcs[i := Spawning], file := "") else s.(pcs := s.pcs[i := ReturnedError])
      case Spawning =>
        if ok then State(s.table[pid := Process(s.chain[i], None, Alive)], s.used + {pid}, s.chain + [pid],
                         s.pcs[i := Writing(pid)] + [Begin], s.file)
        else s.(pcs := s.pcs[i := ReturnedError])
      case Writing(child) =>
        if ok then s.(pcs := s.pcs[i := ReturnedNil], file := Overwrite(s.file, 0, PidLine(child)))
        else s.(pcs := s.pcs[i := ReturnedError])
      case _ => s.(pcs := s.pcs[i := NextPc(s, i)])
  }

  /** The script has just started the program, whose own arguments name no script. */
  ghost predicate Initial(s: State) {
    && |s.chain| == 1 && s.pcs == [Begin]
    && TableOk(s)
    && s.chain[0] != INIT_PID && s.chain[0] in s.table
    && s.table[s.chain[0]].status.Alive? && s.table[s.chain[0]].script.None?
  }

  ghost predicate IsRun(outer: Outer, s: State, events: seq<Event>)
    decreases |events|
  {
    && |s.chain| == |s.pcs| > 0
    && (events == [] || (Enabled(outer, s, events[0]) && IsRun(outer, Next(outer, s, events[0]), events[1..])))
  }

  ghost function After(outer: Outer, s: State, events: seq<Event>): State
    requires IsRun(outer, s, events)
    decreases |events|
  {
    if events == [] then s else After(outer, Next(outer, s, events[0]), events[1..])
  }

  // ----- what every step keeps -----

  ghost predicate TableOk(s: State) {
    && s.table.Keys <= s.used && 0 in s.used && 0 !in s.table
    && INIT_PID in s.table && s.table[INIT_PID] == Process(0, None, Alive)
  }

  ghost predicate ChainOk(s: State) {
    && |s.chain| == |s.pcs| > 0
    && (forall i :: 0 <= i < |s.chain| ==> s.chain[i] in s.used && s.chain[i] != INIT_PID && s.chain[i] != 0)
    && (forall i, j :: 0 <= i < j < |s.chain| ==> s.chain[i] != s.chain[j])
    && (forall i :: 0 <= i < |s.chain| - 1 ==> s.pcs[i].Writing? || Left(s.pcs[i]))
    && !s.pcs[|s.pcs| - 1].Writing?
  }

  /** A process of the chain has no script of its own, and its parent is its predecessor or init. */
  ghost predicate LinkOk(s: State, i: nat)
    requires i < |s.chain| == |s.pcs|
  {
    && (s.chain[i] in s.table ==>
          && s.table[s.chain[i]].script.None?
          && (i > 0 ==> s.table[s.chain[i]].ppid == s.chain[i - 1] || s.table[s.chain[i]].ppid == INIT_PID))
    && (Busy(s.pcs[i]) ==> s.chain[i] in s.table && s.table[s.chain[i]].status.Alive?)
  }

  /** Ancestor `k` of `chain[i]`, as far as it lies in the chain: the right process, or init. */
  predicate InChain(s: State, i: nat, k: nat, cur: int)
    requires i < |s.chain|
  {
    k < i ==> cur == s.chain[i - 1 - k] || cur == INIT_PID
  }

  predicate PcOk(s: State, i: nat)
    requires i < |s.chain| == |s.pcs|
  {
    match s.pcs[i]
    case AtCmdline(k, cur) => k < MAX_ANCESTORS && InChain(s, i, k, cur)
    case AtStat(k, cur) => 0 < k < MAX_ANCESTORS && InChain(s, i, k - 1, cur)
    case Opening => i < MAX_ANCESTORS
    case Spawning => i < MAX_ANCESTORS
    case _ => true
  }

  ghost predicate Inv(s: State) {
    && TableOk(s) && ChainOk(s)
    && |s.chain| <= MAX_ANCESTORS + 1
    && forall i :: 0 <= i < |s.chain| ==> LinkOk(s, i) && PcOk(s, i)
  }

  lemma ExitKeepsInv(outer: Outer, s: State, pid: nat)
    requires Inv(s) && Enabled(outer, s, Exit(pid))
    ensures Inv(Next(outer, s, Exit(pid)))
  {
    var t := Next(outer, s, Exit(pid));
    ExitKeepsChain(outer, s, pid);
    forall i | 0 <= i < |t.chain| ensures LinkOk(t, i) && PcOk(t, i) {
      ExitKeepsLink(outer, s, pid, i);
    }
  }

  lemma ExitKeepsLink(outer: Outer, s: State, pid: nat, i: nat)
    requires Inv(s) && Enabled(outer, s, Exit(pid)) && i < |s.chain|
    ensures LinkOk(Next(outer, s, Exit(pid)), i) && PcOk(Next(outer, s, Exit(pid)), i)
  {
    assert LinkOk(s, i) && PcOk(s, i);
  }

  lemma ExitKeepsChain(outer: Outer, s: State, pid: nat)
    requires Inv(s) && Enabled(outer, s, Exit(pid))
    ensures TableOk(Next(outer, s, Exit(pid))) && ChainOk(Next(outer, s, Exit(pid)))
  {
  }

  lemma OthersKeepInv(outer: Outer, s: State, e: Event)
    requires Inv(s) && Enabled(outer, s, e) && (e.Appear? || e.Reap?)
    ensures Inv(Next(outer, s, e))
  {
    var t := Next(outer, s, e);
    forall i | 0 <= i < |t.chain| ensures LinkOk(t, i) && PcOk(t, i) {
      assert LinkOk(s, i) && PcOk(s, i);
    }
  }

  /** One step of the walk stays in the chain, or leaves it only at ancestor `i` or later. */
  lemma WalkStepIsOk(s: State, i: nat)
    requires Inv(s) && i < |s.chain| && s.chain[i] in s.table
    requires s.pcs[i].Begin? || s.pcs[i].AtCmdline? || s.pcs[i].AtStat? || s.pcs[i].DaemonBranch?
    ensures PcOk(s.(pcs := s.pcs[i := NextPc(s, i)]), i)
  {
    assert LinkOk(s, i) && PcOk(s, i);
    match s.pcs[i]
    case AtCmdline(k, cur) =>
      if k < i && cur != INIT_PID {
        assert LinkOk(s, i - 1 - k);
      }
    case AtStat(k, cur) =>
      if k - 1 < i && cur != INIT_PID {
        assert LinkOk(s, i - k);
      }
    case _ =>
  }

  /** A step that only moves the program counter of a process that has not spawned. */
  lemma MoveKeepsInv(s: State, i: nat, pc: Pc, file: string)
    requires Inv(s) && i < |s.chain| && Busy(s.pcs[i]) && s.chain[i] in s.table
    requires s.pcs[i].Writing? ==> Left(pc)
    requires !pc.Writing? && PcOk(s.(pcs := s.pcs[i := pc]), i)
    ensures Inv(s.(pcs := s.pcs[i := pc], file := file))
  {
    var t := s.(pcs := s.pcs[i := pc], file := file);
    forall j | 0 <= j < |t.chain| ensures LinkOk(t, j) && PcOk(t, j) {
      assert LinkOk(s, j) && PcOk(s, j);
    }
  }

  lemma SpawnKeepsInv(outer: Outer, s: State, i: nat, pid: nat)
    requires Inv(s) && Enabled(outer, s, Proceed(i, true, pid)) && s.pcs[i].Spawning?
    ensures Inv(Next(outer, s, Proceed(i, true, pid)))
  {
    var t := Next(outer, s, Proceed(i, true, pid));
    assert PcOk(s, i) && i == |s.chain| - 1;
    forall j | 0 <= j < |t.chain| ensures LinkOk(t, j) && PcOk(t, j) {
      if j < |s.chain| {
        assert LinkOk(s, j) && PcOk(s, j);
      }
    }
  }

  lemma StepKeepsInv(outer: Outer, s: State, e: Event)
    requires Inv(s) && Enabled(outer, s, e)
    ensures Inv(Next(outer, s, e))
  {
    match e
    case Appear(_, _) => OthersKeepInv(outer, s, e);
    case Reap(_) => OthersKeepInv(outer, s, e);
    case Exit(pid) => ExitKeepsInv(outer, s, pid);
    case Proceed(i, ok, pid) =>
      var t := Next(outer, s, e);
      assert PcOk(s, i);
      if s.pcs[i].Spawning? && ok {
        SpawnKeepsInv(outer, s, i, pid);
      } else if s.pcs[i].Opening? || s.pcs[i].Spawning? || s.pcs[i].Writing? {
        MoveKeepsInv(s, i, t.pcs[i], t.file);
      } else {
        WalkStepIsOk(s, i);
        MoveKeepsInv(s, i, NextPc(s, i), s.file);
      }
  }

  lemma {:induction false} RunKeepsInv(outer: Outer, s: State, events: seq<Event>)
    requires Inv(s) && IsRun(outer, s, events)
    ensures Inv(After(outer, s, events))
    decreases |events|
  {
    if events != [] {
      StepKeepsInv(outer, s, events[0]);
      RunKeepsInv(outer, Next(outer, s, events[0]), events[1..]);
    }
  }

  // ----- the bounded chain -----

  /**
   * However processes exit and are re-parented meanwhile, one `start` re-executes the
   * program at most five times, and only the last process of the chain ever calls
   * `application.Start`.
   */
  lemma ChainIsBounded(outer: Outer, s: State, events: seq<Event>)
    requires Initial(s) && IsRun(outer, s, events)
    ensures var t := After(outer, s, events);
            && |t.chain| - 1 <= 5
            && forall i :: 0 <= i < |t.pcs| && t.pcs[i].AppStarted? ==> i == |t.chain| - 1
  {
    InitialIsOk(s);
    RunKeepsInv(outer, s, events);
  }

  lemma InitialIsOk(s: State)
    requires Initial(s)
    ensures Inv(s)
  {
    assert LinkOk(s, 0) && PcOk(s, 0);
  }

  // ----- what a negative walk proves -----

  /** Nobody before `chain[i]` has left `RunUntilExit`. */
  ghost predicate Intact(s: State, i: nat)
    requires i < |s.chain| == |s.pcs|
  {
    forall j :: 0 <= j < i ==> Busy(s.pcs[j])
  }

  /** The processes above the first program wait for it, and the last of them is the script. */
  ghost predicate OuterOk(outer: Outer, s: State) {
    && outer != []
    && (forall j :: 0 <= j < |outer| ==>
          && outer[j] in s.table && s.table[outer[j]].status.Alive? && outer[j] != 0 && outer[j] in s.used
          && outer[j] !in s.chain)
    && (forall j :: 0 <= j < |outer| - 1 ==> s.table[outer[j]].ppid == outer[j + 1])
    && s.table[outer[|outer| - 1]].script.Some?
  }

  /** Ancestor `k` of `chain[i]` when everybody is still there. */
  function Ancestor(outer: Outer, s: State, i: nat, k: nat): nat
    requires i < |s.chain| && k < i + |outer|
  {
    if k < i then s.chain[i - 1 - k] else outer[k - i]
  }

  ghost predicate OnLine(outer: Outer, s: State, i: nat)
    requires i < |s.chain| == |s.pcs|
  {
    match s.pcs[i]
    case AtCmdline(k, cur) => k < i + |outer| && cur == Ancestor(outer, s, i, k)
    case AtStat(k, cur) => 0 < k < i + |outer| && cur == Ancestor(outer, s, i, k - 1)
    case _ => true
  }

  predicate IsDaemon(pc: Pc) {
    pc.DaemonBranch? || pc.AppStarted?
  }

  ghost predicate WalkOk(outer: Outer, s: State, i: nat)
    requires i < |s.chain| == |s.pcs|
  {
    && (Intact(s, i) && Busy(s.pcs[i]) ==> OnLine(outer, s, i))
    && (IsDaemon(s.pcs[i]) && i + |outer| <= MAX_ANCESTORS ==> !Intact(s, i))
  }

  ghost predicate ParentOk(s: State, i: nat)
    requires i < |s.chain| == |s.pcs|
  {
    i > 0 && s.chain[i] in s.table && Busy(s.pcs[i - 1]) ==> s.table[s.chain[i]].ppid == s.chain[i - 1]
  }

  ghost predicate OrderInv(outer: Outer, s: State) {
    && Inv(s)
    && (Busy(s.pcs[0]) ==> OuterOk(outer, s) && s.chain[0] in s.table && s.table[s.chain[0]].ppid == outer[0])
    && (forall i :: 0 <= i < |s.chain| ==> ParentOk(s, i) && WalkOk(outer, s, i))
  }

  lemma IntactBefore(s: State, t: State, i: nat)
    requires i < |s.chain| == |s.pcs| && i < |t.chain| == |t.pcs|
    requires forall j :: 0 <= j < i && Busy(t.pcs[j]) ==> Busy(s.pcs[j])
    ensures Intact(t, i) ==> Intact(s, i)
  {
    if Intact(t, i) {
      forall j | 0 <= j < i ensures Busy(s.pcs[j]) {
        assert Busy(t.pcs[j]);
      }
    }
  }

  lemma ExitKeepsOrder(outer: Outer, s: State, pid: nat)
    requires OrderInv(outer, s) && Enabled(outer, s, Exit(pid))
    ensures OrderInv(outer, Next(outer, s, Exit(pid)))
  {
    var t := Next(outer, s, Exit(pid));
    ExitKeepsInv(outer, s, pid);
    ExitKeepsOuter(outer, s, pid);
    hide Inv, OuterOk;
    forall i | 0 <= i < |t.chain| ensures ParentOk(t, i) && WalkOk(outer, t, i) {
      ExitKeepsWalk(outer, s, pid, i);
    }
  }

  lemma ExitKeepsOuter(outer: Outer, s: State, pid: nat)
    requires OrderInv(outer, s) && Enabled(outer, s, Exit(pid))
    ensures var t := Next(outer, s, Exit(pid));
            Busy(t.pcs[0]) ==> OuterOk(outer, t) && t.chain[0] in t.table && t.table[t.chain[0]].ppid == outer[0]
  {
    hide PcOk, WalkOk, ParentOk;
    assert LinkOk(s, 0);
  }

  lemma ExitKeepsWalk(outer: Outer, s: State, pid: nat, i: nat)
    requires OrderInv(outer, s) && Enabled(outer, s, Exit(pid)) && i < |s.chain|
    ensures ParentOk(Next(outer, s, Exit(pid)), i) && WalkOk(outer, Next(outer, s, Exit(pid)), i)
  {
    hide LinkOk, PcOk, OuterOk;
    assert ParentOk(s, i) && WalkOk(outer, s, i);
    IntactBefore(s, Next(outer, s, Exit(pid)), i);
  }

  lemma OthersKeepOrder(outer: Outer, s: State, e: Event)
    requires OrderInv(outer, s) && Enabled(outer, s, e) && (e.Appear? || e.Reap?)
    ensures OrderInv(outer, Next(outer, s, e))
  {
    var t := Next(outer, s, e);
    OthersKeepInv(outer, s, e);
    assert LinkOk(s, 0);
    forall i | 0 <= i < |t.chain| ensures ParentOk(t, i) && WalkOk(outer, t, i) {
      assert ParentOk(s, i) && WalkOk(outer, s, i) && LinkOk(s, i);
      IntactBefore(s, t, i);
    }
  }

  /** With everybody still there, ancestor `k` names no script unless it is the last one. */
  lemma AncestorAlive(outer: Outer, s: State, i: nat, k: nat)
    requires OrderInv(outer, s) && i < |s.chain| && Intact(s, i) && Busy(s.pcs[i]) && k < i + |outer|
    ensures var a := Ancestor(outer, s, i, k);
            && a != 0 && a in s.table && s.table[a].status.Alive?
            && (k + 1 < i + |outer| ==> s.table[a].ppid == Ancestor(outer, s, i, k + 1))
            && (k + 1 == i + |outer| ==> s.table[a].script.Some?)
  {
    assert Busy(s.pcs[0]);
    if k < i {
      var j := i - 1 - k;
      assert LinkOk(s, j) && ParentOk(s, j) && Busy(s.pcs[j]);
      assert j > 0 ==> Busy(s.pcs[j - 1]);
    }
  }

  /** With everybody still there, one step of the walk reads the next ancestor in line. */
  lemma WalkStepOnLine(outer: Outer, s: State, i: nat)
    requires OrderInv(outer, s) && i < |s.chain| && Busy(s.pcs[i]) && s.chain[i] in s.table
    requires s.pcs[i].Begin? || s.pcs[i].AtCmdline? || s.pcs[i].AtStat? || s.pcs[i].DaemonBranch?
    ensures WalkOk(outer, s.(pcs := s.pcs[i := NextPc(s, i)]), i)
  {
    var t := s.(pcs := s.pcs[i := NextPc(s, i)]);
    IntactBefore(s, t, i);
    assert WalkOk(outer, s, i) && ParentOk(s, i) && PcOk(s, i);
    if Intact(s, i) {
      assert i > 0 ==> Busy(s.pcs[i - 1]);
      if s.pcs[i].AtCmdline? {
        AncestorAlive(outer, s, i, s.pcs[i].k);
      } else if s.pcs[i].AtStat? {
        AncestorAlive(outer, s, i, s.pcs[i].k - 1);
        AncestorAlive(outer, s, i, s.pcs[i].k);
      }
    }
  }

  lemma MoveKeepsOrder(outer: Outer, s: State, i: nat, pc: Pc, file: string)
    requires OrderInv(outer, s) && i < |s.chain| && Busy(s.pcs[i]) && s.chain[i] in s.table
    requires s.pcs[i].Writing? ==> Left(pc)
    requires !pc.Writing? && PcOk(s.(pcs := s.pcs[i := pc]), i) && WalkOk(outer, s.(pcs := s.pcs[i := pc]), i)
    ensures OrderInv(outer, s.(pcs := s.pcs[i := pc], file := file))
  {
    var t := s.(pcs := s.pcs[i := pc], file := file);
    MoveKeepsInv(s, i, pc, file);
    assert WalkOk(outer, s.(pcs := s.pcs[i := pc]), i);
    forall j | 0 <= j < |t.chain| ensures ParentOk(t, j) && WalkOk(outer, t, j) {
      assert ParentOk(s, j) && WalkOk(outer, s, j);
      if j != i {
        IntactBefore(s, t, j);
      }
    }
  }

  lemma SpawnKeepsOrder(outer: Outer, s: State, i: nat, pid: nat)
    requires OrderInv(outer, s) && Enabled(outer, s, Proceed(i, true, pid)) && s.pcs[i].Spawning?
    ensures OrderInv(outer, Next(outer, s, Proceed(i, true, pid)))
  {
    var t := Next(outer, s, Proceed(i, true, pid));
    SpawnKeepsInv(outer, s, i, pid);
    assert i == |s.chain| - 1 && LinkOk(s, 0);
    forall j | 0 <= j < |t.chain| ensures ParentOk(t, j) && WalkOk(outer, t, j) {
      if j < |s.chain| {
        assert ParentOk(s, j) && WalkOk(outer, s, j) && LinkOk(s, j);
        IntactBefore(s, t, j);
      }
    }
  }

  lemma StepKeepsOrder(outer: Outer, s: State, e: Event)
    requires OrderInv(outer, s) && Enabled(outer, s, e)
    ensures OrderInv(outer, Next(outer, s, e))
  {
    match e
    case Appear(_, _) => OthersKeepOrder(outer, s, e);
    case Reap(_) => OthersKeepOrder(outer, s, e);
    case Exit(pid) => ExitKeepsOrder(outer, s, pid);
    case Proceed(i, ok, pid) =>
      var t := Next(outer, s, e);
      assert PcOk(s, i) && WalkOk(outer, s, i);
      if s.pcs[i].Spawning? && ok {
        SpawnKeepsOrder(outer, s, i, pid);
      } else if s.pcs[i].Opening? || s.pcs[i].Spawning? || s.pcs[i].Writing? {
        MoveKeepsOrder(outer, s, i, t.pcs[i], t.file);
      } else {
        WalkStepIsOk(s, i);
        WalkStepOnLine(outer, s, i);
        MoveKeepsOrder(outer, s, i, NextPc(s, i), s.file);
      }
  }

  lemma {:induction false} RunKeepsOrder(outer: Outer, s: State, events: seq<Event>)
    requires OrderInv(outer, s) && IsRun(outer, s, events)
    ensures OrderInv(outer, After(outer, s, events))
    decreases |events|
  {
    if events != [] {
      StepKeepsOrder(outer, s, events[0]);
      RunKeepsOrder(outer, Next(outer, s, events[0]), events[1..]);
    }
  }

  /** The program's parent is the first of the waiting processes. */
  ghost predicate StartedUnder(outer: Outer, s: State) {
    Initial(s) && OuterOk(outer, s) && s.table[s.chain[0]].ppid == outer[0]
  }

  lemma StartIsInOrder(outer: Outer, s: State)
    requires StartedUnder(outer, s)
    ensures OrderInv(outer, s)
  {
    InitialIsOk(s);
    assert ParentOk(s, 0) && WalkOk(outer, s, 0);
  }

  /**
   * A process of the chain that has the script within its five ancestors reaches the daemon
   * branch only after some process before it has left `RunUntilExit`. This holds although
   * `/proc` changes under the walk.
   */
  lemma NegativeWalkMeansSomeoneLeft(outer: Outer, s: State, events: seq<Event>, i: nat)
    requires StartedUnder(outer, s) && IsRun(outer, s, events)
    requires i < |After(outer, s, events).chain| == |After(outer, s, events).pcs|
    requires i + |outer| <= 5
    requires IsDaemon(After(outer, s, events).pcs[i])
    ensures exists j :: 0 <= j < i && Left(After(outer, s, events).pcs[j])
  {
    StartIsInOrder(outer, s);
    RunKeepsOrder(outer, s, events);
    var t := After(outer, s, events);
    assert WalkOk(outer, t, i);
    var j :| 0 <= j < i && !Busy(t.pcs[j]);
    assert Left(t.pcs[j]);
  }

  // ----- the pid file at that moment -----

  /** The process has not touched the pid file. */
  predicate Untouched(pc: Pc) {
    pc.Begin? || pc.AtCmdline? || pc.AtStat? || pc.Opening? || IsDaemon(pc)
  }

  ghost predicate FileOk(s: State) {
    && |s.chain| == |s.pcs| > 0
    && (|s.chain| == 1 && s.pcs[0].Spawning? ==> s.file == "")
    && (|s.chain| >= 2 && s.pcs[0].Writing? ==> s.pcs[0].child == s.chain[1])
    && (|s.chain| == 2 && Untouched(s.pcs[1]) && s.pcs[0].Writing? ==> s.file == "")
    && (|s.chain| == 2 && Untouched(s.pcs[1]) && s.pcs[0].ReturnedNil? ==> s.file == PidLine(s.chain[1]))
  }

  lemma StepKeepsFileOk(outer: Outer, s: State, e: Event)
    requires Inv(s) && FileOk(s) && Enabled(outer, s, e)
    ensures FileOk(Next(outer, s, e))
  {
    hide LinkOk, PcOk, TableOk, PidLine, Overwrite, ReadScript, ReadParent, TableAfterExit;
    if e.Proceed? && s.pcs[e.i].Writing? {
      OverwriteAtStart("", PidLine(s.pcs[e.i].child));
    }
  }

  lemma {:induction false} RunKeepsFileOk(outer: Outer, s: State, events: seq<Event>)
    requires Inv(s) && FileOk(s) && IsRun(outer, s, events)
    ensures FileOk(After(outer, s, events))
    decreases |events|
  {
    if events != [] {
      StepKeepsInv(outer, s, events[0]);
      StepKeepsFileOk(outer, s, events[0]);
      RunKeepsFileOk(outer, Next(outer, s, events[0]), events[1..]);
    }
  }

  /**
   * When the first re-executed child reaches the daemon branch, its parent has already left
   * `RunUntilExit`; and if the parent returned without an error, the pid file holds the
   * child's pid before the child calls `application.Start`.
   */
  lemma ParentLeavesBeforeTheDaemonStarts(outer: Outer, s: State, events: seq<Event>)
    requires StartedUnder(outer, s) && IsRun(outer, s, events)
    requires 1 + |outer| <= 5
    requires |After(outer, s, events).chain| == |After(outer, s, events).pcs| >= 2
    requires IsDaemon(After(outer, s, events).pcs[1])
    ensures var t := After(outer, s, events);
            Left(t.pcs[0]) && (t.pcs[0].ReturnedNil? ==> t.file == PidLine(t.chain[1]))
  {
    NegativeWalkMeansSomeoneLeft(outer, s, events, 1);
    InitialIsOk(s);
    RunKeepsInv(outer, s, events);
    RunKeepsFileOk(outer, s, events);
  }

  // ----- the pid file over the whole chain -----

  /** Who opened, and so emptied, the pid file last, and the pids written to it since. */
  datatype History = History(opener: Option<nat>, written: seq<nat>)

  function NextHistory(s: State, h: History, e: Event): History {
    if !e.Proceed? || !e.ok || e.i >= |s.pcs| then h
    else
      match s.pcs[e.i]
      case Opening => History(Some(e.i), [])
      case Writing(child) => h.(written := h.written + [child])
      case _ => h
  }

  ghost function HistoryAfter(outer: Outer, s: State, h: History, events: seq<Event>): History
    requires IsRun(outer, s, events)
    decreases |events|
  {
    if events == [] then h
    else HistoryAfter(outer, Next(outer, s, events[0]), NextHistory(s, h, events[0]), events[1..])
  }

  /** Only the last process of the chain opens the file, and each process writes the next one's pid. */
  ghost predicate HistoryOk(s: State, h: History) {
    && |s.chain| == |s.pcs| > 0
    && (h.opener.Some? ==> s.file == Layered(h.written))
    && (|s.chain| >= 2 && Untouched(s.pcs[|s.pcs| - 1]) ==> h.opener == Some(|s.chain| - 2))
    && (s.pcs[|s.pcs| - 1].Spawning? ==> h.opener == Some(|s.chain| - 1))
    && forall i :: 0 <= i < |s.pcs| && s.pcs[i].Writing? ==> i + 1 < |s.chain| && s.pcs[i].child == s.chain[i + 1]
  }

  lemma StepKeepsHistory(outer: Outer, s: State, h: History, e: Event)
    requires Inv(s) && HistoryOk(s, h) && Enabled(outer, s, e)
    ensures HistoryOk(Next(outer, s, e), NextHistory(s, h, e))
  {
    if e.Proceed? && s.pcs[e.i].Spawning? && e.ok {
      SpawnKeepsHistory(outer, s, h, e);
    } else if e.Proceed? && s.pcs[e.i].Writing? {
      WriteKeepsHistory(outer, s, h, e);
    } else {
      OthersKeepHistory(outer, s, h, e);
    }
  }

  lemma SpawnKeepsHistory(outer: Outer, s: State, h: History, e: Event)
    requires Inv(s) && HistoryOk(s, h) && Enabled(outer, s, e)
    requires e.Proceed? && s.pcs[e.i].Spawning? && e.ok
    ensures HistoryOk(Next(outer, s, e), NextHistory(s, h, e))
  {
  }

  lemma OthersKeepHistory(outer: Outer, s: State, h: History, e: Event)
    requires Inv(s) && HistoryOk(s, h) && Enabled(outer, s, e)
    requires e.Proceed? ==> !(s.pcs[e.i].Spawning? && e.ok) && !s.pcs[e.i].Writing?
    ensures HistoryOk(Next(outer, s, e), NextHistory(s, h, e))
  {
    hide LinkOk, PcOk, TableOk, PidLine, Overwrite, ReadScript, ReadParent, TableAfterExit;
  }

  lemma WriteKeepsHistory(outer: Outer, s: State, h: History, e: Event)
    requires Inv(s) && HistoryOk(s, h) && Enabled(outer, s, e)
    requires e.Proceed? && s.pcs[e.i].Writing?
    ensures HistoryOk(Next(outer, s, e), NextHistory(s, h, e))
  {
    hide LinkOk, PcOk, TableOk, PidLine, Overwrite, Layered;
    LayeredAppend(h.written, s.pcs[e.i].child);
  }

  lemma {:induction false} RunKeepsHistory(outer: Outer, s: State, h: History, events: seq<Event>)
    requires Inv(s) && HistoryOk(s, h) && IsRun(outer, s, events)
    ensures HistoryOk(After(outer, s, events), HistoryAfter(outer, s, h, events))
    decreases |events|
  {
    if events != [] {
      StepKeepsInv(outer, s, events[0]);
      StepKeepsHistory(outer, s, h, events[0]);
      RunKeepsHistory(outer, Next(outer, s, events[0]), NextHistory(s, h, events[0]), events[1..]);
    }
  }

  /**
   * In every run, as long as the last process of the chain has not touched the pid file, its
   * parent was the last to open it, and the file is the pid line of `p` exactly when `p` was
   * written last and no line written since that open is longer. With `p` the last process this
   * is when the file names the right one.
   */
  lemma PidFileNamesExactly(outer: Outer, s: State, events: seq<Event>, p: nat)
    requires Initial(s) && IsRun(outer, s, events)
    requires |After(outer, s, events).chain| == |After(outer, s, events).pcs| >= 2
    requires Untouched(After(outer, s, events).pcs[|After(outer, s, events).pcs| - 1])
    ensures var t, h := After(outer, s, events), HistoryAfter(outer, s, History(None, []), events);
            && h.opener == Some(|t.chain| - 2)
            && (t.file == PidLine(p) <==>
                  && h.written != [] && h.written[|h.written| - 1] == p
                  && forall w :: w in h.written ==> |PidLine(w)| <= |PidLine(p)|)
  {
    InitialIsOk(s);
    RunKeepsHistory(outer, s, History(None, []), events);
    LayeredNames(HistoryAfter(outer, s, History(None, []), events).written, p);
  }

  // ----- how deep the chain gets -----

  /** Nobody between the program and the script is a script too. */
  ghost predicate NearestIsLast(outer: Outer, s: State) {
    StartedUnder(outer, s) && forall j :: 0 <= j < |outer| - 1 ==> s.table[outer[j]].script.None?
  }

  /** `pid` has moved to init, or its parent is still `parent`. */
  predicate ParentIs(s: State, pid: nat, parent: nat) {
    pid in s.table ==> s.table[pid].ppid == parent || s.table[pid].ppid == INIT_PID
  }

  /** The line above the program, as far as it is still there. */
  ghost predicate LineOk(outer: Outer, s: State) {
    && outer != [] && |s.chain| == |s.pcs| > 0
    && (forall j :: 0 <= j < |outer| ==> outer[j] in s.used)
    && (forall j :: 0 <= j < |outer| - 1 ==>
          (outer[j] in s.table ==> s.table[outer[j]].script.None?) && ParentIs(s, outer[j], outer[j + 1]))
    && ParentIs(s, s.chain[0], outer[0])
  }

  /** The walk of `chain[i]` is on the line or at init until it is past the script. */
  predicate DepthOk(outer: Outer, s: State, i: nat)
    requires i < |s.chain| == |s.pcs|
  {
    match s.pcs[i]
    case AtCmdline(k, cur) => k < i + |outer| ==> cur == Ancestor(outer, s, i, k) || cur == INIT_PID
    case AtStat(k, cur) => 0 < k <= i + |outer| ==> cur == Ancestor(outer, s, i, k - 1) || cur == INIT_PID
    case Opening => i + |outer| <= MAX_ANCESTORS
    case Spawning => i + |outer| <= MAX_ANCESTORS
    case _ => true
  }

  ghost predicate DepthInv(outer: Outer, s: State) {
    && Inv(s) && LineOk(outer, s)
    && (|s.chain| == 1 || |s.chain| + |outer| <= MAX_ANCESTORS + 2)
    && forall i :: 0 <= i < |s.chain| ==> DepthOk(outer, s, i)
  }

  lemma OthersKeepDepth(outer: Outer, s: State, e: Event)
    requires DepthInv(outer, s) && Enabled(outer, s, e) && !e.Proceed?
    ensures DepthInv(outer, Next(outer, s, e))
  {
    var t := Next(outer, s, e);
    StepKeepsInv(outer, s, e);
    OthersKeepLine(outer, s, e);
    forall i | 0 <= i < |t.chain| ensures DepthOk(outer, t, i) {
      assert DepthOk(outer, s, i);
    }
  }

  lemma OthersKeepLine(outer: Outer, s: State, e: Event)
    requires Inv(s) && LineOk(outer, s) && Enabled(outer, s, e) && !e.Proceed?
    ensures LineOk(outer, Next(outer, s, e))
  {
    hide PcOk;
  }

  lemma WalkStepIsInDepth(outer: Outer, s: State, i: nat)
    requires DepthInv(outer, s) && i < |s.chain| && s.chain[i] in s.table
    requires s.pcs[i].Begin? || s.pcs[i].AtCmdline? || s.pcs[i].AtStat? || s.pcs[i].DaemonBranch?
    ensures DepthOk(outer, s.(pcs := s.pcs[i := NextPc(s, i)]), i)
  {
    assert LinkOk(s, i) && PcOk(s, i) && DepthOk(outer, s, i);
    match s.pcs[i]
    case AtCmdline(k, cur) =>
      if k < i {
        assert LinkOk(s, i - 1 - k);
      }
    case AtStat(k, cur) =>
      if k <= i {
        assert LinkOk(s, i - k);
      }
    case _ =>
  }

  lemma MoveKeepsDepth(outer: Outer, s: State, i: nat, pc: Pc, file: string)
    requires DepthInv(outer, s) && i < |s.chain|
    requires DepthOk(outer, s.(pcs := s.pcs[i := pc]), i) && Inv(s.(pcs := s.pcs[i := pc], file := file))
    ensures DepthInv(outer, s.(pcs := s.pcs[i := pc], file := file))
  {
    var t := s.(pcs := s.pcs[i := pc], file := file);
    assert DepthOk(outer, s.(pcs := s.pcs[i := pc]), i);
    forall j | 0 <= j < |t.chain| ensures DepthOk(outer, t, j) {
      assert DepthOk(outer, s, j);
    }
  }

  lemma SpawnKeepsDepth(outer: Outer, s: State, i: nat, pid: nat)
    requires DepthInv(outer, s) && Enabled(outer, s, Proceed(i, true, pid)) && s.pcs[i].Spawning?
    ensures DepthInv(outer, Next(outer, s, Proceed(i, true, pid)))
  {
    var t := Next(outer, s, Proceed(i, true, pid));
    SpawnKeepsInv(outer, s, i, pid);
    assert i == |s.chain| - 1 && DepthOk(outer, s, i);
    assert LineOk(outer, t);
    forall j | 0 <= j < |t.chain| ensures DepthOk(outer, t, j) {
      if j < |s.chain| {
        assert DepthOk(outer, s, j);
      }
    }
  }

  lemma StepKeepsDepth(outer: Outer, s: State, e: Event)
    requires DepthInv(outer, s) && Enabled(outer, s, e)
    ensures DepthInv(outer, Next(outer, s, e))
  {
    if !e.Proceed? {
      OthersKeepDepth(outer, s, e);
    } else {
      var t, i := Next(outer, s, e), e.i;
      StepKeepsInv(outer, s, e);
      assert DepthOk(outer, s, i);
      if s.pcs[i].Spawning? && e.ok {
        SpawnKeepsDepth(outer, s, i, e.pid);
      } else if s.pcs[i].Opening? || s.pcs[i].Spawning? || s.pcs[i].Writing? {
        MoveKeepsDepth(outer, s, i, t.pcs[i], t.file);
      } else {
        WalkStepIsInDepth(outer, s, i);
        MoveKeepsDepth(outer, s, i, NextPc(s, i), s.file);
      }
    }
  }

  lemma {:induction false} RunKeepsDepth(outer: Outer, s: State, events: seq<Event>)
    requires DepthInv(outer, s) && IsRun(outer, s, events)
    ensures DepthInv(outer, After(outer, s, events))
    decreases |events|
  {
    if events != [] {
      StepKeepsDepth(outer, s, events[0]);
      RunKeepsDepth(outer, Next(outer, s, events[0]), events[1..]);
    }
  }

  /**
   * However the table changes, under a script `|outer|` levels up the program is re-executed at
   * most `6 - |outer|` times, and never under one more than five levels up.
   */
  lemma ChainDepthIsBounded(outer: Outer, s: State, events: seq<Event>)
    requires NearestIsLast(outer, s) && IsRun(outer, s, events)
    ensures |After(outer, s, events).chain| - 1 <= if |outer| <= 5 then 6 - |outer| else 0
  {
    InitialIsOk(s);
    assert DepthOk(outer, s, 0);
    RunKeepsDepth(outer, s, events);
  }

  // ----- runs that nothing disturbs -----

  /** Everybody is still there, and no ancestor names a script before the last one. */
  ghost predicate Standing(outer: Outer, s: State) {
    && |s.chain| == |s.pcs| > 0
    && OuterOk(outer, s) && s.table.Keys <= s.used
    && (forall j :: 0 <= j < |outer| - 1 ==> s.table[outer[j]].script.None?)
    && (forall i :: 0 <= i < |s.chain| ==>
          s.chain[i] in s.table && s.table[s.chain[i]] == Process(Ancestor(outer, s, i, 0), None, Alive))
    && (forall i :: 0 <= i < |s.chain| ==> s.chain[i] != 0)
  }

  lemma StandingAncestor(outer: Outer, s: State, i: nat, k: nat)
    requires Standing(outer, s) && i < |s.chain| && k < i + |outer|
    ensures var a := Ancestor(outer, s, i, k);
            && a != 0
            && ReadScript(s.table, a) == Some(if k + 1 == i + |outer| then s.table[a].script else None)
            && (k + 1 == i + |outer| ==> s.table[a].script.Some?)
            && (k + 1 < i + |outer| ==> ReadParent(s.table, a) == Some(Ancestor(outer, s, i, k + 1)))
  {
    if k < i {
      assert s.table[s.chain[i - 1 - k]] == Process(Ancestor(outer, s, i - 1 - k, 0), None, Alive);
    }
  }

  lemma {:induction false} RunsCompose(outer: Outer, s: State, first: seq<Event>, second: seq<Event>)
    requires IsRun(outer, s, first) && IsRun(outer, After(outer, s, first), second)
    ensures IsRun(outer, s, first + second)
    ensures After(outer, s, first + second) == After(outer, After(outer, s, first), second)
    decreases |first|
  {
    if first == [] {
      assert first + second == second;
    } else {
      RunsCompose(outer, Next(outer, s, first[0]), first[1..], second);
      assert (first + second)[1..] == first[1..] + second;
    }
  }

  lemma Append(outer: Outer, s: State, events: seq<Event>, e: Event) returns (longer: seq<Event>)
    requires IsRun(outer, s, events)
    requires |After(outer, s, events).chain| == |After(outer, s, events).pcs| > 0
    requires Enabled(outer, After(outer, s, events), e)
    requires |Next(outer, After(outer, s, events), e).chain| == |Next(outer, After(outer, s, events), e).pcs| > 0
    ensures longer == events + [e]
    ensures IsRun(outer, s, longer) && After(outer, s, longer) == Next(outer, After(outer, s, events), e)
  {
    var t := After(outer, s, events);
    assert IsRun(outer, Next(outer, t, e), []);
    assert IsRun(outer, t, [e]) && After(outer, t, [e]) == Next(outer, t, e);
    RunsCompose(outer, s, events, [e]);
    longer := events + [e];
  }

  /** `s` with the program counter of `chain[i]` set. */
  function WithPc(s: State, i: nat, pc: Pc): State
    requires i < |s.pcs|
  {
    s.(pcs := s.pcs[i := pc])
  }

  predicate IsWalking(pc: Pc) {
    (pc.AtCmdline? && pc.k < MAX_ANCESTORS) || (pc.AtStat? && 0 < pc.k < MAX_ANCESTORS)
  }

  /** Where the walk of `chain[i]` ends when nothing else happens meanwhile. */
  function Settled(s: State, i: nat): Pc
    requires i < |s.chain| == |s.pcs| && s.chain[i] in s.table
    decreases if IsWalking(s.pcs[i])
              then 2 * (MAX_ANCESTORS - s.pcs[i].k) + (if s.pcs[i].AtStat? then 1 else 0) else 0
  {
    if IsWalking(s.pcs[i]) then Settled(WithPc(s, i, NextPc(s, i)), i) else s.pcs[i]
  }

  /** One step of a walk, as an event. */
  lemma WalkStep(outer: Outer, s: State, i: nat)
    requires i < |s.chain| == |s.pcs| && s.chain[i] in s.table && s.table[s.chain[i]].status.Alive?
    requires s.pcs[i].Begin? || IsWalking(s.pcs[i])
    ensures Enabled(outer, s, Proceed(i, true, 0))
    ensures Next(outer, s, Proceed(i, true, 0)) == WithPc(s, i, NextPc(s, i))
  {
  }

  /** A walk that runs by itself gets to where it settles. */
  lemma {:induction false} SettledIsReached(outer: Outer, s: State, i: nat) returns (events: seq<Event>)
    requires i < |s.chain| == |s.pcs| && s.chain[i] in s.table && s.table[s.chain[i]].status.Alive?
    ensures forall e :: e in events ==> e == Proceed(i, true, 0)
    ensures IsRun(outer, s, events) && After(outer, s, events) == WithPc(s, i, Settled(s, i))
    decreases if IsWalking(s.pcs[i])
              then 2 * (MAX_ANCESTORS - s.pcs[i].k) + (if s.pcs[i].AtStat? then 1 else 0) else 0
  {
    if IsWalking(s.pcs[i]) {
      var e, t := Proceed(i, true, 0), WithPc(s, i, NextPc(s, i));
      WalkStep(outer, s, i);
      var rest := SettledIsReached(outer, t, i);
      events := [e] + rest;
    } else {
      events := [];
    }
  }

  /** A walk that nothing disturbs finds the script exactly when it is within five ancestors. */
  lemma {:induction false} UndisturbedWalk(outer: Outer, s: State, i: nat, k: nat)
    requires Standing(outer, s) && i < |s.chain| && k < MAX_ANCESTORS && k < i + |outer|
    requires s.pcs[i] == AtCmdline(k, Ancestor(outer, s, i, k))
    ensures Settled(s, i) == if i + |outer| <= 5 then Opening else DaemonBranch
    decreases MAX_ANCESTORS - k
  {
    hide OuterOk, Ancestor, ReadScript, ReadParent;
    StandingAncestor(outer, s, i, k);
    if k + 1 < i + |outer| && k + 1 < MAX_ANCESTORS {
      UndisturbedClimb(outer, s, i, k);
      var t := WithPc(s, i, AtCmdline(k + 1, Ancestor(outer, s, i, k + 1)));
      StandingIgnoresPc(outer, s, i, t.pcs[i], s.file);
      UndisturbedWalk(outer, t, i, k + 1);
    }
  }

  /** Two of its steps lead from one ancestor to the next. */
  lemma UndisturbedClimb(outer: Outer, s: State, i: nat, k: nat)
    requires Standing(outer, s) && i < |s.chain| && k + 1 < MAX_ANCESTORS && k + 1 < i + |outer|
    requires s.pcs[i] == AtCmdline(k, Ancestor(outer, s, i, k))
    ensures Settled(s, i) == Settled(WithPc(s, i, AtCmdline(k + 1, Ancestor(outer, s, i, k + 1))), i)
  {
    hide OuterOk, Ancestor, ReadScript, ReadParent;
    var a := Ancestor(outer, s, i, k);
    StandingAncestor(outer, s, i, k);
    StandingAncestor(outer, s, i, k + 1);
    var t := WithPc(s, i, AtStat(k + 1, a));
    assert NextPc(s, i) == t.pcs[i];
    assert WithPc(t, i, NextPc(t, i)) == WithPc(s, i, AtCmdline(k + 1, Ancestor(outer, s, i, k + 1)));
  }

  lemma StandingIgnoresPc(outer: Outer, s: State, i: nat, pc: Pc, file: string)
    requires Standing(outer, s) && i < |s.chain|
    ensures Standing(outer, WithPc(s, i, pc).(file := file))
    ensures forall j, k :: 0 <= j < |s.chain| && 0 <= k < j + |outer| ==>
              Ancestor(outer, WithPc(s, i, pc).(file := file), j, k) == Ancestor(outer, s, j, k)
  {
  }

  /** The same from the beginning of `isInitdOurParent`, as a run. */
  lemma UndisturbedCheck(outer: Outer, s: State, i: nat) returns (events: seq<Event>)
    requires Standing(outer, s) && i < |s.chain| && s.pcs[i].Begin?
    ensures IsRun(outer, s, events)
    ensures After(outer, s, events) == WithPc(s, i, if i + |outer| <= MAX_ANCESTORS then Opening else DaemonBranch)
  {
    WalkStep(outer, s, i);
    var t := WithPc(s, i, AtCmdline(0, Ancestor(outer, s, i, 0)));
    StandingIgnoresPc(outer, s, i, t.pcs[i], s.file);
    UndisturbedWalk(outer, t, i, 0);
    var rest := SettledIsReached(outer, t, i);
    events := [Proceed(i, true, 0)] + rest;
  }

  /** The last process finds the script and forks, and everybody is still there afterwards. */
  lemma ForkUndisturbed(outer: Outer, s: State, pid: nat) returns (events: seq<Event>)
    requires Standing(outer, s) && s.pcs[|s.pcs| - 1].Begin?
    requires |s.chain| - 1 + |outer| <= MAX_ANCESTORS
    requires pid !in s.used && pid != 0
    ensures IsRun(outer, s, events)
    ensures var t, i := After(outer, s, events), |s.chain| - 1;
            && Standing(outer, t) && t.used == s.used + {pid}
            && t.chain == s.chain + [pid] && t.pcs == s.pcs[i := Writing(pid)] + [Begin] && t.file == ""
  {
    hide OuterOk, Ancestor, NextPc;
    var i := |s.chain| - 1;
    events := OpenUndisturbed(outer, s, i);
    var u := After(outer, s, events);
    events := Append(outer, s, events, Proceed(i, true, pid));
    StandingIgnoresPc(outer, s, i, Spawning, "");
    SpawnKeepsStanding(outer, u, pid);
  }

  lemma OpenUndisturbed(outer: Outer, s: State, i: nat) returns (events: seq<Event>)
    requires Standing(outer, s) && i < |s.chain| && s.pcs[i].Begin? && i + |outer| <= MAX_ANCESTORS
    ensures IsRun(outer, s, events)
    ensures After(outer, s, events) == WithPc(s, i, Spawning).(file := "")
  {
    events := UndisturbedCheck(outer, s, i);
    StandingIgnoresPc(outer, s, i, Opening, s.file);
    events := Append(outer, s, events, Proceed(i, true, 0));
  }

  lemma SpawnKeepsStanding(outer: Outer, s: State, pid: nat)
    requires Standing(outer, s) && pid !in s.used && pid != 0
    ensures var i := |s.chain| - 1;
            Standing(outer, State(s.table[pid := Process(s.chain[i], None, Alive)], s.used + {pid}, s.chain + [pid],
                                  s.pcs[i := Writing(pid)] + [Begin], s.file))
  {
    var i := |s.chain| - 1;
    var t := State(s.table[pid := Process(s.chain[i], None, Alive)], s.used + {pid}, s.chain + [pid],
                   s.pcs[i := Writing(pid)] + [Begin], s.file);
    forall j | 0 <= j < |t.chain|
      ensures t.chain[j] in t.table && t.table[t.chain[j]] == Process(Ancestor(outer, t, j, 0), None, Alive)
    {
      if j < |s.chain| {
        assert s.table[s.chain[j]] == Process(Ancestor(outer, s, j, 0), None, Alive);
      }
    }
  }

  /** Everybody is about to write but the last, who is at the beginning. */
  predicate AllAboutToWrite(s: State) {
    s.pcs != [] && s.pcs[|s.pcs| - 1].Begin? && forall j :: 0 <= j < |s.pcs| - 1 ==> s.pcs[j].Writing?
  }

  lemma {:induction false} ForkRepeatedly(outer: Outer, s: State, n: nat) returns (events: seq<Event>)
    requires Standing(outer, s) && AllAboutToWrite(s)
    requires |s.chain| + n + |outer| <= MAX_ANCESTORS + 2
    ensures IsRun(outer, s, events)
    ensures var t := After(outer, s, events);
            && Standing(outer, t) && AllAboutToWrite(t) && |t.chain| == |s.chain| + n
            && t.file == if n > 0 then "" else s.file
    decreases n
  {
    if n == 0 {
      events := [];
    } else {
      hide Enabled, Next;
      var pid := FreshAbove(s.used, 0);
      var first := ForkUndisturbed(outer, s, pid);
      var rest := ForkRepeatedly(outer, After(outer, s, first), n - 1);
      RunsCompose(outer, s, first, rest);
      events := first + rest;
    }
  }

  lemma StartIsStanding(outer: Outer, s: State)
    requires NearestIsLast(outer, s)
    ensures Standing(outer, s)
  {
  }

  // ----- the bounds are reached and the reach is exact -----

  /**
   * The bound on the chain is reached: under a script `|outer|` levels up, with nothing
   * disturbing the walks, the program is re-executed `6 - |outer|` times.
   */
  lemma ChainBoundIsReached(outer: Outer, s: State)
    requires NearestIsLast(outer, s) && |outer| <= 5
    ensures exists events :: IsRun(outer, s, events) && |After(outer, s, events).chain| - 1 == 6 - |outer|
  {
    StartIsStanding(outer, s);
    var events := ForkRepeatedly(outer, s, MAX_ANCESTORS + 1 - |outer|);
  }

  /** Process `i` is reached, and its walk falls short of the script. */
  predicate FallsShort(outer: Outer, i: nat) {
    i + |outer| == 6 || (i == 0 && |outer| > 5)
  }

  /**
   * A process whose walk falls just short of the script can reach the daemon branch while all
   * those before it have yet to write the pid file.
   */
  lemma DaemonMayStartFirst(outer: Outer, s: State, i: nat) returns (events: seq<Event>)
    requires NearestIsLast(outer, s) && FallsShort(outer, i)
    ensures IsRun(outer, s, events)
    ensures var t := After(outer, s, events);
            && |t.chain| == |t.pcs| == i + 1 && t.pcs[i].DaemonBranch?
            && (forall j :: 0 <= j < i ==> t.pcs[j].Writing?)
            && (i > 0 ==> t.file == "")
  {
    StartIsStanding(outer, s);
    var forks: seq<Event> := [];
    if i > 0 {
      forks := ForkRepeatedly(outer, s, i);
    }
    var t := After(outer, s, forks);
    var check := UndisturbedCheck(outer, t, i);
    RunsCompose(outer, s, forks, check);
    events := forks + check;
  }

  /** Whenever `chain[i]` is a daemon, some process before it has left `RunUntilExit`. */
  ghost predicate SomeoneLeftFirst(s: State, i: nat) {
    i < |s.chain| == |s.pcs| && IsDaemon(s.pcs[i]) ==> exists j :: 0 <= j < i && Left(s.pcs[j])
  }

  /**
   * The reach that `NegativeWalkMeansSomeoneLeft` asks for is exact, whether or not anything
   * disturbs the walks: a process can get to the daemon branch first just when it is the one
   * whose walk falls short of the script.
   */
  lemma ReachIsExact(outer: Outer, s: State, i: nat)
    requires NearestIsLast(outer, s)
    ensures (forall events :: IsRun(outer, s, events) ==> SomeoneLeftFirst(After(outer, s, events), i))
            <==> !FallsShort(outer, i)
  {
    if FallsShort(outer, i) {
      var events := DaemonMayStartFirst(outer, s, i);
      assert !SomeoneLeftFirst(After(outer, s, events), i);
    } else {
      forall events | IsRun(outer, s, events) ensures SomeoneLeftFirst(After(outer, s, events), i) {
        ChainDepthIsBounded(outer, s, events);
        if i < |After(outer, s, events).chain| == |After(outer, s, events).pcs| && IsDaemon(After(outer, s, events).pcs[i]) {
          NegativeWalkMeansSomeoneLeft(outer, s, events, i);
        }
      }
    }
  }

  /** The first child gets to the daemon branch only after its parent has left. */
  ghost predicate ParentLeftFirst(s: State) {
    |s.chain| == |s.pcs| >= 2 && IsDaemon(s.pcs[1]) ==> Left(s.pcs[0])
  }

  /**
   * The parent of the first child leaves before the child becomes a daemon, whatever the
   * schedule, unless the script is exactly the fifth ancestor of the program.
   */
  lemma ParentLeavesFirstExactly(outer: Outer, s: State)
    requires NearestIsLast(outer, s)
    ensures (forall events :: IsRun(outer, s, events) ==> ParentLeftFirst(After(outer, s, events)))
            <==> |outer| != 5
  {
    ReachIsExact(outer, s, 1);
    forall events | IsRun(outer, s, events)
      ensures SomeoneLeftFirst(After(outer, s, events), 1) <==> ParentLeftFirst(After(outer, s, events))
    {
      var t := After(outer, s, events);
      assert |t.pcs| > 0 && Left(t.pcs[0]) ==> exists j :: 0 <= j < 1 && Left(t.pcs[j]);
    }
  }

  // ----- two writes that spoil the pid file -----

  /** The program and its child have both forked, and neither has written. */
  lemma ForkTwice(outer: Outer, s: State, a: nat, b: nat) returns (events: seq<Event>)
    requires NearestIsLast(outer, s) && |outer| < MAX_ANCESTORS
    requires a !in s.used && b !in s.used && 0 < b < a
    ensures IsRun(outer, s, events)
    ensures var t := After(outer, s, events);
            && t.chain == [s.chain[0], a, b] && t.pcs == [Writing(a), Writing(b), Begin] && t.file == ""
            && Standing(outer, t)
  {
    hide Standing, Enabled, Next, OuterOk, TableOk;
    StartIsStanding(outer, s);
    var first := ForkUndisturbed(outer, s, a);
    var second := ForkUndisturbed(outer, After(outer, s, first), b);
    RunsCompose(outer, s, first, second);
    events := first + second;
  }

  /** Both of them write and return, in either order. */
  lemma WriteBoth(outer: Outer, s: State, i: nat, j: nat) returns (events: seq<Event>)
    requires Standing(outer, s) && |s.chain| == 3 && {i, j} == {0, 1}
    requires s.pcs[i].Writing? && s.pcs[j].Writing? && s.file == ""
    ensures IsRun(outer, s, events) && events == [Proceed(i, true, 0), Proceed(j, true, 0)]
    ensures After(outer, s, events) ==
            s.(pcs := [ReturnedNil, ReturnedNil, s.pcs[2]], file := Layered([s.pcs[i].child, s.pcs[j].child]))
  {
    var first := Append(outer, s, [], Proceed(i, true, 0));
    events := Append(outer, s, first, Proceed(j, true, 0));
    LayeredTwice(s.pcs[i].child, s.pcs[j].child);
  }

  /**
   * Written in the order of the chain, but both after the second open: a shorter pid over a
   * longer one. Both parents return nil and the file names nobody.
   */
  lemma WritesInOrderCanSpoilTheFile(outer: Outer, s: State)
    requires NearestIsLast(outer, s) && |outer| < 5
    ensures exists events :: IsRun(outer, s, events) &&
              var t := After(outer, s, events);
              && |events| >= 2 && events[|events| - 2..] == [Proceed(0, true, 0), Proceed(1, true, 0)]
              && t.pcs == [ReturnedNil, ReturnedNil, Begin]
              && forall p: nat :: t.file != PidLine(p)
  {
    var b := FreshAbove(s.used, 0);
    var a := FreshAbove(s.used, 10 * b);
    var forks := ForkTwice(outer, s, a, b);
    var writes := WriteBoth(outer, After(outer, s, forks), 0, 1);
    RunsCompose(outer, s, forks, writes);
    DecGrows(b, a);
    LateWriteOfEarlierGeneration(b, a);
    assert (forks + writes)[|forks + writes| - 2..] == writes;
  }

  /** The second parent writes first: the file is not that of the running child. */
  lemma OvertakenWriteSpoilsTheFile(outer: Outer, s: State)
    requires NearestIsLast(outer, s) && |outer| < 5
    ensures exists events :: IsRun(outer, s, events) &&
              var t := After(outer, s, events);
              && |events| >= 2 && events[|events| - 2..] == [Proceed(1, true, 0), Proceed(0, true, 0)]
              && |t.chain| == 3 && t.pcs == [ReturnedNil, ReturnedNil, Begin]
              && t.file == PidLine(t.chain[1])
  {
    var b := FreshAbove(s.used, 0);
    var a := FreshAbove(s.used, 10 * b);
    var forks := ForkTwice(outer, s, a, b);
    var writes := WriteBoth(outer, After(outer, s, forks), 1, 0);
    RunsCompose(outer, s, forks, writes);
    DecGrows(b, a);
    LateWriteOfEarlierGeneration(a, b);
    assert (forks + writes)[|forks + writes| - 2..] == writes;
  }

  // ----- the kernel's side of the table -----

  /** A process with what `/proc` shows of it. */
  datatype Entry = Entry(comm: string, args: seq<string>, process: Process)

  function StateLetter(e: Entry): char {
    if e.process.status.Zombie? then 'Z' else 'S'
  }

  /** The files of `/proc` for a table of processes. */
  function View(kernel: map<nat, Entry>): ProcFs {
    ProcFs(
      map p: nat | p in kernel :: if kernel[p].process.status.Zombie? then "" else EncodeArgs(kernel[p].args),
      map p: nat | p in kernel :: StatLine(p, kernel[p].comm, StateLetter(kernel[p]), kernel[p].process.ppid, ""))
  }

  /** The entry prints to files the parsers can take, and `script` is what its arguments say. */
  predicate IsEntry(pid: nat, e: Entry) {
    && ' ' !in e.comm
    && |StatHead(pid, e.comm, StateLetter(e), e.process.ppid)| <= READ_LIMIT
    && e.process.ppid < TWO_TO_THE_63
    && (forall i :: 0 <= i < |e.args| ==> NUL !in e.args[i])
    && |EncodeArgs(e.args[..if |e.args| < 4 then |e.args| else 4])| <= READ_LIMIT
    && e.process.script == FirstScript(e.args)
  }

  function Processes(kernel: map<nat, Entry>): map<nat, Process> {
    map p: nat | p in kernel :: kernel[p].process
  }

  ghost predicate IsKernel(kernel: map<nat, Entry>) {
    forall p :: p in kernel ==> IsEntry(p, kernel[p])
  }

  /** The parsers of `Proc`, run on the files of `fs`, see of `cur` what the walk of this module sees. */
  ghost predicate ShowsAt(fs: ProcFs, table: map<nat, Process>, cur: int) {
    && (match ReadScript(table, cur)
        case None => IsPidInitd(fs, cur).Failure?
        case Some(script) => IsPidInitd(fs, cur) == Success(script))
    && (match ReadParent(table, cur)
        case None => ManualParentPid(fs, cur).Failure?
        case Some(parent) => ManualParentPid(fs, cur) == Success(parent))
  }

  ghost predicate Shows(fs: ProcFs, table: map<nat, Process>) {
    forall cur: int :: ShowsAt(fs, table, cur)
  }

  /** Reading a process table through the files the kernel prints for it and the program's parsers. */
  lemma ReadsAreTheParsers(kernel: map<nat, Entry>)
    requires IsKernel(kernel)
    ensures Shows(View(kernel), Processes(kernel))
  {
    forall cur: int ensures ShowsAt(View(kernel), Processes(kernel), cur) {
      if cur >= 0 && cur in kernel {
        CmdlineIsParsed(kernel, cur);
        StatIsParsed(kernel, cur);
      }
    }
  }

  lemma CmdlineIsParsed(kernel: map<nat, Entry>, pid: nat)
    requires pid in kernel && IsEntry(pid, kernel[pid])
    ensures IsPidInitd(View(kernel), pid) ==
            Success(if kernel[pid].process.status.Zombie? then None else kernel[pid].process.script)
  {
    var shown := if kernel[pid].process.status.Zombie? then [] else kernel[pid].args;
    CmdlineRoundTrip(View(kernel), pid, shown);
  }

  lemma StatIsParsed(kernel: map<nat, Entry>, pid: nat)
    requires pid in kernel && IsEntry(pid, kernel[pid])
    ensures ManualParentPid(View(kernel), pid) == Success(kernel[pid].process.ppid)
  {
    var e := kernel[pid];
    StatRoundTrip(View(kernel), pid, e.comm, StateLetter(e), e.process.ppid, "");
  }

  // ----- the walk by steps and the walk as a loop -----

  /** Where `RunUntilExit` goes with a result of `isInitdOurParent`. */
  function PcFor(r: Result<Option<string>, ProcError>): Pc {
    match r
    case Failure(_) => ReturnedError
    case Success(None) => DaemonBranch
    case Success(Some(_)) => Opening
  }

  /** What looking at ancestor `k` settles about the result of the walk. */
  lemma LookDecides(fs: ProcFs, parent: int, k: nat, cur: int, r: Result<Option<string>, ProcError>)
    requires k < MAX_ANCESTORS && Quiet(fs, parent, k) && Lineage(fs, parent, k) == Some(cur)
    requires IsWalkResult(fs, parent, r)
    ensures var looked := IsPidInitd(fs, cur);
            if looked != Success(None) then r == looked
            else Quiet(fs, parent, k + 1) && (k + 1 == MAX_ANCESTORS ==> r == Success(None))
  {
    hide IsPidInitd, ManualParentPid;
    if IsPidInitd(fs, cur) != Success(None) {
      StopDecides(fs, parent, k, IsPidInitd(fs, cur), r);
    } else if k + 1 == MAX_ANCESTORS {
      StopDecides(fs, parent, k + 1, Success(None), r);
    }
  }

  lemma StopDecides(fs: ProcFs, parent: int, k: nat,
                    found: Result<Option<string>, ProcError>, r: Result<Option<string>, ProcError>)
    requires StopsAt(fs, parent, k, found) && IsWalkResult(fs, parent, r)
    ensures r == found
  {
    hide IsPidInitd, ManualParentPid;
    WalkResultIsUnique(fs, parent, found, r);
  }

  /** What reading the parent of ancestor `k - 1` settles. */
  lemma ClimbDecides(fs: ProcFs, parent: int, k: nat, cur: int, r: Result<Option<string>, ProcError>)
    requires 0 < k < MAX_ANCESTORS && Quiet(fs, parent, k) && Lineage(fs, parent, k - 1) == Some(cur)
    requires IsWalkResult(fs, parent, r)
    ensures match ManualParentPid(fs, cur)
            case Failure(error) => r == Failure(error)
            case Success(up) => if up == 0 then r == Success(None) else Lineage(fs, parent, k) == Some(up)
  {
    hide IsPidInitd, ManualParentPid;
    var up := ManualParentPid(fs, cur);
    if up.Failure? {
      StopDecides(fs, parent, k, Failure(up.error), r);
    } else if up.value == 0 {
      StopDecides(fs, parent, k, Success(None), r);
    }
  }

  /**
   * On a process table that stands still, the stepwise walk of this module ends where the
   * loop of `Proc.IsInitdOurParent` does.
   */
  lemma {:induction false} WalkBySteps(fs: ProcFs, s: State, i: nat, parent: int, k: nat, cur: int,
                                       r: Result<Option<string>, ProcError>)
    requires Shows(fs, s.table) && IsWalkResult(fs, parent, r)
    requires i < |s.chain| == |s.pcs| && s.chain[i] in s.table
    requires k < MAX_ANCESTORS && s.pcs[i] == AtCmdline(k, cur)
    requires Quiet(fs, parent, k) && Lineage(fs, parent, k) == Some(cur)
    ensures Settled(s, i) == PcFor(r)
    ensures r.Failure? ==> Settled(s, i) == ReturnedError
    ensures r == Success(None) ==> Settled(s, i) == DaemonBranch
    ensures r.Success? && r.value.Some? ==> Settled(s, i) == Opening
    decreases MAX_ANCESTORS - k, 0
  {
    hide IsPidInitd, ManualParentPid;
    LookBySteps(fs, s, i, parent, k, cur, r);
    var t := WithPc(s, i, NextPc(s, i));
    if t.pcs[i] == AtStat(k + 1, cur) {
      ClimbBySteps(fs, t, i, parent, k + 1, cur, r);
    }
  }

  lemma LookBySteps(fs: ProcFs, s: State, i: nat, parent: int, k: nat, cur: int,
                    r: Result<Option<string>, ProcError>)
    requires Shows(fs, s.table) && IsWalkResult(fs, parent, r)
    requires i < |s.chain| == |s.pcs| && s.chain[i] in s.table
    requires k < MAX_ANCESTORS && s.pcs[i] == AtCmdline(k, cur)
    requires Quiet(fs, parent, k) && Lineage(fs, parent, k) == Some(cur)
    ensures var pc := NextPc(s, i);
            || (pc == PcFor(r) && !IsWalking(pc))
            || (pc == AtStat(k + 1, cur) && k + 1 < MAX_ANCESTORS && Quiet(fs, parent, k + 1))
  {
    hide IsPidInitd, ManualParentPid;
    assert ShowsAt(fs, s.table, cur);
    LookDecides(fs, parent, k, cur, r);
  }

  lemma {:induction false} ClimbBySteps(fs: ProcFs, s: State, i: nat, parent: int, k: nat, cur: int,
                                        r: Result<Option<string>, ProcError>)
    requires Shows(fs, s.table) && IsWalkResult(fs, parent, r)
    requires i < |s.chain| == |s.pcs| && s.chain[i] in s.table
    requires 0 < k < MAX_ANCESTORS && s.pcs[i] == AtStat(k, cur)
    requires Quiet(fs, parent, k) && Lineage(fs, parent, k - 1) == Some(cur)
    ensures Settled(s, i) == PcFor(r)
    decreases MAX_ANCESTORS - k, 1
  {
    assert ShowsAt(fs, s.table, cur);
    ClimbDecides(fs, parent, k, cur, r);
    var t := WithPc(s, i, NextPc(s, i));
    if IsWalking(t.pcs[i]) {
      WalkBySteps(fs, t, i, parent, k, t.pcs[i].cur, r);
    }
  }
}
