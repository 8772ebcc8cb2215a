/**
 * Reading `/proc`: the parsers of `stat` and `cmdline`, and the walk over the
 * first five ancestors that decides whether an init.d script started the program.
 */
module Proc {
  import opened Wrappers
  import opened Text

  const READ_LIMIT: nat := 100000
  const MAX_ANCESTORS: nat := 5
  const NUL: char := '\0'

  datatype ProcError =
    | ReadFailed(pid: int)
    | TooFewFields(pid: int)
    | BadParentPid(pid: int)

  /**
   * The contents of `/proc/<pid>/cmdline` and `/proc/<pid>/stat`. A missing key is a
   * file that cannot be opened or read.
   */
  datatype ProcFs = ProcFs(cmdline: map<int, string>, stat: map<int, string>)

  function TinyRead(files: map<int, string>, pid: int): Option<string> {
    if pid in files then Some(Limit(files[pid], READ_LIMIT)) else None
  }

  function ManualParentPid(fs: ProcFs, pid: int): Result<int, ProcError> {
    match TinyRead(fs.stat, pid)
    case None => Failure(ReadFailed(pid))
    case Some(contents) =>
      var split := Split(contents, ' ');
      if |split| < 4 then Failure(TooFewFields(pid))
      else
        match ParseUint(split[3])
        case None => Failure(BadParentPid(pid))
        case Some(parent) => Success(WrapToInt64(parent))
  }

  /** The first of the first four pieces, from index `i` on, that lies in `/etc/init.d/`. */
  function FirstScript(pieces: seq<string>, i: nat := 0): Option<string>
    decreases 4 - i
  {
    if i >= 4 || i >= |pieces| then None
    else if HasPrefix(pieces[i], INITD_DIR) then Some(pieces[i])
    else FirstScript(pieces, i + 1)
  }

  function IsPidInitd(fs: ProcFs, pid: int): Result<Option<string>, ProcError> {
    match TinyRead(fs.cmdline, pid)
    case None => Failure(ReadFailed(pid))
    case Some(contents) => Success(FirstScript(Split(contents, NUL)))
  }

  // ----- the ancestor walk -----

  /** The `k`-th ancestor, counting the parent as number 0, when `stat` leads to it. */
  function Lineage(fs: ProcFs, parent: int, k: nat): Option<int> {
    if k == 0 then Some(parent)
    else
      match Lineage(fs, parent, k - 1)
      case None => None
      case Some(p) =>
        var up := ManualParentPid(fs, p);
        if up.Success? && up.value != 0 then Some(up.value) else None
  }

  /** The first `k` ancestors exist, are readable, and none of them is an init.d script. */
  ghost predicate Quiet(fs: ProcFs, parent: int, k: nat) {
    forall j: nat | j < k :: Lineage(fs, parent, j).Some? &&
                             IsPidInitd(fs, Lineage(fs, parent, j).value) == Success(None)
  }

  /** Ancestor `k` is the nearest one that is an init.d script, and its script is `script`. */
  ghost predicate NearestScript(fs: ProcFs, parent: int, k: nat, script: string) {
    && k < MAX_ANCESTORS
    && Quiet(fs, parent, k)
    && Lineage(fs, parent, k).Some?
    && IsPidInitd(fs, Lineage(fs, parent, k).value) == Success(Some(script))
  }

  /** The first unreadable entry on the way is met at ancestor `k`, before any script. */
  ghost predicate FirstFailure(fs: ProcFs, parent: int, k: nat, error: ProcError) {
    && k < MAX_ANCESTORS
    && Quiet(fs, parent, k)
    && (|| (Lineage(fs, parent, k).Some? &&
            IsPidInitd(fs, Lineage(fs, parent, k).value) == Failure(error))
        || (k > 0 && ManualParentPid(fs, Lineage(fs, parent, k - 1).value) == Failure(error)))
  }

  /** The ancestry ends, at parent 0, right after `k` ancestors that are not scripts. */
  ghost predicate EndsAfter(fs: ProcFs, parent: int, k: nat) {
    && 0 < k < MAX_ANCESTORS
    && Quiet(fs, parent, k)
    && ManualParentPid(fs, Lineage(fs, parent, k - 1).value) == Success(0)
  }

  /** The walk stops at ancestor `k` with result `r`. */
  ghost predicate StopsAt(fs: ProcFs, parent: int, k: nat, r: Result<Option<string>, ProcError>) {
    match r
    case Failure(error) => FirstFailure(fs, parent, k, error)
    case Success(Some(script)) => NearestScript(fs, parent, k, script)
    case Success(None) => EndsAfter(fs, parent, k) || (k == MAX_ANCESTORS && Quiet(fs, parent, k))
  }

  /** The result of the walk, said without the walk. */
  ghost predicate IsWalkResult(fs: ProcFs, parent: int, r: Result<Option<string>, ProcError>) {
    exists k: nat :: StopsAt(fs, parent, k, r)
  }

  lemma QuietRunsNoFurther(fs: ProcFs, parent: int, k: nat, r: Result<Option<string>, ProcError>, m: nat)
    requires StopsAt(fs, parent, k, r) && Quiet(fs, parent, m) && m <= MAX_ANCESTORS
    ensures m <= k
  {
    hide IsPidInitd, ManualParentPid;
    assert k < m ==> Lineage(fs, parent, k).Some?;
  }

  lemma StopsWithOneResult(fs: ProcFs, parent: int, k: nat,
                           r: Result<Option<string>, ProcError>, r': Result<Option<string>, ProcError>)
    requires StopsAt(fs, parent, k, r) && StopsAt(fs, parent, k, r')
    ensures r == r'
  {
    hide IsPidInitd, ManualParentPid;
    if k > 0 && k < MAX_ANCESTORS {
      var p := Lineage(fs, parent, k - 1).value;
      var up := ManualParentPid(fs, p);
      if up.Success? && up.value != 0 {
        assert Lineage(fs, parent, k) == Some(up.value);
      } else {
        assert Lineage(fs, parent, k) == None;
      }
    }
  }

  /** A process table allows one result only, so each case of `StopsAt` is an "exactly when". */
  lemma WalkResultIsUnique(fs: ProcFs, parent: int,
                           r: Result<Option<string>, ProcError>, r': Result<Option<string>, ProcError>)
    requires IsWalkResult(fs, parent, r) && IsWalkResult(fs, parent, r')
    ensures r == r'
  {
    hide IsPidInitd, ManualParentPid;
    var k: nat :| StopsAt(fs, parent, k, r);
    var k': nat :| StopsAt(fs, parent, k', r');
    QuietRunsNoFurther(fs, parent, k, r, k');
    QuietRunsNoFurther(fs, parent, k', r', k);
    StopsWithOneResult(fs, parent, k, r, r');
  }

  /** `isInitdOurParent` on a process table that does not change; `parent` is `os.Getppid()`. */
  method IsInitdOurParent(fs: ProcFs, parent: int) returns (r: Result<Option<string>, ProcError>)
    ensures IsWalkResult(fs, parent, r)
  {
    hide IsPidInitd, ManualParentPid;
    var pid := parent;
    var i := 0;
    while i < MAX_ANCESTORS
      invariant 0 <= i <= MAX_ANCESTORS
      invariant Quiet(fs, parent, i)
      invariant i == 0 ==> pid == parent
      invariant i > 0 ==> Lineage(fs, parent, i - 1) == Some(pid)
    {
      if i != 0 {
        var up := ManualParentPid(fs, pid);
        if up.Failure? {
          assert StopsAt(fs, parent, i, Failure(up.error));
          return Failure(up.error);
        }
        pid := up.value;
        if pid == 0 {
          assert StopsAt(fs, parent, i, Success(None));
          return Success(None);
        }
      }
      assert Lineage(fs, parent, i) == Some(pid);
      var found := IsPidInitd(fs, pid);
      if found.Failure? {
        assert StopsAt(fs, parent, i, Failure(found.error));
        return Failure(found.error);
      }
      if found.value.Some? {
        assert StopsAt(fs, parent, i, found);
        return found;
      }
      i := i + 1;
    }
    assert StopsAt(fs, parent, MAX_ANCESTORS, Success(None));
    return Success(None);
  }

  // ----- what the kernel writes, and reading it back -----

  /** `pid (comm) state ppid rest`, the layout documented in proc(5). */
  function StatLine(pid: nat, comm: string, state: char, ppid: nat, rest: string): string {
    StatHead(pid, comm, state, ppid) + rest
  }

  /** The line up to and including the blank after the parent's pid. */
  function StatHead(pid: nat, comm: string, state: char, ppid: nat): string {
    Dec(pid) + " (" + comm + ") " + [state] + " " + Dec(ppid) + " "
  }

  /** The arguments, each followed by NUL. */
  function EncodeArgs(args: seq<string>): string {
    if args == [] then "" else args[0] + [NUL] + EncodeArgs(args[1..])
  }

  /** The words of a command name in parentheses: the outer two carry the parentheses. */
  function Bracketed(words: seq<string>): seq<string>
    requires words != []
  {
    var closed := words[|words| - 1 := words[|words| - 1] + ")"];
    closed[0 := "(" + closed[0]]
  }

  lemma {:induction false} SplitClosed(comm: string)
    ensures var words := Split(comm, ' ');
            Split(comm + ")", ' ') == words[|words| - 1 := words[|words| - 1] + ")"]
    decreases |comm|
  {
    hide Split;
    var i := FirstIndex(comm, ' ');
    if i == |comm| {
      SplitWhole(comm, ' ');
      SplitWhole(comm + ")", ' ');
    } else {
      var front, rest := comm[..i], comm[i + 1..];
      SplitClosed(rest);
      SplitFirst(front, ' ', rest);
      assert comm == front + [' '] + rest;
      SplitFirst(front, ' ', rest + ")");
      assert comm + ")" == front + [' '] + (rest + ")");
    }
  }

  lemma SplitOpened(s: string)
    ensures var words := Split(s, ' ');
            Split("(" + s, ' ') == words[0 := "(" + words[0]]
  {
    var i, whole := FirstIndex(s, ' '), "(" + s;
    FirstIndexIs(whole, ' ', i + 1);
    assert whole[..i + 1] == "(" + s[..i];
    if i < |s| {
      assert whole[i + 2..] == s[i + 1..];
    } else {
      assert s[..i] == s;
    }
  }

  lemma SplitBracketed(comm: string)
    ensures Split("(" + comm + ")", ' ') == Bracketed(Split(comm, ' '))
  {
    SplitClosed(comm);
    SplitOpened(comm + ")");
    assert "(" + comm + ")" == "(" + (comm + ")");
  }

  lemma DigitsHoldNo(s: string, c: char)
    requires AllDigits(s) && !IsDigit(c)
    ensures c !in s
  {
  }

  lemma SplitFields(first: string, name: string, third: string, fourth: string, rest: string)
    requires ' ' !in first && ' ' !in third && ' ' !in fourth
    ensures Split(first + [' '] + (name + [' '] + (third + [' '] + (fourth + [' '] + rest))), ' ')
         == [first] + (Split(name, ' ') + ([third] + ([fourth] + Split(rest, ' '))))
  {
    SplitFirst(fourth, ' ', rest);
    SplitFirst(third, ' ', fourth + [' '] + rest);
    SplitAround(name, ' ', third + [' '] + (fourth + [' '] + rest));
    SplitFirst(first, ' ', name + [' '] + (third + [' '] + (fourth + [' '] + rest)));
  }

  lemma StatLineFields(pid: nat, comm: string, state: char, ppid: nat, rest: string)
    ensures StatLine(pid, comm, state, ppid, rest)
         == Dec(pid) + [' '] + (("(" + comm + ")") + [' '] + ([state] + [' '] + (Dec(ppid) + [' '] + rest)))
  {
  }

  /** The pieces of a stat line, by the words of the command name inside it. */
  lemma StatPieces(pid: nat, comm: string, state: char, ppid: nat, rest: string)
    requires state != ' '
    ensures Split(StatLine(pid, comm, state, ppid, rest), ' ')
         == [Dec(pid)] + (Bracketed(Split(comm, ' ')) + ([[state]] + ([Dec(ppid)] + Split(rest, ' '))))
  {
    StatLineFields(pid, comm, state, ppid, rest);
    DigitsHoldNo(Dec(pid), ' ');
    DigitsHoldNo(Dec(ppid), ' ');
    SplitFields(Dec(pid), "(" + comm + ")", [state], Dec(ppid), rest);
    SplitBracketed(comm);
  }

  /** The piece the parser takes for the parent's pid. */
  function FourthPiece(words: seq<string>, state: char, ppid: nat): string
    requires words != []
  {
    if |words| == 1 then Dec(ppid)
    else if |words| == 2 then [state]
    else if |words| == 3 then words[2] + ")"
    else words[2]
  }

  lemma StatFourthPiece(pid: nat, comm: string, state: char, ppid: nat, rest: string)
    requires state != ' '
    ensures var pieces := Split(StatLine(pid, comm, state, ppid, rest), ' ');
            |pieces| >= 4 && pieces[3] == FourthPiece(Split(comm, ' '), state, ppid)
  {
    StatPieces(pid, comm, state, ppid, rest);
    var words := Split(comm, ' ');
    assert |words| == 1 ==> Bracketed(words) == ["(" + (words[0] + ")")];
  }

  lemma FourthPieceParses(words: seq<string>, state: char, ppid: nat)
    requires words != [] && !IsDigit(state) && ppid < TWO_TO_THE_64
    ensures ParseUint(FourthPiece(words, state, ppid)) == Some(ppid)
       <==> |words| == 1 || (|words| >= 4 && ParseUint(words[2]) == Some(ppid))
  {
    ParseUintOfDec(ppid);
    if |words| == 3 {
      assert FourthPiece(words, state, ppid)[|words[2]|] == ')';
    } else if |words| == 2 {
      assert FourthPiece(words, state, ppid)[0] == state;
    }
  }

  /** The read limit does not change the fourth piece, as long as it falls after the parent's pid. */
  lemma LimitedFourthPiece(pid: nat, comm: string, state: char, ppid: nat, rest: string)
    requires state != ' ' && |StatHead(pid, comm, state, ppid)| <= READ_LIMIT
    ensures var pieces := Split(Limit(StatLine(pid, comm, state, ppid, rest), READ_LIMIT), ' ');
            |pieces| >= 4 && pieces[3] == FourthPiece(Split(comm, ' '), state, ppid)
  {
    var head, line := StatHead(pid, comm, state, ppid), StatLine(pid, comm, state, ppid, rest);
    var kept := if |line| <= READ_LIMIT then rest else rest[..READ_LIMIT - |head|];
    assert Limit(line, READ_LIMIT) == StatLine(pid, comm, state, ppid, kept);
    StatFourthPiece(pid, comm, state, ppid, kept);
  }

  /**
   * Reading the parent's pid back: for a command name without blanks the result is the
   * printed pid, as long as it fits Go's `int`; larger ones wrap around or are refused.
   */
  lemma StatRoundTrip(fs: ProcFs, pid: nat, comm: string, state: char, ppid: nat, rest: string)
    requires pid in fs.stat && fs.stat[pid] == StatLine(pid, comm, state, ppid, rest)
    requires |StatHead(pid, comm, state, ppid)| <= READ_LIMIT
    requires ' ' !in comm && state != ' '
    ensures ppid < TWO_TO_THE_63 ==> ManualParentPid(fs, pid) == Success(ppid)
    ensures TWO_TO_THE_63 <= ppid < TWO_TO_THE_64 ==> ManualParentPid(fs, pid) == Success(ppid - TWO_TO_THE_64)
    ensures TWO_TO_THE_64 <= ppid ==> ManualParentPid(fs, pid) == Failure(BadParentPid(pid))
  {
    LimitedFourthPiece(pid, comm, state, ppid, rest);
    SplitWhole(comm, ' ');
    ParseUintOfDec(ppid);
    WrapToInt64Is(ppid);
  }

  lemma WrapIsInjective(m: int, n: int)
    requires 0 <= m < TWO_TO_THE_64 && 0 <= n < TWO_TO_THE_63
    ensures WrapToInt64(m) == n <==> m == n
  {
    WrapToInt64Is(m);
    WrapToInt64Is(n);
  }

  /**
   * Exactly which command names the parser survives: those without a blank, and those
   * with three or more whose third word happens to print the parent's pid.
   */
  lemma StatParseIsExact(fs: ProcFs, pid: nat, comm: string, state: char, ppid: nat, rest: string)
    requires pid in fs.stat && fs.stat[pid] == StatLine(pid, comm, state, ppid, rest)
    requires |StatHead(pid, comm, state, ppid)| <= READ_LIMIT
    requires state != ' ' && !IsDigit(state)
    requires ppid < TWO_TO_THE_63
    ensures ManualParentPid(fs, pid) == Success(ppid) <==>
            var words := Split(comm, ' ');
            |words| == 1 || (|words| >= 4 && ParseUint(words[2]) == Some(ppid))
  {
    var words := Split(comm, ' ');
    LimitedFourthPiece(pid, comm, state, ppid, rest);
    FourthPieceParses(words, state, ppid);
    var parsed := ParseUint(FourthPiece(words, state, ppid));
    if parsed.Some? {
      WrapIsInjective(parsed.value, ppid);
    }
  }

  lemma FirstEncodedArg(args: seq<string>, rest: string)
    requires args != []
    ensures EncodeArgs(args) + rest == args[0] + [NUL] + (EncodeArgs(args[1..]) + rest)
  {
  }

  /** The pieces of an encoded argument list are the arguments and one empty piece. */
  lemma {:induction false} SplitEncodedArgs(args: seq<string>, rest: string)
    requires forall i :: 0 <= i < |args| ==> NUL !in args[i]
    ensures Split(EncodeArgs(args) + rest, NUL) == args + Split(rest, NUL)
  {
    hide Split;
    if args == [] {
      assert EncodeArgs(args) + rest == rest;
    } else {
      SplitEncodedArgs(args[1..], rest);
      FirstEncodedArg(args, rest);
      SplitFirst(args[0], NUL, EncodeArgs(args[1..]) + rest);
    }
  }

  lemma {:induction false} EncodeArgsConcat(a: seq<string>, b: seq<string>)
    ensures EncodeArgs(a + b) == EncodeArgs(a) + EncodeArgs(b)
  {
    if a == [] {
      assert a + b == b;
    } else {
      EncodeArgsConcat(a[1..], b);
      assert (a + b)[1..] == a[1..] + b;
    }
  }

  /** Only the first four pieces matter, and a piece that is no script path does not. */
  lemma {:induction false} FirstScriptIgnores(args: seq<string>, more: seq<string>, i: nat)
    requires |args| >= 4 || (more != [] && more[0] == "" && |more| == 1)
    ensures FirstScript(args + more, i) == FirstScript(args, i)
    decreases 4 - i
  {
    if i < 4 {
      FirstScriptIgnores(args, more, i + 1);
    }
  }

  /** `FirstScript` is the first match among the first four. */
  lemma {:induction false} FirstScriptIsFirst(args: seq<string>, i: nat)
    ensures match FirstScript(args, i)
            case None => forall j :: i <= j < 4 && j < |args| ==> !HasPrefix(args[j], INITD_DIR)
            case Some(script) =>
              exists j :: i <= j < 4 && j < |args| && args[j] == script && HasPrefix(script, INITD_DIR) &&
                          forall m :: i <= m < j ==> !HasPrefix(args[m], INITD_DIR)
    decreases 4 - i
  {
    if i < 4 && i < |args| {
      if HasPrefix(args[i], INITD_DIR) {
        assert args[i] == FirstScript(args, i).value;
      } else {
        FirstScriptIsFirst(args, i + 1);
      }
    }
  }

  /**
   * Whatever NUL-free arguments a process has, its `cmdline` is recognised exactly by
   * the first of its first four arguments that lies in `/etc/init.d/`. Only those four
   * need to fit in the read limit.
   */
  lemma CmdlineRoundTrip(fs: ProcFs, pid: int, args: seq<string>)
    requires pid in fs.cmdline && fs.cmdline[pid] == EncodeArgs(args)
    requires forall i :: 0 <= i < |args| ==> NUL !in args[i]
    requires |EncodeArgs(args[..if |args| < 4 then |args| else 4])| <= READ_LIMIT
    ensures IsPidInitd(fs, pid) == Success(FirstScript(args))
  {
    var n := if |args| < 4 then |args| else 4;
    var first, others := args[..n], args[n..];
    assert args == first + others;
    EncodeArgsConcat(first, others);
    var whole := EncodeArgs(args);
    var kept := Limit(whole, READ_LIMIT)[|EncodeArgs(first)|..];
    assert Limit(whole, READ_LIMIT) == EncodeArgs(first) + kept;
    SplitEncodedArgs(first, kept);
    if |args| < 4 {
      assert kept == "";
      SplitWhole(kept, NUL);
    }
    FirstScriptIgnores(first, Split(kept, NUL), 0);
    if |args| >= 4 {
      FirstScriptIgnores(first, others, 0);
    } else {
      assert first == args;
    }
  }
}
