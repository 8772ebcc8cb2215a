/**
 * The pid file as the kernel sees it: the bytes of one file, and an open file
 * description whose offset is shared by the process that opened the file and the
 * child that inherited the descriptor. The functions follow write(2), lseek(2),
 * ftruncate(2) and open(2) with O_TRUNC.
 */
module PidFile {
  import opened Text

  /** What the parent writes for a child: its pid and a newline. */
  function PidLine(pid: nat): (line: string)
    ensures |line| >= 2
  {
    Dec(pid) + "\n"
  }

  lemma PidLineIsInjective(m: nat, n: nat)
    requires PidLine(m) == PidLine(n)
    ensures m == n
  {
    assert Dec(m) == PidLine(m)[..|PidLine(m)| - 1] == Dec(n);
    DecIsInjective(m, n);
  }

  /** A number not in use: of a process or of an open file. */
  lemma FreshAbove(used: set<nat>, bound: nat) returns (n: nat)
    ensures n !in used && n > bound
  {
    n := bound + 1;
    var below: set<nat> := {};
    while n in used
      invariant n > bound && below <= used && forall p :: p in below ==> p < n
      decreases |used - below|
    {
      below := below + {n};
      n := n + 1;
    }
  }

  function Zeros(n: nat): (s: string)
    ensures |s| == n
  {
    seq(n, _ => '\0')
  }

  /** The file after writing `data` at `offset`; a gap before the offset reads as zero bytes. */
  function Overwrite(content: string, offset: nat, data: string): string {
    var padded := if offset <= |content| then content[..offset] else content + Zeros(offset - |content|);
    var end := offset + |data|;
    padded + data + if end <= |content| then content[end..] else ""
  }

  /** Byte by byte: the data where it goes, the old content around it, and zeros in a gap. */
  lemma OverwriteAt(content: string, offset: nat, data: string, k: nat)
    ensures var r, end := Overwrite(content, offset, data), offset + |data|;
            && |r| == (if end < |content| then |content| else end)
            && (k < |r| ==> r[k] == if offset <= k < end then data[k - offset]
                                    else if k < |content| then content[k] else '\0')
  {
  }

  /**
   * The content of the file and the offset of the description that parent and child share.
   */
  datatype Shared = Shared(content: string, offset: nat)

  datatype Op =
    | Open           // the parent's os.OpenFile, with O_CREATE and O_TRUNC
    | Write          // the parent's WriteString of the child's pid
    | Seek           // the child's Seek(0, 0)
    | Truncate       // the child's Truncate(0)
    | Close          // the child's Close

  function Apply(s: Shared, op: Op, child: nat): Shared {
    match op
    case Open => Shared("", 0)
    case Write => Shared(Overwrite(s.content, s.offset, PidLine(child)), s.offset + |PidLine(child)|)
    case Seek => s.(offset := 0)
    case Truncate => s.(content := "")
    case Close => s
  }

  function ApplyAll(s: Shared, ops: seq<Op>, child: nat): Shared {
    if ops == [] then s
    else Apply(ApplyAll(s, ops[..|ops| - 1], child), ops[|ops| - 1], child)
  }

  /**
   * Whether `op` may come next. The parent opens the file first and writes once; the
   * child, which runs at any time after the open, seeks, truncates and closes in that
   * order. Either of them may stop early.
   */
  predicate CanFollow(done: seq<Op>, op: Op) {
    && op !in done
    && (op.Open? <==> done == [])
    && (op.Truncate? ==> Seek in done)
    && (op.Close? ==> Truncate in done)
  }

  /** Every order of the operations of one start that the two processes can produce. */
  predicate IsInterleaving(ops: seq<Op>) {
    ops == [] || (IsInterleaving(ops[..|ops| - 1]) && CanFollow(ops[..|ops| - 1], ops[|ops| - 1]))
  }

  /** The position of the last `op`, or -1. */
  function LastIndex(ops: seq<Op>, op: Op): (i: int)
    ensures -1 <= i < |ops|
    ensures i >= 0 ==> ops[i] == op
    ensures forall j :: i < j < |ops| ==> ops[j] != op
  {
    if ops == [] then -1
    else if ops[|ops| - 1] == op then |ops| - 1
    else LastIndex(ops[..|ops| - 1], op)
  }

  /** The parent has written, and the child has not truncated since. */
  predicate HoldsPid(ops: seq<Op>) {
    LastIndex(ops, Write) > LastIndex(ops, Truncate)
  }

  lemma {:induction false} SharedAfter(s: Shared, ops: seq<Op>, child: nat)
    requires IsInterleaving(ops) && ops != []
    ensures ApplyAll(s, ops, child).content == if HoldsPid(ops) then PidLine(child) else ""
    ensures Write !in ops ==> ApplyAll(s, ops, child).offset == 0
  {
    var done, op := ops[..|ops| - 1], ops[|ops| - 1];
    assert ops == done + [op];
    if done != [] {
      SharedAfter(s, done, child);
      assert Write !in done ==> LastIndex(done, Write) == -1;
    }
  }

  /**
   * In every interleaving, at every moment after the open, the file is empty or exactly
   * the child's pid and a newline; and it says which: it holds the pid just when the
   * write came after any truncation.
   */
  lemma PidFileShape(s: Shared, ops: seq<Op>, child: nat, now: nat)
    requires IsInterleaving(ops) && 0 < now <= |ops|
    ensures ApplyAll(s, ops[..now], child).content == if HoldsPid(ops[..now]) then PidLine(child) else ""
  {
    InterleavingPrefix(ops, now);
    SharedAfter(s, ops[..now], child);
  }

  lemma {:induction false} InterleavingPrefix(ops: seq<Op>, now: nat)
    requires IsInterleaving(ops) && now <= |ops|
    ensures IsInterleaving(ops[..now])
    decreases |ops|
  {
    if now < |ops| {
      var done := ops[..|ops| - 1];
      InterleavingPrefix(done, now);
      assert done[..now] == ops[..now];
    } else {
      assert ops[..now] == ops;
    }
  }

  /**
   * When both processes have finished, the file is empty exactly when the write came
   * before the truncation; otherwise the pid of a process that has exited stays behind.
   */
  lemma FinalPidFile(s: Shared, ops: seq<Op>, child: nat, w: nat, t: nat)
    requires IsInterleaving(ops)
    requires w < |ops| && ops[w] == Write && t < |ops| && ops[t] == Truncate
    ensures ApplyAll(s, ops, child).content == (if w < t then "" else PidLine(child))
  {
    SharedAfter(s, ops, child);
    EachOnce(ops, w, LastIndex(ops, Write));
    EachOnce(ops, t, LastIndex(ops, Truncate));
  }

  lemma {:induction false} EachOnce(ops: seq<Op>, i: nat, j: nat)
    requires IsInterleaving(ops) && i <= j < |ops| && ops[i] == ops[j]
    ensures i == j
    decreases |ops|
  {
    var done := ops[..|ops| - 1];
    if j < |done| {
      EachOnce(done, i, j);
    } else {
      assert forall k :: 0 <= k < |done| ==> done[k] == ops[k] && ops[k] in done;
    }
  }

  lemma OverwriteAtStart(content: string, data: string)
    ensures Overwrite(content, 0, data) == if |data| < |content| then data + content[|data|..] else data
  {
    assert content[..0] + data == data;
  }

  /**
   * Why the child seeks before it truncates: a pid written afterwards through the shared
   * description is then the whole file, and otherwise it lies behind as many zero bytes as
   * had been written before.
   */
  lemma SeekPreventsAGap(s: Shared, child: nat)
    ensures ApplyAll(s, [Seek, Truncate, Write], child) == Shared(PidLine(child), |PidLine(child)|)
    ensures ApplyAll(s, [Truncate, Write], child).content == Zeros(s.offset) + PidLine(child)
  {
    hide PidLine;
    ApplyThree(s, Seek, Truncate, Write, child);
    ApplyTwo(s, Truncate, Write, child);
  }

  lemma ApplyTwo(s: Shared, a: Op, b: Op, child: nat)
    ensures ApplyAll(s, [a, b], child) == Apply(Apply(s, a, child), b, child)
  {
    hide Apply;
    assert [a, b][..1] == [a] && [a][..0] == [];
    assert ApplyAll(s, [a], child) == Apply(s, a, child);
  }

  lemma ApplyThree(s: Shared, a: Op, b: Op, c: Op, child: nat)
    ensures ApplyAll(s, [a, b, c], child) == Apply(Apply(Apply(s, a, child), b, child), c, child)
  {
    hide Apply;
    assert [a, b, c][..2] == [a, b];
    ApplyTwo(s, a, b, child);
  }

  lemma PidLinesArePrefixFree(m: nat, n: nat)
    requires PidLine(m) <= PidLine(n)
    ensures m == n
  {
    assert PidLine(n)[|Dec(m)|] == '\n';
    PidLineIsInjective(m, n);
  }

  /** The file after the pid lines of `written` went over one another, each at the start of the file. */
  function Layered(written: seq<nat>): string {
    if written == [] then ""
    else Overwrite(Layered(written[..|written| - 1]), 0, PidLine(written[|written| - 1]))
  }

  lemma LayeredAppend(written: seq<nat>, w: nat)
    ensures Layered(written + [w]) == Overwrite(Layered(written), 0, PidLine(w))
  {
    assert (written + [w])[..|written|] == written;
  }

  lemma LayeredTwice(first: nat, second: nat)
    ensures Layered([first, second]) == Overwrite(Overwrite("", 0, PidLine(first)), 0, PidLine(second))
  {
    LayeredAppend([], first);
    LayeredAppend([first], second);
    assert [] + [first] == [first] && [first] + [second] == [first, second];
  }

  lemma OverwriteCovers(content: string, data: string)
    ensures data <= Overwrite(content, 0, data)
    ensures |Overwrite(content, 0, data)| == if |data| < |content| then |content| else |data|
  {
    OverwriteAtStart(content, data);
  }

  /** The last line is on top. */
  lemma LayeredTop(written: seq<nat>)
    requires written != []
    ensures PidLine(written[|written| - 1]) <= Layered(written)
  {
    hide PidLine, Overwrite;
    OverwriteCovers(Layered(written[..|written| - 1]), PidLine(written[|written| - 1]));
  }

  /** The longest one determines the length. */
  lemma {:induction false} LayeredLength(written: seq<nat>) returns (longest: nat)
    requires written != []
    ensures longest in written && |PidLine(longest)| == |Layered(written)|
    ensures forall w :: w in written ==> |PidLine(w)| <= |PidLine(longest)|
  {
    hide PidLine, Overwrite;
    longest := written[|written| - 1];
    var before := written[..|written| - 1];
    OverwriteCovers(Layered(before), PidLine(longest));
    assert written == before + [longest];
    if before != [] {
      var earlier := LayeredLength(before);
      if |PidLine(earlier)| > |PidLine(longest)| {
        longest := earlier;
      }
    }
  }

  /**
   * The file is the pid line of the last writer exactly when no earlier line is longer;
   * otherwise digits are left behind, and it is no pid line at all.
   */
  lemma LayeredNames(written: seq<nat>, p: nat)
    ensures Layered(written) == PidLine(p) <==>
            && written != [] && written[|written| - 1] == p
            && forall w :: w in written ==> |PidLine(w)| <= |PidLine(p)|
  {
    if written != [] {
      LayeredTop(written);
      var longest := LayeredLength(written);
      if Layered(written) == PidLine(p) {
        PidLinesArePrefixFree(written[|written| - 1], p);
      }
    }
  }

  /**
   * When the line of `earlier` goes over that of `later`, the file names `earlier` if its line
   * is at least as long; a shorter one leaves digits of `later` behind, and the file is no pid
   * line at all.
   */
  lemma LateWriteOfEarlierGeneration(earlier: nat, later: nat)
    ensures var mixed := Layered([later, earlier]);
            if |Dec(earlier)| >= |Dec(later)| then mixed == PidLine(earlier)
            else forall p: nat :: mixed != PidLine(p)
  {
    LayeredNames([later, earlier], earlier);
    forall p: nat ensures Layered([later, earlier]) == PidLine(p) ==> p == earlier {
      LayeredNames([later, earlier], p);
    }
  }
}
