/**
 * Byte strings and the handful of `strings`, `strconv` and `path` operations the
 * repository builds on. A `char` stands for one byte: every operation here works
 * byte by byte, exactly like its Go counterpart on these inputs.
 */
module Text {
  import opened Wrappers

  /** Where init.d scripts are. */
  const INITD_DIR: string := "/etc/init.d/"

  // ----- decimal numbers -----

  const TWO_TO_THE_63: int := 0x8000_0000_0000_0000
  const TWO_TO_THE_64: int := 0x1_0000_0000_0000_0000

  predicate IsDigit(c: char) {
    '0' <= c <= '9'
  }

  predicate AllDigits(s: string) {
    forall i :: 0 <= i < |s| ==> IsDigit(s[i])
  }

  function Digit(d: nat): char
    requires d < 10
  {
    ('0' as int + d) as char
  }

  /** What `%d` prints for a non-negative integer. */
  function Dec(n: nat): (s: string)
    ensures s != [] && AllDigits(s)
  {
    if n < 10 then [Digit(n)] else Dec(n / 10) + [Digit(n % 10)]
  }

  function DecimalValue(s: string): nat
    requires AllDigits(s)
  {
    if s == [] then 0
    else DecimalValue(s[..|s| - 1]) * 10 + (s[|s| - 1] as int - '0' as int)
  }

  /** `strconv.ParseUint(s, 10, 64)`; `None` is any of its errors. */
  function ParseUint(s: string): Option<nat> {
    if s == [] || !AllDigits(s) then None
    else if DecimalValue(s) < TWO_TO_THE_64 then Some(DecimalValue(s))
    else None
  }

  /** `strconv.Atoi` where `int` has 64 bits; `None` is any of its errors. */
  function Atoi(s: string): Option<int> {
    var negative := s != [] && s[0] == '-';
    var digits := if s != [] && (s[0] == '-' || s[0] == '+') then s[1..] else s;
    if digits == [] || !AllDigits(digits) then None
    else
      var magnitude: int := DecimalValue(digits);
      var v := if negative then -magnitude else magnitude;
      if -TWO_TO_THE_63 <= v < TWO_TO_THE_63 then Some(v) else None
  }

  /** Go's conversion from `uint64` to a 64-bit `int`: two's complement wrap-around. */
  function WrapToInt64(n: int): int {
    (n + TWO_TO_THE_63) % TWO_TO_THE_64 - TWO_TO_THE_63
  }

  lemma WrapToInt64Is(n: int)
    ensures -TWO_TO_THE_63 <= n < TWO_TO_THE_63 ==> WrapToInt64(n) == n
    ensures TWO_TO_THE_63 <= n < TWO_TO_THE_64 ==> WrapToInt64(n) == n - TWO_TO_THE_64
  {
  }

  lemma {:induction false} DecimalValueOfDec(n: nat)
    ensures DecimalValue(Dec(n)) == n
  {
    if n >= 10 {
      DecimalValueOfDec(n / 10);
      assert Dec(n)[..|Dec(n)| - 1] == Dec(n / 10);
    }
  }

  /** Printing and then parsing a number gives it back, up to the width of the parser. */
  lemma ParseUintOfDec(n: nat)
    ensures ParseUint(Dec(n)) == if n < TWO_TO_THE_64 then Some(n) else None
  {
    DecimalValueOfDec(n);
  }

  /** The other direction: a numeral without leading zeros is what its value prints as. */
  lemma {:induction false} DecOfDecimalValue(s: string)
    requires s != [] && AllDigits(s)
    requires s[0] != '0' || |s| == 1
    ensures Dec(DecimalValue(s)) == s
    ensures s[0] != '0' ==> DecimalValue(s) > 0
  {
    var front, last := s[..|s| - 1], s[|s| - 1];
    assert s == front + [last];
    if |s| > 1 {
      DecOfDecimalValue(front);
      var d := last as int - '0' as int;
      assert DecimalValue(s) / 10 == DecimalValue(front) && DecimalValue(s) % 10 == d;
      assert Digit(d) == last;
    } else {
      assert DecimalValue(front) == 0;
      assert Digit(DecimalValue(s)) == last;
    }
  }

  lemma DecIsInjective(m: nat, n: nat)
    requires Dec(m) == Dec(n)
    ensures m == n
  {
    DecimalValueOfDec(m);
    DecimalValueOfDec(n);
  }

  /** A number ten times as large has more digits. */
  lemma DecGrows(m: nat, n: nat)
    requires m > 0 && n >= 10 * m
    ensures |Dec(m)| < |Dec(n)|
  {
    DecIsMonotone(m, n / 10);
  }

  lemma {:induction false} DecIsMonotone(m: nat, n: nat)
    requires m <= n
    ensures |Dec(m)| <= |Dec(n)|
  {
    if m >= 10 {
      DecIsMonotone(m / 10, n / 10);
    }
  }

  // ----- searching and splitting -----

  /** `strings.HasPrefix`. */
  predicate HasPrefix(s: string, prefix: string) {
    prefix <= s
  }

  /** The position of the first `c` in `s`, or `|s|` when there is none. */
  function FirstIndex(s: string, c: char): (i: nat)
    ensures i <= |s| && (i < |s| ==> s[i] == c)
    ensures forall k :: 0 <= k < i ==> s[k] != c
  {
    if s == [] || s[0] == c then 0 else 1 + FirstIndex(s[1..], c)
  }

  lemma FirstIndexIs(s: string, c: char, i: nat)
    requires i <= |s| && (i < |s| ==> s[i] == c)
    requires forall k :: 0 <= k < i ==> s[k] != c
    ensures FirstIndex(s, c) == i
  {
    assert !(FirstIndex(s, c) < i);
  }

  /** `strings.Split` for a one-byte separator. */
  function Split(s: string, sep: char): (pieces: seq<string>)
    ensures pieces != []
    decreases |s|
  {
    var i := FirstIndex(s, sep);
    if i == |s| then [s] else [s[..i]] + Split(s[i + 1..], sep)
  }

  /** A separator-free piece followed by a separator is the first piece of the split. */
  lemma SplitFirst(piece: string, sep: char, rest: string)
    requires sep !in piece
    ensures Split(piece + [sep] + rest, sep) == [piece] + Split(rest, sep)
  {
    var s := piece + [sep] + rest;
    assert s[..|piece|] == piece && s[|piece| + 1..] == rest;
    FirstIndexIs(s, sep, |piece|);
  }

  lemma SplitWhole(s: string, sep: char)
    requires sep !in s
    ensures Split(s, sep) == [s]
  {
    assert s[..|s|] == s;
    FirstIndexIs(s, sep, |s|);
  }

  /** `strings.Join`. */
  function Join(pieces: seq<string>, sep: string): string {
    if pieces == [] then ""
    else if |pieces| == 1 then pieces[0]
    else pieces[0] + sep + Join(pieces[1..], sep)
  }

  /** Splitting around a separator splits both sides. */
  lemma {:induction false} SplitAround(a: string, sep: char, b: string)
    ensures Split(a + [sep] + b, sep) == Split(a, sep) + Split(b, sep)
    decreases |a|
  {
    hide Split;
    var i := FirstIndex(a, sep);
    if i == |a| {
      SplitFirst(a, sep, b);
      SplitWhole(a, sep);
    } else {
      var front, rest := a[..i], a[i + 1..];
      calc {
        Split(a + [sep] + b, sep);
        { assert a + [sep] + b == front + [sep] + (rest + [sep] + b); }
        Split(front + [sep] + (rest + [sep] + b), sep);
        { SplitFirst(front, sep, rest + [sep] + b); }
        [front] + Split(rest + [sep] + b, sep);
        { SplitAround(rest, sep, b); }
        [front] + Split(rest, sep) + Split(b, sep);
        { SplitFirst(front, sep, rest); assert a == front + [sep] + rest; }
        Split(a, sep) + Split(b, sep);
      }
    }
  }

  /** Splitting what was joined gives the pieces back. */
  lemma {:induction false} SplitOfJoin(pieces: seq<string>, sep: char)
    requires pieces != [] && forall i :: 0 <= i < |pieces| ==> sep !in pieces[i]
    ensures Split(Join(pieces, [sep]), sep) == pieces
  {
    hide Split;
    if |pieces| == 1 {
      SplitWhole(pieces[0], sep);
    } else {
      SplitOfJoin(pieces[1..], sep);
      SplitFirst(pieces[0], sep, Join(pieces[1..], [sep]));
    }
  }

  lemma {:induction false} SplitLeavesNoSeparator(s: string, sep: char)
    ensures forall i :: 0 <= i < |Split(s, sep)| ==> sep !in Split(s, sep)[i]
    decreases |s|
  {
    var i := FirstIndex(s, sep);
    if i < |s| {
      SplitLeavesNoSeparator(s[i + 1..], sep);
    }
  }

  // ----- trimming -----

  function TrimLeft(s: string, cutset: set<char>): string {
    if s != [] && s[0] in cutset then TrimLeft(s[1..], cutset) else s
  }

  function TrimRight(s: string, cutset: set<char>): string {
    if s != [] && s[|s| - 1] in cutset then TrimRight(s[..|s| - 1], cutset) else s
  }

  /** `strings.Trim`. */
  function Trim(s: string, cutset: set<char>): string {
    TrimRight(TrimLeft(s, cutset), cutset)
  }

  lemma {:induction false} TrimLeftShrinks(s: string, cutset: set<char>)
    ensures |TrimLeft(s, cutset)| <= |s|
  {
    if s != [] && s[0] in cutset {
      TrimLeftShrinks(s[1..], cutset);
    }
  }

  lemma {:induction false} TrimRightShrinks(s: string, cutset: set<char>)
    ensures |TrimRight(s, cutset)| <= |s|
  {
    if s != [] && s[|s| - 1] in cutset {
      TrimRightShrinks(s[..|s| - 1], cutset);
    }
  }

  // ----- io.LimitReader -----

  /** At most the first `limit` bytes of `s`. */
  function Limit(s: string, limit: nat): string {
    if |s| <= limit then s else s[..limit]
  }
}
