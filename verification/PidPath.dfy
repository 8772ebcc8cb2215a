/**
 * Where the daemon looks for its pid file: it scans the init.d script that started it for
 * the line that sets the path, and otherwise falls back to a default. The script it scans
 * is the one a controller generated, and the two have to agree on the path.
 */
module PidPath {
  import opened Wrappers
  import opened Text
  import opened Proc
  import opened Replacer
  import opened SystemvScript

  /** The buffer of a `bufio.Scanner` holds a line of fewer bytes than this, without its newline. */
  const MAX_TOKEN: nat := 65536

  const QUOTES: set<char> := {'"', '\''}

  datatype ScanError = OpenFailed | LineTooLong | NoSuchLine

  /** `bufio.ScanLines` drops one carriage return at the end of a line. */
  function DropCR(line: string): string {
    if line != "" && line[|line| - 1] == '\r' then line[..|line| - 1] else line
  }

  /** The value a line gives to the variable, without quotes. */
  function PidValue(line: string): Option<string> {
    if HasPrefix(line, PID_PREFIX) then Some(Trim(line[|PID_PREFIX|..], QUOTES)) else None
  }

  /** What scanning the text line by line comes to. */
  function ScanForPid(s: string): Result<string, ScanError>
    decreases |s|
  {
    if s == "" then Failure(NoSuchLine)
    else
      var n := FirstIndex(s, NEWLINE);
      if n >= MAX_TOKEN then Failure(LineTooLong)
      else
        var value := PidValue(DropCR(s[..n]));
        if value.Some? then Success(value.value)
        else if n == |s| then Failure(NoSuchLine)
        else ScanForPid(s[n + 1..])
  }

  /** The scan at position `start`, by positions of the whole text. */
  lemma ScanAt(s: string, start: nat)
    requires start < |s|
    ensures var n := FirstIndex(s[start..], NEWLINE);
            && start + n <= |s|
            && ScanForPid(s[start..]) ==
               (if n >= MAX_TOKEN then Failure(LineTooLong)
                else var value := PidValue(DropCR(s[start..start + n]));
                     if value.Some? then Success(value.value)
                     else if start + n == |s| then Failure(NoSuchLine)
                     else ScanForPid(s[start + n + 1..]))
  {
    hide PidValue, DropCR, FirstIndex;
    var n := FirstIndex(s[start..], NEWLINE);
    assert s[start..][..n] == s[start..start + n];
    if start + n < |s| {
      assert s[start..][n + 1..] == s[start + n + 1..];
    }
  }

  /** `pidFilePathFromInitdScript`; `contents` is `None` when the script cannot be opened. */
  method PidFilePathFromInitdScript(contents: Option<string>) returns (r: Result<string, ScanError>)
    ensures r == if contents.None? then Failure(OpenFailed) else ScanForPid(Limit(contents.value, READ_LIMIT))
  {
    hide PidValue, DropCR, FirstIndex;
    if contents.None? {
      return Failure(OpenFailed);
    }
    var s := Limit(contents.value, READ_LIMIT);
    var start := 0;
    while start < |s|
      invariant 0 <= start <= |s|
      invariant ScanForPid(s) == ScanForPid(s[start..])
    {
      var n := FirstIndex(s[start..], NEWLINE);
      ScanAt(s, start);
      if n >= MAX_TOKEN {
        return Failure(LineTooLong);
      }
      var value := PidValue(DropCR(s[start..start + n]));
      if value.Some? {
        return Success(value.value);
      }
      if start + n == |s| {
        return Failure(NoSuchLine);
      }
      start := start + n + 1;
    }
    return Failure(NoSuchLine);
  }

  /** `path.Base`. */
  function Base(p: string): string {
    var trimmed := TrimRight(p, {'/'});
    if p == "" then "."
    else if trimmed == "" then "/"
    else
      var pieces := Split(trimmed, '/');
      pieces[|pieces| - 1]
  }

  /** The daemon's own default, which is written separately from the controller's. */
  function FallbackPidFilePath(serviceName: string): string {
    "/var/run/" + serviceName + ".pid"
  }

  /** The path that `RunUntilExit` opens for the script `scriptPath` with these contents. */
  function DaemonPidPath(contents: string, scriptPath: string): string {
    match ScanForPid(Limit(contents, READ_LIMIT))
    case Success(path) => path
    case Failure(_) => FallbackPidFilePath(Base(scriptPath))
  }

  // ----- the script by lines -----

  function SettingLines(c: Config, l: Literals): seq<string> {
    ["PROGRAM_PATH='" + c.exePath + "'"] +
    (["ARGUMENTS='" + Join(c.arguments, " ") + "'"] +
    (["RUN_AS='" + c.runAs + "'"] + l.rootDefault))
  }

  function DescribedLines(c: Config, l: Literals): seq<string> {
    ["# Description:       " + c.description] +
    (l.setup + ["PROGRAM_NAME='" + c.daemonId + "'"] + SettingLines(c, l))
  }

  /** The lines of the rendered script above the one that sets the pid path. */
  function HeaderLines(c: Config, l: Literals): seq<string> {
    l.preamble + ["# Provides: " + c.daemonId] +
    (l.initInfo + ["# Short-Description: " + (c.daemonId + " daemon.")] +
    DescribedLines(c, l))
  }

  /** The line that sets the pid path, and all that follows. */
  function FromPidLine(c: Config, l: Literals): string {
    PID_PREFIX + "'" + DefaultPidFilePath(c.daemonId) + "'\n" + (l.beforeLog + (LogFilePath(c) + l.afterLog))
  }

  lemma {:induction false} LinesConcat(a: seq<string>, b: seq<string>)
    ensures Lines(a + b) == Lines(a) + Lines(b)
  {
    if a == [] {
      assert a + b == b;
    } else {
      LinesConcat(a[1..], b);
      assert (a + b)[1..] == a[1..] + b;
    }
  }

  /** Literal lines and the line that holds a value, in front of lines already assembled. */
  lemma AddValueLine(lines: seq<string>, front: string, value: string, close: string, below: seq<string>, rest: string)
    ensures Lines(lines) + front + (value + (close + ("\n" + (Lines(below) + rest))))
         == Lines(lines + [front + value + close] + below) + rest
  {
    LinesAround(lines, front + value + close, below);
    AddLine(Lines(lines), front, value, close, Lines(below), rest);
  }

  lemma LinesAround(a: seq<string>, line: string, b: seq<string>)
    ensures Lines(a + [line] + b) == Lines(a) + (line + "\n") + Lines(b)
  {
    LinesConcat(a + [line], b);
    LinesConcat(a, [line]);
    assert Lines([line]) == line + "\n" + Lines([]);
  }

  lemma AddLine(above: string, front: string, value: string, close: string, below: string, rest: string)
    ensures above + front + (value + (close + ("\n" + (below + rest))))
         == above + (front + value + close + "\n") + below + rest
  {
  }

  /** The template rendered from hole `k` on. */
  function RenderedFrom(c: Config, l: Literals, k: nat): string
    requires k <= |Gaps(l)| && Names(FromGaps(Gaps(l)[k..], l.afterLog)) <= Values(c).Keys
  {
    Render(FromGaps(Gaps(l)[k..], l.afterLog), Values(c))
  }

  lemma RenderGap(c: Config, l: Literals, k: nat)
    requires k < 9
    ensures |Gaps(l)| == 9
    ensures Names(FromGaps(Gaps(l)[k..], l.afterLog)) <= Values(c).Keys
    ensures Names(FromGaps(Gaps(l)[k + 1..], l.afterLog)) <= Values(c).Keys
    ensures Gaps(l)[k].name in Values(c)
    ensures RenderedFrom(c, l, k) == Gaps(l)[k].text + (Values(c)[Gaps(l)[k].name] + RenderedFrom(c, l, k + 1))
  {
    assert Gaps(l)[k..][1..] == Gaps(l)[k + 1..];
    NamesOfGaps(Gaps(l)[k..], l.afterLog);
    NamesOfGaps(Gaps(l)[k + 1..], l.afterLog);
    GapNamesAreClean(l);
    NamesHaveValues(c, l);
  }

  /** The same, where the literal text first closes the line above. */
  lemma AddValueLineBelow(open: string, lines: seq<string>, front: string, value: string, lower: string,
                          close: string, below: seq<string>, rest: string)
    requires lower == close + ("\n" + (Lines(below) + rest))
    ensures open + Lines(lines) + front + (value + lower)
         == open + (Lines(lines + [front + value + close] + below) + rest)
  {
    AddValueLine(lines, front, value, close, below, rest);
    assert open + Lines(lines) + front + (value + lower) == open + (Lines(lines) + front + (value + lower));
  }

  lemma OneValueLine(front: string, value: string, lower: string, close: string, below: seq<string>, rest: string)
    requires lower == close + ("\n" + (Lines(below) + rest))
    ensures "'\n" + front + (value + lower) == "'" + ("\n" + (Lines([front + value + close] + below) + rest))
    ensures "\n" + front + (value + lower) == "" + ("\n" + (Lines([front + value + close] + below) + rest))
  {
    AddValueLine([], front, value, close, below, rest);
    assert Lines([]) + front == front;
    assert [] + [front + value + close] + below == [front + value + close] + below;
    assert front + (value + lower) == Lines([front + value + close] + below) + rest;
  }

  lemma RenderedFromPid(c: Config, l: Literals)
    requires |Gaps(l)| == 9 && Names(FromGaps(Gaps(l)[7..], l.afterLog)) <= Values(c).Keys
    ensures RenderedFrom(c, l, 7) == "'" + ("\n" + (Lines(l.rootDefault) + FromPidLine(c, l)))
  {
    RenderGap(c, l, 7);
    RenderGap(c, l, 8);
    ValuesAre(c);
    assert Gaps(l)[9..] == [];
    assert RenderedFrom(c, l, 9) == l.afterLog;
    assert RenderedFrom(c, l, 8) == "'\n" + l.beforeLog + (LogFilePath(c) + l.afterLog);
    var path := DefaultPidFilePath(c.daemonId);
    assert RenderedFrom(c, l, 7) == "'\n" + Lines(l.rootDefault) + PID_PREFIX + "'" + (path + RenderedFrom(c, l, 8));
    PidLineLayout(Lines(l.rootDefault), path, l.beforeLog, LogFilePath(c) + l.afterLog);
  }

  lemma PidLineLayout(lines: string, path: string, before: string, after: string)
    ensures "'\n" + lines + PID_PREFIX + "'" + (path + ("'\n" + before + after))
         == "'" + ("\n" + (lines + (PID_PREFIX + "'" + path + "'\n" + (before + after))))
  {
  }

  lemma RenderedSettings(c: Config, l: Literals)
    requires |Gaps(l)| == 9 && Names(FromGaps(Gaps(l)[4..], l.afterLog)) <= Values(c).Keys
    ensures RenderedFrom(c, l, 4) ==
            "'" + ("\n" + (Lines(SettingLines(c, l)) + FromPidLine(c, l)))
  {
    RenderGap(c, l, 4);
    RenderGap(c, l, 5);
    RenderGap(c, l, 6);
    ValuesAre(c);
    RenderedFromPid(c, l);
    var f, b := FromPidLine(c, l), l.rootDefault;
    OneValueLine("RUN_AS='", c.runAs, RenderedFrom(c, l, 7), "'", b, f);
    b := ["RUN_AS='" + c.runAs + "'"] + b;
    OneValueLine("ARGUMENTS='", Join(c.arguments, " "), RenderedFrom(c, l, 6), "'", b, f);
    b := ["ARGUMENTS='" + Join(c.arguments, " ") + "'"] + b;
    OneValueLine("PROGRAM_PATH='", c.exePath, RenderedFrom(c, l, 5), "'", b, f);
  }

  lemma RenderedName(c: Config, l: Literals)
    requires |Gaps(l)| == 9 && Names(FromGaps(Gaps(l)[3..], l.afterLog)) <= Values(c).Keys
    ensures RenderedFrom(c, l, 3) ==
            "\n" + (Lines(l.setup + ["PROGRAM_NAME='" + c.daemonId + "'"] + SettingLines(c, l)) + FromPidLine(c, l))
  {
    RenderGap(c, l, 3);
    RenderGap(c, l, 4);
    ValuesAre(c);
    RenderedSettings(c, l);
    AddValueLineBelow("\n", l.setup, "PROGRAM_NAME='", c.daemonId, RenderedFrom(c, l, 4), "'",
                      SettingLines(c, l), FromPidLine(c, l));
  }

  lemma RenderedDescription(c: Config, l: Literals)
    requires |Gaps(l)| == 9 && Names(FromGaps(Gaps(l)[2..], l.afterLog)) <= Values(c).Keys
    ensures RenderedFrom(c, l, 2) == "\n" + (Lines(DescribedLines(c, l)) + FromPidLine(c, l))
  {
    hide Lines, SettingLines, FromPidLine;
    RenderGap(c, l, 2);
    RenderGap(c, l, 3);
    ValuesAre(c);
    RenderedName(c, l);
    var f, b := FromPidLine(c, l), l.setup + ["PROGRAM_NAME='" + c.daemonId + "'"] + SettingLines(c, l);
    assert RenderedFrom(c, l, 3) == "" + ("\n" + (Lines(b) + f));
    OneValueLine("# Description:       ", c.description, RenderedFrom(c, l, 3), "", b, f);
    assert "# Description:       " + c.description + "" == "# Description:       " + c.description;
  }

  /** The script is its header lines, the line of the pid path, and the rest. */
  lemma ScriptByLines(c: Config, l: Literals)
    ensures Names(ScriptTemplate(l)) <= Values(c).Keys
    ensures Script(c, l) == Lines(HeaderLines(c, l)) + FromPidLine(c, l)
  {
    hide Lines, DescribedLines, FromPidLine;
    RenderGap(c, l, 0);
    RenderGap(c, l, 1);
    RenderGap(c, l, 2);
    assert Gaps(l)[0..] == Gaps(l);
    ValuesAre(c);
    RenderedDescription(c, l);
    var f, b := FromPidLine(c, l), DescribedLines(c, l);
    var title := c.daemonId + " daemon.";
    AddValueLineBelow("\n", l.initInfo, "# Short-Description: ", title, RenderedFrom(c, l, 2), "", b, f);
    assert "# Short-Description: " + title + "" == "# Short-Description: " + title;
    b := l.initInfo + ["# Short-Description: " + title] + b;
    assert RenderedFrom(c, l, 1) == "" + ("\n" + (Lines(b) + f));
    AddValueLine(l.preamble, "# Provides: ", c.daemonId, "", b, f);
    assert "# Provides: " + c.daemonId + "" == "# Provides: " + c.daemonId;
    assert RenderedFrom(c, l, 0) == Lines(l.preamble) + "# Provides: " + (c.daemonId + RenderedFrom(c, l, 1));
  }

  // ----- scanning what was generated -----

  predicate IsHeaderLine(line: string) {
    NEWLINE !in line && !HasPrefix(line, PID_PREFIX)
  }

  predicate AreHeaderLines(lines: seq<string>) {
    forall i :: 0 <= i < |lines| ==> IsHeaderLine(lines[i])
  }

  predicate AllFit(lines: seq<string>) {
    forall i :: 0 <= i < |lines| ==> |lines[i]| < MAX_TOKEN
  }

  lemma HeaderLineHasNoValue(line: string)
    requires !HasPrefix(line, PID_PREFIX)
    ensures PidValue(DropCR(line)).None?
  {
    assert DropCR(line) <= line;
  }

  /** One whole line in front of `rest`. */
  lemma ScanOneLine(line: string, rest: string)
    requires IsHeaderLine(line)
    ensures ScanForPid(line + "\n" + rest) ==
            if |line| >= MAX_TOKEN then Failure(LineTooLong) else ScanForPid(rest)
  {
    var s := line + "\n" + rest;
    FirstIndexIs(s, NEWLINE, |line|);
    assert s[..|line|] == line && s[|line| + 1..] == rest;
    HeaderLineHasNoValue(line);
  }

  lemma FirstOfLines(lines: seq<string>, rest: string)
    requires lines != []
    ensures Lines(lines) + rest == lines[0] + "\n" + (Lines(lines[1..]) + rest)
  {
  }

  lemma AllFitSplits(lines: seq<string>)
    requires lines != []
    ensures AllFit(lines) <==> |lines[0]| < MAX_TOKEN && AllFit(lines[1..])
  {
    assert forall i :: 0 < i < |lines| ==> lines[i] == lines[1..][i - 1];
  }

  lemma {:induction false} ScanHeader(lines: seq<string>, rest: string)
    requires AreHeaderLines(lines)
    ensures ScanForPid(Lines(lines) + rest) == if AllFit(lines) then ScanForPid(rest) else Failure(LineTooLong)
  {
    if lines == [] {
      assert Lines(lines) + rest == rest;
    } else {
      assert IsHeaderLine(lines[0]);
      var below := Lines(lines[1..]) + rest;
      ScanHeader(lines[1..], rest);
      FirstOfLines(lines, rest);
      ScanOneLine(lines[0], below);
      AllFitSplits(lines);
    }
  }

  /** A last line without a newline. */
  lemma ScanLastLine(line: string)
    requires NEWLINE !in line
    ensures ScanForPid(line) ==
            if line == "" then Failure(NoSuchLine)
            else if |line| >= MAX_TOKEN then Failure(LineTooLong)
            else if PidValue(DropCR(line)).Some? then Success(PidValue(DropCR(line)).value)
            else Failure(NoSuchLine)
  {
    FirstIndexIs(line, NEWLINE, |line|);
    assert line[..|line|] == line;
  }

  lemma CutBehindLine(line: string, below: string, kept: nat)
    requires |line| < kept <= |line| + 1 + |below|
    ensures (line + "\n" + below)[..kept] == line + "\n" + below[..kept - |line| - 1]
  {
  }

  lemma CutLineHasNoValue(line: string, kept: nat)
    requires IsHeaderLine(line) && kept <= |line|
    ensures ScanForPid(line[..kept]).Failure?
  {
    hide PidValue, DropCR, FirstIndex;
    ScanLastLine(line[..kept]);
    HeaderLineHasNoValue(line[..kept]);
  }

  /** When the read limit falls within the header, nothing is found. */
  lemma {:induction false} ScanCutHeader(lines: seq<string>, kept: nat)
    requires AreHeaderLines(lines) && kept <= |Lines(lines)|
    ensures ScanForPid(Lines(lines)[..kept]).Failure?
  {
    hide ScanForPid, PidValue, DropCR, FirstIndex;
    if lines == [] {
      ScanLastLine("");
      assert Lines(lines)[..kept] == "";
    } else {
      var line, below := lines[0], Lines(lines[1..]);
      assert IsHeaderLine(line);
      if kept <= |line| {
        assert Lines(lines)[..kept] == line[..kept];
        CutLineHasNoValue(line, kept);
      } else {
        ScanCutHeader(lines[1..], kept - |line| - 1);
        CutBehindLine(line, below, kept);
        ScanOneLine(line, below[..kept - |line| - 1]);
      }
    }
  }

  // ----- the line of the pid path -----

  /** The pid path holds no newline, and neither starts nor ends with a quote or a carriage return. */
  predicate IsPath(path: string) {
    path != "" && NEWLINE !in path && path[0] !in QUOTES && path[|path| - 1] !in QUOTES + {'\r'}
  }

  lemma TrimQuoted(path: string, close: string)
    requires IsPath(path) && (close == "'" || close == "")
    ensures Trim("'" + path + close, QUOTES) == path
  {
    var s := path + close;
    assert "'" + path + close == "'" + s;
    assert ("'" + s)[1..] == s;
    assert TrimLeft("'" + s, QUOTES) == TrimLeft(s, QUOTES) == s;
    if close == "'" {
      assert s[..|s| - 1] == path;
      assert TrimRight(s, QUOTES) == TrimRight(path, QUOTES);
    } else {
      assert s == path;
    }
  }

  lemma TrimCutQuoted(cut: string, path: string)
    requires cut == "" || (cut[0] == '\'' && |cut| <= |path|)
    requires path != ""
    ensures Trim(cut, QUOTES) != path
  {
    var inner := TrimLeft(cut, QUOTES);
    if cut != "" {
      TrimLeftShrinks(cut[1..], QUOTES);
    }
    TrimRightShrinks(inner, QUOTES);
  }

  lemma PidPrefixIsOneLine()
    ensures IsOneLine(PID_PREFIX) && |PID_PREFIX| == 14
  {
  }

  function QuotedPath(path: string): string {
    PID_PREFIX + "'" + path
  }

  /** The scan of what the read limit keeps of the line of the pid path, by how much it keeps. */
  lemma ScanPidLine(path: string, more: string, kept: nat)
    requires IsPath(path) && kept <= |QuotedPath(path) + "'\n" + more|
    ensures var r := ScanForPid((QuotedPath(path) + "'\n" + more)[..kept]);
            && (kept < |PID_PREFIX| ==> r.Failure?)
            && (|PID_PREFIX| <= kept < |QuotedPath(path)| ==>
                  if kept >= MAX_TOKEN then r.Failure? else r.Success? && r.value != path)
            && (|QuotedPath(path)| <= kept ==> r.Failure? || r.value == path)
  {
    var whole, quoted := QuotedPath(path) + "'\n" + more, QuotedPath(path);
    PidPrefixIsOneLine();
    if kept < |PID_PREFIX| {
      assert whole[..kept] == PID_PREFIX[..kept];
      ScanLastLine(whole[..kept]);
      HeaderLineHasNoValue(whole[..kept]);
    } else if kept < |quoted| {
      assert whole[..kept] == quoted[..kept];
      ScanCutPidLine(path, kept);
    } else if kept == |quoted| {
      assert whole[..kept] == quoted + "";
      ScanWholePidLine(path, "");
    } else if kept == |quoted| + 1 {
      assert whole[..kept] == quoted + "'";
      ScanWholePidLine(path, "'");
    } else {
      assert whole[..kept] == quoted + "'" + "\n" + more[..kept - |quoted| - 2];
      ScanWholePidLineAndMore(path, more[..kept - |quoted| - 2]);
    }
  }

  lemma PidValueOfQuoted(path: string, close: string)
    requires IsPath(path) && (close == "'" || close == "")
    ensures PidValue(DropCR(QuotedPath(path) + close)) == Some(path)
  {
    var line := QuotedPath(path) + close;
    assert DropCR(line) == line;
    assert line[|PID_PREFIX|..] == "'" + path + close;
    TrimQuoted(path, close);
  }

  lemma ScanWholePidLine(path: string, close: string)
    requires IsPath(path) && (close == "'" || close == "")
    ensures var r := ScanForPid(QuotedPath(path) + close); r.Failure? || r.value == path
  {
    PidPrefixIsOneLine();
    ScanLastLine(QuotedPath(path) + close);
    PidValueOfQuoted(path, close);
  }

  lemma ScanWholePidLineAndMore(path: string, more: string)
    requires IsPath(path)
    ensures var r := ScanForPid(QuotedPath(path) + "'" + "\n" + more); r.Failure? || r.value == path
  {
    var line := QuotedPath(path) + "'";
    PidPrefixIsOneLine();
    FirstIndexIs(line + "\n" + more, NEWLINE, |line|);
    assert (line + "\n" + more)[..|line|] == line;
    PidValueOfQuoted(path, "'");
  }

  lemma ScanCutPidLine(path: string, kept: nat)
    requires IsPath(path) && |PID_PREFIX| <= kept < |QuotedPath(path)|
    ensures var r := ScanForPid(QuotedPath(path)[..kept]);
            if kept >= MAX_TOKEN then r.Failure? else r.Success? && r.value != path
  {
    var cut := ("'" + path)[..kept - |PID_PREFIX|];
    assert QuotedPath(path)[..kept] == PID_PREFIX + cut;
    PidPrefixIsOneLine();
    ScanLastLine(PID_PREFIX + cut);
    CutValue(cut);
    TrimCutQuoted(DropCR(cut), path);
  }

  lemma CutValue(cut: string)
    requires cut != "" ==> cut[0] == '\''
    ensures PidValue(DropCR(PID_PREFIX + cut)) == Some(Trim(DropCR(cut), QUOTES))
    ensures DropCR(cut) != "" ==> DropCR(cut)[0] == '\''
  {
    var line := PID_PREFIX + cut;
    if cut == "" {
      assert PID_PREFIX[13] == '=';
    } else {
      assert line[|line| - 1] == cut[|cut| - 1];
    }
    assert DropCR(line) == PID_PREFIX + DropCR(cut);
    assert (PID_PREFIX + DropCR(cut))[|PID_PREFIX|..] == DropCR(cut);
  }

  /** No quotes, or a pair of either kind. */
  predicate IsQuote(q: string) {
    q == "" || q == "'" || q == "\""
  }

  function PidLineFor(path: string, q: string, cr: string): string {
    PID_PREFIX + (q + path + q) + cr
  }

  lemma TrimPair(path: string, q: string)
    requires IsPath(path) && IsQuote(q)
    ensures Trim(q + path + q, QUOTES) == path
  {
    var s := path + q;
    assert q + path + q == q + s;
    if q == "" {
      assert q + s == path;
    } else {
      assert (q + s)[1..] == s && s[..|s| - 1] == path;
      assert TrimLeft(q + s, QUOTES) == TrimLeft(s, QUOTES) == s;
      assert TrimRight(s, QUOTES) == TrimRight(path, QUOTES);
    }
  }

  lemma PidValueOfLine(path: string, q: string, cr: string)
    requires IsPath(path) && IsQuote(q) && (cr == "" || cr == "\r")
    ensures PidValue(DropCR(PidLineFor(path, q, cr))) == Some(path)
  {
    hide Trim;
    var value := q + path + q;
    var line := PID_PREFIX + value;
    TrimPair(path, q);
    assert line[|PID_PREFIX|..] == value;
    assert line[|line| - 1] == value[|value| - 1] != '\r';
    if cr == "\r" {
      assert (line + cr)[..|line|] == line;
    } else {
      assert line + cr == line;
    }
  }

  /** A first line that sets the path is what the scan returns. */
  lemma ScanFindsFirst(path: string, q: string, cr: string, more: string)
    requires IsPath(path) && IsQuote(q) && (cr == "" || cr == "\r") && |PidLineFor(path, q, cr)| < 65536
    ensures ScanForPid(PidLineFor(path, q, cr) + "\n" + more) == Success(path)
  {
    hide PidValue, DropCR;
    var line := PidLineFor(path, q, cr);
    PidPrefixIsOneLine();
    FirstIndexIs(line + "\n" + more, NEWLINE, |line|);
    assert (line + "\n" + more)[..|line|] == line;
    PidValueOfLine(path, q, cr);
  }

  /**
   * A text that holds a whole line for the path, behind header lines that all fit the scanner
   * and within the first 100000 bytes, scans to that path, whatever the path, its quotes, the
   * line ending and the text behind.
   */
  lemma WholePidLineIsFound(lines: seq<string>, path: string, q: string, cr: string, more: string)
    requires AreHeaderLines(lines) && AllFit(lines)
    requires IsPath(path) && IsQuote(q) && (cr == "" || cr == "\r") && |PidLineFor(path, q, cr)| < 65536
    requires |Lines(lines)| + |PidLineFor(path, q, cr)| + 1 <= 100000
    ensures ScanForPid(Limit(Lines(lines) + (PidLineFor(path, q, cr) + "\n" + more), READ_LIMIT)) == Success(path)
  {
    hide PidValue, DropCR, ScanForPid, PidLineFor;
    var header, line := Lines(lines), PidLineFor(path, q, cr) + "\n";
    var kept := LimitKeepsFront(header, line, more);
    ScanHeader(lines, line + kept);
    ScanFindsFirst(path, q, cr, kept);
  }

  lemma LimitKeepsFront(a: string, b: string, more: string) returns (kept: string)
    requires |a| + |b| <= 100000
    ensures Limit(a + (b + more), READ_LIMIT) == a + (b + kept)
  {
    kept := if |a| + |b| + |more| <= READ_LIMIT then more else more[..READ_LIMIT - |a| - |b|];
    assert a + (b + more) == a + b + more;
  }

  // ----- the agreement -----

  /** No newline in the settings that come before the line of the pid path. */
  predicate HasOneLineSettings(c: Config) {
    && NEWLINE !in c.daemonId && NEWLINE !in c.description && NEWLINE !in c.exePath && NEWLINE !in c.runAs
    && forall i :: 0 <= i < |c.arguments| ==> NEWLINE !in c.arguments[i]
  }

  lemma ValueLineIsHeaderLine(front: string, value: string, close: string)
    requires IsOneLine(front) && NEWLINE !in value && NEWLINE !in close
    requires |front| >= 2 && (front[0] != 'P' || front[1] != 'I')
    ensures IsHeaderLine(front + value + close)
  {
    assert PID_PREFIX[0] == 'P' && PID_PREFIX[1] == 'I';
    assert (front + value + close)[0] == front[0] && (front + value + close)[1] == front[1];
  }

  lemma HeaderLinesConcat(a: seq<string>, line: string, b: seq<string>)
    requires ArePlain(a) && IsHeaderLine(line) && AreHeaderLines(b)
    ensures AreHeaderLines(a + [line] + b)
  {
  }

  lemma SettingLinesAreHeaderLines(c: Config, l: Literals)
    requires IsText(l) && HasOneLineSettings(c)
    ensures AreHeaderLines(SettingLines(c, l))
  {
    JoinHolds(c.arguments, " ", NEWLINE);
    ValueLineIsHeaderLine("PROGRAM_PATH='", c.exePath, "'");
    ValueLineIsHeaderLine("ARGUMENTS='", Join(c.arguments, " "), "'");
    ValueLineIsHeaderLine("RUN_AS='", c.runAs, "'");
    assert forall i :: 0 <= i < |l.rootDefault| ==> IsPlain(l.rootDefault[i]);
  }

  lemma HeaderLinesAreHeaderLines(c: Config, l: Literals)
    requires IsText(l) && HasOneLineSettings(c)
    ensures AreHeaderLines(HeaderLines(c, l))
  {
    SettingLinesAreHeaderLines(c, l);
    ValueLineIsHeaderLine("PROGRAM_NAME='", c.daemonId, "'");
    HeaderLinesConcat(l.setup, "PROGRAM_NAME='" + c.daemonId + "'", SettingLines(c, l));
    ValueLineIsHeaderLine("# Description:       ", c.description, "");
    assert "# Description:       " + c.description + "" == "# Description:       " + c.description;
    assert AreHeaderLines(DescribedLines(c, l));
    var title := c.daemonId + " daemon.";
    assert IsOneLine(" daemon.");
    ValueLineIsHeaderLine("# Short-Description: ", title, "");
    assert "# Short-Description: " + title + "" == "# Short-Description: " + title;
    HeaderLinesConcat(l.initInfo, "# Short-Description: " + title, DescribedLines(c, l));
    ValueLineIsHeaderLine("# Provides: ", c.daemonId, "");
    assert "# Provides: " + c.daemonId + "" == "# Provides: " + c.daemonId;
    HeaderLinesConcat(l.preamble, "# Provides: " + c.daemonId,
                      l.initInfo + ["# Short-Description: " + title] + DescribedLines(c, l));
  }

  lemma DefaultPathIsPath(id: string)
    requires NEWLINE !in id
    ensures IsPath(DefaultPidFilePath(id))
  {
    assert IsOneLine("/var/run/") && IsOneLine(".pid");
    var p := DefaultPidFilePath(id);
    assert p[0] == '/' && p[|p| - 1] == 'd';
  }

  /** The daemon's fallback is the path the controller rendered, when the daemon id is a file name. */
  lemma FallbackAgrees(id: string)
    requires id != "" && '/' !in id
    ensures Base(InitFilePath(id)) == id
    ensures FallbackPidFilePath(Base(InitFilePath(id))) == DefaultPidFilePath(id)
  {
    var p := InitFilePath(id);
    assert p[|p| - 1] == id[|id| - 1];
    assert TrimRight(p, {'/'}) == p;
    assert p == "/etc/init.d" + ['/'] + id;
    SplitAround("/etc/init.d", '/', id);
    SplitWhole(id, '/');
  }

  /** The read limit falls behind `PID_FILE_PATH=` but before the end of the path, and no line is too long to notice. */
  predicate CutInsidePath(c: Config, l: Literals) {
    var kept := READ_LIMIT - |Lines(HeaderLines(c, l))|;
    && AllFit(HeaderLines(c, l))
    && |PID_PREFIX| <= kept < |QuotedPath(DefaultPidFilePath(c.daemonId))|
    && kept < MAX_TOKEN
  }

  lemma LimitedScript(c: Config, l: Literals)
    requires |Lines(HeaderLines(c, l))| <= READ_LIMIT
    ensures Names(ScriptTemplate(l)) <= Values(c).Keys
    ensures var more := l.beforeLog + (LogFilePath(c) + l.afterLog);
            var line := QuotedPath(DefaultPidFilePath(c.daemonId)) + "'\n" + more;
            var kept := READ_LIMIT - |Lines(HeaderLines(c, l))|;
            Limit(Script(c, l), READ_LIMIT) ==
              Lines(HeaderLines(c, l)) + line[..if kept < |line| then kept else |line|]
  {
    ScriptByLines(c, l);
    var more := l.beforeLog + (LogFilePath(c) + l.afterLog);
    assert FromPidLine(c, l) == QuotedPath(DefaultPidFilePath(c.daemonId)) + "'\n" + more;
  }

  /**
   * The daemon opens the very path its controller wrote into the script, found or by
   * default, unless the read limit cuts the script inside that path. An over-long line
   * makes the daemon fall back, and then both still agree.
   */
  lemma PidPathsAgree(c: Config, l: Literals)
    requires IsText(l) && HasOneLineSettings(c)
    requires c.daemonId != "" && '/' !in c.daemonId
    ensures Names(ScriptTemplate(l)) <= Values(c).Keys
    ensures DaemonPidPath(Script(c, l), InitFilePath(c.daemonId)) == DefaultPidFilePath(c.daemonId)
            <==> !CutInsidePath(c, l)
  {
    var header, path := HeaderLines(c, l), DefaultPidFilePath(c.daemonId);
    ScriptByLines(c, l);
    HeaderLinesAreHeaderLines(c, l);
    DefaultPathIsPath(c.daemonId);
    FallbackAgrees(c.daemonId);
    if |Lines(header)| > READ_LIMIT {
      ScanCutHeader(header, READ_LIMIT);
      assert Limit(Script(c, l), READ_LIMIT) == Lines(header)[..READ_LIMIT];
    } else {
      LimitedScript(c, l);
      var more := l.beforeLog + (LogFilePath(c) + l.afterLog);
      var line := QuotedPath(path) + "'\n" + more;
      var kept := if READ_LIMIT - |Lines(header)| < |line| then READ_LIMIT - |Lines(header)| else |line|;
      ScanHeader(header, line[..kept]);
      ScanPidLine(path, more, kept);
    }
  }

  /** When the header fits and the limit comes behind the line, the path is found and not the default. */
  lemma PathIsFound(c: Config, l: Literals)
    requires IsText(l) && HasOneLineSettings(c)
    requires AllFit(HeaderLines(c, l)) && |PidLineFor(DefaultPidFilePath(c.daemonId), "'", "")| < 65536
    requires |Lines(HeaderLines(c, l))| + |PidLineFor(DefaultPidFilePath(c.daemonId), "'", "")| + 1 <= 100000
    ensures Names(ScriptTemplate(l)) <= Values(c).Keys
    ensures ScanForPid(Limit(Script(c, l), READ_LIMIT)) == Success("/var/run/" + c.daemonId + ".pid")
  {
    hide ScanForPid, HeaderLines, Lines;
    var path, more := DefaultPidFilePath(c.daemonId), l.beforeLog + (LogFilePath(c) + l.afterLog);
    ScriptByLines(c, l);
    HeaderLinesAreHeaderLines(c, l);
    DefaultPathIsPath(c.daemonId);
    WholePidLineIsFound(HeaderLines(c, l), path, "'", "", more);
    assert FromPidLine(c, l) == PidLineFor(path, "'", "") + "\n" + more;
  }

  /** The same for the template as it stands, whatever follows the line of the pid path. */
  lemma SystemvPidPathsAgree(c: Config, beforeLog: string, afterLog: string)
    requires DELIM !in beforeLog && DELIM !in afterLog
    requires HasOneLineSettings(c) && c.daemonId != "" && '/' !in c.daemonId
    ensures var l := SystemvLiterals(beforeLog, afterLog);
            && Names(ScriptTemplate(l)) <= Values(c).Keys
            && (DaemonPidPath(Script(c, l), InitFilePath(c.daemonId)) == DefaultPidFilePath(c.daemonId)
                <==> !CutInsidePath(c, l))
  {
    SystemvLiteralsAreText(beforeLog, afterLog);
    PidPathsAgree(c, SystemvLiterals(beforeLog, afterLog));
  }

  // ----- the exception happens -----

  function Filler(n: nat): (s: string)
    ensures |s| == n && NEWLINE !in s
  {
    seq(n, _ => 'x')
  }

  function Padded(description: string, exePath: string): Config {
    Config("d", description, exePath, [], "", false)
  }

  lemma LengthAround(a: seq<string>, line: string, b: seq<string>)
    ensures |Lines(a + [line] + b)| == |Lines(a)| + |line| + 1 + |Lines(b)|
  {
    LinesAround(a, line, b);
  }

  lemma {:induction false} LinesFit(lines: seq<string>)
    requires |Lines(lines)| < MAX_TOKEN
    ensures AllFit(lines)
  {
    if lines != [] {
      LinesFit(lines[1..]);
      AllFitSplits(lines);
    }
  }

  lemma FitAround(a: seq<string>, line: string, b: seq<string>)
    ensures AllFit(a + [line] + b) <==> AllFit(a) && |line| < MAX_TOKEN && AllFit(b)
  {
    var all := a + [line] + b;
    assert all[|a|] == line;
    assert forall i :: 0 <= i < |a| ==> all[i] == a[i];
    assert forall i :: 0 <= i < |b| ==> all[|a| + 1 + i] == b[i];
  }

  /** Length and fit of the header, by the lengths of the description and of the program's path. */
  lemma PaddedHeader(l: Literals, description: string, exePath: string)
    ensures |Lines(HeaderLines(Padded(description, exePath), l))|
         == |Lines(HeaderLines(Padded("", ""), l))| + |description| + |exePath|
    ensures AllFit(HeaderLines(Padded("", ""), l)) && |description| < 60000 && |exePath| < 60000 ==>
              AllFit(HeaderLines(Padded(description, exePath), l))
  {
    PaddedSettings(l, description, exePath);
    PaddedDescribed(l, description, exePath);
    var c, c0 := Padded(description, exePath), Padded("", "");
    var title := "# Short-Description: " + ("d" + " daemon.");
    LengthAround(l.initInfo, title, DescribedLines(c, l));
    LengthAround(l.initInfo, title, DescribedLines(c0, l));
    FitAround(l.initInfo, title, DescribedLines(c, l));
    FitAround(l.initInfo, title, DescribedLines(c0, l));
    LengthAround(l.preamble, "# Provides: " + "d", l.initInfo + [title] + DescribedLines(c, l));
    LengthAround(l.preamble, "# Provides: " + "d", l.initInfo + [title] + DescribedLines(c0, l));
    FitAround(l.preamble, "# Provides: " + "d", l.initInfo + [title] + DescribedLines(c, l));
    FitAround(l.preamble, "# Provides: " + "d", l.initInfo + [title] + DescribedLines(c0, l));
  }

  lemma PaddedSettings(l: Literals, description: string, exePath: string)
    ensures |Lines(SettingLines(Padded(description, exePath), l))| == |Lines(SettingLines(Padded("", ""), l))| + |exePath|
    ensures AllFit(SettingLines(Padded("", ""), l)) && |exePath| < 60000 ==>
              AllFit(SettingLines(Padded(description, exePath), l))
  {
    var rest := ["ARGUMENTS='" + Join([], " ") + "'"] + (["RUN_AS='" + "" + "'"] + l.rootDefault);
    LengthAround([], "PROGRAM_PATH='" + exePath + "'", rest);
    LengthAround([], "PROGRAM_PATH='" + "" + "'", rest);
    FitAround([], "PROGRAM_PATH='" + exePath + "'", rest);
    FitAround([], "PROGRAM_PATH='" + "" + "'", rest);
    assert SettingLines(Padded(description, exePath), l) == [] + ["PROGRAM_PATH='" + exePath + "'"] + rest;
    assert SettingLines(Padded("", ""), l) == [] + ["PROGRAM_PATH='" + "" + "'"] + rest;
  }

  lemma PaddedDescribed(l: Literals, description: string, exePath: string)
    ensures |Lines(DescribedLines(Padded(description, exePath), l))|
         == |Lines(DescribedLines(Padded("", ""), l))| + |description| + |exePath|
    ensures AllFit(DescribedLines(Padded("", ""), l)) && |description| < 60000 && |exePath| < 60000 ==>
              AllFit(DescribedLines(Padded(description, exePath), l))
  {
    PaddedSettings(l, description, exePath);
    var c, c0, name := Padded(description, exePath), Padded("", ""), "PROGRAM_NAME='" + "d" + "'";
    var below, below0 := l.setup + [name] + SettingLines(c, l), l.setup + [name] + SettingLines(c0, l);
    LengthAround(l.setup, name, SettingLines(c, l));
    LengthAround(l.setup, name, SettingLines(c0, l));
    FitAround(l.setup, name, SettingLines(c, l));
    FitAround(l.setup, name, SettingLines(c0, l));
    LengthAround([], "# Description:       " + description, below);
    LengthAround([], "# Description:       " + "", below0);
    FitAround([], "# Description:       " + description, below);
    FitAround([], "# Description:       " + "", below0);
    assert DescribedLines(c, l) == [] + ["# Description:       " + description] + below;
    assert DescribedLines(c0, l) == [] + ["# Description:       " + ""] + below0;
  }

  /**
   * There are such configurations for every literal text of ordinary size: a long
   * description and a long program path push the limit into the pid path.
   */
  lemma PidPathsCanDisagree(l: Literals) returns (c: Config)
    requires IsText(l) && |Lines(HeaderLines(Padded("", ""), l))| <= 30000
    ensures HasOneLineSettings(c) && c.daemonId == "d"
    ensures Names(ScriptTemplate(l)) <= Values(c).Keys
    ensures DaemonPidPath(Script(c, l), InitFilePath(c.daemonId)) != DefaultPidFilePath(c.daemonId)
  {
    var length := READ_LIMIT - |PID_PREFIX| - |Lines(HeaderLines(Padded("", ""), l))|;
    var description, exePath := Filler(45000), Filler(length - 45000);
    c := Padded(description, exePath);
    PaddedHeader(l, description, exePath);
    LinesFit(HeaderLines(Padded("", ""), l));
    assert CutInsidePath(c, l);
    PidPathsAgree(c, l);
  }

  lemma {:induction false} LinesAreShort(lines: seq<string>, longest: nat)
    requires forall i :: 0 <= i < |lines| ==> |lines[i]| <= longest
    ensures |Lines(lines)| <= |lines| * (longest + 1)
  {
    if lines != [] {
      LinesAreShort(lines[1..], longest);
    }
  }

  lemma SystemvLinesAreShort(l: Literals)
    requires l == SystemvLiterals(l.beforeLog, l.afterLog)
    ensures forall i :: 0 <= i < |l.preamble| ==> |l.preamble[i]| <= 100
    ensures forall i :: 0 <= i < |l.initInfo| ==> |l.initInfo[i]| <= 100
    ensures forall i :: 0 <= i < |l.setup| ==> |l.setup[i]| <= 100
    ensures forall i :: 0 <= i < |l.rootDefault| ==> |l.rootDefault[i]| <= 100
    ensures |l.preamble| + |l.initInfo| + |l.setup| + |l.rootDefault| <= 100
  {
  }

  lemma SystemvHeaderIsShort(l: Literals)
    requires l == SystemvLiterals(l.beforeLog, l.afterLog)
    ensures |Lines(HeaderLines(Padded("", ""), l))| <= 30000
  {
    SystemvLinesAreShort(l);
    LinesAreShort(HeaderLines(Padded("", ""), l), 100);
  }

  /** The template as it stands has such a configuration. */
  lemma SystemvPidPathsCanDisagree(beforeLog: string, afterLog: string) returns (c: Config)
    requires DELIM !in beforeLog && DELIM !in afterLog
    ensures HasOneLineSettings(c) && c.daemonId == "d"
    ensures var l := SystemvLiterals(beforeLog, afterLog);
            && Names(ScriptTemplate(l)) <= Values(c).Keys
            && DaemonPidPath(Script(c, l), InitFilePath(c.daemonId)) != DefaultPidFilePath(c.daemonId)
  {
    SystemvLiteralsAreText(beforeLog, afterLog);
    SystemvHeaderIsShort(SystemvLiterals(beforeLog, afterLog));
    c := PidPathsCanDisagree(SystemvLiterals(beforeLog, afterLog));
  }
}
