/**
 * The init.d script that a System V controller generates: the template, the values that go
 * into it, and the checks made on the result.
 */
module SystemvScript {
  import opened Wrappers
  import opened Text
  import opened Replacer

  /** The fields of `ControllerConfig` that reach the script. */
  datatype Config = Config(
    daemonId: string,
    description: string,
    exePath: string,
    arguments: seq<string>,
    runAs: string,
    useNativeLogger: bool)

  // ----- file paths -----

  function InitFilePath(daemonId: string): string {
    INITD_DIR + daemonId
  }

  /** The path the controller renders. */
  function DefaultPidFilePath(serviceName: string): string {
    "/var/run/" + serviceName + ".pid"
  }

  function Push(resolved: seq<string>, e: string): seq<string> {
    if e == "" || e == "." then resolved
    else if e == ".." then if resolved == [] then [] else resolved[..|resolved| - 1]
    else resolved + [e]
  }

  /** The elements that remain of a rooted path once `.`, `..` and empty elements are resolved. */
  function Resolve(elements: seq<string>, resolved: seq<string>): seq<string> {
    if elements == [] then resolved else Resolve(elements[1..], Push(resolved, elements[0]))
  }

  /** `path.Clean` of a path that starts with a slash. */
  function CleanRooted(p: string): string {
    "/" + Join(Resolve(Split(p, '/'), []), "/")
  }

  /** `path.Join("/var/log", id, id + ".log")`, or nothing without the native logger. */
  function LogFilePath(c: Config): string {
    if !c.useNativeLogger then ""
    else CleanRooted("/var/log" + (if c.daemonId == "" then "" else "/" + c.daemonId) + "/" + (c.daemonId + ".log"))
  }

  // ----- the template -----

  const NAME: string := "NAME"
  const SHORT_DESCRIPTION: string := "SHORT_DESCRIPTION"
  const DESCRIPTION: string := "DESCRIPTION"
  const EXE_PATH: string := "EXE_PATH"
  const ARGUMENTS: string := "ARGUMENTS"
  const RUN_AS: string := "RUN_AS"
  const LOG_FILE_PATH: string := "LOG_FILE_PATH"
  const PID_FILE_PATH: string := "PID_FILE_PATH"

  /** The names in the order in which the controller passes its replacement pairs. */
  const NAMES: seq<string> :=
    [NAME, SHORT_DESCRIPTION, DESCRIPTION, EXE_PATH, ARGUMENTS, RUN_AS, LOG_FILE_PATH, PID_FILE_PATH]

  const PID_PREFIX: string := "PID_FILE_PATH="

  function Values(c: Config): map<string, string> {
    map[NAME := c.daemonId,
        SHORT_DESCRIPTION := c.daemonId + " daemon.",
        DESCRIPTION := c.description,
        EXE_PATH := c.exePath,
        ARGUMENTS := Join(c.arguments, " "),
        RUN_AS := c.runAs,
        LOG_FILE_PATH := LogFilePath(c),
        PID_FILE_PATH := DefaultPidFilePath(c.daemonId)]
  }

  /**
   * The lines of the template that hold no placeholder, in groups between those that do;
   * `beforeLog` and `afterLog` are the text around the last hole.
   */
  datatype Literals = Literals(
    preamble: seq<string>,
    initInfo: seq<string>,
    setup: seq<string>,
    rootDefault: seq<string>,
    beforeLog: string,
    afterLog: string)

  function Lines(lines: seq<string>): string {
    if lines == [] then "" else lines[0] + "\n" + Lines(lines[1..])
  }

  /** A hole and the literal text before it. */
  datatype Gap = Gap(text: string, name: string)

  function Gaps(l: Literals): seq<Gap> {
    [Gap(Lines(l.preamble) + "# Provides: ", NAME),
     Gap("\n" + Lines(l.initInfo) + "# Short-Description: ", SHORT_DESCRIPTION),
     Gap("\n" + "# Description:       ", DESCRIPTION),
     Gap("\n" + Lines(l.setup) + "PROGRAM_NAME='", NAME),
     Gap("'\n" + "PROGRAM_PATH='", EXE_PATH),
     Gap("'\n" + "ARGUMENTS='", ARGUMENTS),
     Gap("'\n" + "RUN_AS='", RUN_AS),
     Gap("'\n" + Lines(l.rootDefault) + PID_PREFIX + "'", PID_FILE_PATH),
     Gap("'\n" + l.beforeLog, LOG_FILE_PATH)]
  }

  function FromGaps(gaps: seq<Gap>, tail: string): Template {
    if gaps == [] then Tail(tail) else Hole(gaps[0].text, gaps[0].name, FromGaps(gaps[1..], tail))
  }

  function ScriptTemplate(l: Literals): Template {
    FromGaps(Gaps(l), l.afterLog)
  }

  /** No delimiter and no line break. */
  predicate IsOneLine(s: string) {
    forall i :: 0 <= i < |s| ==> s[i] != DELIM && s[i] != NEWLINE
  }

  /** A line of plain text that cannot be mistaken for the line of the pid path. */
  predicate IsPlain(line: string) {
    IsOneLine(line) && !HasPrefix(line, PID_PREFIX)
  }

  predicate ArePlain(lines: seq<string>) {
    forall i :: 0 <= i < |lines| ==> IsPlain(lines[i])
  }

  predicate IsText(l: Literals) {
    && ArePlain(l.preamble) && ArePlain(l.initInfo) && ArePlain(l.setup) && ArePlain(l.rootDefault)
    && DELIM !in l.beforeLog && DELIM !in l.afterLog
  }

  const ORIGIN_LINE: string :=
    "# This file is based on '/etc/init.d/sshd' " + "from the OpenSSH project."

  const LICENCE_LINE: string :=
    "# See https://github.com/openssh/" + "openssh-portable/blob/master/LICENCE"

  const PATH_LINE: string :=
    "    export PATH=\"${PATH:+$PATH:}" + "/usr/sbin:/sbin\""

  function Preamble(): seq<string> {
    ["#!/bin/bash",
     "#",
     ORIGIN_LINE,
     LICENCE_LINE,
     "# for details.",
     "",
     "### BEGIN INIT INFO"]
  }

  function InitInfo(): seq<string> {
    ["# Required-Start: $local_fs $syslog",
     "# Required-Stop: $local_fs $syslog",
     "# Should-Start: $syslog",
     "# Should-Stop: $syslog",
     "# Default-Start: 2 3 4 5",
     "# Default-Stop: 0 1 6"]
  }

  function RedHatSetup(): seq<string> {
    ["### END INIT INFO",
     "",
     "IS_REDHAT=\"\"",
     "if [ -f \"/etc/redhat-release\" ]",
     "then",
     "    IS_REDHAT=true",
     "    . /etc/rc.d/init.d/functions",
     "else"]
  }

  function OtherSetup(): seq<string> {
    ["    . /lib/lsb/init-functions",
     PATH_LINE,
     "    if init_is_upstart",
     "    then",
     "        exit 1",
     "    fi",
     "fi",
     ""]
  }

  function RootDefault(): seq<string> {
    ["if [ -z \"${RUN_AS}\" ]",
     "then",
     "\tRUN_AS='root'",
     "fi"]
  }

  /** The literal text of `systemvTemplate` up to the line of the pid path; the rest is left open. */
  function SystemvLiterals(beforeLog: string, afterLog: string): Literals {
    Literals(Preamble(), InitInfo(), RedHatSetup() + OtherSetup(), RootDefault(), beforeLog, afterLog)
  }

  /** Enough for a line to be plain, and easy to see. */
  predicate LooksPlain(line: string) {
    IsOneLine(line) && (line == "" || line[0] != 'P')
  }

  lemma LooksPlainIsPlain(lines: seq<string>)
    requires forall i :: 0 <= i < |lines| ==> LooksPlain(lines[i])
    ensures ArePlain(lines)
  {
    assert PID_PREFIX[0] == 'P';
  }

  lemma PlainConcat(a: string, b: string)
    requires LooksPlain(a) && IsOneLine(b) && a != ""
    ensures LooksPlain(a + b)
  {
  }

  lemma OriginLineIsPlain()
    ensures LooksPlain(ORIGIN_LINE)
  {
    PlainConcat("# This file is based on '/etc/init.d/sshd' ", "from the OpenSSH project.");
  }

  lemma LicenceLineIsPlain()
    ensures LooksPlain(LICENCE_LINE)
  {
    PlainConcat("# See https://github.com/openssh/", "openssh-portable/blob/master/LICENCE");
  }

  lemma PathLineIsPlain()
    ensures LooksPlain(PATH_LINE)
  {
    PlainConcat("    export PATH=\"${PATH:+$PATH:}", "/usr/sbin:/sbin\"");
  }

  lemma PreambleIsPlain()
    ensures ArePlain(Preamble())
  {
    var l := Preamble();
    OriginLineIsPlain();
    LicenceLineIsPlain();
    assert LooksPlain(l[0]) && LooksPlain(l[1]) && LooksPlain(l[4]) && LooksPlain(l[5]);
    assert LooksPlain(l[6]);
    LooksPlainIsPlain(l);
  }

  lemma RequiredLinesLookPlain()
    ensures LooksPlain(InitInfo()[0]) && LooksPlain(InitInfo()[1])
  {
  }

  lemma InitInfoIsPlain()
    ensures ArePlain(InitInfo())
  {
    var l := InitInfo();
    RequiredLinesLookPlain();
    assert LooksPlain(l[2]) && LooksPlain(l[3]);
    assert LooksPlain(l[4]) && LooksPlain(l[5]);
    LooksPlainIsPlain(l);
  }

  lemma FunctionLinesLookPlain()
    ensures LooksPlain(RedHatSetup()[3]) && LooksPlain(RedHatSetup()[6])
  {
  }

  lemma RedHatSetupIsPlain()
    ensures ArePlain(RedHatSetup())
  {
    var l := RedHatSetup();
    assert LooksPlain(l[0]) && LooksPlain(l[1]) && LooksPlain(l[2]);
    FunctionLinesLookPlain();
    assert LooksPlain(l[4]) && LooksPlain(l[5]) && LooksPlain(l[7]);
    LooksPlainIsPlain(l);
  }

  lemma OtherSetupIsPlain()
    ensures ArePlain(OtherSetup())
  {
    var l := OtherSetup();
    PathLineIsPlain();
    assert LooksPlain(l[0]);
    assert LooksPlain(l[2]) && LooksPlain(l[3]) && LooksPlain(l[4]);
    assert LooksPlain(l[5]) && LooksPlain(l[6]) && LooksPlain(l[7]);
    LooksPlainIsPlain(l);
  }

  lemma RootDefaultIsPlain()
    ensures ArePlain(RootDefault())
  {
    var l := RootDefault();
    assert LooksPlain(l[0]);
    assert LooksPlain(l[1]) && LooksPlain(l[2]) && LooksPlain(l[3]);
    LooksPlainIsPlain(l);
  }

  lemma ArePlainConcat(a: seq<string>, b: seq<string>)
    requires ArePlain(a) && ArePlain(b)
    ensures ArePlain(a + b)
  {
  }

  /** The literal text of the template is what the results below ask of one. */
  lemma SystemvLiteralsAreText(beforeLog: string, afterLog: string)
    requires DELIM !in beforeLog && DELIM !in afterLog
    ensures IsText(SystemvLiterals(beforeLog, afterLog))
  {
    PreambleIsPlain();
    InitInfoIsPlain();
    RedHatSetupIsPlain();
    OtherSetupIsPlain();
    ArePlainConcat(RedHatSetup(), OtherSetup());
    RootDefaultIsPlain();
  }

  // ----- rendering the script -----

  lemma ValuesAre(c: Config)
    ensures var v := Values(c);
            && v.Keys == {NAME, SHORT_DESCRIPTION, DESCRIPTION, EXE_PATH, ARGUMENTS, RUN_AS, LOG_FILE_PATH, PID_FILE_PATH}
            && v[NAME] == c.daemonId && v[SHORT_DESCRIPTION] == c.daemonId + " daemon."
            && v[DESCRIPTION] == c.description && v[EXE_PATH] == c.exePath
            && v[ARGUMENTS] == Join(c.arguments, " ") && v[RUN_AS] == c.runAs
            && v[LOG_FILE_PATH] == LogFilePath(c) && v[PID_FILE_PATH] == DefaultPidFilePath(c.daemonId)
  {
    assert |NAME| == 4 && |RUN_AS| == 6 && |EXE_PATH| == 8 && |ARGUMENTS| == 9 && |DESCRIPTION| == 11;
    assert |LOG_FILE_PATH| == 13 && |PID_FILE_PATH| == 13 && |SHORT_DESCRIPTION| == 17;
    assert LOG_FILE_PATH[0] != PID_FILE_PATH[0];
  }

  lemma {:induction false} LinesHoldNoDelimiter(lines: seq<string>)
    requires ArePlain(lines)
    ensures DELIM !in Lines(lines)
  {
    if lines != [] {
      assert IsPlain(lines[0]);
      LinesHoldNoDelimiter(lines[1..]);
    }
  }

  lemma NamesAreClean()
    ensures forall n :: n in NAMES ==> DELIM !in n && NEWLINE !in n
  {
    assert IsOneLine(NAME) && IsOneLine(RUN_AS) && IsOneLine(EXE_PATH) && IsOneLine(ARGUMENTS);
    assert IsOneLine(DESCRIPTION) && IsOneLine(LOG_FILE_PATH) && IsOneLine(PID_FILE_PATH);
    assert IsOneLine(SHORT_DESCRIPTION);
  }

  lemma {:induction false} FromGapsIsClean(gaps: seq<Gap>, tail: string)
    requires DELIM !in tail
    requires forall i :: 0 <= i < |gaps| ==> DELIM !in gaps[i].text && DELIM !in gaps[i].name
    ensures Clean(FromGaps(gaps, tail))
  {
    if gaps != [] {
      FromGapsIsClean(gaps[1..], tail);
    }
  }

  lemma {:induction false} FromGapsIsSeparated(gaps: seq<Gap>, tail: string)
    requires forall i :: 0 < i < |gaps| ==> NEWLINE in gaps[i].text
    ensures Separated(FromGaps(gaps, tail))
  {
    if gaps != [] {
      FromGapsIsSeparated(gaps[1..], tail);
    }
  }

  lemma {:induction false} NamesOfGaps(gaps: seq<Gap>, tail: string)
    ensures Names(FromGaps(gaps, tail)) == set i | 0 <= i < |gaps| :: gaps[i].name
  {
    if gaps != [] {
      NamesOfGaps(gaps[1..], tail);
      assert forall i :: 0 < i < |gaps| ==> gaps[i] == gaps[1..][i - 1];
    }
  }

  lemma CleanAround(front: string, lines: seq<string>, back: string)
    requires DELIM !in front && DELIM !in back && ArePlain(lines)
    ensures DELIM !in front + Lines(lines) + back
  {
    LinesHoldNoDelimiter(lines);
  }

  lemma HeaderGapsAreClean(l: Literals)
    requires IsText(l)
    ensures DELIM !in Gaps(l)[0].text && DELIM !in Gaps(l)[1].text
  {
    CleanAround("", l.preamble, "# Provides: ");
    assert "" + Lines(l.preamble) == Lines(l.preamble);
    CleanAround("\n", l.initInfo, "# Short-Description: ");
  }

  lemma SetupGapsAreClean(l: Literals)
    requires IsText(l)
    ensures DELIM !in Gaps(l)[3].text && DELIM !in Gaps(l)[7].text && DELIM !in Gaps(l)[8].text
  {
    CleanAround("\n", l.setup, "PROGRAM_NAME='");
    CleanAround("'\n", l.rootDefault, PID_PREFIX);
  }

  lemma FixedGapsAreClean(l: Literals)
    ensures DELIM !in Gaps(l)[2].text && DELIM !in Gaps(l)[4].text
    ensures DELIM !in Gaps(l)[5].text && DELIM !in Gaps(l)[6].text
  {
    hide Lines;
    assert IsOneLine("# Description:       ");
    ShortGapsAreClean();
  }

  lemma ShortGapsAreClean()
    ensures DELIM !in "'\n" + "PROGRAM_PATH='" && DELIM !in "'\n" + "ARGUMENTS='" && DELIM !in "'\n" + "RUN_AS='"
  {
  }

  lemma GapTextsAreClean(gaps: seq<Gap>)
    requires |gaps| == 9
    requires DELIM !in gaps[0].text && DELIM !in gaps[1].text && DELIM !in gaps[2].text
    requires DELIM !in gaps[3].text && DELIM !in gaps[4].text && DELIM !in gaps[5].text
    requires DELIM !in gaps[6].text && DELIM !in gaps[7].text && DELIM !in gaps[8].text
    ensures forall i :: 0 <= i < 9 ==> DELIM !in gaps[i].text
  {
  }

  lemma GapNamesAreClean(l: Literals)
    ensures forall i :: 0 <= i < 9 ==> Gaps(l)[i].name in NAMES && DELIM !in Gaps(l)[i].name
  {
    NamesAreClean();
    forall i | 0 <= i < 9 ensures Gaps(l)[i].name in NAMES {
      var places := [0, 1, 2, 0, 3, 4, 5, 7, 6];
      assert NAMES[places[i]] == Gaps(l)[i].name;
    }
  }

  /** The template is one that the results of `Replacer` apply to. */
  lemma TemplateIsClean(l: Literals)
    requires IsText(l)
    ensures Clean(ScriptTemplate(l))
  {
    HeaderGapsAreClean(l);
    SetupGapsAreClean(l);
    FixedGapsAreClean(l);
    GapTextsAreClean(Gaps(l));
    GapNamesAreClean(l);
    FromGapsIsClean(Gaps(l), l.afterLog);
  }

  lemma TemplateIsSeparated(l: Literals)
    ensures Separated(ScriptTemplate(l))
  {
    var gaps := Gaps(l);
    assert forall i :: i in {1, 2, 3} ==> gaps[i].text[0] == NEWLINE;
    assert forall i :: i in {4, 5, 6, 7, 8} ==> gaps[i].text[1] == NEWLINE;
    FromGapsIsSeparated(gaps, l.afterLog);
  }

  lemma TemplateNames(l: Literals)
    ensures forall n :: n in Names(ScriptTemplate(l)) <==> n in NAMES
  {
    var gaps := Gaps(l);
    NamesOfGaps(gaps, l.afterLog);
    forall n ensures n in Names(ScriptTemplate(l)) <==> n in NAMES {
      if n in NAMES {
        var order := [0, 1, 2, 4, 5, 6, 8, 7];
        var k :| 0 <= k < |NAMES| && NAMES[k] == n;
        assert gaps[order[k]].name == n;
      }
    }
  }

  // ----- the controller -----

  datatype ControllerError = NoExePath | LeftoverPlaceholder | NoEnableTool

  datatype Controller = Controller(initContents: string, initFilePath: string, daemonId: string, enableTool: string)

  /** A delimiter in any of the settings that reach the script. */
  ghost predicate HoldsDelimiter(c: Config) {
    || DELIM in c.daemonId || DELIM in c.description || DELIM in c.exePath || DELIM in c.runAs
    || exists i :: 0 <= i < |c.arguments| && DELIM in c.arguments[i]
  }

  lemma {:induction false} JoinHolds(pieces: seq<string>, sep: string, c: char)
    requires c !in sep
    ensures c in Join(pieces, sep) <==> exists i :: 0 <= i < |pieces| && c in pieces[i]
  {
    if |pieces| > 1 {
      var rest := Join(pieces[1..], sep);
      JoinHolds(pieces[1..], sep, c);
      assert c in Join(pieces, sep) <==> c in pieces[0] || c in rest;
      if c in rest {
        var i :| 0 <= i < |pieces[1..]| && c in pieces[1..][i];
        assert c in pieces[i + 1];
      }
      forall i | 0 < i < |pieces| && c in pieces[i] ensures c in rest {
        assert c in pieces[1..][i - 1];
      }
    }
  }

  lemma {:induction false} SplitHoldsNothingNew(s: string, sep: char, c: char)
    requires c !in s
    ensures forall i :: 0 <= i < |Split(s, sep)| ==> c !in Split(s, sep)[i]
    decreases |s|
  {
    var i := FirstIndex(s, sep);
    if i < |s| {
      SplitHoldsNothingNew(s[i + 1..], sep, c);
    }
  }

  predicate NoneHolds(pieces: seq<string>, c: char) {
    forall i :: 0 <= i < |pieces| ==> c !in pieces[i]
  }

  lemma {:induction false} ResolveAddsNothing(elements: seq<string>, resolved: seq<string>, c: char)
    requires NoneHolds(elements, c) && NoneHolds(resolved, c)
    ensures NoneHolds(Resolve(elements, resolved), c)
  {
    if elements != [] {
      assert NoneHolds(Push(resolved, elements[0]), c);
      ResolveAddsNothing(elements[1..], Push(resolved, elements[0]), c);
    }
  }

  /** Cleaning a path can drop a delimiter but not bring one in. */
  lemma CleanAddsNoDelimiter(p: string)
    requires DELIM !in p
    ensures DELIM !in CleanRooted(p)
  {
    SplitHoldsNothingNew(p, '/', DELIM);
    ResolveAddsNothing(Split(p, '/'), [], DELIM);
    var elements := Resolve(Split(p, '/'), []);
    JoinHolds(elements, "/", DELIM);
    assert NoneHolds(elements, DELIM);
    assert DELIM !in Join(elements, "/");
  }

  lemma DerivedPathsHoldNoOther(c: Config)
    requires DELIM !in c.daemonId
    ensures DELIM !in LogFilePath(c)
    ensures DELIM !in DefaultPidFilePath(c.daemonId)
    ensures DELIM !in c.daemonId + " daemon."
  {
    assert IsOneLine("/var/run/") && IsOneLine(".pid") && IsOneLine(" daemon.") && IsOneLine(".log") && IsOneLine("/var/log");
    if c.useNativeLogger {
      CleanAddsNoDelimiter("/var/log" + (if c.daemonId == "" then "" else "/" + c.daemonId) + "/" + (c.daemonId + ".log"));
    }
  }

  lemma ValuesHoldDelimiter(c: Config)
    ensures (exists n :: n in NAMES && n in Values(c) && DELIM in Values(c)[n]) <==> HoldsDelimiter(c)
  {
    ValuesAre(c);
    JoinHolds(c.arguments, " ", DELIM);
    if DELIM !in c.daemonId {
      DerivedPathsHoldNoOther(c);
    }
    assert NAMES[0] == NAME && NAMES[2] == DESCRIPTION && NAMES[3] == EXE_PATH;
    assert NAMES[4] == ARGUMENTS && NAMES[5] == RUN_AS;
  }

  /** The script for a configuration, as rendering defines it. */
  function Script(c: Config, l: Literals): string
    requires forall n :: n in Names(ScriptTemplate(l)) ==> n in Values(c)
  {
    Render(ScriptTemplate(l), Values(c))
  }

  lemma NamesHaveValues(c: Config, l: Literals)
    ensures forall n :: n in NAMES ==> n in Values(c)
    ensures forall n :: n in Names(ScriptTemplate(l)) ==> n in NAMES
    ensures Names(ScriptTemplate(l)) <= Values(c).Keys
  {
    ValuesAre(c);
    TemplateNames(l);
  }

  lemma ScriptLeftover(c: Config, l: Literals)
    requires IsText(l)
    requires forall n :: n in Names(ScriptTemplate(l)) ==> n in Values(c)
    ensures DELIM in Script(c, l) <==> HoldsDelimiter(c)
  {
    TemplateIsClean(l);
    TemplateNames(l);
    LeftoverDelimiter(ScriptTemplate(l), Values(c));
    ValuesHoldDelimiter(c);
  }

  /**
   * `newSystemvController`. `tool` is the outcome of the search for `update-rc.d` or
   * `chkconfig`. The check for leftover placeholders refuses exactly the configurations with
   * a delimiter in a setting, and what passes is the template with every hole filled.
   */
  method NewSystemvController(c: Config, l: Literals, tool: Option<string>)
    returns (r: Result<Controller, ControllerError>)
    requires IsText(l)
    ensures forall n :: n in Names(ScriptTemplate(l)) ==> n in Values(c)
    ensures r.Success? <==> c.exePath != "" && !HoldsDelimiter(c) && tool.Some?
    ensures r == Failure(NoExePath) <==> c.exePath == ""
    ensures r == Failure(LeftoverPlaceholder) <==> c.exePath != "" && HoldsDelimiter(c)
    ensures r.Success? ==>
              r.value == Controller(Script(c, l), "/etc/init.d/" + c.daemonId, c.daemonId, tool.value)
  {
    NamesHaveValues(c, l);
    NamesAreClean();
    TemplateIsClean(l);
    if c.exePath == "" {
      return Failure(NoExePath);
    }
    var script := Replace(PairsFor(NAMES, Values(c)), Flatten(ScriptTemplate(l)));
    SinglePassRenders(NAMES, Values(c), ScriptTemplate(l));
    ScriptLeftover(c, l);
    if DELIM in script {
      return Failure(LeftoverPlaceholder);
    }
    if tool.None? {
      return Failure(NoEnableTool);
    }
    return Success(Controller(script, InitFilePath(c.daemonId), c.daemonId, tool.value));
  }

  /**
   * For every configuration, the replacer renders the script hole by hole, in whatever order
   * it is given the pairs; and where the leftover check passes, replacing the placeholders
   * one at a time in any order would give the same script.
   */
  lemma ScriptIsRendered(c: Config, l: Literals, order: seq<string>)
    requires IsText(l) && multiset(order) == multiset(NAMES)
    ensures forall n :: n in Names(ScriptTemplate(l)) ==> n in Values(c)
    ensures forall n :: n in order ==> n in Values(c)
    ensures Replaced(PairsFor(order, Values(c)), Flatten(ScriptTemplate(l))) == Script(c, l)
    ensures !HoldsDelimiter(c) ==>
              ReplacedOneByOne(order, Values(c), Flatten(ScriptTemplate(l))) == Script(c, l)
  {
    NamesHaveValues(c, l);
    NamesAreClean();
    TemplateIsClean(l);
    TemplateIsSeparated(l);
    SinglePassRenders(NAMES, Values(c), ScriptTemplate(l));
    PairOrderIsIrrelevant(NAMES, order, Values(c), ScriptTemplate(l));
    if !HoldsDelimiter(c) {
      ValuesHoldDelimiter(c);
      OnePassIsManyPasses(NAMES, order, Values(c), ScriptTemplate(l));
    }
  }
}
