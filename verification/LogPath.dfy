/**
 * The log file path that a System V controller renders: what `path.Clean` makes of it, and
 * where it ends up in the script.
 */
module LogPath {
  import opened Text
  import opened Replacer
  import opened SystemvScript
  import opened PidPath

  /** An element of a path that names something below. */
  predicate IsPlainElement(e: string) {
    e != "" && e != "." && e != ".." && '/' !in e
  }

  predicate ArePlainElements(elements: seq<string>) {
    forall i :: 0 <= i < |elements| ==> IsPlainElement(elements[i])
  }

  /** A rooted path without empty, `.` or `..` elements. */
  ghost predicate IsClean(p: string) {
    p == "/" || exists elements :: elements != [] && ArePlainElements(elements) && p == "/" + Join(elements, "/")
  }

  // ----- what cleaning does -----

  lemma {:induction false} ResolveConcat(a: seq<string>, b: seq<string>, resolved: seq<string>)
    ensures Resolve(a + b, resolved) == Resolve(b, Resolve(a, resolved))
  {
    if a == [] {
      assert a + b == b;
    } else {
      assert (a + b)[0] == a[0] && (a + b)[1..] == a[1..] + b;
      ResolveConcat(a[1..], b, Push(resolved, a[0]));
    }
  }

  lemma {:induction false} ResolvePlain(elements: seq<string>, resolved: seq<string>)
    requires ArePlainElements(elements)
    ensures Resolve(elements, resolved) == resolved + elements
  {
    if elements == [] {
      assert resolved + elements == resolved;
    } else {
      assert IsPlainElement(elements[0]);
      assert Push(resolved, elements[0]) == resolved + [elements[0]];
      ResolvePlain(elements[1..], resolved + [elements[0]]);
      assert resolved + [elements[0]] + elements[1..] == resolved + elements;
    }
  }

  lemma {:induction false} ResolveLeavesPlain(elements: seq<string>, resolved: seq<string>)
    requires ArePlainElements(resolved) && forall i :: 0 <= i < |elements| ==> '/' !in elements[i]
    ensures ArePlainElements(Resolve(elements, resolved))
  {
    if elements != [] {
      var next := Push(resolved, elements[0]);
      assert forall i :: 0 <= i < |next| ==> (i < |resolved| && next[i] == resolved[i]) || next[i] == elements[0];
      ResolveLeavesPlain(elements[1..], next);
    }
  }

  /** Whatever the path, nothing empty, no `.` and no `..` is left of it. */
  lemma CleanIsClean(p: string)
    ensures IsClean(CleanRooted(p))
  {
    SplitLeavesNoSeparator(p, '/');
    ResolveLeavesPlain(Split(p, '/'), []);
    var elements := Resolve(Split(p, '/'), []);
    if elements == [] {
      assert CleanRooted(p) == "/";
    }
  }

  /** A path that is clean stays as it is. */
  lemma CleanKeepsClean(p: string)
    requires IsClean(p)
    ensures CleanRooted(p) == p
  {
    if p == "/" {
      SplitFirst("", '/', "");
      assert "" + ['/'] + "" == p;
      SplitWhole("", '/');
      assert Resolve(["", ""], []) == [];
    } else {
      var elements :| elements != [] && ArePlainElements(elements) && p == "/" + Join(elements, "/");
      SplitOfClean(elements);
      ResolveOfClean(elements);
    }
  }

  lemma SplitOfClean(elements: seq<string>)
    requires elements != [] && ArePlainElements(elements)
    ensures Split("/" + Join(elements, "/"), '/') == [""] + elements
  {
    assert forall i :: 0 <= i < |elements| ==> IsPlainElement(elements[i]);
    SplitOfJoin(elements, '/');
    SplitFirst("", '/', Join(elements, "/"));
    assert "" + ['/'] + Join(elements, "/") == "/" + Join(elements, "/");
  }

  lemma ResolveOfClean(elements: seq<string>)
    requires ArePlainElements(elements)
    ensures Resolve([""] + elements, []) == elements
  {
    ResolvePlain(elements, []);
    assert ([""] + elements)[1..] == elements;
    assert [] + elements == elements;
  }

  /** An element `e` between two parts of a path, as the resolution sees it. */
  lemma CleanSplits(a: string, e: string, b: string)
    requires '/' !in e
    ensures CleanRooted(a + "/" + e + "/" + b) ==
            "/" + Join(Resolve(Split(b, '/'), Push(Resolve(Split(a, '/'), []), e)), "/")
  {
    SplitAroundElement(a, e, b);
    ResolveAroundElement(Split(a, '/'), e, Split(b, '/'));
  }

  lemma SplitAroundElement(a: string, e: string, b: string)
    requires '/' !in e
    ensures Split(a + "/" + e + "/" + b, '/') == Split(a, '/') + ([e] + Split(b, '/'))
  {
    hide Split;
    assert a + "/" + e + "/" + b == a + ['/'] + (e + ['/'] + b);
    SplitAround(a, '/', e + ['/'] + b);
    SplitFirst(e, '/', b);
  }

  lemma ResolveAroundElement(a: seq<string>, e: string, b: seq<string>)
    ensures Resolve(a + ([e] + b), []) == Resolve(b, Push(Resolve(a, []), e))
  {
    ResolveConcat(a, [e] + b, []);
    assert ([e] + b)[1..] == b;
  }

  lemma CleanSplitsInTwo(a: string, b: string)
    ensures CleanRooted(a + "/" + b) == "/" + Join(Resolve(Split(b, '/'), Resolve(Split(a, '/'), [])), "/")
  {
    SplitAround(a, '/', b);
    assert a + "/" + b == a + ['/'] + b;
    ResolveConcat(Split(a, '/'), Split(b, '/'), []);
  }

  /** Going down and up again, staying, and a doubled slash lead nowhere; nor does going up at the root. */
  lemma CleanLaws(a: string, e: string, b: string)
    requires IsPlainElement(e)
    ensures CleanRooted(a + "/" + e + "/" + ".." + "/" + b) == CleanRooted(a + "/" + b)
    ensures CleanRooted(a + "/" + "." + "/" + b) == CleanRooted(a + "/" + b)
    ensures CleanRooted(a + "/" + "" + "/" + b) == CleanRooted(a + "/" + b)
    ensures CleanRooted("" + "/" + ".." + "/" + b) == CleanRooted("" + "/" + b)
  {
    CleanSplitsInTwo(a, b);
    CleanSplits(a, ".", b);
    CleanSplits(a, "", b);
    UpUndoesDown(a, e, b);
    CleanSplitsInTwo("", b);
    CleanSplits("", "..", b);
    SplitWhole("", '/');
    assert Resolve([""], []) == [];
  }

  lemma UpUndoesDown(a: string, e: string, b: string)
    requires IsPlainElement(e)
    ensures CleanRooted(a + "/" + e + "/" + ".." + "/" + b) == CleanRooted(a + "/" + b)
  {
    hide CleanRooted;
    CleanSplitsInTwo(a, b);
    CleanSplits(a + "/" + e, "..", b);
    SplitAround(a, '/', e);
    SplitWhole(e, '/');
    assert a + "/" + e == a + ['/'] + e;
    ResolveConcat(Split(a, '/'), [e], []);
    var above := Resolve(Split(a, '/'), []);
    assert Resolve([e], above) == Push(above, e) == above + [e];
    assert Push(above + [e], "..") == above;
  }

  // ----- the log path -----

  /** For a daemon id that is a file name, the log is in a directory of its own. */
  lemma LogPathOfFileName(c: Config)
    requires c.useNativeLogger && IsPlainElement(c.daemonId)
    ensures LogFilePath(c) == "/var/log/" + c.daemonId + "/" + c.daemonId + ".log"
  {
    hide CleanRooted, Join, LogFilePath;
    var id := c.daemonId;
    var elements := ["var", "log", id, id + ".log"];
    assert IsPlainElement("var") && IsPlainElement("log") && IsPlainElement(id + ".log");
    JoinFour("var", "log", id, id + ".log");
    var p := "/var/log/" + id + "/" + id + ".log";
    LogPathOfFour(id);
    assert ArePlainElements(elements) && p == "/" + Join(elements, "/");
    CleanKeepsClean(p);
    LogPathForEveryId(c);
  }

  lemma LogPathOfFour(id: string)
    ensures "/" + ("var" + "/" + ("log" + "/" + (id + "/" + (id + ".log")))) == "/var/log/" + id + "/" + id + ".log"
  {
  }

  lemma JoinFour(a: string, b: string, c: string, d: string)
    ensures Join([a, b, c, d], "/") == a + "/" + (b + "/" + (c + "/" + d))
  {
    assert [a, b, c, d][1..] == [b, c, d] && [b, c, d][1..] == [c, d] && [c, d][1..] == [d];
    assert Join([d], "/") == d;
    assert Join([c, d], "/") == c + "/" + d == c + ("/" + d);
    assert Join([b, c, d], "/") == b + "/" + Join([c, d], "/") == b + "/" + (c + "/" + d);
    assert Join([a, b, c, d], "/") == a + "/" + Join([b, c, d], "/");
  }

  /** For every other id too the path is clean. */
  lemma LogPathIsClean(c: Config)
    ensures if c.useNativeLogger then IsClean(LogFilePath(c)) else LogFilePath(c) == ""
  {
    if c.useNativeLogger {
      CleanIsClean("/var/log" + (if c.daemonId == "" then "" else "/" + c.daemonId) + "/" + (c.daemonId + ".log"));
    }
  }

  /** The id's two elements behind `/var/log`, cleaned; an empty id leaves one of them out. */
  lemma LogPathForEveryId(c: Config)
    requires c.useNativeLogger
    ensures LogFilePath(c) == CleanRooted("/var/log/" + c.daemonId + "/" + c.daemonId + ".log")
  {
    var id := c.daemonId;
    if id == "" {
      CleanLaws("/var/log", "log", ".log");
      assert "/var/log" + "/" + "" + "/" + ".log" == "/var/log/" + id + "/" + id + ".log";
      assert "/var/log" + "" + "/" + (id + ".log") == "/var/log" + "/" + ".log";
    } else {
      assert "/var/log" + ("/" + id) + "/" + (id + ".log") == "/var/log/" + id + "/" + id + ".log";
    }
  }

  /** The script from the line of the pid path on, with `log` for the log path. */
  function FromPidPath(id: string, log: string, l: Literals): string {
    "PID_FILE_PATH='/var/run/" + id + ".pid'\n" + (l.beforeLog + (log + l.afterLog))
  }

  /**
   * What ends up in the script: no log path without the native logger, and with it the one
   * below `/var/log` if the daemon id is a file name, and a clean one for every other id.
   */
  lemma LogPathIsRendered(c: Config, l: Literals)
    ensures Names(ScriptTemplate(l)) <= Values(c).Keys && LOG_FILE_PATH in Values(c)
    ensures var log := Values(c)[LOG_FILE_PATH];
            && Script(c, l) == Lines(HeaderLines(c, l)) + FromPidPath(c.daemonId, log, l)
            && (!c.useNativeLogger ==> log == "")
            && (c.useNativeLogger && IsPlainElement(c.daemonId) ==>
                  log == "/var/log/" + c.daemonId + "/" + c.daemonId + ".log")
            && (c.useNativeLogger ==>
                  IsClean(log) && log == CleanRooted("/var/log/" + c.daemonId + "/" + c.daemonId + ".log"))
  {
    hide HeaderLines, Lines, Script, LogFilePath, IsClean, CleanRooted;
    ScriptByLines(c, l);
    ValuesAre(c);
    FromPidLineIs(c, l);
    LogPathIsClean(c);
    if c.useNativeLogger {
      LogPathForEveryId(c);
    }
    if c.useNativeLogger && IsPlainElement(c.daemonId) {
      LogPathOfFileName(c);
    }
  }

  lemma FromPidLineIs(c: Config, l: Literals)
    ensures FromPidLine(c, l) == FromPidPath(c.daemonId, LogFilePath(c), l)
  {
    hide LogFilePath;
    var id := c.daemonId;
    assert "PID_FILE_PATH='/var/run/" == PID_PREFIX + "'" + "/var/run/";
    assert PID_PREFIX + "'" + ("/var/run/" + id + ".pid") + "'\n" == "PID_FILE_PATH='/var/run/" + id + ".pid'\n";
  }
}
