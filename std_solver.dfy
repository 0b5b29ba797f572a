/**
 * The standard solve and restart tasks of the FEBio library: the guards
 * around the model's own Init and Solve, and the choice a restart makes
 * between a binary dump archive and an XML restart file, which it takes
 * from the characters after the last '.' of the path.
 */
module StdSolver {
  import opened Common

  /** The position of the last '.' in s, as strrchr finds it; None when s has no '.'. */
  function LastDot(s: string): (r: Option<nat>)
    ensures r.Some? ==> r.value < |s| && s[r.value] == '.'
    ensures r.Some? ==> forall j :: r.value < j < |s| ==> s[j] != '.'
    ensures r.None? ==> forall j :: 0 <= j < |s| ==> s[j] != '.'
  {
    if |s| == 0 then None
    else if s[|s| - 1] == '.' then Some(|s| - 1)
    else LastDot(s[..|s| - 1])
  }

  /** The extension: the tail of the path from its last '.', or None. */
  function Extension(path: string): (r: Option<string>)
    ensures r.Some? ==> |r.value| >= 1 && r.value[0] == '.' && '.' !in r.value[1..]
    ensures r.None? <==> '.' !in path
  {
    match LastDot(path)
    case None => None
    case Some(k) => Some(path[k..])
  }

  /** A restart path names a binary dump when it has no '.', or when its extension is exactly ".dmp" or ".DMP". */
  predicate IsDumpFile(path: string)
  {
    match Extension(path)
    case None => true
    case Some(ext) => ext == ".dmp" || ext == ".DMP"
  }

  /** Appending characters without a '.' does not move the last '.'. */
  lemma {:induction false} LastDotSkipsDotless(a: string, b: string)
    requires '.' !in b
    ensures LastDot(a + b) == LastDot(a)
    decreases |b|
  {
    if |b| == 0 {
      assert a + b == a;
    } else {
      assert (a + b)[..|a + b| - 1] == a + b[..|b| - 1];
      assert (a + b)[|a + b| - 1] == b[|b| - 1];
      LastDotSkipsDotless(a, b[..|b| - 1]);
    }
  }

  /** A stem followed by ".dmp" or ".DMP" is a dump file, whatever the stem holds. */
  lemma DumpExtensionIsBinary(stem: string)
    ensures IsDumpFile(stem + ".dmp")
    ensures IsDumpFile(stem + ".DMP")
  {
    LastDotSkipsDotless(stem + ".", "dmp");
    assert stem + ".dmp" == (stem + ".") + "dmp";
    assert LastDot(stem + ".") == Some(|stem|);
    assert (stem + ".dmp")[|stem|..] == ".dmp";
    LastDotSkipsDotless(stem + ".", "DMP");
    assert stem + ".DMP" == (stem + ".") + "DMP";
    assert (stem + ".DMP")[|stem|..] == ".DMP";
  }

  /** The comparison is case-sensitive: ".Dmp" goes to the XML restart reader. */
  lemma MixedCaseExtensionIsXml(stem: string)
    ensures !IsDumpFile(stem + ".Dmp")
  {
    LastDotSkipsDotless(stem + ".", "Dmp");
    assert stem + ".Dmp" == (stem + ".") + "Dmp";
    assert LastDot(stem + ".") == Some(|stem|);
    assert (stem + ".Dmp")[|stem|..] == ".Dmp";
  }

  /**
   * The last '.' is looked for over the whole path, so a file without an
   * extension inside a directory with a '.' in its name is read as XML.
   */
  lemma DottedDirectoryMakesXml(dir: string, name: string)
    requires '.' in dir
    requires '.' !in name
    ensures !IsDumpFile(dir + "/" + name)
  {
    LastDotSkipsDotless(dir, "/" + name);
    assert dir + "/" + name == dir + ("/" + name);
    var k := LastDot(dir).value;
    var ext := (dir + "/" + name)[k..];
    assert ext[|dir| - k] == '/';
    assert '/' in ext;
  }

  /** The model a task runs, as far as these guards can tell: none, or one whose Init and Solve give the results shown. */
  datatype ModelRef = NoModel | Model(initOk: bool, solveOk: bool)

  /** The standard task's Init is the model's Init, and false without a model. */
  function StdSolverInit(m: ModelRef): (r: bool)
    ensures r <==> m.Model? && m.initOk
  {
    match m
    case NoModel => false
    case Model(initOk, _) => initOk
  }

  /**
   * The standard task's Run is the model's Solve, and false without a model.
   * The restart task's Run has the same body: after the restart file is read
   * it continues the analysis with the model's Solve, so this one function
   * models both.
   */
  function StdSolverRun(m: ModelRef): (r: bool)
    ensures r <==> m.Model? && m.solveOk
  {
    match m
    case NoModel => false
    case Model(_, solveOk) => solveOk
  }

  /** What the restart does to the log file. */
  datatype LogAction = LogUntouched | LogAppended | NewLogOpened

  /** The outcome of a restart's Init: its result, the log action, and a dump file name the restart file set. */
  datatype RestartInitResult = RestartInitResult(ok: bool, log: LogAction, dumpFile: Option<string>)

  /** The restart's state is restored: from the archive for a dump path, from the XML restart file otherwise. */
  predicate RestartLoads(path: string, archiveOpens: bool, serializeThrows: bool, xmlLoads: bool)
  {
    if IsDumpFile(path) then archiveOpens && !serializeThrows else xmlLoads
  }

  /**
   * A restart's Init. A dump path opens and restores the archive (an
   * exception while restoring fails the Init); any other path is loaded as
   * an XML restart file, whose Load result is xmlLoads and whose redefined
   * dump file name, when not empty, is adopted. Then the log is reopened for
   * appending; if that fails a new log is opened and the Init still fails.
   */
  function RestartInit(path: string, archiveOpens: bool, serializeThrows: bool, xmlLoads: bool,
                       restartDumpName: string, logAppends: bool): (r: RestartInitResult)
    ensures r.ok <==> RestartLoads(path, archiveOpens, serializeThrows, xmlLoads) && logAppends
    ensures r.log == NewLogOpened <==> RestartLoads(path, archiveOpens, serializeThrows, xmlLoads) && !logAppends
    ensures r.log != LogUntouched <==> RestartLoads(path, archiveOpens, serializeThrows, xmlLoads)
    ensures r.dumpFile.Some? <==> !IsDumpFile(path) && xmlLoads && |restartDumpName| > 0
    ensures r.dumpFile.Some? ==> r.dumpFile.value == restartDumpName
  {
    if !RestartLoads(path, archiveOpens, serializeThrows, xmlLoads) then RestartInitResult(false, LogUntouched, None)
    else
      var dump := if !IsDumpFile(path) && |restartDumpName| > 0 then Some(restartDumpName) else None;
      if logAppends then RestartInitResult(true, LogAppended, dump)
      else RestartInitResult(false, NewLogOpened, dump)
  }
}
