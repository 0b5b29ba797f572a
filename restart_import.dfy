/**
 * The XML restart file. Its Control section re-parameterises the time
 * stepping of the current analysis step; its root element carries a format
 * version and must start with the name of the binary archive to restore.
 * XML tags are abstracted as trees of (name, value) records; the numeric
 * readings of a value are carried alongside its text.
 */
module RestartImport {
  import opened Common
  import opened FECoreEnum

  /** One XML element: its name, its value text, that text read as an integer and as a real, and its child elements. */
  datatype Tag = Tag(name: string, text: string, intValue: int, realValue: real, children: seq<Tag>)

  /** The two reader errors a Control section can throw, with the name of the tag that caused it. */
  datatype ParseError = InvalidTag(tag: string) | InvalidValue(tag: string)

  /** The fields of an analysis step that the Control section can set. */
  datatype StepValues = StepValues(
    ntime: int, finalTime: real, dt0: real, autostep: bool,
    maxRetries: int, iterOpt: int, dtMin: real, plotLevel: PlotLevel)

  /** The step values reached, and the error that stopped the parse, if any. */
  type Outcome = (StepValues, Option<ParseError>)

  /** The plot-level names accepted in a plot_level tag. */
  function PlotLevelName(l: PlotLevel): (r: string)
    ensures |r| > 5 && r[..5] == "PLOT_"
  {
    match l
    case PlotNever => "PLOT_NEVER"
    case PlotMajorIters => "PLOT_MAJOR_ITRS"
    case PlotMinorIters => "PLOT_MINOR_ITRS"
    case PlotMustPoints => "PLOT_MUST_POINTS"
    case PlotFinal => "PLOT_FINAL"
    case PlotStepFinal => "PLOT_STEP_FINAL"
    case PlotAugmentations => "PLOT_AUGMENTATIONS"
  }

  /** The plot level named exactly by s; no other string names one. */
  function PlotLevelOf(s: string): (r: Option<PlotLevel>)
    ensures r.Some? ==> PlotLevelName(r.value) == s
    ensures r.None? ==> forall l :: PlotLevelName(l) != s
  {
    if s == "PLOT_NEVER" then Some(PlotNever)
    else if s == "PLOT_MAJOR_ITRS" then Some(PlotMajorIters)
    else if s == "PLOT_MINOR_ITRS" then Some(PlotMinorIters)
    else if s == "PLOT_MUST_POINTS" then Some(PlotMustPoints)
    else if s == "PLOT_FINAL" then Some(PlotFinal)
    else if s == "PLOT_STEP_FINAL" then Some(PlotStepFinal)
    else if s == "PLOT_AUGMENTATIONS" then Some(PlotAugmentations)
    else None
  }

  /** The table is a bijection between the seven levels and their seven names. */
  lemma PlotLevelNamesRoundTrip(l: PlotLevel, m: PlotLevel)
    ensures PlotLevelOf(PlotLevelName(l)) == Some(l)
    ensures PlotLevelName(l) == PlotLevelName(m) ==> l == m
  {
    assert PlotLevelOf(PlotLevelName(m)) == Some(m);
  }

  const ControlTagNames: set<string> := {"time_steps", "final_time", "step_size", "time_stepper", "plot_level"}
  const StepperTagNames: set<string> := {"max_retries", "opt_iter", "dtmin"}

  /** a and b agree on every field outside the time stepper. */
  predicate SameStepFields(a: StepValues, b: StepValues)
  {
    a.ntime == b.ntime && a.finalTime == b.finalTime && a.dt0 == b.dt0
    && a.autostep == b.autostep && a.plotLevel == b.plotLevel
  }

  /** a and b agree on the time-stepper switch and its three parameters. */
  predicate SameStepperFields(a: StepValues, b: StepValues)
  {
    a.autostep == b.autostep && a.maxRetries == b.maxRetries
    && a.iterOpt == b.iterOpt && a.dtMin == b.dtMin
  }

  /**
   * Applies tags in order with apply, stopping at the first error; the
   * step values reached before the error are kept.
   */
  function RunTags(apply: (StepValues, Tag) -> Outcome, v: StepValues, tags: seq<Tag>): Outcome
    decreases |tags|
  {
    if |tags| == 0 then (v, None)
    else
      var prev := RunTags(apply, v, tags[..|tags| - 1]);
      if prev.1.Some? then prev else apply(prev.0, tags[|tags| - 1])
  }

  /**
   * A section body is read with a do/while loop: its first entry is handled
   * even when the section is empty, and then it is the section's own end
   * tag, which no branch accepts.
   */
  function RunSection(apply: (StepValues, Tag) -> Outcome, v: StepValues, section: string, tags: seq<Tag>): Outcome
  {
    if |tags| == 0 then (v, Some(InvalidTag(section))) else RunTags(apply, v, tags)
  }

  /** Once an error has stopped a run, later tags change nothing. */
  lemma {:induction false} ErrorSticks(apply: (StepValues, Tag) -> Outcome, v: StepValues, tags: seq<Tag>, k: nat)
    requires k <= |tags|
    requires RunTags(apply, v, tags[..k]).1.Some?
    ensures RunTags(apply, v, tags) == RunTags(apply, v, tags[..k])
    decreases |tags| - k
  {
    if k < |tags| {
      assert tags[..|tags| - 1][..k] == tags[..k];
      ErrorSticks(apply, v, tags[..|tags| - 1], k);
    } else {
      assert tags[..k] == tags;
    }
  }

  /** One child of time_stepper: it fills one of the three stepper parameters or is an invalid tag. */
  function ApplyStepperTag(v: StepValues, t: Tag): (r: Outcome)
    ensures SameStepFields(v, r.0)
    ensures r.1.Some? <==> t.name !in StepperTagNames
    ensures r.1.Some? ==> r == (v, Some(InvalidTag(t.name)))
  {
    if t.name == "max_retries" then (v.(maxRetries := t.intValue), None)
    else if t.name == "opt_iter" then (v.(iterOpt := t.intValue), None)
    else if t.name == "dtmin" then (v.(dtMin := t.realValue), None)
    else (v, Some(InvalidTag(t.name)))
  }

  /** Reading time_stepper children never touches the step count, times, switch or plot level. */
  lemma {:induction false} StepperKeepsStepFields(v: StepValues, tags: seq<Tag>)
    ensures SameStepFields(v, RunTags(ApplyStepperTag, v, tags).0)
    decreases |tags|
  {
    if |tags| > 0 {
      StepperKeepsStepFields(v, tags[..|tags| - 1]);
    }
  }

  /** One child of Control. */
  function ApplyControlTag(v: StepValues, t: Tag): (r: Outcome)
    ensures t.name !in ControlTagNames ==> r == (v, Some(InvalidTag(t.name)))
    ensures t.name == "plot_level" ==> (r.1.Some? <==> PlotLevelOf(t.text).None?)
    ensures t.name == "plot_level" && r.1.Some? ==> r == (v, Some(InvalidValue(t.name)))
    ensures t.name == "plot_level" && r.1.None? ==> PlotLevelName(r.0.plotLevel) == t.text
    ensures t.name == "time_stepper" ==> r.0.autostep && SameStepFields(v.(autostep := true), r.0)
    ensures t.name != "time_stepper" ==> SameStepperFields(v, r.0)
  {
    if t.name == "time_steps" then (v.(ntime := t.intValue), None)
    else if t.name == "final_time" then (v.(finalTime := t.realValue), None)
    else if t.name == "step_size" then (v.(dt0 := t.realValue), None)
    else if t.name == "time_stepper" then
      StepperKeepsStepFields(v.(autostep := true), t.children);
      RunSection(ApplyStepperTag, v.(autostep := true), t.name, t.children)
    else if t.name == "plot_level" then
      match PlotLevelOf(t.text)
      case Some(l) => (v.(plotLevel := l), None)
      case None => (v, Some(InvalidValue(t.name)))
    else (v, Some(InvalidTag(t.name)))
  }

  /** A Control section that parses without error names only known tags. */
  lemma {:induction false} ParsedControlHasKnownTags(v: StepValues, tags: seq<Tag>)
    requires RunTags(ApplyControlTag, v, tags).1.None?
    ensures forall i :: 0 <= i < |tags| ==> tags[i].name in ControlTagNames
    decreases |tags|
  {
    if |tags| > 0 {
      var prev := RunTags(ApplyControlTag, v, tags[..|tags| - 1]);
      assert prev.1.None?;
      ParsedControlHasKnownTags(v, tags[..|tags| - 1]);
      forall i | 0 <= i < |tags|
        ensures tags[i].name in ControlTagNames
      {
        if i < |tags| - 1 {
          assert tags[i] == tags[..|tags| - 1][i];
        }
      }
    }
  }

  /** The automatic time stepper is switched on only by a time_stepper tag. */
  lemma {:induction false} AutostepNeedsStepperTag(v: StepValues, tags: seq<Tag>)
    requires !v.autostep
    requires forall i :: 0 <= i < |tags| ==> tags[i].name != "time_stepper"
    ensures SameStepperFields(v, RunTags(ApplyControlTag, v, tags).0)
    decreases |tags|
  {
    if |tags| > 0 {
      AutostepNeedsStepperTag(v, tags[..|tags| - 1]);
    }
  }

  /** The analysis step whose fields the Control section overwrites. */
  class AnalysisStep {
    var ntime: int
    var finalTime: real
    var dt0: real
    var autostep: bool
    var maxRetries: int
    var iterOpt: int
    var dtMin: real
    var plotLevel: PlotLevel
    var tstart: real
    var tend: real

    function Values(): (r: StepValues)
      reads this
      ensures r.ntime == ntime && r.dt0 == dt0 && r.plotLevel == plotLevel && r.autostep == autostep
    {
      StepValues(ntime, finalTime, dt0, autostep, maxRetries, iterOpt, dtMin, plotLevel)
    }
  }

  /** The model's time information. */
  class ModelTime {
    var timeIncrement: real
  }

  /** Reads the children of a time_stepper tag (the switch itself is set by the caller). */
  method ParseTimeStepper(step: AnalysisStep, section: string, tags: seq<Tag>) returns (err: Option<ParseError>)
    modifies step
    ensures (step.Values(), err) == RunSection(ApplyStepperTag, old(step.Values()), section, tags)
    ensures step.tstart == old(step.tstart) && step.tend == old(step.tend)
  {
    ghost var v0 := step.Values();
    if |tags| == 0 {
      return Some(InvalidTag(section));
    }
    var k := 0;
    while k < |tags|
      invariant 0 <= k <= |tags|
      invariant RunTags(ApplyStepperTag, v0, tags[..k]) == (step.Values(), None)
      invariant step.tstart == old(step.tstart) && step.tend == old(step.tend)
    {
      var t := tags[k];
      assert tags[..k + 1][..k] == tags[..k];
      if t.name == "max_retries" {
        step.maxRetries := t.intValue;
      } else if t.name == "opt_iter" {
        step.iterOpt := t.intValue;
      } else if t.name == "dtmin" {
        step.dtMin := t.realValue;
      } else {
        err := Some(InvalidTag(t.name));
        ErrorSticks(ApplyStepperTag, v0, tags, k + 1);
        return;
      }
      k := k + 1;
    }
    assert tags[..k] == tags;
    err := None;
  }

  /** Handles one child of Control. */
  method ParseControlTag(step: AnalysisStep, t: Tag) returns (err: Option<ParseError>)
    modifies step
    ensures (step.Values(), err) == ApplyControlTag(old(step.Values()), t)
    ensures step.tstart == old(step.tstart) && step.tend == old(step.tend)
  {
    err := None;
    if t.name == "time_steps" {
      step.ntime := t.intValue;
    } else if t.name == "final_time" {
      step.finalTime := t.realValue;
    } else if t.name == "step_size" {
      step.dt0 := t.realValue;
    } else if t.name == "time_stepper" {
      step.autostep := true;
      err := ParseTimeStepper(step, t.name, t.children);
    } else if t.name == "plot_level" {
      var level := PlotLevelOf(t.text);
      match level
      case Some(l) =>
        step.plotLevel := l;
      case None =>
        err := Some(InvalidValue(t.name));
    } else {
      err := Some(InvalidTag(t.name));
    }
  }

  /**
   * Reads the Control section into the current step. On success the time
   * increment is reset to the step size and the start and end times both
   * become ntime * dt0; after an error those stay as they were, while the
   * fields already read keep their new values.
   */
  method ParseControl(step: AnalysisStep, time: ModelTime, section: string, tags: seq<Tag>) returns (err: Option<ParseError>)
    modifies step, time
    ensures (step.Values(), err) == RunSection(ApplyControlTag, old(step.Values()), section, tags)
    ensures err.None? ==> time.timeIncrement == step.dt0
    ensures err.None? ==> step.tstart == step.tend == (step.ntime as real) * step.dt0
    ensures err.Some? ==> time.timeIncrement == old(time.timeIncrement)
    ensures err.Some? ==> step.tstart == old(step.tstart) && step.tend == old(step.tend)
  {
    ghost var v0 := step.Values();
    if |tags| == 0 {
      return Some(InvalidTag(section));
    }
    var k := 0;
    while k < |tags|
      invariant 0 <= k <= |tags|
      invariant RunTags(ApplyControlTag, v0, tags[..k]) == (step.Values(), None)
      invariant step.tstart == old(step.tstart) && step.tend == old(step.tend)
      invariant time.timeIncrement == old(time.timeIncrement)
    {
      assert tags[..k + 1][..k] == tags[..k];
      err := ParseControlTag(step, tags[k]);
      if err.Some? {
        ErrorSticks(ApplyControlTag, v0, tags, k + 1);
        return;
      }
      k := k + 1;
    }
    assert tags[..k] == tags;
    err := None;
    time.timeIncrement := step.dt0;
    step.tstart := (step.ntime as real) * step.dt0;
    step.tend := step.tstart;
  }

  /** The restart format version named by the root's attribute: 1, 2, or -1 for anything else. */
  function VersionNumber(s: string): (r: int)
    ensures r == 1 <==> s == "1.0"
    ensures r == 2 <==> s == "2.0"
    ensures r == -1 <==> s != "1.0" && s != "2.0"
  {
    if s == "1.0" then 1 else if s == "2.0" then 2 else -1
  }

  /** What looking for the febio_restart root gives: the root's version attribute and children, no root, or a reader error. */
  datatype RootLookup = RootFound(version: string, children: seq<Tag>) | RootMissing | RootLookupThrows

  /** What reading the rest of the file gives: a result, or an exception. */
  datatype ParseFileOutcome = ParseReturned(ok: bool) | ParseThrew

  /** Where Load leaves off. */
  datatype LoadExit =
    | OpenFailed | NoRestartRoot | BadVersion | ArchiveNotFirst | ArchiveOpenFailed
    | Caught | Finished(ok: bool)

  /** The first child after the root is the Archive element. */
  predicate ArchiveFirst(children: seq<Tag>)
  {
    |children| > 0 && children[0].name == "Archive"
  }

  /**
   * The path Load takes, given the outcomes of the foreign steps: opening
   * the XML file, finding the root, opening the archive, restoring it, and
   * reading the remaining sections.
   */
  function LoadPath(fileOpens: bool, root: RootLookup, archiveOpens: bool, serializeThrows: bool, parse: ParseFileOutcome): (r: LoadExit)
    ensures r == OpenFailed <==> !fileOpens
    ensures r == Finished(true) ==> fileOpens && root.RootFound? && VersionNumber(root.version) in {1, 2}
                                    && ArchiveFirst(root.children) && archiveOpens && !serializeThrows
                                    && parse == ParseReturned(true)
    ensures fileOpens && root.RootFound? && VersionNumber(root.version) == -1 ==> r == BadVersion
    ensures fileOpens && root.RootFound? && VersionNumber(root.version) != -1 && !ArchiveFirst(root.children) ==> r == ArchiveNotFirst
    ensures fileOpens && (root.RootLookupThrows? || serializeThrows || parse.ParseThrew?) ==> r.Caught? || r in {NoRestartRoot, BadVersion, ArchiveNotFirst, ArchiveOpenFailed}
  {
    if !fileOpens then OpenFailed
    else match root
      case RootLookupThrows => Caught
      case RootMissing => NoRestartRoot
      case RootFound(version, children) =>
        if VersionNumber(version) == -1 then BadVersion
        else if !ArchiveFirst(children) then ArchiveNotFirst
        else if !archiveOpens then ArchiveOpenFailed
        else if serializeThrows then Caught
        else match parse
          case ParseThrew => Caught
          case ParseReturned(ok) => Finished(ok)
  }

  /** Only a caught exception or a finished parse reaches the closing of the XML file; the explicit error returns leave it open. */
  predicate ClosesFile(e: LoadExit)
  {
    e.Caught? || e.Finished?
  }

  /** The section handlers Load registers. */
  datatype SectionKind = ControlSection | LoadDataSection(redefineCurves: bool) | StepSection

  /** The restart importer: its XML file state and its section map. */
  class RestartImporter {
    var xmlOpen: bool
    var sections: map<string, SectionKind>
    var fileVersion: int

    constructor ()
      ensures !xmlOpen && sections == map[]
    {
      xmlOpen := false;
      sections := map[];
      fileVersion := 0;
    }

    /**
     * Loads a restart file. Control and LoadData (with curve redefinition)
     * are registered once the file is open, Step only for version 2; the
     * result is true only when the rest of the file parses.
     */
    method Load(fileOpens: bool, root: RootLookup, archiveOpens: bool, serializeThrows: bool, parse: ParseFileOutcome) returns (ret: bool)
      requires !xmlOpen
      modifies this
      ensures ret <==> LoadPath(fileOpens, root, archiveOpens, serializeThrows, parse) == Finished(true)
      ensures xmlOpen <==> fileOpens && !ClosesFile(LoadPath(fileOpens, root, archiveOpens, serializeThrows, parse))
      ensures !fileOpens ==> sections == old(sections)
      ensures fileOpens ==> sections.Keys == old(sections.Keys) + {"Control", "LoadData"}
                                            + (if root.RootFound? && VersionNumber(root.version) == 2 then {"Step"} else {})
      ensures fileOpens ==> sections["Control"] == ControlSection && sections["LoadData"] == LoadDataSection(true)
      ensures fileOpens ==> fileVersion == 0x0205
    {
      if !fileOpens {
        return false;
      }
      xmlOpen := true;
      sections := sections["Control" := ControlSection];
      sections := sections["LoadData" := LoadDataSection(true)];
      fileVersion := 0x0205;
      ret := true;
      match root {
      case RootLookupThrows =>
        ret := false;
      case RootMissing =>
        return false;
      case RootFound(version, children) =>
        var nversion := VersionNumber(version);
        if nversion == -1 {
          return false;
        }
        if nversion == 2 {
          sections := sections["Step" := StepSection];
        }
        if !ArchiveFirst(children) {
          return false;
        }
        if !archiveOpens {
          return false;
        }
        if serializeThrows {
          ret := false;
        } else {
          match parse
          case ParseThrew =>
            ret := false;
          case ParseReturned(ok) =>
            ret := ok;
        }
      }
      xmlOpen := false;
    }
  }
}
