/** The skill creator's phase control: the pipeline state that records
    completed phases, their outputs and errors, the rule that decides whether
    a phase runs, and the loop that runs the six phases in order. */
module Pipeline {
  import opened Wrappers

  datatype Phase = Extraction | Analysis | Templates | Guardrails | Assets | SkillMd
  {
    function Value(): nat
    {
      match this
      case Extraction => 1
      case Analysis => 2
      case Templates => 3
      case Guardrails => 4
      case Assets => 5
      case SkillMd => 6
    }

    function Name(): string
    {
      match this
      case Extraction => "EXTRACTION"
      case Analysis => "ANALYSIS"
      case Templates => "TEMPLATES"
      case Guardrails => "GUARDRAILS"
      case Assets => "ASSETS"
      case SkillMd => "SKILL_MD"
    }
  }

  /** The phases in the order `run` visits them */
  const AllPhases: seq<Phase> := [Extraction, Analysis, Templates, Guardrails, Assets, SkillMd]

  /** The options of `PipelineConfig` that steer the pipeline; the paths it
      derives from the output directory are left out */
  datatype PipelineConfig = PipelineConfig(
    docSource: string,
    skillName: string,
    outputDir: string,
    toolType: string,
    dryRun: bool,
    resume: bool,
    fromPhase: int,
    skipPhases: seq<int>,
    onlyPhases: seq<int>)

  /** The output directory of the command line: the one given, or the skill
      name when none is given */
  function ResolveOutputDir(skillName: string, outputDir: string): (r: string)
    ensures r == outputDir || r == skillName
    ensures outputDir != "" ==> r == outputDir
    ensures r != "" <==> skillName != "" || outputDir != ""
  {
    if outputDir == "" then skillName else outputDir
  }

  /** An entry of `errors`; the timestamp is the clock reading given */
  datatype ErrorEntry = ErrorEntry(phase: string, phaseNumber: nat, error: string, timestamp: string)

  predicate NoRepeats(s: seq<int>)
  {
    forall i, j :: 0 <= i < j < |s| ==> s[i] != s[j]
  }

  /** The completed phases after marking `v` */
  function Marked(completed: seq<int>, v: int): seq<int>
  {
    if v in completed then completed else completed + [v]
  }

  /** The phase outputs after marking a phase with an output path, recorded
      only when the path is present and not empty */
  function Recorded(outputs: map<string, string>, p: Phase, outputPath: Option<string>): map<string, string>
  {
    if outputPath.Some? && outputPath.value != "" then outputs[p.Name() := outputPath.value] else outputs
  }

  /** Marking keeps the phases distinct, holds exactly the old phases and
      `v`, keeps the old ones in place, and marking again changes nothing. */
  lemma MarkedFacts(completed: seq<int>, v: int)
    ensures NoRepeats(completed) ==> NoRepeats(Marked(completed, v))
    ensures forall x :: x in Marked(completed, v) <==> x in completed || x == v
    ensures completed <= Marked(completed, v)
    ensures Marked(Marked(completed, v), v) == Marked(completed, v)
  {
  }

  /** What of a `PipelineState` the phase loop changes */
  datatype Snapshot = Snapshot(
    completed: seq<int>,
    outputs: map<string, string>,
    errors: seq<ErrorEntry>)

  class PipelineState {
    var completedPhases: seq<int>
    var currentPhase: Option<int>
    var phaseOutputs: map<string, string>
    var errors: seq<ErrorEntry>
    var startedAt: Option<string>
    var completedAt: Option<string>

    /** A fresh state, started at the clock reading given */
    constructor(now: string)
      ensures completedPhases == [] && currentPhase.None? && phaseOutputs == map[] && errors == []
      ensures startedAt == Some(now) && completedAt.None?
    {
      completedPhases := [];
      currentPhase := None;
      phaseOutputs := map[];
      errors := [];
      startedAt := Some(now);
      completedAt := None;
    }

    function Snap(): Snapshot
      reads this
    {
      Snapshot(completedPhases, phaseOutputs, errors)
    }

    /** `mark_phase_complete` */
    method MarkPhaseComplete(phase: Phase, outputPath: Option<string>)
      modifies this
      ensures completedPhases == Marked(old(completedPhases), phase.Value())
      ensures phaseOutputs == Recorded(old(phaseOutputs), phase, outputPath)
      ensures errors == old(errors) && currentPhase == old(currentPhase)
      ensures startedAt == old(startedAt) && completedAt == old(completedAt)
    {
      if phase.Value() !in completedPhases {
        completedPhases := completedPhases + [phase.Value()];
      }
      if outputPath.Some? && outputPath.value != "" {
        phaseOutputs := phaseOutputs[phase.Name() := outputPath.value];
      }
    }

    /** `is_phase_complete` */
    predicate IsPhaseComplete(phase: Phase)
      reads this
    {
      phase.Value() in completedPhases
    }

    /** `record_error`: one entry naming the phase */
    method RecordError(phase: Phase, error: string, now: string)
      modifies this
      ensures errors == old(errors) + [ErrorEntry(phase.Name(), phase.Value(), error, now)]
      ensures completedPhases == old(completedPhases) && phaseOutputs == old(phaseOutputs)
      ensures currentPhase == old(currentPhase)
      ensures startedAt == old(startedAt) && completedAt == old(completedAt)
    {
      errors := errors + [ErrorEntry(phase.Name(), phase.Value(), error, now)];
    }
  }

  /** `should_run_phase`, given the phases the state records as complete */
  predicate ShouldRunPhase(config: PipelineConfig, completed: seq<int>, phase: Phase)
  {
    if phase.Value() in completed then false
    else if config.fromPhase > phase.Value() then false
    else if phase.Value() in config.skipPhases then false
    else if |config.onlyPhases| > 0 && phase.Value() !in config.onlyPhases then false
    else true
  }

  /** The phase is chosen by the configuration: not before the resume point,
      not skipped, and listed when a list of phases is given */
  predicate Chosen(config: PipelineConfig, phase: Phase)
  {
    && config.fromPhase <= phase.Value()
    && phase.Value() !in config.skipPhases
    && (|config.onlyPhases| == 0 || phase.Value() in config.onlyPhases)
  }

  /** A phase runs exactly when the configuration chooses it and it is not
      complete yet. */
  lemma ShouldRunRule(config: PipelineConfig, completed: seq<int>, phase: Phase)
    ensures ShouldRunPhase(config, completed, phase) <==> Chosen(config, phase) && phase.Value() !in completed
  {
  }

  /** What a phase runner did: finished with its output path, returned early
      in a dry run, or failed with an error message. The runners read and
      write files, so their outcome is given. */
  datatype RunnerResult = Done(output: string) | DryRun | Failed(error: string)

  /** The entry `record_error` adds for a failed phase */
  function Entry(p: Phase, error: string, now: string): ErrorEntry
  {
    ErrorEntry(p.Name(), p.Value(), error, now)
  }

  /** The snapshot after a phase that did not fail: marked complete with its
      output when it ran and finished, unchanged otherwise */
  function After(config: PipelineConfig, s: Snapshot, p: Phase, outcome: Phase -> RunnerResult): Snapshot
  {
    if ShouldRunPhase(config, s.completed, p) && outcome(p).Done?
    then Snapshot(Marked(s.completed, p.Value()), Recorded(s.outputs, p, Some(outcome(p).output)), s.errors)
    else s
  }

  /** The phase loop of `run` from a snapshot: whether every phase that ran
      succeeded, and the snapshot after it */
  function Runs(config: PipelineConfig, s: Snapshot, phases: seq<Phase>,
                outcome: Phase -> RunnerResult, now: string): (bool, Snapshot)
    decreases |phases|
  {
    if |phases| == 0 then (true, s)
    else
      var p := phases[0];
      if ShouldRunPhase(config, s.completed, p) && outcome(p).Failed?
      then (false, s.(errors := s.errors + [Entry(p, outcome(p).error, now)]))
      else Runs(config, After(config, s, p, outcome), phases[1..], outcome, now)
  }

  /** The loop never forgets a completed phase, keeps them distinct, and
      ends with one new error when it fails and none when it succeeds. */
  lemma {:induction false} RunsKeeps(config: PipelineConfig, s: Snapshot, phases: seq<Phase>,
                                     outcome: Phase -> RunnerResult, now: string)
    decreases |phases|
    ensures var (ok, t) := Runs(config, s, phases, outcome, now);
      && s.completed <= t.completed
      && (NoRepeats(s.completed) ==> NoRepeats(t.completed))
      && (ok ==> t.errors == s.errors)
      && (!ok ==> |t.errors| == |s.errors| + 1 && t.errors[..|s.errors|] == s.errors)
  {
    if |phases| > 0 {
      var p := phases[0];
      if ShouldRunPhase(config, s.completed, p) && outcome(p).Failed? {
        assert (s.errors + [Entry(p, outcome(p).error, now)])[..|s.errors|] == s.errors;
      } else {
        MarkedFacts(s.completed, p.Value());
        RunsKeeps(config, After(config, s, p, outcome), phases[1..], outcome, now);
      }
    }
  }

  /** A failed run ends with the error of a chosen phase whose runner
      failed; `i` is its position. */
  lemma {:induction false} RunsFailure(config: PipelineConfig, s: Snapshot, phases: seq<Phase>,
                                       outcome: Phase -> RunnerResult, now: string) returns (i: nat)
    decreases |phases|
    ensures var (ok, t) := Runs(config, s, phases, outcome, now);
      !ok ==> && i < |phases| && Chosen(config, phases[i]) && outcome(phases[i]).Failed?
              && |t.errors| > 0 && t.errors[|t.errors| - 1] == Entry(phases[i], outcome(phases[i]).error, now)
  {
    i := 0;
    if |phases| > 0 {
      var p := phases[0];
      if !(ShouldRunPhase(config, s.completed, p) && outcome(p).Failed?) {
        var j := RunsFailure(config, After(config, s, p, outcome), phases[1..], outcome, now);
        i := j + 1;
      }
    }
  }

  /** After a successful run every chosen phase whose runner finished is
      complete, whether it ran now or before. */
  lemma {:induction false} RunsCompletes(config: PipelineConfig, s: Snapshot, phases: seq<Phase>,
                                         outcome: Phase -> RunnerResult, now: string, q: Phase)
    requires q in phases && Chosen(config, q) && outcome(q).Done?
    decreases |phases|
    ensures var (ok, t) := Runs(config, s, phases, outcome, now);
      ok ==> q.Value() in t.completed
  {
    var p := phases[0];
    if !(ShouldRunPhase(config, s.completed, p) && outcome(p).Failed?) {
      var next := After(config, s, p, outcome);
      var (ok, t) := Runs(config, next, phases[1..], outcome, now);
      if q == p {
        RunsKeeps(config, next, phases[1..], outcome, now);
        assert q.Value() in next.completed;
        assert next.completed == t.completed[..|next.completed|];
      } else {
        RunsCompletes(config, next, phases[1..], outcome, now, q);
      }
    }
  }

  /** A dry run changes no state and succeeds. */
  lemma {:induction false} DryRunChangesNothing(config: PipelineConfig, s: Snapshot, phases: seq<Phase>,
                                                outcome: Phase -> RunnerResult, now: string)
    requires forall p :: outcome(p) == DryRun
    decreases |phases|
    ensures Runs(config, s, phases, outcome, now) == (true, s)
  {
    if |phases| > 0 {
      DryRunChangesNothing(config, s, phases[1..], outcome, now);
    }
  }

  /** The skill creator: its configuration and, once `run` has started, its
      state */
  class SkillCreator {
    const config: PipelineConfig
    var state: PipelineState?

    constructor(config: PipelineConfig)
      ensures this.config == config && state == null
    {
      this.config := config;
      state := null;
    }

    /** One runner call: a finished runner marks its phase complete with its
        output, a failed one records its error */
    method RunPhase(phase: Phase, result: RunnerResult, now: string) returns (success: bool)
      requires state != null
      modifies state
      ensures success == !result.Failed?
      ensures result.Done? ==> state.Snap() == Snapshot(Marked(old(state.completedPhases), phase.Value()),
        Recorded(old(state.phaseOutputs), phase, Some(result.output)), old(state.errors))
      ensures result.DryRun? ==> state.Snap() == old(state.Snap())
      ensures result.Failed? ==> state.Snap() == old(state.Snap()).(errors := old(state.errors) + [Entry(phase, result.error, now)])
      ensures state.currentPhase == old(state.currentPhase)
      ensures state.startedAt == old(state.startedAt) && state.completedAt == old(state.completedAt)
    {
      match result
      case Done(path) =>
        state.MarkPhaseComplete(phase, Some(path));
        success := true;
      case DryRun =>
        success := true;
      case Failed(e) =>
        state.RecordError(phase, e, now);
        success := false;
    }

    /** `run`: resume from the loaded state when asked and one exists, else
        start afresh; then each phase in order that should run, stopping at
        the first failure. The current phase is cleared on both exits, and the
        completion time is set only on success. */
    method Run(loaded: PipelineState?, outcome: Phase -> RunnerResult, now: string) returns (ok: bool)
      modifies this, loaded
      ensures state != null
      ensures config.resume && loaded != null ==> state == loaded
      ensures !(config.resume && loaded != null) ==> fresh(state) && state.startedAt == Some(now)
      ensures var start := if config.resume && loaded != null then old(loaded.Snap()) else Snapshot([], map[], []);
        (ok, state.Snap()) == Runs(config, start, AllPhases, outcome, now)
      ensures state.currentPhase.None?
      ensures ok ==> state.completedAt == Some(now)
      ensures !ok && config.resume && loaded != null ==> state.completedAt == old(loaded.completedAt)
      ensures !ok && !(config.resume && loaded != null) ==> state.completedAt.None?
    {
      if config.resume && loaded != null {
        state := loaded;
      } else {
        state := new PipelineState(now);
      }
      ok := RunPhases(outcome, now);
    }

    /** The phase loop of `run` over the chosen state */
    method RunPhases(outcome: Phase -> RunnerResult, now: string) returns (ok: bool)
      requires state != null
      modifies state
      ensures (ok, state.Snap()) == Runs(config, old(state.Snap()), AllPhases, outcome, now)
      ensures state.currentPhase.None?
      ensures state.startedAt == old(state.startedAt)
      ensures state.completedAt == if ok then Some(now) else old(state.completedAt)
    {
      ghost var start := state.Snap();
      var i := 0;
      while i < |AllPhases|
        invariant 0 <= i <= |AllPhases|
        invariant Runs(config, start, AllPhases, outcome, now) == Runs(config, state.Snap(), AllPhases[i..], outcome, now)
        invariant state.startedAt == old(state.startedAt)
        invariant state.completedAt == old(state.completedAt)
      {
        var phase := AllPhases[i];
        assert AllPhases[i..][1..] == AllPhases[i + 1..];
        if !ShouldRunPhase(config, state.completedPhases, phase) {
          i := i + 1;
          continue;
        }
        state.currentPhase := Some(phase.Value());
        var success := RunPhase(phase, outcome(phase), now);
        if !success {
          state.currentPhase := None;
          return false;
        }
        i := i + 1;
      }
      state.currentPhase := None;
      state.completedAt := Some(now);
      return true;
    }
  }
}
