/**
 * The execution driver of create-idea (src/interactive.ts): the setup
 * short-circuit, the missing-configuration error, the target directory, the
 * walk over the preset's steps and each step's questions, the git question
 * handler, and the error boundary (`err`) and cancellation (`abort`).
 *
 * The collaborators the driver calls (directory creation, git, the confirm
 * prompt, the section renderer) are recorded as effects in a trace; the
 * prompt's answers and gitInit's failures come from an oracle, `World`.
 */
module Interactive {
  import opened Wrappers
  import opened Config

  datatype Answer = Yes | No | Cancel

  /** The k-th prompt's answer, and whether the k-th gitInit call throws (with its message). */
  datatype World = World(answer: nat -> Answer, gitInitError: nat -> Option<string>)

  /** The parsed command line: `--setup`, `--preset <name>` and the positional directory. */
  datatype Args = Args(setup: bool, preset: Option<string>, directory: Option<string>)

  datatype Effect =
    | Warning(message: string)        // a console warning
    | Creating(projectName: string)   // "Creating new <label> project..."
    | CreateDir(path: string)         // createDir(path)
    | OpenSection(title: string)      // a section header
    | CloseSection                    // the closing rule printed by `end`
    | GitFromConfig(useGit: bool)     // the note that always.git decided
    | PromptGit                       // the git confirm prompt
    | GitInit(path: string)           // gitInit(path)

  /** How a run ends: normally, through `err` (exit 1), through `abort` (exit 1), or by an exception nothing catches (exit 1). */
  datatype Outcome =
    | Done
    | Failed(message: string)
    | Aborted
    | Uncaught(message: string)

  function ExitCode(o: Outcome): (code: int)
    ensures code == 0 <==> o == Done
    ensures code == 0 || code == 1
  {
    if o == Done then 0 else 1
  }

  const NoConfigMessage := "No configuration file found. Run with --setup to create one."
  const NotImplementedMessage := "Not implemented yet."
  /** What reading the name of a step the catalog lacks throws. */
  const UndefinedStepMessage := "Cannot read properties of undefined (reading 'name')"
  /** What calling a question identifier outside the registry throws. */
  const UnknownQuestionMessage := "questions[q] is not a function"

  /** The environment every question handler receives. */
  datatype Env = Env(preset: Preset, directory: string, cfg: Config)

  /** Everything a run can change: the section flag, the trace, the oracle positions and the files. */
  datatype State = State(inSection: bool, trace: seq<Effect>, prompts: nat, gitInits: nat, files: Files)

  /** A state reached so far, and the outcome if the run has stopped. */
  datatype Exec = Exec(st: State, halt: Option<Outcome>)

  /** What a partial run may change: it only appends to the trace and never touches the files. */
  ghost predicate Extends(a: State, b: State)
  {
    a.trace <= b.trace && a.files == b.files && a.prompts <= b.prompts && a.gitInits <= b.gitInits
  }

  /** The effects appended between two states. */
  function Delta(a: State, b: State): seq<Effect>
    requires a.trace <= b.trace
  {
    b.trace[|a.trace|..]
  }

  // ---------------------------------------------------------------------------
  // Sections

  /** `end()`: close the open section, if any. */
  function EndEffect(st: State): State
  {
    st.(inSection := false, trace := st.trace + if st.inSection then [CloseSection] else [])
  }

  /** `section(title)`: close the open section, if any, and open a new one. */
  function SectionEffect(st: State, title: string): State
  {
    var closed := EndEffect(st);
    closed.(inSection := true, trace := closed.trace + [OpenSection(title)])
  }

  // ---------------------------------------------------------------------------
  // The git question

  /** `always.git` when it is a boolean. */
  function ForcedGit(cfg: Config): Option<bool>
  {
    if cfg.always.Some? then cfg.always.value.git else None
  }

  /** On a yes, gitInit in the target directory inside the error boundary: its failure ends the run with its message. */
  function UseGit(useGit: bool, directory: string, st: State, w: World): (r: Exec)
    ensures r.st == st.(trace := r.st.trace, gitInits := r.st.gitInits)
    ensures r.st.trace == st.trace + if useGit then [GitInit(directory)] else []
    ensures r.st.gitInits == st.gitInits + if useGit then 1 else 0
    ensures r.halt == if useGit && w.gitInitError(st.gitInits).Some? then Some(Failed(w.gitInitError(st.gitInits).value)) else None
  {
    if !useGit then Exec(st, None)
    else
      var next := st.(trace := st.trace + [GitInit(directory)], gitInits := st.gitInits + 1);
      match w.gitInitError(st.gitInits)
      case None => Exec(next, None)
      case Some(message) => Exec(next, Some(Failed(message)))
  }

  /** `questions.git(env)`. */
  function GitHandler(env: Env, st: State, w: World): (r: Exec)
    ensures r.halt != Some(Done)
    ensures Extends(st, r.st) && r.st.inSection == st.inSection
    ensures ForcedGit(env.cfg).Some? ==>
      var useGit := ForcedGit(env.cfg).value;
      PromptGit !in Delta(st, r.st) && r.st.prompts == st.prompts &&
      r.halt != Some(Aborted) &&
      (GitInit(env.directory) in Delta(st, r.st) <==> useGit)
    ensures ForcedGit(env.cfg).None? ==>
      r.st.prompts == st.prompts + 1 && |Delta(st, r.st)| > 0 && Delta(st, r.st)[0] == PromptGit &&
      (w.answer(st.prompts) == Cancel ==> r.halt == Some(Aborted) && Delta(st, r.st) == [PromptGit]) &&
      (w.answer(st.prompts) == No ==> r.halt == None && Delta(st, r.st) == [PromptGit]) &&
      (w.answer(st.prompts) == Yes ==> Delta(st, r.st) == [PromptGit, GitInit(env.directory)])
    ensures GitInit(env.directory) in Delta(st, r.st) ==>
      r.st.gitInits == st.gitInits + 1 &&
      Delta(st, r.st)[|Delta(st, r.st)| - 1] == GitInit(env.directory) &&
      (r.halt.None? <==> w.gitInitError(st.gitInits).None?) &&
      (r.halt.Some? ==> r.halt == Some(Failed(w.gitInitError(st.gitInits).value)))
    ensures GitInit(env.directory) !in Delta(st, r.st) ==> r.st.gitInits == st.gitInits
    ensures r.halt.Some? ==> r.halt == Some(Aborted) || GitInit(env.directory) in Delta(st, r.st)
  {
    match ForcedGit(env.cfg)
    case Some(useGit) =>
      var noted := st.(trace := st.trace + [GitFromConfig(useGit)]);
      var r := UseGit(useGit, env.directory, noted, w);
      assert Delta(st, r.st) == [GitFromConfig(useGit)] + Delta(noted, r.st);
      r
    case None =>
      var asked := st.(trace := st.trace + [PromptGit], prompts := st.prompts + 1);
      match w.answer(st.prompts)
      case Cancel => Exec(asked, Some(Aborted))
      case Yes =>
        var r := UseGit(true, env.directory, asked, w);
        assert Delta(st, r.st) == [PromptGit, GitInit(env.directory)];
        r
      case No => UseGit(false, env.directory, asked, w)
  }

  // ---------------------------------------------------------------------------
  // The walk

  /** One question: "git" goes to its handler; an inline question fails through `err`. */
  function DispatchQuestion(q: Question, env: Env, st: State, w: World): (r: Exec)
    ensures r.halt != Some(Done)
    ensures Extends(st, r.st) && r.st.inSection == st.inSection
    ensures q.Inline? ==> r == Exec(st, Some(Failed(NotImplementedMessage)))
    ensures q.Named? && q.name != "git" ==> r == Exec(st, Some(Uncaught(UnknownQuestionMessage)))
    ensures q == Named("git") ==> r == GitHandler(env, st, w)
  {
    match q
    case Named(name) =>
      if name == "git" then GitHandler(env, st, w)
      else Exec(st, Some(Uncaught(UnknownQuestionMessage)))
    case Inline(_, _) => Exec(st, Some(Failed(NotImplementedMessage)))
  }

  /** The questions of one step, in declared order, stopping at the first that ends the run. */
  function WalkQuestions(qs: seq<Question>, env: Env, st: State, w: World): (r: Exec)
    ensures r.halt != Some(Done)
    ensures Extends(st, r.st) && r.st.inSection == st.inSection
    decreases |qs|
  {
    if qs == [] then Exec(st, None)
    else
      var r1 := DispatchQuestion(qs[0], env, st, w);
      if r1.halt.Some? then r1 else WalkQuestions(qs[1..], env, r1.st, w)
  }

  /** A step reference resolved against the configuration's catalog; None when the name is missing. */
  function ResolveStep(cfg: Config, s: Step): (r: Option<CustomStep>)
    ensures s.InlineStep? ==> r == Some(s.step)
    ensures s.Symbolic? ==> (r.Some? <==> s.ref in cfg.steps) && (r.Some? ==> r.value == cfg.steps[s.ref])
  {
    match s
    case Symbolic(name) => if name in cfg.steps then Some(cfg.steps[name]) else None
    case InlineStep(step) => Some(step)
  }

  /**
   * The step plan: every step reference resolved, in declared order; None when
   * some symbolic name is missing from the catalog.
   */
  function ExpandPlan(cfg: Config, steps: seq<Step>): (r: Option<seq<CustomStep>>)
    ensures r.Some? <==> forall i :: 0 <= i < |steps| ==> ResolveStep(cfg, steps[i]).Some?
    ensures r.Some? ==> |r.value| == |steps|
    ensures r.Some? ==> forall i :: 0 <= i < |steps| ==> r.value[i] == ResolveStep(cfg, steps[i]).value
    decreases |steps|
  {
    if steps == [] then Some([])
    else
      match ResolveStep(cfg, steps[0])
      case None => None
      case Some(step) =>
        match ExpandPlan(cfg, steps[1..])
        case None => None
        case Some(rest) => Some([step] + rest)
  }

  /** The display names of a plan. */
  function Names(plan: seq<CustomStep>): (r: seq<string>)
    ensures |r| == |plan| && forall i :: 0 <= i < |plan| ==> r[i] == plan[i].name
  {
    seq(|plan|, i requires 0 <= i < |plan| => plan[i].name)
  }

  /** One step: resolve it, open its section, run its questions. */
  function WalkStep(s: Step, env: Env, st: State, w: World): (r: Exec)
    ensures r.halt != Some(Done)
    ensures Extends(st, r.st)
    ensures ResolveStep(env.cfg, s).None? ==> r == Exec(st, Some(Uncaught(UndefinedStepMessage)))
    ensures ResolveStep(env.cfg, s).Some? ==>
      var step := ResolveStep(env.cfg, s).value;
      r == WalkQuestions(step.questions, env, SectionEffect(st, step.name), w)
  {
    match ResolveStep(env.cfg, s)
    case None => Exec(st, Some(Uncaught(UndefinedStepMessage)))
    case Some(step) => WalkQuestions(step.questions, env, SectionEffect(st, step.name), w)
  }

  /** The preset's steps, in declared order, stopping at the first that ends the run. */
  function WalkPlan(steps: seq<Step>, env: Env, st: State, w: World): (r: Exec)
    ensures r.halt != Some(Done)
    ensures Extends(st, r.st)
    decreases |steps|
  {
    if steps == [] then Exec(st, None)
    else
      var r1 := WalkStep(steps[0], env, st, w);
      if r1.halt.Some? then r1 else WalkPlan(steps[1..], env, r1.st, w)
  }

  /** The target directory: the positional argument, or "." when none is given. */
  function TargetDir(arg: Option<string>): string
  {
    if arg.Some? then arg.value else "."
  }

  /** The name announced for the project: the preset's display name, else the preset option, else "default". */
  function Label(preset: Preset, name: Option<string>): string
  {
    if preset.displayName.Some? then preset.displayName.value
    else if name.Some? then name.value
    else "default"
  }

  /** `createInteractive()`, with the configuration directory `dir`. */
  function Scaffold(args: Args, dir: string, st: State, w: World): (r: Exec)
    ensures r.halt.Some? && st.trace <= r.st.trace
    ensures args.setup ==>
      r.halt == Some(Done) && r.st.files == WithDefaultConfig(st.files, dir) &&
      r.st.inSection == st.inSection &&
      Delta(st, r.st) == if ExistsConfig(st.files, dir) then [Warning(AlreadyExistsWarning)] else []
    ensures !args.setup ==> r.st.files == st.files
    ensures !args.setup && !ExistsConfig(st.files, dir) ==> r == Exec(st, Some(Failed(NoConfigMessage)))
    ensures !args.setup && r.halt == Some(Done) ==> !r.st.inSection
    ensures !args.setup && ExistsConfig(st.files, dir) && GetConfig(st.files, dir).Err? ==>
      r == Exec(st, Some(Uncaught(ErrorMessage(GetConfig(st.files, dir).error))))
    ensures (!args.setup && ExistsConfig(st.files, dir) && GetConfig(st.files, dir).Ok? &&
             LoadPreset(GetConfig(st.files, dir).value, st.files, dir, args.preset).Err?) ==>
      r == Exec(st, Some(Uncaught(ErrorMessage(LoadPreset(GetConfig(st.files, dir).value, st.files, dir, args.preset).error))))
  {
    if args.setup then
      var warned := ExistsConfig(st.files, dir);
      Exec(st.(files := WithDefaultConfig(st.files, dir),
               trace := st.trace + if warned then [Warning(AlreadyExistsWarning)] else []),
           Some(Done))
    else if !ExistsConfig(st.files, dir) then
      Exec(st, Some(Failed(NoConfigMessage)))
    else
      var directory := TargetDir(args.directory);
      match GetConfig(st.files, dir)
      case Err(e) => Exec(st, Some(Uncaught(ErrorMessage(e))))
      case Ok(cfg) =>
        match LoadPreset(cfg, st.files, dir, args.preset)
        case Err(e) => Exec(st, Some(Uncaught(ErrorMessage(e))))
        case Ok(preset) =>
          var started := st.(trace := st.trace + [Creating(Label(preset, args.preset)), CreateDir(directory)]);
          var r := WalkPlan(preset.steps, Env(preset, directory, cfg), started, w);
          if r.halt.Some? then r else Exec(EndEffect(r.st), Some(Done))
  }

  // ---------------------------------------------------------------------------
  // The driver

  /** One invocation of the command: the module's section flag, the trace of effects, the oracle positions and the config store. */
  class Cli {
    const store: ConfigStore
    var inSection: bool
    var trace: seq<Effect>
    var prompts: nat
    var gitInits: nat

    constructor (store: ConfigStore)
      ensures this.store == store
      ensures !inSection && trace == [] && prompts == 0 && gitInits == 0
    {
      this.store := store;
      inSection := false;
      trace := [];
      prompts := 0;
      gitInits := 0;
    }

    ghost function Snapshot(): State
      reads this, store
    {
      State(inSection, trace, prompts, gitInits, store.files)
    }

    /** `end()`. */
    method End()
      modifies this
      ensures !inSection
      ensures trace == old(trace) + if old(inSection) then [CloseSection] else []
      ensures prompts == old(prompts) && gitInits == old(gitInits)
      ensures Snapshot() == EndEffect(old(Snapshot()))
    {
      if inSection {
        inSection := false;
        trace := trace + [CloseSection];
      }
    }

    /** `section(title)`. */
    method Section(title: string)
      modifies this
      ensures inSection
      ensures trace == old(trace) + (if old(inSection) then [CloseSection] else []) + [OpenSection(title)]
      ensures Snapshot() == SectionEffect(old(Snapshot()), title)
    {
      End();
      inSection := true;
      trace := trace + [OpenSection(title)];
    }

    /** `questions.git(env)`; returns the outcome if it ends the run. */
    method Git(env: Env, w: World) returns (halt: Option<Outcome>)
      modifies this
      ensures Exec(Snapshot(), halt) == GitHandler(env, old(Snapshot()), w)
    {
      var useGit: bool;
      var forced := ForcedGit(env.cfg);
      if forced.Some? {
        useGit := forced.value;
        trace := trace + [GitFromConfig(useGit)];
      } else {
        var answer := w.answer(prompts);
        trace := trace + [PromptGit];
        prompts := prompts + 1;
        if answer == Cancel {
          // abort()
          return Some(Aborted);
        }
        useGit := answer == Yes;
      }
      halt := None;
      if useGit {
        // the error boundary around gitInit
        var failure := w.gitInitError(gitInits);
        trace := trace + [GitInit(env.directory)];
        gitInits := gitInits + 1;
        if failure.Some? {
          halt := Some(Failed(failure.value));
        }
      }
    }

    /** The outer loop of `createInteractive()`, over the preset's steps; returns the outcome if a step ends the run. */
    method Walk(steps: seq<Step>, env: Env, w: World) returns (halt: Option<Outcome>)
      modifies this
      ensures Exec(Snapshot(), halt) == WalkPlan(steps, env, old(Snapshot()), w)
    {
      var i := 0;
      while i < |steps|
        invariant 0 <= i <= |steps|
        invariant WalkPlan(steps, env, old(Snapshot()), w) == WalkPlan(steps[i..], env, Snapshot(), w)
      {
        var found := ResolveStep(env.cfg, steps[i]);
        if found.None? {
          return Some(Uncaught(UndefinedStepMessage));
        }
        var step := found.value;
        Section(step.name);
        halt := Ask(step.questions, env, w);
        if halt.Some? {
          return;
        }
        assert steps[i..][1..] == steps[i + 1..];
        i := i + 1;
      }
      return None;
    }

    /** The inner loop of `createInteractive()`, over a step's questions; returns the outcome if a question ends the run. */
    method Ask(questions: seq<Question>, env: Env, w: World) returns (halt: Option<Outcome>)
      modifies this
      ensures Exec(Snapshot(), halt) == WalkQuestions(questions, env, old(Snapshot()), w)
    {
      var j := 0;
      while j < |questions|
        invariant 0 <= j <= |questions|
        invariant WalkQuestions(questions, env, old(Snapshot()), w) == WalkQuestions(questions[j..], env, Snapshot(), w)
      {
        match questions[j] {
          case Named(name) =>
            if name == "git" {
              halt := Git(env, w);
              if halt.Some? {
                return;
              }
            } else {
              return Some(Uncaught(UnknownQuestionMessage));
            }
          case Inline(_, _) =>
            // an inline question fails through the error boundary
            return Some(Failed(NotImplementedMessage));
        }
        assert questions[j..][1..] == questions[j + 1..];
        j := j + 1;
      }
      return None;
    }

    /** `createInteractive()`. */
    method CreateInteractive(args: Args, w: World) returns (outcome: Outcome)
      modifies this, store
      ensures Exec(Snapshot(), Some(outcome)) == Scaffold(args, store.dir, old(Snapshot()), w)
    {
      if args.setup {
        var warned := store.CreateDefaultConfig(true);
        if warned {
          trace := trace + [Warning(AlreadyExistsWarning)];
        }
        return Done;
      } else if !ExistsConfig(store.files, store.dir) {
        return Failed(NoConfigMessage);
      }

      var directory := TargetDir(args.directory);
      var loaded := GetConfig(store.files, store.dir);
      if loaded.Err? {
        return Uncaught(ErrorMessage(loaded.error));
      }
      var cfg := loaded.value;
      var resolved := LoadPreset(cfg, store.files, store.dir, args.preset);
      if resolved.Err? {
        return Uncaught(ErrorMessage(resolved.error));
      }
      var preset := resolved.value;
      trace := trace + [Creating(Label(preset, args.preset))];
      var env := Env(preset, directory, cfg);
      trace := trace + [CreateDir(directory)];

      ghost var started := Snapshot();
      assert started == old(Snapshot()).(trace := old(trace) + [Creating(Label(preset, args.preset)), CreateDir(directory)]);
      var halt := Walk(preset.steps, env, w);
      if halt.Some? {
        return halt.value;
      }
      End();
      return Done;
    }
  }
}
