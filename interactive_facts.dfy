/** Properties of the plan walk: ordering, what each part may emit, forced answers, and the section flag. */
module InteractiveFacts {
  import opened Wrappers
  import opened Config
  import opened Interactive

  lemma DeltaChain(a: State, b: State, c: State)
    requires a.trace <= b.trace && b.trace <= c.trace
    ensures a.trace <= c.trace
    ensures Delta(a, c) == Delta(a, b) + Delta(b, c)
  {
  }

  /** The effects a question handler may perform. */
  predicate QuestionEffect(e: Effect)
  {
    e.GitFromConfig? || e.PromptGit? || e.GitInit?
  }

  /** The effects the step walk may perform: section headers and rules, and question effects. */
  predicate WalkEffect(e: Effect)
  {
    e.OpenSection? || e.CloseSection? || QuestionEffect(e)
  }

  /** The titles of the section headers in a trace, in order. */
  function Titles(t: seq<Effect>): seq<string>
  {
    if t == [] then []
    else (if t[0].OpenSection? then [t[0].title] else []) + Titles(t[1..])
  }

  lemma {:induction false} TitlesAppend(a: seq<Effect>, b: seq<Effect>)
    ensures Titles(a + b) == Titles(a) + Titles(b)
    decreases |a|
  {
    if a != [] {
      assert (a + b)[0] == a[0];
      assert (a + b)[1..] == a[1..] + b;
      TitlesAppend(a[1..], b);
    } else {
      assert a + b == b;
    }
  }

  lemma {:induction false} TitlesOfQuestionEffects(t: seq<Effect>)
    requires forall e :: e in t ==> QuestionEffect(e)
    ensures Titles(t) == []
    decreases |t|
  {
    if t != [] {
      assert t[0] in t;
      assert forall e :: e in t[1..] ==> e in t;
      TitlesOfQuestionEffects(t[1..]);
    }
  }

  /** The git handler only prompts, notes the forced answer, or calls gitInit. */
  lemma GitEffects(env: Env, st: State, w: World)
    ensures forall e :: e in Delta(st, GitHandler(env, st, w).st) ==> QuestionEffect(e)
  {
  }

  /** Running a step's questions performs question effects only. */
  lemma {:induction false} QuestionsEffects(qs: seq<Question>, env: Env, st: State, w: World)
    ensures forall e :: e in Delta(st, WalkQuestions(qs, env, st, w).st) ==> QuestionEffect(e)
    decreases |qs|
  {
    if qs != [] {
      var r1 := DispatchQuestion(qs[0], env, st, w);
      GitEffects(env, st, w);
      if r1.halt.None? {
        var r := WalkQuestions(qs[1..], env, r1.st, w);
        QuestionsEffects(qs[1..], env, r1.st, w);
        DeltaChain(st, r1.st, r.st);
      }
    }
  }

  /** Running the step plan performs walk effects only: never a second createDir. */
  lemma {:induction false} PlanEffects(steps: seq<Step>, env: Env, st: State, w: World)
    ensures forall e :: e in Delta(st, WalkPlan(steps, env, st, w).st) ==> WalkEffect(e)
    decreases |steps|
  {
    if steps != [] {
      var r1 := WalkStep(steps[0], env, st, w);
      var step := ResolveStep(env.cfg, steps[0]);
      if step.Some? {
        var inStep := SectionEffect(st, step.value.name);
        QuestionsEffects(step.value.questions, env, inStep, w);
        DeltaChain(st, inStep, r1.st);
      }
      if r1.halt.None? {
        var r := WalkPlan(steps[1..], env, r1.st, w);
        PlanEffects(steps[1..], env, r1.st, w);
        DeltaChain(st, r1.st, r.st);
      }
    }
  }

  /** A scaffold run whose configuration loads as `cfg` and whose preset resolves to `preset`. */
  predicate Configured(args: Args, dir: string, st: State, cfg: Config, preset: Preset)
  {
    !args.setup && ExistsConfig(st.files, dir) && GetConfig(st.files, dir) == Ok(cfg) &&
    LoadPreset(cfg, st.files, dir, args.preset) == Ok(preset)
  }

  /** The state after the project is announced and its directory created. */
  function Announced(args: Args, st: State, preset: Preset): State
  {
    st.(trace := st.trace + [Creating(Label(preset, args.preset)), CreateDir(TargetDir(args.directory))])
  }

  /**
   * A configured run announces the project, then creates the target directory
   * (the argument, or ".") exactly once, before any section, prompt or gitInit.
   */
  lemma CreateDirFirst(args: Args, dir: string, st: State, w: World, cfg: Config, preset: Preset)
    requires Configured(args, dir, st, cfg, preset)
    ensures var t := Delta(st, Scaffold(args, dir, st, w).st);
      |t| >= 2 &&
      t[0] == Creating(Label(preset, args.preset)) &&
      t[1] == CreateDir(TargetDir(args.directory)) &&
      forall i :: 2 <= i < |t| ==> WalkEffect(t[i])
  {
    var r := Scaffold(args, dir, st, w);
    var directory := TargetDir(args.directory);
    var env := Env(preset, directory, cfg);
    var started := Announced(args, st, preset);
    var walked := WalkPlan(preset.steps, env, started, w);
    PlanEffects(preset.steps, env, started, w);
    var finished := if walked.halt.Some? then walked.st else EndEffect(walked.st);
    assert r.st == finished;
    DeltaChain(st, started, walked.st);
    DeltaChain(st, walked.st, finished);
    var t := Delta(st, r.st);
    assert t == [Creating(Label(preset, args.preset)), CreateDir(directory)] + Delta(started, walked.st) + Delta(walked.st, finished);
    forall i | 2 <= i < |t| ensures WalkEffect(t[i]) {
      if i < 2 + |Delta(started, walked.st)| {
        assert t[i] == Delta(started, walked.st)[i - 2];
        assert t[i] in Delta(started, walked.st);
      } else {
        assert t[i] == Delta(walked.st, finished)[i - 2 - |Delta(started, walked.st)|];
      }
    }
  }

  /**
   * A configured run is the walk of the resolved preset's steps, with the
   * target directory and the loaded configuration, after the announcement: a
   * walk that stops ends the run with its own outcome and trace, and one that
   * completes is followed by the closing rule. So the run completes exactly
   * when the walk does, and a completed run printed the plan's step names, in
   * declared order, as its section headers.
   */
  lemma RunWalksPlan(args: Args, dir: string, st: State, w: World, cfg: Config, preset: Preset)
    requires Configured(args, dir, st, cfg, preset)
    ensures var walked := WalkPlan(preset.steps, Env(preset, TargetDir(args.directory), cfg), Announced(args, st, preset), w);
      Scaffold(args, dir, st, w) == if walked.halt.Some? then walked else Exec(EndEffect(walked.st), Some(Done))
    ensures Scaffold(args, dir, st, w).halt == Some(Done) <==>
      WalkPlan(preset.steps, Env(preset, TargetDir(args.directory), cfg), Announced(args, st, preset), w).halt.None?
    ensures var r := Scaffold(args, dir, st, w);
      r.halt == Some(Done) ==>
        ExpandPlan(cfg, preset.steps).Some? && Titles(Delta(st, r.st)) == Names(ExpandPlan(cfg, preset.steps).value)
  {
    var r := Scaffold(args, dir, st, w);
    var env := Env(preset, TargetDir(args.directory), cfg);
    var started := Announced(args, st, preset);
    var walked := WalkPlan(preset.steps, env, started, w);
    assert r == if walked.halt.Some? then walked else Exec(EndEffect(walked.st), Some(Done));
    if walked.halt.None? {
      RunTitles(st, started, walked.st, Creating(Label(preset, args.preset)), CreateDir(TargetDir(args.directory)));
      PlanTitles(preset.steps, env, started, w);
    }
  }

  /** The headers of a run are those of its walk: the announcement and the closing rule print none. */
  lemma RunTitles(st: State, started: State, walked: State, a: Effect, b: Effect)
    requires started.trace == st.trace + [a, b] && !a.OpenSection? && !b.OpenSection?
    requires started.trace <= walked.trace
    ensures Titles(Delta(st, EndEffect(walked))) == Titles(Delta(started, walked))
  {
    var finished := EndEffect(walked);
    var head := Delta(st, started);
    DeltaChain(st, started, walked);
    DeltaChain(st, walked, finished);
    assert head == [a, b];
    assert head[1..] == [b] && head[1..][1..] == [];
    assert Titles(head[1..]) == [];
    assert Titles(head) == [];
    var tail := Delta(walked, finished);
    if walked.inSection {
      assert tail == [CloseSection];
      assert tail[1..] == [];
    } else {
      assert tail == [];
    }
    assert Titles(tail) == [];
    TitlesAppend(head, Delta(started, walked));
    TitlesAppend(Delta(st, walked), tail);
  }

  /** When always.git is a boolean, no step ever prompts. */
  lemma {:induction false} ForcedGitNeverPrompts(steps: seq<Step>, env: Env, st: State, w: World)
    requires ForcedGit(env.cfg).Some?
    ensures var r := WalkPlan(steps, env, st, w);
      PromptGit !in Delta(st, r.st) && r.st.prompts == st.prompts
    decreases |steps|
  {
    if steps != [] {
      var r1 := WalkStep(steps[0], env, st, w);
      var step := ResolveStep(env.cfg, steps[0]);
      if step.Some? {
        var inStep := SectionEffect(st, step.value.name);
        ForcedQuestionsNeverPrompt(step.value.questions, env, inStep, w);
        DeltaChain(st, inStep, r1.st);
      }
      if r1.halt.None? {
        var r := WalkPlan(steps[1..], env, r1.st, w);
        ForcedGitNeverPrompts(steps[1..], env, r1.st, w);
        DeltaChain(st, r1.st, r.st);
      }
    }
  }

  lemma {:induction false} ForcedQuestionsNeverPrompt(qs: seq<Question>, env: Env, st: State, w: World)
    requires ForcedGit(env.cfg).Some?
    ensures var r := WalkQuestions(qs, env, st, w);
      PromptGit !in Delta(st, r.st) && r.st.prompts == st.prompts
    decreases |qs|
  {
    if qs != [] {
      var r1 := DispatchQuestion(qs[0], env, st, w);
      if r1.halt.None? {
        var r := WalkQuestions(qs[1..], env, r1.st, w);
        ForcedQuestionsNeverPrompt(qs[1..], env, r1.st, w);
        DeltaChain(st, r1.st, r.st);
      }
    }
  }

  /** A step that does not end the run was resolved, and emits exactly one section header, with its name. */
  lemma StepTitles(s: Step, env: Env, st: State, w: World)
    requires WalkStep(s, env, st, w).halt.None?
    ensures ResolveStep(env.cfg, s).Some?
    ensures Titles(Delta(st, WalkStep(s, env, st, w).st)) == [ResolveStep(env.cfg, s).value.name]
  {
    var r1 := WalkStep(s, env, st, w);
    var step := ResolveStep(env.cfg, s).value;
    var closed := EndEffect(st);
    var inStep := SectionEffect(st, step.name);
    QuestionsEffects(step.questions, env, inStep, w);
    TitlesOfQuestionEffects(Delta(inStep, r1.st));
    DeltaChain(st, inStep, r1.st);
    assert Delta(st, inStep) == Delta(st, closed) + [OpenSection(step.name)];
    assert Titles(Delta(st, closed)) == [];
    TitlesAppend(Delta(st, closed), [OpenSection(step.name)]);
    TitlesAppend(Delta(st, inStep), Delta(inStep, r1.st));
  }

  lemma PlanCons(cfg: Config, steps: seq<Step>)
    requires steps != [] && ResolveStep(cfg, steps[0]).Some? && ExpandPlan(cfg, steps[1..]).Some?
    ensures ExpandPlan(cfg, steps).Some?
    ensures Names(ExpandPlan(cfg, steps).value) ==
      [ResolveStep(cfg, steps[0]).value.name] + Names(ExpandPlan(cfg, steps[1..]).value)
  {
    var step := ResolveStep(cfg, steps[0]).value;
    var rest := ExpandPlan(cfg, steps[1..]).value;
    assert ExpandPlan(cfg, steps) == Some([step] + rest);
    assert Names([step] + rest) == [step.name] + Names(rest);
  }

  /**
   * A plan walked to its end resolved every step, and its section headers
   * carry the plan's step names in declared order.
   */
  lemma {:induction false} PlanTitles(steps: seq<Step>, env: Env, st: State, w: World)
    requires WalkPlan(steps, env, st, w).halt.None?
    ensures ExpandPlan(env.cfg, steps).Some?
    ensures Titles(Delta(st, WalkPlan(steps, env, st, w).st)) == Names(ExpandPlan(env.cfg, steps).value)
    decreases |steps|
  {
    var r := WalkPlan(steps, env, st, w);
    if steps == [] {
      assert Delta(st, r.st) == [];
    } else {
      var r1 := WalkStep(steps[0], env, st, w);
      StepTitles(steps[0], env, st, w);
      PlanTitles(steps[1..], env, r1.st, w);
      DeltaChain(st, r1.st, r.st);
      TitlesAppend(Delta(st, r1.st), Delta(r1.st, r.st));
      PlanCons(env.cfg, steps);
    }
  }

  /** With the default catalog, the plan ["workspace", "node"] is the steps "Workspace" then "Node.js". */
  lemma DefaultCatalogPlan()
    ensures var plan := ExpandPlan(DefaultConfig(), [Symbolic("workspace"), Symbolic("node")]);
      plan.Some? && Names(plan.value) == ["Workspace", "Node.js"]
  {
  }

  /**
   * The end-to-end run: default configuration on disk, default preset,
   * target "./my-app", always.git unset, the prompt answered yes.
   */
  lemma EndToEnd(dir: string)
    ensures var files := map[ConfigPath(dir) := ConfigDocument(ToDoc(DefaultConfig()))];
      var w := World(k => Yes, k => None);
      Scaffold(Args(false, None, Some("./my-app")), dir, State(false, [], 0, 0, files), w) ==
        Exec(State(false,
                   [Creating("Simple Node.js Package"), CreateDir("./my-app"), OpenSection("Workspace"),
                    PromptGit, GitInit("./my-app"), CloseSection],
                   1, 1, files),
             Some(Done))
  {
  }

  // ---------------------------------------------------------------------------
  // Sections never nest

  /**
   * The section flag after the effects `t`, starting from `open`; None when a
   * header appears while a section is open or a rule while none is.
   */
  function SectionFlag(t: seq<Effect>, open: bool): Option<bool>
    decreases |t|
  {
    if t == [] then Some(open)
    else
      match t[0]
      case OpenSection(_) => if open then None else SectionFlag(t[1..], true)
      case CloseSection => if open then SectionFlag(t[1..], false) else None
      case _ => SectionFlag(t[1..], open)
  }

  lemma {:induction false} SectionFlagAppend(a: seq<Effect>, b: seq<Effect>, open: bool)
    ensures SectionFlag(a + b, open) ==
      if SectionFlag(a, open).Some? then SectionFlag(b, SectionFlag(a, open).value) else None
    decreases |a|
  {
    if a == [] {
      assert a + b == b;
    } else {
      assert (a + b)[0] == a[0];
      assert (a + b)[1..] == a[1..] + b;
      match a[0]
      case OpenSection(_) => if !open { SectionFlagAppend(a[1..], b, true); }
      case CloseSection => if open { SectionFlagAppend(a[1..], b, false); }
      case _ => SectionFlagAppend(a[1..], b, open);
    }
  }

  lemma {:induction false} SectionFlagOfQuestionEffects(t: seq<Effect>, open: bool)
    requires forall e :: e in t ==> QuestionEffect(e)
    ensures SectionFlag(t, open) == Some(open)
    decreases |t|
  {
    if t != [] {
      assert t[0] in t;
      assert forall e :: e in t[1..] ==> e in t;
      SectionFlagOfQuestionEffects(t[1..], open);
    }
  }

  /** A step closes the open section, if any, opens its own, and leaves the flag saying so. */
  lemma StepNesting(s: Step, env: Env, st: State, w: World)
    ensures var r := WalkStep(s, env, st, w);
      SectionFlag(Delta(st, r.st), st.inSection) == Some(r.st.inSection)
  {
    var r := WalkStep(s, env, st, w);
    if ResolveStep(env.cfg, s).None? {
      assert Delta(st, r.st) == [];
    } else {
      var step := ResolveStep(env.cfg, s).value;
      var inStep := SectionEffect(st, step.name);
      QuestionsEffects(step.questions, env, inStep, w);
      SectionFlagOfQuestionEffects(Delta(inStep, r.st), true);
      DeltaChain(st, inStep, r.st);
      var head := Delta(st, inStep);
      if st.inSection {
        assert head == [CloseSection, OpenSection(step.name)];
        assert head[1..] == [OpenSection(step.name)];
        assert head[1..][1..] == [];
        assert SectionFlag(head[1..], false) == Some(true);
      } else {
        assert head == [OpenSection(step.name)];
        assert head[1..] == [];
      }
      assert SectionFlag(head, st.inSection) == Some(true);
      SectionFlagAppend(head, Delta(inStep, r.st), st.inSection);
    }
  }

  /** The step walk keeps the section flag in step with the headers and rules it prints. */
  lemma {:induction false} PlanNesting(steps: seq<Step>, env: Env, st: State, w: World)
    ensures var r := WalkPlan(steps, env, st, w);
      SectionFlag(Delta(st, r.st), st.inSection) == Some(r.st.inSection)
    decreases |steps|
  {
    var r := WalkPlan(steps, env, st, w);
    if steps == [] {
      assert Delta(st, r.st) == [];
    } else {
      var r1 := WalkStep(steps[0], env, st, w);
      StepNesting(steps[0], env, st, w);
      if r1.halt.None? {
        PlanNesting(steps[1..], env, r1.st, w);
        DeltaChain(st, r1.st, r.st);
        SectionFlagAppend(Delta(st, r1.st), Delta(r1.st, r.st), st.inSection);
      }
    }
  }

  /**
   * Over a whole run, headers and rules alternate and the flag left behind is
   * the one the printed effects imply: every section is closed before the
   * next opens, and a completed run closes the last one.
   */
  lemma RunNesting(args: Args, dir: string, st: State, w: World)
    ensures var r := Scaffold(args, dir, st, w);
      SectionFlag(Delta(st, r.st), st.inSection) == Some(r.st.inSection)
  {
    var r := Scaffold(args, dir, st, w);
    if args.setup {
      if ExistsConfig(st.files, dir) {
        assert Delta(st, r.st) == [Warning(AlreadyExistsWarning)];
      } else {
        assert Delta(st, r.st) == [];
      }
    } else if ExistsConfig(st.files, dir) && GetConfig(st.files, dir).Ok? &&
              LoadPreset(GetConfig(st.files, dir).value, st.files, dir, args.preset).Ok? {
      var cfg := GetConfig(st.files, dir).value;
      var preset := LoadPreset(cfg, st.files, dir, args.preset).value;
      var directory := TargetDir(args.directory);
      var env := Env(preset, directory, cfg);
      var head := [Creating(Label(preset, args.preset)), CreateDir(directory)];
      var started := st.(trace := st.trace + head);
      var walked := WalkPlan(preset.steps, env, started, w);
      PlanNesting(preset.steps, env, started, w);
      FinishNesting(st, head, walked);
    } else {
      assert Delta(st, r.st) == [];
    }
  }

  /** Announcing the project, creating the directory, walking, then `end()`: the flag still matches the trace. */
  lemma FinishNesting(st: State, head: seq<Effect>, walked: Exec)
    requires |head| == 2 && head[0].Creating? && head[1].CreateDir?
    requires st.trace + head <= walked.st.trace
    requires SectionFlag(walked.st.trace[|st.trace + head|..], st.inSection) == Some(walked.st.inSection)
    ensures var finished := if walked.halt.Some? then walked.st else EndEffect(walked.st);
      st.trace <= finished.trace &&
      SectionFlag(Delta(st, finished), st.inSection) == Some(finished.inSection)
  {
    var started := st.(trace := st.trace + head);
    var finished := if walked.halt.Some? then walked.st else EndEffect(walked.st);
    DeltaChain(st, started, walked.st);
    DeltaChain(st, walked.st, finished);
    assert Delta(st, started) == head;
    assert head[1..][1..] == [];
    assert SectionFlag(head[1..], st.inSection) == Some(st.inSection);
    assert SectionFlag(head, st.inSection) == Some(st.inSection);
    SectionFlagAppend(head, Delta(started, walked.st), st.inSection);
    SectionFlagAppend(Delta(st, walked.st), Delta(walked.st, finished), st.inSection);
    if walked.st.inSection && walked.halt.None? {
      assert Delta(walked.st, finished) == [CloseSection];
      assert Delta(walked.st, finished)[1..] == [];
    } else {
      assert Delta(walked.st, finished) == [];
    }
  }

  // ---------------------------------------------------------------------------
  // Cancellation

  /** A cancelled prompt ends the questions at once: the prompt is the last effect. */
  lemma {:induction false} AbortEndsAtPrompt(qs: seq<Question>, env: Env, st: State, w: World)
    ensures var r := WalkQuestions(qs, env, st, w);
      r.halt == Some(Aborted) ==> Delta(st, r.st) != [] && Delta(st, r.st)[|Delta(st, r.st)| - 1] == PromptGit
    decreases |qs|
  {
    if qs != [] {
      var r1 := DispatchQuestion(qs[0], env, st, w);
      if r1.halt.None? {
        var r := WalkQuestions(qs[1..], env, r1.st, w);
        AbortEndsAtPrompt(qs[1..], env, r1.st, w);
        DeltaChain(st, r1.st, r.st);
      }
    }
  }

  /** A step ends Aborted only right after a prompt. */
  lemma AbortEndsStep(s: Step, env: Env, st: State, w: World)
    ensures var r := WalkStep(s, env, st, w);
      r.halt == Some(Aborted) ==> Delta(st, r.st) != [] && Delta(st, r.st)[|Delta(st, r.st)| - 1] == PromptGit
  {
    var step := ResolveStep(env.cfg, s);
    if step.Some? {
      var inStep := SectionEffect(st, step.value.name);
      var r := WalkQuestions(step.value.questions, env, inStep, w);
      AbortEndsAtPrompt(step.value.questions, env, inStep, w);
      DeltaChain(st, inStep, r.st);
    }
  }

  /** A cancelled prompt ends the whole walk as Aborted, with nothing after the prompt. */
  lemma {:induction false} AbortEndsWalk(steps: seq<Step>, env: Env, st: State, w: World)
    ensures var r := WalkPlan(steps, env, st, w);
      r.halt == Some(Aborted) ==> Delta(st, r.st) != [] && Delta(st, r.st)[|Delta(st, r.st)| - 1] == PromptGit
    decreases |steps|
  {
    if steps != [] {
      var r1 := WalkStep(steps[0], env, st, w);
      AbortEndsStep(steps[0], env, st, w);
      if r1.halt.None? {
        var r := WalkPlan(steps[1..], env, r1.st, w);
        AbortEndsWalk(steps[1..], env, r1.st, w);
        DeltaChain(st, r1.st, r.st);
        if r.halt == Some(Aborted) {
          var d := Delta(r1.st, r.st);
          assert Delta(st, r.st)[|Delta(st, r.st)| - 1] == d[|d| - 1];
        }
      }
    }
  }

  // ---------------------------------------------------------------------------
  // Order, first halt, and what ends a run at once

  /** Questions run in declared order: running `a + b` runs `a`, then `b` unless `a` ended the run. */
  lemma {:induction false} QuestionsAppend(a: seq<Question>, b: seq<Question>, env: Env, st: State, w: World)
    ensures WalkQuestions(a + b, env, st, w) ==
      var r := WalkQuestions(a, env, st, w);
      if r.halt.Some? then r else WalkQuestions(b, env, r.st, w)
    decreases |a|
  {
    if a == [] {
      assert a + b == b;
    } else {
      assert (a + b)[0] == a[0];
      assert (a + b)[1..] == a[1..] + b;
      var r1 := DispatchQuestion(a[0], env, st, w);
      if r1.halt.None? {
        QuestionsAppend(a[1..], b, env, r1.st, w);
      }
    }
  }

  /** Steps run in declared order: walking `a + b` walks `a`, then `b` unless `a` ended the run. */
  lemma {:induction false} PlanAppend(a: seq<Step>, b: seq<Step>, env: Env, st: State, w: World)
    ensures WalkPlan(a + b, env, st, w) ==
      var r := WalkPlan(a, env, st, w);
      if r.halt.Some? then r else WalkPlan(b, env, r.st, w)
    decreases |a|
  {
    if a == [] {
      assert a + b == b;
    } else {
      assert (a + b)[0] == a[0];
      assert (a + b)[1..] == a[1..] + b;
      var r1 := WalkStep(a[0], env, st, w);
      if r1.halt.None? {
        PlanAppend(a[1..], b, env, r1.st, w);
      }
    }
  }

  /**
   * An inline question reached by the walk ends it with "Not implemented yet.",
   * after the earlier questions' effects and with nothing after them.
   */
  lemma InlineQuestionFails(qs: seq<Question>, j: nat, env: Env, st: State, w: World)
    requires j < |qs| && qs[j].Inline?
    requires WalkQuestions(qs[..j], env, st, w).halt.None?
    ensures WalkQuestions(qs, env, st, w) ==
      Exec(WalkQuestions(qs[..j], env, st, w).st, Some(Failed(NotImplementedMessage)))
  {
    assert qs == qs[..j] + qs[j..];
    QuestionsAppend(qs[..j], qs[j..], env, st, w);
    assert qs[j..][0] == qs[j];
  }

  /**
   * A walk of questions that stops, stops at the first question that ends the
   * run: the result is that question's own, after the questions before it, and
   * nothing runs after it.
   */
  lemma {:induction false} HaltAtFirst(qs: seq<Question>, env: Env, st: State, w: World) returns (j: nat)
    ensures var r := WalkQuestions(qs, env, st, w);
      r.halt.Some? ==>
        j < |qs| &&
        WalkQuestions(qs[..j], env, st, w).halt.None? &&
        DispatchQuestion(qs[j], env, WalkQuestions(qs[..j], env, st, w).st, w) == r
    decreases |qs|
  {
    j := 0;
    if qs != [] {
      var r1 := DispatchQuestion(qs[0], env, st, w);
      assert qs[..0] == [];
      if r1.halt.None? {
        var k := HaltAtFirst(qs[1..], env, r1.st, w);
        j := k + 1;
        if WalkQuestions(qs, env, st, w).halt.Some? {
          var prefix := qs[..j];
          assert prefix[0] == qs[0];
          assert prefix[1..] == qs[1..][..k];
          assert WalkQuestions(prefix, env, st, w) == WalkQuestions(qs[1..][..k], env, r1.st, w);
          assert qs[j] == qs[1..][k];
        }
      }
    }
  }

  /**
   * A step's questions that fail, fail at the first question that ends the
   * run: either an inline question, which adds nothing, or "git" whose gitInit
   * failed as the very last effect, with gitInit's message.
   */
  lemma FailedEndsAtCause(qs: seq<Question>, env: Env, st: State, w: World) returns (j: nat)
    ensures var r := WalkQuestions(qs, env, st, w);
      r.halt.Some? && r.halt.value.Failed? ==>
        j < |qs| && WalkQuestions(qs[..j], env, st, w).halt.None? &&
        var before := WalkQuestions(qs[..j], env, st, w).st;
        ((qs[j].Inline? && r == Exec(before, Some(Failed(NotImplementedMessage)))) ||
         (qs[j] == Named("git") && w.gitInitError(before.gitInits).Some? &&
          r.halt == Some(Failed(w.gitInitError(before.gitInits).value)) &&
          Delta(st, r.st) != [] && Delta(st, r.st)[|Delta(st, r.st)| - 1] == GitInit(env.directory)))
  {
    j := HaltAtFirst(qs, env, st, w);
    var r := WalkQuestions(qs, env, st, w);
    if r.halt.Some? && r.halt.value.Failed? {
      var before := WalkQuestions(qs[..j], env, st, w).st;
      if qs[j].Named? {
        assert qs[j].name == "git";
        assert GitHandler(env, before, w) == r;
        DeltaChain(st, before, r.st);
        assert Delta(before, r.st) != [];
      }
    }
  }

  /** A step's questions that do not end Aborted were never answered Cancel. */
  lemma {:induction false} CancelAbortsQuestions(qs: seq<Question>, env: Env, st: State, w: World)
    ensures var r := WalkQuestions(qs, env, st, w);
      r.halt != Some(Aborted) ==> forall k :: st.prompts <= k < r.st.prompts ==> w.answer(k) != Cancel
    decreases |qs|
  {
    if qs != [] {
      var r1 := DispatchQuestion(qs[0], env, st, w);
      if r1.halt.None? {
        CancelAbortsQuestions(qs[1..], env, r1.st, w);
      }
    }
  }

  /** A walk that does not end Aborted was never answered Cancel. */
  lemma {:induction false} CancelAbortsWalk(steps: seq<Step>, env: Env, st: State, w: World)
    ensures var r := WalkPlan(steps, env, st, w);
      r.halt != Some(Aborted) ==> forall k :: st.prompts <= k < r.st.prompts ==> w.answer(k) != Cancel
    decreases |steps|
  {
    if steps != [] {
      var r1 := WalkStep(steps[0], env, st, w);
      var step := ResolveStep(env.cfg, steps[0]);
      if step.Some? {
        CancelAbortsQuestions(step.value.questions, env, SectionEffect(st, step.value.name), w);
      }
      if r1.halt.None? {
        CancelAbortsWalk(steps[1..], env, r1.st, w);
      }
    }
  }

  /**
   * A cancelled prompt ends the whole run as Aborted: a run that ends any
   * other way was never answered Cancel; and an Aborted run has the prompt as
   * its last effect.
   */
  lemma CancelAbortsRun(args: Args, dir: string, st: State, w: World)
    ensures var r := Scaffold(args, dir, st, w);
      r.halt != Some(Aborted) ==> forall k :: st.prompts <= k < r.st.prompts ==> w.answer(k) != Cancel
    ensures var r := Scaffold(args, dir, st, w);
      r.halt == Some(Aborted) ==> Delta(st, r.st) != [] && Delta(st, r.st)[|Delta(st, r.st)| - 1] == PromptGit
  {
    if !args.setup && ExistsConfig(st.files, dir) && GetConfig(st.files, dir).Ok? &&
       LoadPreset(GetConfig(st.files, dir).value, st.files, dir, args.preset).Ok? {
      var cfg := GetConfig(st.files, dir).value;
      var preset := LoadPreset(cfg, st.files, dir, args.preset).value;
      var env := Env(preset, TargetDir(args.directory), cfg);
      var started := Announced(args, st, preset);
      var walked := WalkPlan(preset.steps, env, started, w);
      CancelAbortsWalk(preset.steps, env, started, w);
      AbortEndsWalk(preset.steps, env, started, w);
      DeltaChain(st, started, walked.st);
    }
  }

  // ---------------------------------------------------------------------------
  // Every "git" question the walk reaches runs the handler

  /**
   * A "git" question the walk reaches runs the git handler from where the
   * earlier questions left off.
   */
  lemma GitQuestionRuns(qs: seq<Question>, j: nat, env: Env, st: State, w: World)
    requires j < |qs| && qs[j] == Named("git")
    requires WalkQuestions(qs[..j], env, st, w).halt.None?
    ensures WalkQuestions(qs[..j + 1], env, st, w) == GitHandler(env, WalkQuestions(qs[..j], env, st, w).st, w)
  {
    var before := WalkQuestions(qs[..j], env, st, w);
    assert qs[..j + 1] == qs[..j] + [qs[j]];
    QuestionsAppend(qs[..j], [qs[j]], env, st, w);
    assert [qs[j]][1..] == [];
  }

  /** With a boolean `always.git`, the handler notes the answer and calls gitInit exactly on true. */
  lemma ForcedGitDelta(env: Env, st: State, w: World)
    requires ForcedGit(env.cfg).Some?
    ensures var b := ForcedGit(env.cfg).value;
      Delta(st, GitHandler(env, st, w).st) == [GitFromConfig(b)] + if b then [GitInit(env.directory)] else []
  {
    var b := ForcedGit(env.cfg).value;
    var noted := st.(trace := st.trace + [GitFromConfig(b)]);
    var r := UseGit(b, env.directory, noted, w);
    assert GitHandler(env, st, w) == r;
    assert r.st.trace == st.trace + [GitFromConfig(b)] + if b then [GitInit(env.directory)] else [];
  }

  /** The questions of a plan, step after step. */
  function PlanQuestions(plan: seq<CustomStep>): seq<Question>
  {
    if plan == [] then [] else plan[0].questions + PlanQuestions(plan[1..])
  }

  /**
   * Questions that run to the end ran one handler per "git" question: with
   * `always.git` true, one gitInit each; with it false, none; without it, one
   * prompt each.
   */
  lemma {:induction false} QuestionsRunGit(qs: seq<Question>, env: Env, st: State, w: World)
    requires WalkQuestions(qs, env, st, w).halt.None?
    ensures var r := WalkQuestions(qs, env, st, w);
      var n := multiset(qs)[Named("git")];
      (ForcedGit(env.cfg) == Some(true) ==> multiset(Delta(st, r.st))[GitInit(env.directory)] == n) &&
      (ForcedGit(env.cfg) == Some(false) ==> multiset(Delta(st, r.st))[GitInit(env.directory)] == 0) &&
      (ForcedGit(env.cfg).None? ==> r.st.prompts == st.prompts + n)
    decreases |qs|
  {
    if qs != [] {
      var r1 := DispatchQuestion(qs[0], env, st, w);
      assert r1.halt.None?;
      assert qs[0] == Named("git");
      var r := WalkQuestions(qs[1..], env, r1.st, w);
      assert qs == [qs[0]] + qs[1..];
      assert multiset(qs)[Named("git")] == 1 + multiset(qs[1..])[Named("git")];
      QuestionsRunGit(qs[1..], env, r1.st, w);
      DeltaChain(st, r1.st, r.st);
      if ForcedGit(env.cfg).Some? {
        ForcedGitDelta(env, st, w);
      }
    } else {
      assert Delta(st, st) == [];
    }
  }

  /**
   * A walk that runs to the end ran every question of every step of the plan:
   * with `always.git` true, one gitInit per "git" question of the plan; with
   * it false, none; without it, one prompt per "git" question.
   */
  lemma {:induction false} PlanRunsGit(steps: seq<Step>, env: Env, st: State, w: World)
    requires WalkPlan(steps, env, st, w).halt.None?
    ensures ExpandPlan(env.cfg, steps).Some?
    ensures var r := WalkPlan(steps, env, st, w);
      var n := multiset(PlanQuestions(ExpandPlan(env.cfg, steps).value))[Named("git")];
      (ForcedGit(env.cfg) == Some(true) ==> multiset(Delta(st, r.st))[GitInit(env.directory)] == n) &&
      (ForcedGit(env.cfg) == Some(false) ==> multiset(Delta(st, r.st))[GitInit(env.directory)] == 0) &&
      (ForcedGit(env.cfg).None? ==> r.st.prompts == st.prompts + n)
    decreases |steps|
  {
    if steps == [] {
      assert Delta(st, st) == [];
    } else {
      var step := ResolveStep(env.cfg, steps[0]).value;
      var inStep := SectionEffect(st, step.name);
      var r1 := WalkStep(steps[0], env, st, w);
      assert r1 == WalkQuestions(step.questions, env, inStep, w);
      var r := WalkPlan(steps[1..], env, r1.st, w);
      PlanRunsGit(steps[1..], env, r1.st, w);
      QuestionsRunGit(step.questions, env, inStep, w);
      var rest := ExpandPlan(env.cfg, steps[1..]).value;
      assert ExpandPlan(env.cfg, steps).value == [step] + rest;
      assert PlanQuestions([step] + rest) == step.questions + PlanQuestions(rest);
      DeltaChain(st, inStep, r1.st);
      DeltaChain(st, r1.st, r.st);
      var header := Delta(st, inStep);
      assert GitInit(env.directory) !in header;
      assert multiset(header)[GitInit(env.directory)] == 0;
    }
  }
}
