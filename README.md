# create-idea: configuration resolution and step execution

A Dafny model of the engine of `create-idea`, a command-line tool that scaffolds a
new project directory by running an ordered list of steps, each asking questions
and performing side effects. The model covers:

- **Configuration store** (`config.dfy`, module `Config`): the configuration
  record, the compiled-in `defaultConfig`, the shallow merge of the user's
  `config.json` over it (`getConfig`), `existsConfig`, and `createDefaultConfig`,
  which writes `config.json` only when it is absent. The file system is a map
  from path to an already-parsed document; the configuration directory is a
  parameter. The class `ConfigStore` holds that map and updates it in place.
- **Preset resolution** (`Config.LoadPreset`): look the name (default
  `"default"`) up in `presets`; fail when the entry is absent or falsy; return an
  inline preset as it is; follow a string entry to `<dir>/<ref>.json`, exactly
  once, failing when that file is missing.
- **The driver** (`interactive.dfy`, module `Interactive`): `createInteractive`
  as the class `Cli` (the module-level `inSection` flag, the trace of effects,
  the config store), with its two nested loops as the methods `Cli.Walk`
  (steps) and `Cli.Ask` (questions), the `git` question handler `Cli.Git`, and
  `section`/`end`. Each method is proved against a pure function of the state
  (`Scaffold`, `WalkPlan`, `WalkQuestions`, `GitHandler`, `SectionEffect`,
  `EndEffect`). The collaborators (`createDir`, `gitInit`, the confirm prompt,
  the banners) are effects appended to a trace; the prompt's answers
  (`Yes | No | Cancel`) and `gitInit`'s failures come from an oracle, `World`.
  A run ends `Done`, `Failed(message)` (the `err` boundary), `Aborted`
  (`abort`), or `Uncaught(message)` (an exception nothing catches); all but
  `Done` exit with status 1.
- **Properties** (`config_facts.dfy`, `interactive_facts.dfy`): the merge is the
  object spread; loading right after setup yields the defaults when no
  `config.json` existed, and the same result as before setup otherwise; setup is
  idempotent and never overwrites; `loadPreset` reads at most the one referenced
  file; the directory is created once, before any section or question; forced
  `always.git` never prompts; a completed walk prints the plan's step names in
  declared order, and a configured run completes exactly when that walk does;
  questions and steps run in declared order and stop at the first that ends the
  run; sections never nest; a run answered Cancel at any prompt ends Aborted,
  with that prompt as its last effect.

Failure paths the code leaves unchecked, modelled as the code behaves:

- `loadPreset` is called outside the `err` boundary (src/interactive.ts:113),
  so an unknown preset or a missing preset file ends the run with an
  exception nothing catches (`Uncaught`), not with the `Error: …` line.
- A symbolic step missing from `cfg.steps` is not checked: reading its `name`
  throws a `TypeError` (`Uncaught`) when the walk reaches it, after the
  earlier steps have run. The plan is resolved step by step, as the walk goes.
- A question identifier other than `"git"` is not checked either: calling the
  missing handler throws (`Uncaught`).

## Model

| member | source | states |
|---|---|---|
| Config.Merge | src/config.ts:121-124 | for every top-level key, the merged value is the document's when the document has that key, and the default's otherwise |
| ConfigFacts.MergeIsSpread | src/config.ts:121-124 | the merged configuration, seen as a key-to-value object, is the defaults' object overridden by the document's object (map union) |
| ConfigFacts.MergeEmpty | src/config.ts:121-124 | an empty document leaves the defaults unchanged |
| ConfigFacts.MergeSerialized | src/config.ts:116-134 | merging the serialisation of a configuration that defines every key the defaults define gives that configuration back |
| Config.ToDoc | src/config.ts:131-134 | serialising keeps exactly the keys the configuration defines, with their values (unset optional fields are dropped) |
| Config.DefaultConfig | src/config.ts:72-114 | the compiled-in configuration: npm, no `always`, `defaultLicense` or `esm`; the catalog holds "workspace" and "node"; the one preset, "default", is inline and every step it names is in the catalog |
| Config.ExistsConfig | src/config.ts:127 | true exactly when `<dir>/config.json` is present, whatever it holds |
| Config.GetConfig | src/config.ts:116-125 | defaults when `config.json` is absent; otherwise the document merged over the defaults, or a failure when it does not parse; every default key stays defined |
| Config.WithDefaultConfig | src/config.ts:129-139 | afterwards `config.json` exists; an existing file map is returned unchanged; otherwise only `config.json` is added, holding the serialised defaults |
| Config.ConfigStore.CreateDefaultConfig | src/config.ts:129-139 | the store's files become `WithDefaultConfig` of the old files; the warning is printed exactly when interactive and the file already existed |
| ConfigFacts.SetupThenLoad | src/config.ts:116-134 | loading after setup yields the defaults when no file existed, and what loading yielded before otherwise |
| ConfigFacts.CreateDefaultIdempotent | src/config.ts:129-139 | running setup twice leaves the same files as once |
| Config.LoadPreset | src/config.ts:141-154 | not-found exactly when the entry is absent or falsy; an inline entry is returned unchanged; a reference succeeds exactly when `<dir>/<ref>.json` holds a preset, which is returned, fails with file-not-found exactly when that file is missing, and with the parse failure of that file when it holds anything else |
| ConfigFacts.LoadPresetReadsOnly | src/config.ts:141-151 | two file maps that agree on the one referenced file (or on nothing, for inline and missing entries) give the same result |
| ConfigFacts.DefaultPresetResolves | src/config.ts:141-153 | with the defaults and no name, the built-in inline preset is returned and no file is read |
| Interactive.ExitCode | src/interactive.ts:43-55 | exit status 0 exactly for a completed run, 1 for an error, an abort or an uncaught exception |
| Interactive.GitHandler | src/interactive.ts:61-77 | a boolean `always.git` never prompts and calls gitInit iff true; otherwise one prompt: Cancel aborts with nothing after it, No performs nothing more, Yes performs exactly gitInit in the target directory after the prompt; a failing gitInit ends the run with its message; the trace only grows |
| Interactive.DispatchQuestion | src/interactive.ts:135-141 | an inline question fails with "Not implemented yet." and changes nothing; an identifier other than "git" throws; "git" runs the handler |
| InteractiveFacts.GitQuestionRuns | src/interactive.ts:135-136 | a "git" question the walk reaches runs the git handler from the state the earlier questions left |
| InteractiveFacts.ForcedGitDelta | src/interactive.ts:63-69 | with a boolean `always.git`, the handler notes the answer and then calls gitInit exactly when it is true, and does nothing else |
| InteractiveFacts.QuestionsRunGit | src/interactive.ts:135-141 | questions that run to the end ran the handler once per "git" question: one gitInit each when `always.git` is true, none when false, one prompt each when unset |
| InteractiveFacts.PlanRunsGit | src/interactive.ts:127-141 | a walk that runs to the end resolved the plan and ran every step's questions: one gitInit per "git" question of the plan when `always.git` is true, none when false, one prompt per "git" question when unset |
| Interactive.WalkQuestions | src/interactive.ts:135-141 | running a step's questions only appends to the trace, keeps the files and the section flag, and never reports completion as an outcome |
| InteractiveFacts.QuestionsAppend | src/interactive.ts:135-141 | questions run in declared order: running `a + b` runs `a`, then `b` from where `a` left off unless `a` ended the run |
| InteractiveFacts.InlineQuestionFails | src/interactive.ts:137-140 | the first inline question the walk reaches ends it with "Not implemented yet.", after the earlier questions' effects and with no effect of its own |
| InteractiveFacts.HaltAtFirst | src/interactive.ts:135-141 | a walk that ends the run ends at its first question that does: the earlier questions ran without ending it and the result is that question's own, with nothing after it |
| InteractiveFacts.FailedEndsAtCause | src/interactive.ts:70-76 | a failed walk failed at an inline question, adding nothing, or at "git" whose gitInit is its last effect and whose error message is the run's |
| InteractiveFacts.CancelAbortsQuestions | src/interactive.ts:70-74 | questions that do not end Aborted were never answered Cancel |
| Interactive.ResolveStep | src/interactive.ts:128 | an inline step is used as it is; a name resolves exactly when the catalog has it, to the catalog's entry |
| Interactive.ExpandPlan | src/interactive.ts:127-128 | the plan resolves exactly when every step does; it has the preset's length and its i-th step is the i-th reference resolved (catalog entry or inline step) |
| Interactive.WalkStep | src/interactive.ts:127-141 | a step missing from the catalog throws before any effect; a resolved step opens its section and then runs its questions |
| Interactive.WalkPlan | src/interactive.ts:127-142 | walking the plan only appends to the trace and keeps the files |
| InteractiveFacts.PlanAppend | src/interactive.ts:127-142 | steps run in declared order: walking `a + b` walks `a`, then `b` unless `a` ended the run |
| InteractiveFacts.CancelAbortsWalk | src/interactive.ts:70-74 | a walk that does not end Aborted was never answered Cancel |
| Interactive.Scaffold | src/interactive.ts:97-145 | setup mode only writes the default config (warning if present) and completes; without `config.json` the run fails with the no-configuration error and no effect; a configuration that does not parse, or a preset that does not resolve, ends it uncaught with that error's message and no effect; a completed run leaves no section open |
| Interactive.Cli.End | src/interactive.ts:17-23 | the closing rule is printed only when a section was open; the flag ends false |
| Interactive.Cli.Section | src/interactive.ts:25-31 | closes an open section, prints the header, and leaves the flag true |
| Interactive.Cli.Git | src/interactive.ts:61-77 | the new state and the outcome are those of `GitHandler` |
| Interactive.Cli.Ask | src/interactive.ts:135-141 | the question loop's new state and outcome are those of `WalkQuestions` |
| Interactive.Cli.Walk | src/interactive.ts:127-142 | the step loop's new state and outcome are those of `WalkPlan` |
| Interactive.Cli.CreateInteractive | src/interactive.ts:79-145 | the new state and the outcome are those of `Scaffold` |
| InteractiveFacts.GitEffects | src/interactive.ts:61-77 | the git handler only notes the forced answer, prompts, or calls gitInit |
| InteractiveFacts.QuestionsEffects | src/interactive.ts:135-141 | a step's questions perform question effects only |
| InteractiveFacts.PlanEffects | src/interactive.ts:127-142 | the walk performs section and question effects only, never a createDir |
| InteractiveFacts.CreateDirFirst | src/interactive.ts:109-127 | a run whose configuration loads and whose preset resolves announces the project (display name, else preset option, else "default"), then creates the target directory (argument, or ".") once, before any section, prompt or gitInit |
| InteractiveFacts.RunWalksPlan | src/interactive.ts:109-145 | such a run is the walk of the resolved preset's steps, with the target directory and the loaded configuration, after the announcement: a walk that stops (an inline question's "Not implemented yet.", a failing gitInit's message, a missing step's TypeError, an abort) ends the run with that outcome and trace, and a walk that completes is followed by the closing rule and `Done`; so the run completes exactly when the walk does, and a completed run printed exactly the plan's step names, in declared order, as its headers |
| InteractiveFacts.ForcedQuestionsNeverPrompt | src/interactive.ts:63-69 | with a boolean `always.git`, a step's questions never prompt |
| InteractiveFacts.ForcedGitNeverPrompts | src/interactive.ts:63-69 | with a boolean `always.git`, the whole walk never prompts |
| InteractiveFacts.StepTitles | src/interactive.ts:127-133 | a step that does not end the run was resolved and prints exactly one header, with its name |
| InteractiveFacts.PlanTitles | src/interactive.ts:127-133 | a walk that completes resolved every step, and the headers it prints are the plan's names in declared order |
| InteractiveFacts.DefaultCatalogPlan | src/config.ts:77-88 | with the default catalog, `["workspace", "node"]` yields the names `["Workspace", "Node.js"]` |
| InteractiveFacts.EndToEnd | src/interactive.ts:109-145 | defaults on disk, default preset, "./my-app", prompt answered yes: announce, create "./my-app", "Workspace" header, prompt, gitInit in "./my-app", closing rule, completed |
| InteractiveFacts.StepNesting | src/interactive.ts:17-31 | a step's headers and rules alternate with the flag, and the flag it leaves matches them |
| InteractiveFacts.PlanNesting | src/interactive.ts:17-31 | over the walk, a header is printed only with no section open and a rule only with one open; the flag left matches |
| InteractiveFacts.RunNesting | src/interactive.ts:125-145 | the same holds over a whole run, including the final `end()` |
| InteractiveFacts.AbortEndsAtPrompt | src/interactive.ts:43-46 | a step's questions end Aborted only right after a prompt, with nothing after it |
| InteractiveFacts.AbortEndsStep | src/interactive.ts:127-141 | a step ends Aborted only right after a prompt, with nothing after it |
| InteractiveFacts.AbortEndsWalk | src/interactive.ts:70-74 | the walk ends Aborted only right after a prompt, with nothing after it |
| InteractiveFacts.CancelAbortsRun | src/interactive.ts:70-74 | a run that does not end Aborted was never answered Cancel, and an Aborted run's last effect is the prompt |

## Left out

- Terminal rendering: colours, widths, box-drawing in `section` and `end`; a section effect records only the step's name, not its icon or colour.
- Argument parsing with `commander`: its result is the input `Args(setup, preset, directory)`.
- The confirm widget: an oracle gives the k-th prompt's answer; every rejection of the prompt is `Cancel`.
- `createDir` and `gitInit` (src/steps/workspace is not part of this model): `createDir` always succeeds; `gitInit` may fail with a message given by the oracle, and is taken to throw synchronously so that `err` catches it.
- The console output of setup.ts around `createDefaultConfig(true)`; only the warning is recorded.
- The configuration directory from `env-paths` and the module-level `mkdirSync`: the directory is a parameter and directories are not modelled, only files.
- JSON parsing and serialisation: files hold parsed documents; `Unparsable` stands for text `JSON.parse` rejects, and its message is a placeholder, not the engine's `SyntaxError` text.
- GetConfig: a `config.json` that parses to a preset-shaped object is treated like unparsable text, where the source would spread it over the defaults.
- LoadPreset: a referenced file that parses to a configuration-shaped object is treated like unparsable text, where the source would return it cast to a preset.
- A non-boolean `always.git` value is represented as absent (both prompt).
- An explicit `null` top-level value in `config.json` is represented as a missing key, so the model falls back to the default and runs on, where the source fails: with `"presets": null` reading the preset throws a `TypeError`, and with `"steps": null` resolving the first step given by name does.
- A `config.json` that holds a JSON value other than an object (`null`, an array, a string) is spread over the defaults by the source; a document in the model is a configuration, a preset or unparsable text, so such a file is not represented.
- Parsed JSON with a missing or ill-typed field (a preset without `steps`, a step without `name` or `questions`, a `steps` entry of the wrong type) cannot be written in the typed model; the source announces such a preset and runs `createDir`, and then a `TypeError` escapes from the walk.
- Falsy preset entries: only the empty reference `""` is falsy; JSON `null`, `false` or `0` entries cannot be written in the typed model.
- Keys inherited from `Object.prototype` are not modelled: a preset named `"toString"` (`presets["toString"]`) is not found; a question identifier such as `"toString"` throws in the model, where `questions["toString"](env)` returns a string and the walk goes on; a step reference such as `"toString"` throws in the model, where `cfg.steps["toString"]` is a function whose `name` is read.
- Rendering failures: `section` sets the flag before drawing, and drawing can throw when the step's colour names a member of `chalk` that is not a style (`"level"`, `"name"`, `"toString"`: calling its `bold` fails) or when the terminal is narrower than the header (a negative repeat count); the model always draws. A colour `chalk` does not know at all falls back to the default colour and draws.
- Top-level keys of `config.json` outside the configuration record: the spread keeps them in the merged object, the model's merge drops them (nothing reads them).
- `path.join` normalisation of `<dir>/<ref>.json` (a reference containing `..`): the path is plain concatenation.
- `async`/`await`: the code is sequential and is modelled as such.
- The `package` and `files` metadata of a preset are carried but never interpreted.
- The exit status of `Uncaught` is taken to be 1, the default for an unhandled promise rejection in current Node.js.
