/**
 * The configuration store and preset resolver of create-idea (src/config.ts):
 * the configuration record and its compiled-in defaults, the shallow merge of
 * the user's config.json over those defaults, the write-if-absent setup of
 * config.json, and the resolution of a preset name, following at most one
 * reference to a preset file.
 *
 * The file system is a map from path to already-parsed document.
 */
module Config {
  import opened Wrappers

  /** A JSON value; used only for the package metadata, which this code never interprets. */
  datatype Json =
    | JNull
    | JBool(b: bool)
    | JString(s: string)
    | JArray(items: seq<Json>)
    | JObject(fields: map<string, Json>)

  datatype PackageManager = Npm | Yarn | Pnpm

  /** Forced answers. `git` is None when the key is absent or not a boolean. */
  datatype Always = Always(git: Option<bool>)

  datatype User = User(fullName: string, npmUsername: Option<string>, gitUsername: Option<string>)

  /** A question reference: a registry identifier (only "git" has a handler) or an inline question. */
  datatype Question =
    | Named(name: string)
    | Inline(kind: string, id: string)

  datatype CustomStep = CustomStep(icon: Option<string>, color: Option<string>, name: string, questions: seq<Question>)

  /** A step reference: a name looked up in the configuration's step catalog, or an inline step. */
  datatype Step =
    | Symbolic(ref: string)
    | InlineStep(step: CustomStep)

  datatype Preset = Preset(
    displayName: Option<string>,
    package: Option<map<string, Json>>,
    files: Option<map<string, string>>,
    steps: seq<Step>)

  /** An entry of `presets`: the preset itself, or the name of a preset file in the config directory. */
  datatype PresetEntry =
    | InlinePreset(preset: Preset)
    | PresetRef(ref: string)

  datatype Config = Config(
    packageManager: PackageManager,
    always: Option<Always>,
    presets: map<string, PresetEntry>,
    user: User,
    defaultLicense: Option<string>,
    esm: Option<bool>,
    steps: map<string, CustomStep>)

  /** A parsed config.json: every top-level key may be missing. */
  datatype ConfigDoc = ConfigDoc(
    packageManager: Option<PackageManager>,
    always: Option<Always>,
    presets: Option<map<string, PresetEntry>>,
    user: Option<User>,
    defaultLicense: Option<string>,
    esm: Option<bool>,
    steps: Option<map<string, CustomStep>>)

  /** The contents of a file, already parsed. */
  datatype Document =
    | ConfigDocument(doc: ConfigDoc)
    | PresetDocument(preset: Preset)
    | Unparsable

  type Files = map<string, Document>

  datatype ConfigError =
    | PresetNotFound(name: string)
    | PresetFileNotFound(ref: string)
    | Malformed(path: string)

  function ErrorMessage(e: ConfigError): string
  {
    match e
    case PresetNotFound(name) => "Preset \"" + name + "\" not found."
    case PresetFileNotFound(ref) => "Preset file \"" + ref + "\" not found."
    case Malformed(path) => "Invalid JSON in " + path
  }

  const AlreadyExistsWarning := "Warning: Config file already exists, skipping creation."

  // ---------------------------------------------------------------------------
  // Defaults

  function WorkspaceStep(): CustomStep
  {
    CustomStep(Some("\U{f413}"), None, "Workspace", [Named("git")])
  }

  function NodeStep(): CustomStep
  {
    CustomStep(Some("\U{ed0d}"), Some("greenBright"), "Node.js", [])
  }

  function DefaultPreset(): Preset
  {
    Preset(
      Some("Simple Node.js Package"),
      Some(map[
        "version" := JString("0.1.0"),
        "entryPoint" := JString("src/main.js"),
        "typeDefs" := JString("src/main.d.ts"),
        "moduleEntryPoint" := JBool(true),
        "publishInclude" := JArray([
          JString("src"), JString("package.json"), JString("package-lock.json"),
          JString("pnpm-lock.yaml"), JString("yarn.lock"), JString("LICENSE"),
          JString("README.md")]),
        "author" := JBool(true),
        "license" := JBool(true),
        "esm" := JString("default")]),
      None,
      [Symbolic("workspace")])
  }

  /**
   * The compiled-in configuration; it sets neither `always`, `defaultLicense`
   * nor `esm`, and its one preset refers only to steps of its own catalog.
   */
  function DefaultConfig(): (c: Config)
    ensures c.packageManager == Npm && c.always.None? && c.defaultLicense.None? && c.esm.None?
    ensures c.steps.Keys == {"workspace", "node"} && c.presets.Keys == {"default"}
    ensures c.presets["default"].InlinePreset?
    ensures forall s :: s in c.presets["default"].preset.steps ==> s.Symbolic? && s.ref in c.steps
  {
    Config(
      Npm,
      None,
      map["default" := InlinePreset(DefaultPreset())],
      User("!! CHANGE ME !!", None, None),
      None,
      None,
      map["workspace" := WorkspaceStep(), "node" := NodeStep()])
  }

  // ---------------------------------------------------------------------------
  // The top-level key view of a configuration, as a JSON object sees it

  datatype Key = PackageManagerKey | AlwaysKey | PresetsKey | UserKey | DefaultLicenseKey | EsmKey | StepsKey

  datatype Value =
    | PackageManagerValue(packageManager: PackageManager)
    | AlwaysValue(always: Always)
    | PresetsValue(presets: map<string, PresetEntry>)
    | UserValue(user: User)
    | DefaultLicenseValue(license: string)
    | EsmValue(esm: bool)
    | StepsValue(steps: map<string, CustomStep>)

  const AllKeys: set<Key> := {PackageManagerKey, AlwaysKey, PresetsKey, UserKey, DefaultLicenseKey, EsmKey, StepsKey}

  /** The value a configuration object holds under key `k`; None when an optional field is unset. */
  function Field(c: Config, k: Key): Option<Value>
  {
    match k
    case PackageManagerKey => Some(PackageManagerValue(c.packageManager))
    case AlwaysKey => if c.always.Some? then Some(AlwaysValue(c.always.value)) else None
    case PresetsKey => Some(PresetsValue(c.presets))
    case UserKey => Some(UserValue(c.user))
    case DefaultLicenseKey => if c.defaultLicense.Some? then Some(DefaultLicenseValue(c.defaultLicense.value)) else None
    case EsmKey => if c.esm.Some? then Some(EsmValue(c.esm.value)) else None
    case StepsKey => Some(StepsValue(c.steps))
  }

  /** The value a parsed config.json holds under key `k`; None when the key is missing. */
  function DocField(u: ConfigDoc, k: Key): Option<Value>
  {
    match k
    case PackageManagerKey => if u.packageManager.Some? then Some(PackageManagerValue(u.packageManager.value)) else None
    case AlwaysKey => if u.always.Some? then Some(AlwaysValue(u.always.value)) else None
    case PresetsKey => if u.presets.Some? then Some(PresetsValue(u.presets.value)) else None
    case UserKey => if u.user.Some? then Some(UserValue(u.user.value)) else None
    case DefaultLicenseKey => if u.defaultLicense.Some? then Some(DefaultLicenseValue(u.defaultLicense.value)) else None
    case EsmKey => if u.esm.Some? then Some(EsmValue(u.esm.value)) else None
    case StepsKey => if u.steps.Some? then Some(StepsValue(u.steps.value)) else None
  }

  /** The configuration as a JSON object: the keys it defines, with their values. */
  function Entries(c: Config): map<Key, Value>
  {
    map k | k in AllKeys && Field(c, k).Some? :: Field(c, k).value
  }

  /** The parsed config.json as a JSON object. */
  function DocEntries(u: ConfigDoc): map<Key, Value>
  {
    map k | k in AllKeys && DocField(u, k).Some? :: DocField(u, k).value
  }

  function Pick<T>(o: Option<T>, fallback: T): T
  {
    if o.Some? then o.value else fallback
  }

  function PickOptional<T>(o: Option<T>, fallback: Option<T>): Option<T>
  {
    if o.Some? then o else fallback
  }

  /**
   * The document spread over the defaults: every top-level key of the document replaces the
   * default's value wholesale, every other key keeps its default value.
   */
  function Merge(d: Config, u: ConfigDoc): (r: Config)
    ensures forall k :: Field(r, k) == if DocField(u, k).Some? then DocField(u, k) else Field(d, k)
  {
    Config(
      Pick(u.packageManager, d.packageManager),
      PickOptional(u.always, d.always),
      Pick(u.presets, d.presets),
      Pick(u.user, d.user),
      PickOptional(u.defaultLicense, d.defaultLicense),
      PickOptional(u.esm, d.esm),
      Pick(u.steps, d.steps))
  }

  /** The document JSON serialisation of a configuration produces: its unset optional keys are dropped. */
  function ToDoc(c: Config): (u: ConfigDoc)
    ensures forall k :: DocField(u, k) == Field(c, k)
  {
    ConfigDoc(Some(c.packageManager), c.always, Some(c.presets), Some(c.user), c.defaultLicense, c.esm, Some(c.steps))
  }

  // ---------------------------------------------------------------------------
  // The configuration file

  function ConfigPath(dir: string): string
  {
    dir + "/config.json"
  }

  function PresetPath(dir: string, ref: string): string
  {
    dir + "/" + ref + ".json"
  }

  /** `existsConfig`: whether config.json is present, whatever it holds. */
  predicate ExistsConfig(files: Files, dir: string)
    ensures ExistsConfig(files, dir) <==> dir + "/config.json" in files
  {
    ConfigPath(dir) in files
  }

  /** `getConfig`: the defaults when config.json is absent, else the user's document merged over them. */
  function GetConfig(files: Files, dir: string): (r: Result<Config, ConfigError>)
    ensures !ExistsConfig(files, dir) ==> r == Ok(DefaultConfig())
    ensures ExistsConfig(files, dir) ==>
      (r.Ok? <==> files[ConfigPath(dir)].ConfigDocument?) &&
      (r.Err? ==> r.error == Malformed(ConfigPath(dir)))
    ensures r.Ok? && ExistsConfig(files, dir) ==> forall k ::
      Field(r.value, k) == PickOptional(DocField(files[ConfigPath(dir)].doc, k), Field(DefaultConfig(), k))
    ensures r.Ok? ==> forall k :: Field(DefaultConfig(), k).Some? ==> Field(r.value, k).Some?
  {
    if !ExistsConfig(files, dir) then Ok(DefaultConfig())
    else
      match files[ConfigPath(dir)]
      case ConfigDocument(u) => Ok(Merge(DefaultConfig(), u))
      case _ => Err(Malformed(ConfigPath(dir)))
  }

  /** The file map `createDefaultConfig` leaves behind: config.json is written only when absent. */
  function WithDefaultConfig(files: Files, dir: string): (r: Files)
    ensures ExistsConfig(r, dir)
    ensures ExistsConfig(files, dir) ==> r == files
    ensures !ExistsConfig(files, dir) ==> r[ConfigPath(dir)] == ConfigDocument(ToDoc(DefaultConfig()))
    ensures forall p :: p != ConfigPath(dir) ==> (p in r <==> p in files)
    ensures forall p :: p in files ==> p in r && (p != ConfigPath(dir) || ExistsConfig(files, dir) ==> r[p] == files[p])
  {
    if ExistsConfig(files, dir) then files
    else files[ConfigPath(dir) := ConfigDocument(ToDoc(DefaultConfig()))]
  }

  /** The persisted configuration directory and its files. */
  class ConfigStore {
    const dir: string
    var files: Files

    constructor (dir: string, files: Files)
      ensures this.dir == dir && this.files == files
    {
      this.dir := dir;
      this.files := files;
    }

    /** `createDefaultConfig(interactive)`; returns whether the warning is printed. */
    method CreateDefaultConfig(interactive: bool) returns (warned: bool)
      modifies this
      ensures files == WithDefaultConfig(old(files), dir)
      ensures warned <==> interactive && ExistsConfig(old(files), dir)
    {
      if ConfigPath(dir) !in files {
        files := files[ConfigPath(dir) := ConfigDocument(ToDoc(DefaultConfig()))];
        warned := false;
      } else {
        warned := interactive;
      }
    }
  }

  // ---------------------------------------------------------------------------
  // Presets

  /** The preset name used: the given one, or "default". */
  function PresetName(name: Option<string>): string
  {
    if name.Some? then name.value else "default"
  }

  /** Only the empty reference is a falsy entry; an inline preset is an object, hence truthy. */
  predicate Falsy(e: PresetEntry)
  {
    e == PresetRef("")
  }

  /** Whether the configuration has a present, truthy preset entry under `name`. */
  predicate HasPreset(cfg: Config, name: string)
  {
    name in cfg.presets && !Falsy(cfg.presets[name])
  }

  /** The files `loadPreset` reads: the one referenced preset file, or none. */
  function ReadSet(cfg: Config, dir: string, name: Option<string>): set<string>
  {
    var n := PresetName(name);
    if HasPreset(cfg, n) && cfg.presets[n].PresetRef? then {PresetPath(dir, cfg.presets[n].ref)} else {}
  }

  /** `loadPreset`: resolve a preset name ("default" when none is given). */
  function LoadPreset(cfg: Config, files: Files, dir: string, name: Option<string>): (r: Result<Preset, ConfigError>)
    ensures !HasPreset(cfg, PresetName(name)) <==> r == Err(PresetNotFound(PresetName(name)))
    ensures HasPreset(cfg, PresetName(name)) && cfg.presets[PresetName(name)].InlinePreset? ==>
      r == Ok(cfg.presets[PresetName(name)].preset)
    ensures HasPreset(cfg, PresetName(name)) && cfg.presets[PresetName(name)].PresetRef? ==>
      var ref := cfg.presets[PresetName(name)].ref;
      var path := PresetPath(dir, ref);
      (path !in files <==> r == Err(PresetFileNotFound(ref))) &&
      (r.Ok? <==> path in files && files[path].PresetDocument?) &&
      (r.Ok? ==> files[path] == PresetDocument(r.value)) &&
      (path in files && !files[path].PresetDocument? ==> r == Err(Malformed(path)))
  {
    var n := PresetName(name);
    if !HasPreset(cfg, n) then Err(PresetNotFound(n))
    else
      match cfg.presets[n]
      case InlinePreset(p) => Ok(p)
      case PresetRef(ref) =>
        var path := PresetPath(dir, ref);
        if path !in files then Err(PresetFileNotFound(ref))
        else
          match files[path]
          case PresetDocument(p) => Ok(p)
          case _ => Err(Malformed(path))
  }
}
