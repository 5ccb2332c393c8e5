/** Properties of the configuration store and the preset resolver. */
module ConfigFacts {
  import opened Wrappers
  import opened Config

  /** A configuration is determined by the values it holds under its top-level keys. */
  lemma {:induction false} FieldsDetermine(a: Config, b: Config)
    requires forall k :: Field(a, k) == Field(b, k)
    ensures a == b
  {
    assert Field(a, PackageManagerKey) == Field(b, PackageManagerKey);
    assert Field(a, AlwaysKey) == Field(b, AlwaysKey);
    assert Field(a, PresetsKey) == Field(b, PresetsKey);
    assert Field(a, UserKey) == Field(b, UserKey);
    assert Field(a, DefaultLicenseKey) == Field(b, DefaultLicenseKey);
    assert Field(a, EsmKey) == Field(b, EsmKey);
    assert Field(a, StepsKey) == Field(b, StepsKey);
  }

  /** The merge is the object spread: the document's keys override the defaults' as a map union. */
  lemma MergeIsSpread(d: Config, u: ConfigDoc)
    ensures Entries(Merge(d, u)) == Entries(d) + DocEntries(u)
  {
  }

  function EmptyDoc(): ConfigDoc
  {
    ConfigDoc(None, None, None, None, None, None, None)
  }

  /** An empty config.json leaves the defaults as they are. */
  lemma MergeEmpty(d: Config)
    ensures Merge(d, EmptyDoc()) == d
  {
  }

  /**
   * Merging the serialisation of `c` gives back `c`, provided `c` defines every
   * key the defaults define (a key `c` leaves unset is dropped on serialisation,
   * so the default's value would show through).
   */
  lemma MergeSerialized(d: Config, c: Config)
    requires forall k :: Field(d, k).Some? ==> Field(c, k).Some?
    ensures Merge(d, ToDoc(c)) == c
  {
    var r := Merge(d, ToDoc(c));
    forall k ensures Field(r, k) == Field(c, k) {
      assert DocField(ToDoc(c), k) == Field(c, k);
    }
    FieldsDetermine(r, c);
  }

  /** After setup, the configuration read back is the defaults, or what was there before. */
  lemma SetupThenLoad(files: Files, dir: string)
    ensures GetConfig(WithDefaultConfig(files, dir), dir) ==
      if ExistsConfig(files, dir) then GetConfig(files, dir) else Ok(DefaultConfig())
  {
  }

  /** Running setup twice leaves the same files as running it once. */
  lemma CreateDefaultIdempotent(files: Files, dir: string)
    ensures WithDefaultConfig(WithDefaultConfig(files, dir), dir) == WithDefaultConfig(files, dir)
  {
  }

  /** Two file maps that agree on the files `loadPreset` reads give the same result. */
  lemma LoadPresetReadsOnly(cfg: Config, files1: Files, files2: Files, dir: string, name: Option<string>)
    requires forall p :: p in ReadSet(cfg, dir, name) ==>
      (p in files1 <==> p in files2) && (p in files1 ==> files1[p] == files2[p])
    ensures LoadPreset(cfg, files1, dir, name) == LoadPreset(cfg, files2, dir, name)
  {
  }

  /** With the default configuration and no name given, the built-in inline preset is resolved without reading a file. */
  lemma DefaultPresetResolves(files: Files, dir: string)
    ensures ReadSet(DefaultConfig(), dir, None) == {}
    ensures LoadPreset(DefaultConfig(), files, dir, None) == Ok(DefaultPreset())
  {
  }
}
