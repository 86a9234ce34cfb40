/**
 * The root package's `extra` section as the configuration classes read it,
 * and the build prefix both of them derive from its `drupal-installer`
 * entry: for `build-dir` then `version-dir`, the `--dev` or `--no-dev`
 * variant is appended and the text normalised to one trailing '/'; then
 * `{$branch}` is substituted and trailing '/' trimmed.
 */
module Extra {
  import opened Wrappers
  import opened Strings
  import opened Template
  import opened CustomPaths

  /**
   * Composer's `vendor-dir` and `bin-dir`, as `$config->get(key, 1)`
   * (relative) and `$config->get(key)` (absolute) return them.
   */
  datatype ComposerDirs = ComposerDirs(vendorRelative: string, vendorAbsolute: string, binRelative: string, binAbsolute: string)

  /** `substr($vendorAbsolute, 0, -strlen($vendorRelative))`: the project root both configurations start from. */
  function BaseDirOf(dirs: ComposerDirs): string {
    DropTail(dirs.vendorAbsolute, |dirs.vendorRelative|)
  }

  /** A JSON value as far as the type checks care. */
  datatype Setting = Unset | Null | Bool(b: bool) | List(items: seq<string>) | Scalar(text: string)

  /** `isset($extra[...][key])`: present and not NULL. */
  predicate IsSet(s: Setting) {
    !s.Unset? && !s.Null?
  }

  /** The `{"--dev": ..., "--no-dev": ...}` object of `build-dir` / `version-dir`; a missing variant reads as NULL. */
  datatype DevVariants = DevVariants(dev: Option<string>, noDev: Option<string>)

  /** The `drupal-installer` object. */
  datatype InstallerSection = InstallerSection(
    buildDir: Option<DevVariants>,
    versionDir: Option<DevVariants>,
    symlinkDir: Option<string>,
    symlinkEnabled: Setting,
    packageList: Setting)

  /** The root `extra`: the `drupal-installer` key and the `installer-paths` table. */
  datatype RootExtra = RootExtra(drupalInstaller: Option<InstallerSection>, installerPaths: Option<seq<Rule>>)

  /** The two keys of the `foreach (array('build-dir', 'version-dir') ...)`. */
  datatype DirKind = BuildDir | VersionDir

  const DirKinds: seq<DirKind> := [BuildDir, VersionDir]

  function Entry(section: InstallerSection, kind: DirKind): Option<DevVariants> {
    match kind
    case BuildDir => section.buildDir
    case VersionDir => section.versionDir
  }

  /** The variant the `--no-dev` flag selects; NULL concatenates as "". */
  function Chosen(v: DevVariants, noDev: bool): string {
    if noDev then v.noDev.GetOr("") else v.dev.GetOr("")
  }

  /** What one key contributes before normalisation: its chosen variant, or "" when the key is absent. */
  function Part(section: InstallerSection, kind: DirKind, noDev: bool): string {
    match Entry(section, kind)
    case Some(v) => Chosen(v, noDev)
    case None => ""
  }

  /** One pass of the loop body: append, then `rtrim(..., '/') . '/'`. */
  function Appended(prefix: string, section: InstallerSection, kind: DirKind, noDev: bool): string {
    RTrim(prefix + Part(section, kind, noDev), '/') + "/"
  }

  /** The prefix after the loop has handled the keys in `kinds`. */
  function Accumulated(section: InstallerSection, noDev: bool, kinds: seq<DirKind>): string
    decreases |kinds|
  {
    if kinds == [] then ""
    else Appended(Accumulated(section, noDev, kinds[..|kinds| - 1]), section, kinds[|kinds| - 1], noDev)
  }

  /** The untemplated prefix: "" without a `drupal-installer` key. */
  function RawPrefix(extra: RootExtra, noDev: bool): string {
    match extra.drupalInstaller
    case Some(section) => Accumulated(section, noDev, DirKinds)
    case None => ""
  }

  /** `compact('branch', 'tag')`: `$tag` is never defined, so only the branch is a variable. */
  function BranchVars(branch: string): Vars {
    map["branch" := branch]
  }

  /** The build prefix: the raw prefix with `{$branch}` substituted and trailing '/' trimmed. */
  function BuildPrefixOf(extra: RootExtra, noDev: bool, branch: string): (r: string)
    ensures r == [] || r[|r| - 1] != '/'
  {
    RTrim(Rendered(RawPrefix(extra, noDev), BranchVars(branch)), '/')
  }

  /** A part normalised to end in exactly one '/', or nothing when it is empty or only slashes. */
  function Segment(part: string): string {
    if RTrim(part, '/') == [] then "" else RTrim(part, '/') + "/"
  }

  /**
   * With a `drupal-installer` key, the raw prefix is the build-dir part
   * with its trailing slashes replaced by one '/', followed by the
   * version-dir part normalised the same way (dropped when it is empty).
   * So the result always starts with the build part, and a missing
   * build-dir leaves a leading '/'.
   */
  lemma RawPrefixShape(extra: RootExtra, noDev: bool)
    requires extra.drupalInstaller.Some?
    ensures RawPrefix(extra, noDev)
         == RTrim(Part(extra.drupalInstaller.value, BuildDir, noDev), '/') + "/"
            + Segment(Part(extra.drupalInstaller.value, VersionDir, noDev))
  {
    var section := extra.drupalInstaller.value;
    var b := Part(section, BuildDir, noDev);
    var v := Part(section, VersionDir, noDev);
    assert DirKinds[..1] == [BuildDir] && [BuildDir][..0] == [];
    assert Accumulated(section, noDev, [BuildDir]) == RTrim(b, '/') + "/" by {
      assert "" + b == b;
    }
    var a := RTrim(b, '/') + "/";
    RTrimConcat(a, v, '/');
    if RTrim(v, '/') == [] {
      RTrimDropsSeparator(RTrim(b, '/'));
      RTrimIdempotent(b, '/');
    }
  }

  /** Without a `drupal-installer` key there is no build prefix. */
  lemma NoSectionNoPrefix(extra: RootExtra, noDev: bool, branch: string)
    requires extra.drupalInstaller.None?
    ensures RawPrefix(extra, noDev) == "" && BuildPrefixOf(extra, noDev, branch) == ""
  {
    NoPlaceholderUnchanged("", BranchVars(branch));
  }

  /** The flag only chooses between the two variants of each key. */
  lemma FlagChoosesVariant(section: InstallerSection, kind: DirKind, noDev: bool)
    requires Entry(section, kind).Some?
    ensures Part(section, kind, noDev)
         == (if noDev then Entry(section, kind).value.noDev else Entry(section, kind).value.dev).GetOr("")
  {
  }

  /**
   * The base dir completes the relative vendor dir to the absolute one
   * whenever the relative one is a non-empty suffix of it.
   */
  lemma BaseDirCompletesVendorDir(dirs: ComposerDirs, root: string)
    requires dirs.vendorRelative != [] && dirs.vendorAbsolute == root + dirs.vendorRelative
    ensures BaseDirOf(dirs) + dirs.vendorRelative == dirs.vendorAbsolute
    ensures root != [] ==> BaseDirOf(dirs) == root
  {
    DropTailRestoresSuffix(root, dirs.vendorRelative);
  }

  /** An empty relative vendor dir (`substr($x, 0, -0)`) or one as long as the absolute one gives an empty base dir. */
  lemma BaseDirEmptyCases(dirs: ComposerDirs)
    requires dirs.vendorRelative == [] || |dirs.vendorRelative| >= |dirs.vendorAbsolute|
    ensures BaseDirOf(dirs) == ""
  {
  }
}
