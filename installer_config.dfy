/**
 * `DrupalInstallerInstallerConfig`: the directories and switches the
 * shared-store installer reads. The constructor runs its setters in
 * order; two of them reject values of the wrong JSON type by throwing
 * `UnexpectedValueException`, which `Create` reports as a `Failure`.
 */
module InstallerConfig {
  import opened Wrappers
  import opened Strings
  import opened Template
  import opened CustomPaths
  import opened Extra

  datatype ConfigError = SymlinkEnabledNotBoolean | PackageListNotArray

  /** The configuration's state, as read through its getters. */
  datatype Layout = Layout(
    originalVendorDir: string,
    originalBinDir: string,
    baseDir: string,
    vendorDir: string,
    symlinkBasePath: Option<string>,
    isSymlinkEnabled: bool,
    packageList: seq<string>,
    installerPaths: seq<Rule>)

  /** `$extraConfigs['drupal-installer'][key]`, Unset when the section is missing. */
  function SymlinkEnabledSetting(extra: RootExtra): Setting {
    if extra.drupalInstaller.Some? then extra.drupalInstaller.value.symlinkEnabled else Unset
  }

  function PackageListSetting(extra: RootExtra): Setting {
    if extra.drupalInstaller.Some? then extra.drupalInstaller.value.packageList else Unset
  }

  /** `setIsSymlinkEnabled`: an unset value keeps `current`, a boolean replaces it, anything else is an error. */
  function CheckSymlinkEnabled(current: bool, s: Setting): (r: Result<bool, ConfigError>)
    ensures r.Failure? <==> IsSet(s) && !s.Bool?
    ensures r.Failure? ==> r.error == SymlinkEnabledNotBoolean
    ensures r.Success? ==> r.value == if s.Bool? then s.b else current
  {
    if !IsSet(s) then Success(current)
    else if s.Bool? then Success(s.b)
    else Failure(SymlinkEnabledNotBoolean)
  }

  /** `setPackageList`: an unset value keeps `current`, an array is stored as given, anything else is an error. */
  function CheckPackageList(current: seq<string>, s: Setting): (r: Result<seq<string>, ConfigError>)
    ensures r.Failure? <==> IsSet(s) && !s.List?
    ensures r.Failure? ==> r.error == PackageListNotArray
    ensures r.Success? ==> r.value == if s.List? then s.items else current
  {
    if !IsSet(s) then Success(current)
    else if s.List? then Success(s.items)
    else Failure(PackageListNotArray)
  }

  /** `getOriginalVendorDir($endingSlash)`: a '/' is appended only on request and only to a non-empty dir. */
  function OriginalVendorDirWith(dir: string, endingSlash: bool): (r: string)
    ensures endingSlash && dir != "" ==> r == dir + "/"
    ensures !(endingSlash && dir != "") ==> r == dir
  {
    if endingSlash && dir != "" then dir + "/" else dir
  }

  /** The default of `isSymlinkEnabled`; `packageList` and `installerPaths` default to empty. */
  const DefaultSymlinkEnabled := true

  /** The configuration the constructor builds, or the first exception it throws. */
  function ConfigOf(dirs: ComposerDirs, extra: RootExtra, noDev: bool, branch: string): Result<Layout, ConfigError> {
    match CheckSymlinkEnabled(DefaultSymlinkEnabled, SymlinkEnabledSetting(extra))
    case Failure(e) => Failure(e)
    case Success(enabled) =>
      match CheckPackageList([], PackageListSetting(extra))
      case Failure(e) => Failure(e)
      case Success(list) =>
        Success(Layout(
          dirs.vendorRelative, dirs.binRelative, BaseDirOf(dirs),
          BuildPrefixOf(extra, noDev, branch) + "/" + dirs.vendorRelative,
          None, enabled, list, extra.installerPaths.GetOr([])))
  }

  class DrupalInstallerInstallerConfig {
    var originalVendorDir: string
    var originalBinDir: string
    var baseDir: string
    var vendorDir: string
    var symlinkBasePath: Option<string>
    var isSymlinkEnabled: bool
    var packageList: seq<string>
    var installerPaths: seq<Rule>

    function State(): Layout
      reads this
    {
      Layout(originalVendorDir, originalBinDir, baseDir, vendorDir, symlinkBasePath,
             isSymlinkEnabled, packageList, installerPaths)
    }

    /** The constructor up to the first setter that can throw. */
    constructor Init(dirs: ComposerDirs, extra: RootExtra, noDev: bool, branch: string)
      ensures originalVendorDir == dirs.vendorRelative && originalBinDir == dirs.binRelative
      ensures vendorDir == BuildPrefixOf(extra, noDev, branch) + "/" + dirs.vendorRelative
      ensures baseDir == BaseDirOf(dirs)
      ensures symlinkBasePath == None
      ensures isSymlinkEnabled == DefaultSymlinkEnabled && packageList == [] && installerPaths == []
    {
      isSymlinkEnabled := DefaultSymlinkEnabled;
      packageList := [];
      installerPaths := [];
      symlinkBasePath := None;
      new;
      var base := DropTail(dirs.vendorAbsolute, |dirs.vendorRelative|);
      originalVendorDir := dirs.vendorRelative;
      originalBinDir := dirs.binRelative;
      SetVendorDir(base, extra, noDev, branch);
      SetBaseDir(base);
      SetSymlinkBasePath(extra);
    }

    /** The whole constructor: a configuration, or the exception of the first setter that rejects its value. */
    static method Create(dirs: ComposerDirs, extra: RootExtra, noDev: bool, branch: string)
      returns (r: Result<DrupalInstallerInstallerConfig, ConfigError>)
      ensures r.Failure? <==> ConfigOf(dirs, extra, noDev, branch).Failure?
      ensures r.Failure? ==> r.error == ConfigOf(dirs, extra, noDev, branch).error
      ensures r.Success? ==> fresh(r.value) && r.value.State() == ConfigOf(dirs, extra, noDev, branch).value
    {
      var c := new DrupalInstallerInstallerConfig.Init(dirs, extra, noDev, branch);
      var err := c.SetIsSymlinkEnabled(extra);
      if err.Some? {
        return Failure(err.value);
      }
      err := c.SetPackageList(extra);
      if err.Some? {
        return Failure(err.value);
      }
      c.SetInstallerPaths(extra);
      return Success(c);
    }

    /**
     * `setBaseDir`: the `symlink-dir` override it tests is read from a
     * variable the method does not have, so the base dir is always the
     * one computed from Composer's dirs.
     */
    method SetBaseDir(base: string)
      modifies this
      ensures baseDir == base
      ensures State() == old(State()).(baseDir := base)
    {
      baseDir := base;
    }

    /** `setVendorDir`: the build prefix loop, `{$branch}`, `rtrim`, then `/` and the original vendor dir. */
    method SetVendorDir(base: string, extra: RootExtra, noDev: bool, branch: string)
      modifies this
      ensures vendorDir == BuildPrefixOf(extra, noDev, branch) + "/" + originalVendorDir
      ensures State() == old(State()).(vendorDir := vendorDir)
    {
      var prefix := "";
      if extra.drupalInstaller.Some? {
        var section := extra.drupalInstaller.value;
        var i := 0;
        while i < |DirKinds|
          invariant 0 <= i <= |DirKinds|
          invariant prefix == Accumulated(section, noDev, DirKinds[..i])
        {
          assert DirKinds[..i + 1][..i] == DirKinds[..i];
          prefix := prefix + Part(section, DirKinds[i], noDev);
          prefix := RTrim(prefix, '/') + "/";
          i := i + 1;
        }
        assert DirKinds[..|DirKinds|] == DirKinds;
      }
      var templated := TemplatePath(prefix, InflectPackageVars(BranchVars(branch)));
      vendorDir := RTrim(templated, '/') + "/" + GetOriginalVendorDir();
    }

    /** `setSymlinkBasePath`: its body is commented out; the base path stays NULL. */
    method SetSymlinkBasePath(extra: RootExtra)
      ensures State() == old(State())
    {
    }

    method SetIsSymlinkEnabled(extra: RootExtra) returns (err: Option<ConfigError>)
      modifies this
      ensures var c := CheckSymlinkEnabled(old(isSymlinkEnabled), SymlinkEnabledSetting(extra));
        && (err.Some? <==> c.Failure?)
        && (err.Some? ==> err.value == c.error && State() == old(State()))
        && (err.None? ==> State() == old(State()).(isSymlinkEnabled := c.value))
    {
      var s := SymlinkEnabledSetting(extra);
      if IsSet(s) {
        if !s.Bool? {
          return Some(SymlinkEnabledNotBoolean);
        }
        isSymlinkEnabled := s.b;
      }
      return None;
    }

    method SetPackageList(extra: RootExtra) returns (err: Option<ConfigError>)
      modifies this
      ensures var c := CheckPackageList(old(packageList), PackageListSetting(extra));
        && (err.Some? <==> c.Failure?)
        && (err.Some? ==> err.value == c.error && State() == old(State()))
        && (err.None? ==> State() == old(State()).(packageList := c.value))
    {
      var s := PackageListSetting(extra);
      if IsSet(s) {
        if !s.List? {
          return Some(PackageListNotArray);
        }
        packageList := s.items;
      }
      return None;
    }

    method SetInstallerPaths(extra: RootExtra)
      modifies this
      ensures State() == old(State()).(installerPaths := if extra.installerPaths.Some? then extra.installerPaths.value else old(installerPaths))
    {
      if extra.installerPaths.Some? {
        installerPaths := extra.installerPaths.value;
      }
    }

    function GetOriginalVendorDir(endingSlash: bool := false): string
      reads this
    {
      OriginalVendorDirWith(originalVendorDir, endingSlash)
    }

    function GetInstallerPaths(): seq<Rule> reads this { installerPaths }
    function GetPackageList(): seq<string> reads this { packageList }
    function IsSymlinkEnabled(): bool reads this { isSymlinkEnabled }
    function GetVendorDir(): string reads this { vendorDir }
    function GetBaseDir(): string reads this { baseDir }
    function GetSymlinkBasePath(): Option<string> reads this { symlinkBasePath }
  }

  // ---------------------------------------------------------------------
  // What the configuration promises.

  /** `symlink-enabled` defaults to true and a boolean is stored as given; any other value is rejected. */
  lemma SymlinkEnabledRules(dirs: ComposerDirs, extra: RootExtra, noDev: bool, branch: string)
    ensures !IsSet(SymlinkEnabledSetting(extra)) && !IsSet(PackageListSetting(extra))
      ==> ConfigOf(dirs, extra, noDev, branch).Success? && ConfigOf(dirs, extra, noDev, branch).value.isSymlinkEnabled
    ensures IsSet(SymlinkEnabledSetting(extra)) && !SymlinkEnabledSetting(extra).Bool?
      ==> ConfigOf(dirs, extra, noDev, branch) == Failure(SymlinkEnabledNotBoolean)
    ensures ConfigOf(dirs, extra, noDev, branch).Success? && SymlinkEnabledSetting(extra).Bool?
      ==> ConfigOf(dirs, extra, noDev, branch).value.isSymlinkEnabled == SymlinkEnabledSetting(extra).b
  {
  }

  /** `package-list` defaults to empty and an array is stored verbatim; a non-array is rejected. */
  lemma PackageListRules(dirs: ComposerDirs, extra: RootExtra, noDev: bool, branch: string)
    requires !IsSet(SymlinkEnabledSetting(extra)) || SymlinkEnabledSetting(extra).Bool?
    ensures ConfigOf(dirs, extra, noDev, branch).Failure?
        <==> IsSet(PackageListSetting(extra)) && !PackageListSetting(extra).List?
    ensures ConfigOf(dirs, extra, noDev, branch).Failure?
        ==> ConfigOf(dirs, extra, noDev, branch).error == PackageListNotArray
    ensures ConfigOf(dirs, extra, noDev, branch).Success?
        ==> ConfigOf(dirs, extra, noDev, branch).value.packageList
            == (if PackageListSetting(extra).List? then PackageListSetting(extra).items else [])
  {
  }

  /** `installer-paths` is copied as given, or stays empty; `symlink-dir` never reaches the base dir. */
  lemma PathsAndBaseDir(dirs: ComposerDirs, extra: RootExtra, noDev: bool, branch: string, other: Option<string>)
    requires ConfigOf(dirs, extra, noDev, branch).Success?
    ensures ConfigOf(dirs, extra, noDev, branch).value.installerPaths == extra.installerPaths.GetOr([])
    ensures ConfigOf(dirs, extra, noDev, branch).value.baseDir == BaseDirOf(dirs)
    ensures extra.drupalInstaller.Some? ==>
      var extra' := extra.(drupalInstaller := Some(extra.drupalInstaller.value.(symlinkDir := other)));
      ConfigOf(dirs, extra', noDev, branch) == ConfigOf(dirs, extra, noDev, branch)
  {
    if extra.drupalInstaller.Some? {
      var extra' := extra.(drupalInstaller := Some(extra.drupalInstaller.value.(symlinkDir := other)));
      assert RawPrefix(extra', noDev) == RawPrefix(extra, noDev) by {
        assert forall k :: Part(extra'.drupalInstaller.value, k, noDev) == Part(extra.drupalInstaller.value, k, noDev);
        AccumulatedDependsOnParts(extra'.drupalInstaller.value, extra.drupalInstaller.value, noDev, DirKinds);
      }
    }
  }

  lemma {:induction false} AccumulatedDependsOnParts(s1: InstallerSection, s2: InstallerSection, noDev: bool, kinds: seq<DirKind>)
    requires forall k :: Part(s1, k, noDev) == Part(s2, k, noDev)
    ensures Accumulated(s1, noDev, kinds) == Accumulated(s2, noDev, kinds)
    decreases |kinds|
  {
    if kinds != [] {
      AccumulatedDependsOnParts(s1, s2, noDev, kinds[..|kinds| - 1]);
    }
  }

  /**
   * The vendor dir is the build prefix of `PluginInstallerConfig` followed
   * by `/` and the original vendor dir; without a `drupal-installer` key
   * it is exactly `/` followed by the original vendor dir.
   */
  lemma VendorDirShape(dirs: ComposerDirs, extra: RootExtra, noDev: bool, branch: string)
    requires ConfigOf(dirs, extra, noDev, branch).Success?
    ensures var v := ConfigOf(dirs, extra, noDev, branch).value.vendorDir;
      && v == BuildPrefixOf(extra, noDev, branch) + "/" + dirs.vendorRelative
      && |v| > |dirs.vendorRelative| && v[|v| - |dirs.vendorRelative| - 1..] == "/" + dirs.vendorRelative
    ensures extra.drupalInstaller.None? ==> ConfigOf(dirs, extra, noDev, branch).value.vendorDir == "/" + dirs.vendorRelative
  {
    var v := ConfigOf(dirs, extra, noDev, branch).value.vendorDir;
    var p := BuildPrefixOf(extra, noDev, branch);
    assert v[|v| - |dirs.vendorRelative| - 1..] == v[|p|..];
    if extra.drupalInstaller.None? {
      NoSectionNoPrefix(extra, noDev, branch);
    }
  }
}
