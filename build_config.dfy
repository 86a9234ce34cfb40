/**
 * `PluginInstallerConfig`: the original Composer directories, the build
 * prefix and the build directories derived from them, computed once by
 * the constructor's setters and read back through two getters.
 */
module BuildConfig {
  import opened Wrappers
  import opened Strings
  import opened Template
  import opened CustomPaths
  import opened Extra

  type DirTable = map<string, map<string, string>>

  /** `isset($table[$pathType][$dirType]) ? $table[$pathType][$dirType] : null`. */
  function Entry2(table: DirTable, pathType: string, dirType: string): (r: Option<string>)
    ensures r.Some? <==> pathType in table && dirType in table[pathType]
    ensures r.Some? ==> r.value == table[pathType][dirType]
  {
    if pathType in table && dirType in table[pathType] then Some(table[pathType][dirType]) else None
  }

  /** `originalDirectories`: absolute base, vendor and bin dirs; relative vendor and bin dirs. */
  function OriginalDirectoriesOf(dirs: ComposerDirs): DirTable {
    map[
      "absolute" := map["baseDir" := BaseDirOf(dirs), "vendorDir" := dirs.vendorAbsolute, "binDir" := dirs.binAbsolute],
      "relative" := map["vendorDir" := dirs.vendorRelative, "binDir" := dirs.binRelative]]
  }

  /**
   * `buildDirectories`: absolute ones under `base + "/" + prefix + "/"`,
   * relative ones glued to the prefix without a separator.
   */
  function BuildDirectoriesOf(base: string, vendorRel: string, binRel: string, prefix: string): DirTable {
    var abs := base + "/" + prefix + "/";
    map[
      "absolute" := map["baseDir" := abs, "vendorDir" := abs + vendorRel, "binDir" := abs + binRel],
      "relative" := map["baseDir" := prefix, "vendorDir" := prefix + vendorRel, "binDir" := prefix + binRel]]
  }

  class PluginInstallerConfig {
    var originalDirectories: DirTable
    var buildDirectories: DirTable
    var buildPrefix: string
    var extraConfig: RootExtra

    /** The four setters, in the constructor's order. */
    constructor(dirs: ComposerDirs, extra: RootExtra, noDev: bool, branch: string)
      ensures extraConfig == extra
      ensures originalDirectories == OriginalDirectoriesOf(dirs)
      ensures buildPrefix == BuildPrefixOf(extra, noDev, branch)
      ensures buildDirectories
           == BuildDirectoriesOf(BaseDirOf(dirs), dirs.vendorRelative, dirs.binRelative, BuildPrefixOf(extra, noDev, branch))
    {
      new;
      SetExtra(extra);
      SetOriginalDirectories(dirs);
      SetBuildPrefix(extra, noDev, branch);
      SetBuildDirectories();
    }

    method SetOriginalDirectories(dirs: ComposerDirs)
      modifies this
      ensures originalDirectories == OriginalDirectoriesOf(dirs)
      ensures buildDirectories == old(buildDirectories) && buildPrefix == old(buildPrefix)
      ensures extraConfig == old(extraConfig)
    {
      var baseDirAbsolute := DropTail(dirs.vendorAbsolute, |dirs.vendorRelative|);
      originalDirectories := map[
        "absolute" := map["baseDir" := baseDirAbsolute, "vendorDir" := dirs.vendorAbsolute, "binDir" := dirs.binAbsolute],
        "relative" := map["vendorDir" := dirs.vendorRelative, "binDir" := dirs.binRelative]];
    }

    /** `setBuildPrefix`: the `build-dir` / `version-dir` loop, then `{$branch}` and a final `rtrim`. */
    method SetBuildPrefix(extra: RootExtra, noDev: bool, branch: string)
      modifies this
      ensures buildPrefix == BuildPrefixOf(extra, noDev, branch)
      ensures originalDirectories == old(originalDirectories) && buildDirectories == old(buildDirectories)
      ensures extraConfig == old(extraConfig)
    {
      var prefix := "";
      if extra.drupalInstaller.Some? {
        var section := extra.drupalInstaller.value;
        var i := 0;
        while i < |DirKinds|
          invariant 0 <= i <= |DirKinds|
          invariant prefix == Accumulated(section, noDev, DirKinds[..i])
        {
          assert DirKinds[..i + 1][..i] == DirKinds[..i];
          prefix := prefix + Part(section, DirKinds[i], noDev);
          prefix := RTrim(prefix, '/') + "/";
          i := i + 1;
        }
        assert DirKinds[..|DirKinds|] == DirKinds;
      }
      var templated := TemplatePath(prefix, InflectPackageVars(BranchVars(branch)));
      buildPrefix := RTrim(templated, '/');
    }

    method SetBuildDirectories()
      requires "absolute" in originalDirectories && "baseDir" in originalDirectories["absolute"]
      requires "relative" in originalDirectories
      requires "vendorDir" in originalDirectories["relative"] && "binDir" in originalDirectories["relative"]
      modifies this
      ensures originalDirectories == old(originalDirectories) && buildPrefix == old(buildPrefix)
      ensures buildDirectories == BuildDirectoriesOf(
        originalDirectories["absolute"]["baseDir"], originalDirectories["relative"]["vendorDir"],
        originalDirectories["relative"]["binDir"], buildPrefix)
      ensures extraConfig == old(extraConfig)
    {
      var baseDirAbsolute := originalDirectories["absolute"]["baseDir"] + "/";
      var prefix := buildPrefix + "/";
      var buildPrefixAbsolute := baseDirAbsolute + prefix;
      assert buildPrefixAbsolute == originalDirectories["absolute"]["baseDir"] + "/" + buildPrefix + "/";
      var vendorDirRelative := originalDirectories["relative"]["vendorDir"];
      var binDirRelative := originalDirectories["relative"]["binDir"];
      buildDirectories := map[
        "absolute" := map[
          "baseDir" := buildPrefixAbsolute,
          "vendorDir" := buildPrefixAbsolute + vendorDirRelative,
          "binDir" := buildPrefixAbsolute + binDirRelative],
        "relative" := map[
          "baseDir" := buildPrefix,
          "vendorDir" := buildPrefix + vendorDirRelative,
          "binDir" := buildPrefix + binDirRelative]];
    }

    function GetOriginalDirectory(pathType: string := "absolute", dirType: string := "baseDir"): Option<string>
      reads this
    {
      Entry2(originalDirectories, pathType, dirType)
    }

    function GetBuildDirectory(pathType: string := "absolute", dirType: string := "baseDir"): Option<string>
      reads this
    {
      Entry2(buildDirectories, pathType, dirType)
    }

    method SetExtra(extra: RootExtra)
      modifies this
      ensures extraConfig == extra
      ensures originalDirectories == old(originalDirectories) && buildDirectories == old(buildDirectories)
      ensures buildPrefix == old(buildPrefix)
    {
      extraConfig := extra;
    }

    function GetExtra(): RootExtra
      reads this
    {
      extraConfig
    }
  }

  /**
   * What the getters find in the original table: the three absolute dirs
   * and the two relative ones; there is no relative base dir, and the
   * default arguments select the absolute base dir.
   */
  lemma OriginalDirectoryLookups(dirs: ComposerDirs)
    ensures Entry2(OriginalDirectoriesOf(dirs), "absolute", "baseDir") == Some(BaseDirOf(dirs))
    ensures Entry2(OriginalDirectoriesOf(dirs), "absolute", "vendorDir") == Some(dirs.vendorAbsolute)
    ensures Entry2(OriginalDirectoriesOf(dirs), "relative", "vendorDir") == Some(dirs.vendorRelative)
    ensures Entry2(OriginalDirectoriesOf(dirs), "relative", "binDir") == Some(dirs.binRelative)
    ensures Entry2(OriginalDirectoriesOf(dirs), "relative", "baseDir") == None
    ensures forall p, d :: p != "absolute" && p != "relative" ==> Entry2(OriginalDirectoriesOf(dirs), p, d) == None
  {
  }

  /**
   * The build directories: the absolute vendor and bin dirs are the
   * absolute build base followed by the relative dir, so the base is a
   * prefix of both; the relative ones are the prefix followed by the
   * relative dir with no separator; all four end with that relative dir.
   */
  lemma BuildDirectoriesShape(base: string, vendorRel: string, binRel: string, prefix: string)
    ensures var t := BuildDirectoriesOf(base, vendorRel, binRel, prefix);
      && Entry2(t, "absolute", "vendorDir") == Some(base + "/" + prefix + "/" + vendorRel)
      && Entry2(t, "absolute", "binDir") == Some(base + "/" + prefix + "/" + binRel)
      && Entry2(t, "relative", "vendorDir") == Some(prefix + vendorRel)
      && Entry2(t, "relative", "binDir") == Some(prefix + binRel)
      && t["absolute"]["baseDir"] <= t["absolute"]["vendorDir"]
      && t["absolute"]["baseDir"] <= t["absolute"]["binDir"]
      && t["relative"]["baseDir"] <= t["relative"]["vendorDir"]
      && EndsWith(t["absolute"]["vendorDir"], vendorRel) && EndsWith(t["relative"]["vendorDir"], vendorRel)
      && EndsWith(t["absolute"]["binDir"], binRel) && EndsWith(t["relative"]["binDir"], binRel)
  {
  }

  /** `s` ends with `t`. */
  predicate EndsWith(s: string, t: string) {
    |t| <= |s| && s[|s| - |t|..] == t
  }

  /** Without a `drupal-installer` key, the absolute build base is the original base followed by "//". */
  lemma NoSectionBuildBase(dirs: ComposerDirs, extra: RootExtra, noDev: bool, branch: string)
    requires extra.drupalInstaller.None?
    ensures var t := BuildDirectoriesOf(BaseDirOf(dirs), dirs.vendorRelative, dirs.binRelative, BuildPrefixOf(extra, noDev, branch));
      t["absolute"]["baseDir"] == BaseDirOf(dirs) + "//"
      && t["relative"]["vendorDir"] == dirs.vendorRelative
  {
    NoSectionNoPrefix(extra, noDev, branch);
  }
}
