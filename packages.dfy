/**
 * The package record the installers read (`PackageInterface`) and the
 * `{$name}` / `{$vendor}` variables built from it.
 */
module Packages {
  import opened Strings

  /** The identity of an installed package in the repository and in the usage ledger. */
  datatype PackageKey = PackageKey(name: string, version: string)

  /**
   * A package: its pretty name (`vendor/name`), pretty version, type,
   * target dir and the `installer-name` of its extra. An absent target dir
   * or installer name is "" (PHP treats NULL and "" alike in both tests).
   */
  datatype Package = Package(
    prettyName: string,
    prettyVersion: string,
    pkgType: string,
    targetDir: string,
    installerName: string)
  {
    function Key(): PackageKey { PackageKey(prettyName, prettyVersion) }
  }

  /** `$targetDir ? '/' . $targetDir : ''`. */
  function TargetSuffix(pkg: Package): string {
    if IsEmpty(pkg.targetDir) then "" else "/" + pkg.targetDir
  }

  /** `compact('name', 'vendor')` after the split, with a non-empty installer name in place of the name. */
  function PackageVars(pkg: Package): map<string, string> {
    var (vendor, name) := SplitName(pkg.prettyName);
    map["name" := if IsEmpty(pkg.installerName) then name else pkg.installerName, "vendor" := vendor]
  }

  /** The vendor of a package: the first segment of its pretty name, or "". */
  function Vendor(pkg: Package): string {
    SplitName(pkg.prettyName).0
  }

  /**
   * For `vendor/name` (and `vendor/name/rest`), the variables are the two
   * segments; a non-empty installer name replaces the name and leaves the
   * vendor alone.
   */
  lemma PackageVarsOfSlashedName(pkg: Package, vendor: string, name: string, rest: string)
    requires '/' !in vendor && '/' !in name
    requires pkg.prettyName == vendor + "/" + name || pkg.prettyName == vendor + "/" + name + "/" + rest
    ensures PackageVars(pkg)["vendor"] == vendor && Vendor(pkg) == vendor
    ensures PackageVars(pkg)["name"] == if IsEmpty(pkg.installerName) then name else pkg.installerName
  {
    SplitNameWithSlash(vendor, name, rest);
  }

  /** Without a '/', the vendor is "" and the name is the whole pretty name (or the installer name). */
  lemma PackageVarsOfPlainName(pkg: Package)
    requires '/' !in pkg.prettyName
    ensures PackageVars(pkg)["vendor"] == "" && Vendor(pkg) == ""
    ensures PackageVars(pkg)["name"] == if IsEmpty(pkg.installerName) then pkg.prettyName else pkg.installerName
  {
    SplitNameWithoutSlash(pkg.prettyName);
  }

  /** The installer name changes `{$name}` only. */
  lemma InstallerNameOnlyRenames(pkg: Package, other: string)
    ensures PackageVars(pkg.(installerName := other))["vendor"] == PackageVars(pkg)["vendor"]
    ensures PackageVars(pkg.(installerName := other)).Keys == PackageVars(pkg).Keys == {"name", "vendor"}
  {
  }
}
