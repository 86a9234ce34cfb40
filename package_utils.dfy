/**
 * `PackageUtils::getPackageInstallPath`: the custom install path the root
 * package's `installer-paths` table gives a package, or NULL.
 */
module PackageUtils {
  import opened Wrappers
  import opened Strings
  import opened Template
  import opened CustomPaths
  import opened Packages
  import opened Extra

  /** True when `!empty($extra['installer-paths'])` holds for the root package. */
  predicate HasRules(root: Option<RootExtra>) {
    root.Some? && root.value.installerPaths.Some? && root.value.installerPaths.value != []
  }

  /**
   * The path of the first rule selecting the package by full pretty name,
   * type or vendor, with `{$name}` and `{$vendor}` substituted; `None`
   * (NULL) without a root package, without rules or without a match.
   */
  function GetPackageInstallPath(pkg: Package, root: Option<RootExtra>): (r: Option<string>)
    ensures r.None? <==>
      !HasRules(root)
      || MapCustomInstallPaths(root.value.installerPaths.value, pkg.prettyName, pkg.pkgType, Vendor(pkg)).None?
    ensures r.Some? ==>
      exists i :: 0 <= i < |root.value.installerPaths.value|
        && RuleMatches(root.value.installerPaths.value[i], pkg.prettyName, pkg.pkgType, Vendor(pkg))
        && (forall j :: 0 <= j < i ==> !RuleMatches(root.value.installerPaths.value[j], pkg.prettyName, pkg.pkgType, Vendor(pkg)))
        && r.value == Rendered(root.value.installerPaths.value[i].path, PackageVars(pkg))
  {
    if HasRules(root) then
      match MapCustomInstallPaths(root.value.installerPaths.value, pkg.prettyName, pkg.pkgType, Vendor(pkg))
      case Some(path) => Some(Rendered(path, PackageVars(pkg)))
      case None => None
    else None
  }

  /** A rule listing the full pretty name always selects the package, whatever comes after it. */
  lemma FullNameSelects(pkg: Package, path: string, more: seq<Rule>, extra: RootExtra)
    requires extra.installerPaths == Some([Rule(path, [pkg.prettyName])] + more)
    ensures GetPackageInstallPath(pkg, Some(extra)) == Some(Rendered(path, PackageVars(pkg)))
  {
    assert RuleMatches(Rule(path, [pkg.prettyName]), pkg.prettyName, pkg.pkgType, Vendor(pkg));
  }

  /**
   * Exact selectors are compared with the full `vendor/name`: a rule that
   * lists only the short name (no ':' in it) does not select the package.
   */
  lemma ShortNameDoesNotSelect(pkg: Package, vendor: string, name: string, path: string)
    requires '/' !in vendor && '/' !in name && ':' !in name
    requires pkg.prettyName == vendor + "/" + name
    ensures !RuleMatches(Rule(path, [name]), pkg.prettyName, pkg.pkgType, Vendor(pkg))
  {
    assert pkg.prettyName[|vendor|] == '/';
    assert ("type:" + pkg.pkgType)[4] == ':';
    assert ("vendor:" + Vendor(pkg))[6] == ':';
  }

  /** Without a root package, or with an empty table, there is no custom path. */
  lemma NoRulesNoPath(pkg: Package, root: Option<RootExtra>)
    requires root.None? || root.value.installerPaths.None? || root.value.installerPaths.value == []
    ensures GetPackageInstallPath(pkg, root).None?
  {
  }
}
