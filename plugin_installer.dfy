/**
 * `PluginInstaller`: a `LibraryInstaller` whose install path puts
 * `drupal-core` at the site root, the parent of the vendor dir, and every
 * other package under the vendor dir, with the package's target dir appended
 * when that is non-empty.
 */
module PluginInstallerModel {
  import opened Strings
  import opened Packages
  import opened Fs
  import opened InstallerConfig
  import opened SharedStore

  /** `getInstallPath`, given Composer's `vendor-dir`. */
  function GetInstallPath(vendorDir: string, pkg: Package): (r: Path)
    ensures IsEmpty(pkg.targetDir) ==> r == BasePath(vendorDir, pkg)
    ensures !IsEmpty(pkg.targetDir) ==> r == BasePath(vendorDir, pkg) + "/" + pkg.targetDir
  {
    BasePath(vendorDir, pkg) + TargetSuffix(pkg)
  }

  function BasePath(vendorDir: string, pkg: Package): Path {
    if pkg.pkgType == CoreType then Dirname(vendorDir) else vendorDir + "/" + pkg.prettyName
  }

  /** `isInstalled`, over the installed versions and the disk. */
  function IsInstalled(repo: set<PackageKey>, nodes: Nodes, vendorDir: string, pkg: Package): bool {
    if pkg.pkgType == CoreType then GetInstallPath(vendorDir, pkg) + "/index.php" in nodes
    else pkg.Key() in repo && GetInstallPath(vendorDir, pkg) in nodes
  }

  /** `supports`: every type. */
  function Supports(packageType: string): (r: bool)
    ensures r
  {
    true
  }

  /** With a vendor dir `root/vendor`, `drupal-core` lands in `root`, every other package in `root/vendor/<name>`. */
  lemma CoreAtSiteRoot(root: string, vendor: string, pkg: Package)
    requires root != [] && root[|root| - 1] != '/'
    requires vendor != [] && '/' !in vendor
    requires IsEmpty(pkg.targetDir)
    ensures pkg.pkgType == CoreType ==> GetInstallPath(root + "/" + vendor, pkg) == root
    ensures pkg.pkgType != CoreType ==> GetInstallPath(root + "/" + vendor, pkg) == root + "/" + vendor + "/" + pkg.prettyName
  {
    DirnameOfJoin(root, vendor);
  }

  /** For `drupal-core` only the marker file counts; the repository is not consulted. */
  lemma CoreIgnoresRepository(repo1: set<PackageKey>, repo2: set<PackageKey>, nodes: Nodes, vendorDir: string, pkg: Package)
    requires pkg.pkgType == CoreType
    ensures IsInstalled(repo1, nodes, vendorDir, pkg) == IsInstalled(repo2, nodes, vendorDir, pkg)
    ensures IsInstalled(repo1, nodes, vendorDir, pkg) <==> GetInstallPath(vendorDir, pkg) + "/index.php" in nodes
  {
  }

  /** For any other type both the repository entry and a readable install path are needed. */
  lemma OtherTypesNeedRepository(repo: set<PackageKey>, nodes: Nodes, vendorDir: string, pkg: Package)
    requires pkg.pkgType != CoreType
    ensures IsInstalled(repo, nodes, vendorDir, pkg) <==> pkg.Key() in repo && GetInstallPath(vendorDir, pkg) in nodes
    ensures pkg.Key() !in repo ==> !IsInstalled(repo, nodes, vendorDir, pkg)
  {
  }

  /**
   * A `drupal-core` whose sources hold an `index.php`, installed by the
   * shared-store installer, counts as installed for this installer
   * pointed at the same vendor dir.
   */
  lemma CoreCopyIsInstalled(L: Layout, project: string, w: World, pkg: Package)
    requires pkg.pkgType == CoreType && IsEmpty(pkg.targetDir)
    requires InstallPath(L, pkg) + "/index.php" in Fetched(L, w, pkg).nodes
    ensures var w1 := SharedStore.Install(L, project, w, pkg).world;
      IsInstalled(w1.repo, w1.nodes, L.vendorDir, pkg)
  {
    CoreInstallProvidesIndex(L, project, w, pkg);
  }
}
