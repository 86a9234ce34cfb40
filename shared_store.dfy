/**
 * The shared-store installer (`DrupalInstallerInstaller`) as functions
 * from one world to the next. Package sources live once per version under
 * the original vendor dir; each project gets a vendor symlink to them (and,
 * for `drupal-*` types, a build symlink), and a usage ledger counts the
 * projects so that sources are only deleted by their last user.
 */
module SharedStore {
  import opened Wrappers
  import opened Strings
  import opened Template
  import opened CustomPaths
  import opened Packages
  import opened Extra
  import opened PackageUtils
  import opened InstallerConfig
  import opened Fs
  import opened Ledger
  import opened Composer

  /** The state the installer changes: repository, disk and usage ledger. */
  datatype World = World(repo: set<PackageKey>, nodes: Nodes, usage: Usage)

  datatype InstallError =
    | FsFailure(fsError: FsError)    // a `RuntimeException` from the filesystem
    | NotInstalled(name: string)     // the `InvalidArgumentException` of the router

  /** The result of an operation that may throw, and the world it leaves behind (partial effects stay). */
  datatype Outcome = Outcome(result: Result<(), InstallError>, world: World)

  /** `getInstallPath`: `originalVendorDir/prettyName/prettyVersion`, then `/targetDir` when there is one. */
  function InstallPath(L: Layout, pkg: Package): Path {
    L.originalVendorDir + "/" + pkg.prettyName + "/" + pkg.prettyVersion + TargetSuffix(pkg)
  }

  /** `getPackageVendorSymlink`: `baseDir/vendorDir/prettyName`. */
  function VendorSymlink(L: Layout, pkg: Package): Path {
    L.baseDir + "/" + L.vendorDir + "/" + pkg.prettyName
  }

  /** `getSymlinkSourcePath`: `baseDir/installPath`. */
  function SymlinkSource(L: Layout, pkg: Package): Path {
    L.baseDir + "/" + InstallPath(L, pkg)
  }

  /**
   * `getPackageBuildSymlink`: the custom path of the configured
   * `installer-paths` (as `getPackageInstallPath` finds it) under
   * `baseDir/dirname(vendorDir)/`, trailing '/' trimmed; NULL without a match.
   */
  function BuildSymlink(L: Layout, pkg: Package): Option<Path> {
    match GetPackageInstallPath(pkg, Some(RootExtra(None, Some(L.installerPaths))))
    case Some(p) => Some(L.baseDir + "/" + Dirname(L.vendorDir) + "/" + RTrim(p, '/'))
    case None => None
  }

  /** `substr($type, 0, 7) === "drupal-"`. */
  predicate IsDrupalType(t: string) {
    |t| >= 7 && t[..7] == "drupal-"
  }

  const CoreType := "drupal-core"

  /** `createPackageVendorSymlink`: only when symlinks are enabled. */
  function CreateVendorSymlink(L: Layout, nodes: Nodes, pkg: Package): Step<bool> {
    if L.isSymlinkEnabled then EnsureSymlinkStep(nodes, SymlinkSource(L, pkg), VendorSymlink(L, pkg))
    else Step(Success(false), nodes)
  }

  /** `createPackageBuildsymlink`: a NULL build path reaches the filesystem as "". */
  function CreateBuildSymlink(L: Layout, nodes: Nodes, pkg: Package): Step<bool> {
    if L.isSymlinkEnabled then EnsureSymlinkStep(nodes, VendorSymlink(L, pkg), BuildSymlink(L, pkg).GetOr(""))
    else Step(Success(false), nodes)
  }

  /** The first step of `install`: download when unreadable, else register when missing from the repository. */
  function Fetched(L: Layout, w: World, pkg: Package): World {
    var path := InstallPath(L, pkg);
    if path !in w.nodes then w.(repo := w.repo + {pkg.Key()}, nodes := InstallCode(w.nodes, path))
    else if pkg.Key() !in w.repo then w.(repo := w.repo + {pkg.Key()})
    else w
  }

  /** `install`, for the project `project` (the vendor dir the ledger is keyed by). */
  function Install(L: Layout, project: string, w: World, pkg: Package): Outcome {
    var w1 := Fetched(L, w, pkg);
    if pkg.pkgType == CoreType then
      var target := Dirname(L.vendorDir);
      var nodes := if target + "/index.php" in w1.nodes then w1.nodes else CopyTree(w1.nodes, InstallPath(L, pkg), target);
      Outcome(Success(()), World(w1.repo, nodes, AddUsage(w1.usage, pkg.Key(), project)))
    else
      var v := CreateVendorSymlink(L, w1.nodes, pkg);
      if v.result.Failure? then Outcome(Failure(FsFailure(v.result.error)), w1.(nodes := v.nodes))
      else if IsDrupalType(pkg.pkgType) then
        var b := CreateBuildSymlink(L, v.nodes, pkg);
        if b.result.Failure? then Outcome(Failure(FsFailure(b.result.error)), w1.(nodes := b.nodes))
        else Outcome(Success(()), World(w1.repo, b.nodes, AddUsage(w1.usage, pkg.Key(), project)))
      else Outcome(Success(()), World(w1.repo, v.nodes, AddUsage(w1.usage, pkg.Key(), project)))
  }

  /** `isInstalled`: in the repository, sources readable, and the vendor symlink a link. */
  predicate IsInstalled(L: Layout, w: World, pkg: Package) {
    pkg.Key() in w.repo && InstallPath(L, pkg) in w.nodes && IsLink(w.nodes, VendorSymlink(L, pkg))
  }

  /** `isSourceDirUnused`: at most one project uses the package. */
  predicate IsSourceDirUnused(w: World, pkg: Package) {
    |UsageOf(w.usage, pkg.Key())| <= 1
  }

  /**
   * `uninstall`: the sources are deleted only when unused and the user
   * confirms (`confirm` is the answer, asked only in that case); the
   * package always leaves the repository and the project's usage is
   * dropped. The vendor symlink removal is a no-op.
   */
  function Uninstall(L: Layout, project: string, w: World, pkg: Package, confirm: bool): World {
    var w1 :=
      if IsSourceDirUnused(w, pkg) && confirm then
        w.(repo := w.repo - {pkg.Key()}, nodes := RemoveCode(w.nodes, InstallPath(L, pkg)))
      else
        w.(repo := w.repo - {pkg.Key()});
    w1.(usage := RemoveUsage(w1.usage, pkg.Key(), project))
  }

  /**
   * `update`: with one install path, the target's vendor symlink is ensured
   * and the code updated in place; otherwise the installation manager
   * uninstalls the initial package and installs the target, both routed
   * back to this installer, whose router refuses an initial package that
   * is not in the repository.
   */
  function Update(L: Layout, project: string, w: World, initial: Package, target: Package, confirm: bool): Outcome {
    if InstallPath(L, initial) == InstallPath(L, target) then
      var v := CreateVendorSymlink(L, w.nodes, target);
      if v.result.Failure? then Outcome(Failure(FsFailure(v.result.error)), w.(nodes := v.nodes))
      else Outcome(Success(()), w.(
        repo := w.repo - {initial.Key()} + {target.Key()},
        nodes := InstallCode(v.nodes, InstallPath(L, target))))
    else if initial.Key() !in w.repo then
      Outcome(Failure(NotInstalled(initial.prettyName)), w)
    else
      Install(L, project, Uninstall(L, project, w, initial, confirm), target)
  }

  // ---------------------------------------------------------------------
  // Paths.

  /**
   * The canonical sources path depends on nothing of the project but the
   * original vendor dir; `/targetDir` is added only for a non-empty one.
   */
  lemma InstallPathShape(L1: Layout, L2: Layout, pkg: Package)
    requires L1.originalVendorDir == L2.originalVendorDir
    ensures InstallPath(L1, pkg) == InstallPath(L2, pkg)
    ensures IsEmpty(pkg.targetDir) ==> InstallPath(L1, pkg) == L1.originalVendorDir + "/" + pkg.prettyName + "/" + pkg.prettyVersion
    ensures !IsEmpty(pkg.targetDir) ==>
      InstallPath(L1, pkg) == L1.originalVendorDir + "/" + pkg.prettyName + "/" + pkg.prettyVersion + "/" + pkg.targetDir
  {
  }

  /** The build symlink is NULL exactly when no configured rule selects the package. */
  lemma BuildSymlinkNullIffNoRule(L: Layout, pkg: Package)
    ensures BuildSymlink(L, pkg).None?
        <==> forall i :: 0 <= i < |L.installerPaths| ==> !RuleMatches(L.installerPaths[i], pkg.prettyName, pkg.pkgType, Vendor(pkg))
  {
  }

  // ---------------------------------------------------------------------
  // The filesystem steps only ever add nodes.

  predicate Grows(before: Nodes, after: Nodes) {
    forall p :: p in before ==> p in after && after[p] == before[p]
  }

  lemma EnsureSymlinkGrows(nodes: Nodes, source: Path, link: Path)
    ensures Grows(nodes, EnsureSymlinkStep(nodes, source, link).nodes)
  {
  }

  lemma CopyTreeGrowsOutside(nodes: Nodes, source: Path, target: Path, p: Path)
    requires p in nodes && !(target <= p)
    ensures p in CopyTree(nodes, source, target) && CopyTree(nodes, source, target)[p] == nodes[p]
  {
    CopyTreeOutside(nodes, source, target, p);
  }

  // ---------------------------------------------------------------------
  // install

  /**
   * Sources are downloaded only when the install path is unreadable; a
   * readable one missing from the repository is only registered. Either
   * way the package ends in the repository, also when a symlink step
   * throws afterwards.
   */
  lemma InstallFetches(L: Layout, project: string, w: World, pkg: Package)
    ensures InstallPath(L, pkg) !in w.nodes ==> Fetched(L, w, pkg).nodes == InstallCode(w.nodes, InstallPath(L, pkg))
    ensures InstallPath(L, pkg) in w.nodes ==> Fetched(L, w, pkg).nodes == w.nodes
    ensures Fetched(L, w, pkg).repo == w.repo + {pkg.Key()}
    ensures pkg.Key() in w.repo && InstallPath(L, pkg) in w.nodes ==> Fetched(L, w, pkg) == w
    ensures Install(L, project, w, pkg).world.repo == w.repo + {pkg.Key()}
  {
  }

  /**
   * `drupal-core` is copied into `dirname(vendorDir)` unless an
   * `index.php` is already there, creates no symlink, and always succeeds.
   */
  lemma CoreInstall(L: Layout, project: string, w: World, pkg: Package)
    requires pkg.pkgType == CoreType
    ensures var r := Install(L, project, w, pkg);
      var w1 := Fetched(L, w, pkg);
      var site := Dirname(L.vendorDir);
      && r.result.Success?
      && r.world.usage == AddUsage(w.usage, pkg.Key(), project)
      && (site + "/index.php" in w1.nodes ==> r.world.nodes == w1.nodes)
      && (site + "/index.php" !in w1.nodes ==> r.world.nodes == CopyTree(w1.nodes, InstallPath(L, pkg), site))
  {
  }

  /** After a copy, the site has the `index.php` the sources have. */
  lemma CoreInstallProvidesIndex(L: Layout, project: string, w: World, pkg: Package)
    requires pkg.pkgType == CoreType
    requires InstallPath(L, pkg) + "/index.php" in Fetched(L, w, pkg).nodes
    ensures Dirname(L.vendorDir) + "/index.php" in Install(L, project, w, pkg).world.nodes
  {
    var site := Dirname(L.vendorDir);
    if site + "/index.php" !in Fetched(L, w, pkg).nodes {
      CopyTreeCopies(Fetched(L, w, pkg).nodes, InstallPath(L, pkg), site, "/index.php");
    }
  }

  /** Usage is recorded exactly when `install` gets to the end. */
  lemma InstallRecordsUsage(L: Layout, project: string, w: World, pkg: Package)
    ensures var r := Install(L, project, w, pkg);
      && (r.result.Success? ==> r.world.usage == AddUsage(w.usage, pkg.Key(), project))
      && (r.result.Failure? ==> r.world.usage == w.usage)
  {
  }

  /** With symlinks disabled, a non-core install touches the disk only to fetch. */
  lemma NoSymlinksWhenDisabled(L: Layout, project: string, w: World, pkg: Package)
    requires !L.isSymlinkEnabled && pkg.pkgType != CoreType
    ensures Install(L, project, w, pkg).result.Success?
    ensures Install(L, project, w, pkg).world.nodes == Fetched(L, w, pkg).nodes
  {
  }

  /** A type that is not `drupal-*` gets the vendor symlink and nothing more. */
  lemma OtherTypesGetVendorLinkOnly(L: Layout, project: string, w: World, pkg: Package)
    requires !IsDrupalType(pkg.pkgType)
    ensures Install(L, project, w, pkg).world.nodes == CreateVendorSymlink(L, Fetched(L, w, pkg).nodes, pkg).nodes
  {
    assert pkg.pkgType != CoreType by {
      assert CoreType[..7] == "drupal-";
    }
  }

  /**
   * A `drupal-*` package that no `installer-paths` rule selects cannot be
   * installed with symlinks enabled: its NULL build path becomes "", and
   * creating the directory "" throws, after the vendor symlink exists and
   * before usage is recorded.
   */
  lemma DrupalTypeWithoutRuleThrows(L: Layout, project: string, w: World, pkg: Package)
    requires L.isSymlinkEnabled && IsDrupalType(pkg.pkgType) && pkg.pkgType != CoreType
    requires BuildSymlink(L, pkg).None?
    requires CreateVendorSymlink(L, Fetched(L, w, pkg).nodes, pkg).result.Success?
    requires "" !in CreateVendorSymlink(L, Fetched(L, w, pkg).nodes, pkg).nodes
    ensures Install(L, project, w, pkg).result == Failure(FsFailure(CannotCreateDirectory("")))
    ensures Install(L, project, w, pkg).world.usage == w.usage
  {
  }

  /** A successful `ensureSymlinkExists` on a free path (or a link) leaves a link there. */
  lemma EnsureSymlinkLeavesLink(nodes: Nodes, source: Path, link: Path)
    requires link !in nodes || IsLink(nodes, link)
    requires Dirname(link) != link
    requires EnsureSymlinkStep(nodes, source, link).result.Success?
    ensures IsLink(EnsureSymlinkStep(nodes, source, link).nodes, link)
  {
    if !IsLink(nodes, link) {
      EnsureSymlinkEffect(nodes, source, link);
    }
  }

  /**
   * A successful non-core install leaves the package installed, provided
   * the vendor symlink path is free (or already a link) and is neither the
   * sources path nor its own parent.
   */
  lemma InstallThenInstalled(L: Layout, project: string, w: World, pkg: Package)
    requires L.isSymlinkEnabled && pkg.pkgType != CoreType
    requires VendorSymlink(L, pkg) != InstallPath(L, pkg)
    requires Dirname(VendorSymlink(L, pkg)) != VendorSymlink(L, pkg)
    requires VendorSymlink(L, pkg) !in w.nodes || IsLink(w.nodes, VendorSymlink(L, pkg))
    requires Install(L, project, w, pkg).result.Success?
    ensures IsInstalled(L, Install(L, project, w, pkg).world, pkg)
  {
    var w1 := Fetched(L, w, pkg);
    var link := VendorSymlink(L, pkg);
    var v := CreateVendorSymlink(L, w1.nodes, pkg);
    assert v == EnsureSymlinkStep(w1.nodes, SymlinkSource(L, pkg), link);
    assert InstallPath(L, pkg) in w1.nodes && pkg.Key() in w1.repo;
    assert link !in w1.nodes || IsLink(w1.nodes, link);
    assert v.result.Success?;
    EnsureSymlinkGrows(w1.nodes, SymlinkSource(L, pkg), link);
    EnsureSymlinkLeavesLink(w1.nodes, SymlinkSource(L, pkg), link);
    assert InstallPath(L, pkg) in v.nodes && IsLink(v.nodes, link);
    if IsDrupalType(pkg.pkgType) {
      EnsureSymlinkGrows(v.nodes, link, BuildSymlink(L, pkg).GetOr(""));
    }
  }

  /**
   * `drupal-core` never gets a vendor symlink, so it does not count as
   * installed afterwards unless a link was already there (or is copied
   * in under the site directory).
   */
  lemma CoreNotInstalled(L: Layout, project: string, w: World, pkg: Package)
    requires pkg.pkgType == CoreType
    requires !IsLink(w.nodes, VendorSymlink(L, pkg))
    requires !(Dirname(L.vendorDir) <= VendorSymlink(L, pkg))
    ensures !IsInstalled(L, Install(L, project, w, pkg).world, pkg)
  {
    var w1 := Fetched(L, w, pkg);
    var link := VendorSymlink(L, pkg);
    assert !IsLink(w1.nodes, link);
    CopyTreeOutside(w1.nodes, InstallPath(L, pkg), Dirname(L.vendorDir), link);
  }

  // ---------------------------------------------------------------------
  // uninstall

  /**
   * Sources go only when at most one project uses them and the user says
   * yes; in every case the package leaves the repository, the project's
   * usage is dropped, and the vendor symlink stays as it is.
   */
  lemma UninstallEffect(L: Layout, project: string, w: World, pkg: Package, confirm: bool)
    ensures var r := Uninstall(L, project, w, pkg, confirm);
      && r.repo == w.repo - {pkg.Key()}
      && r.usage == RemoveUsage(w.usage, pkg.Key(), project)
      && (IsSourceDirUnused(w, pkg) && confirm ==> r.nodes == RemoveCode(w.nodes, InstallPath(L, pkg)))
      && (!(IsSourceDirUnused(w, pkg) && confirm) ==> r.nodes == w.nodes)
  {
  }

  /** With more than one user the question is never asked: the answer makes no difference. */
  lemma UninstallSharedIgnoresAnswer(L: Layout, project: string, w: World, pkg: Package)
    requires |UsageOf(w.usage, pkg.Key())| > 1
    ensures Uninstall(L, project, w, pkg, true) == Uninstall(L, project, w, pkg, false)
    ensures Uninstall(L, project, w, pkg, true).nodes == w.nodes
  {
  }

  /** The vendor symlink is left alone (unless it lies inside the deleted sources). */
  lemma UninstallKeepsVendorSymlink(L: Layout, project: string, w: World, pkg: Package, confirm: bool)
    requires !Under(VendorSymlink(L, pkg), InstallPath(L, pkg))
    ensures var r := Uninstall(L, project, w, pkg, confirm);
      && (VendorSymlink(L, pkg) in r.nodes <==> VendorSymlink(L, pkg) in w.nodes)
      && (VendorSymlink(L, pkg) in w.nodes ==> r.nodes[VendorSymlink(L, pkg)] == w.nodes[VendorSymlink(L, pkg)])
  {
    RemoveTreeEffect(w.nodes, InstallPath(L, pkg), VendorSymlink(L, pkg));
  }

  /**
   * Two projects use one package version: the first to uninstall keeps
   * the sources even when it says yes; the second one's yes deletes them.
   */
  lemma LastUserDeletes(L: Layout, a: string, b: string, w: World, pkg: Package)
    requires a != b && UsageOf(w.usage, pkg.Key()) == {a, b}
    requires InstallPath(L, pkg) in w.nodes
    ensures var w1 := Uninstall(L, a, w, pkg, true);
      && InstallPath(L, pkg) in w1.nodes
      && UsageOf(w1.usage, pkg.Key()) == {b}
      && InstallPath(L, pkg) !in Uninstall(L, b, w1, pkg, true).nodes
      && UsageOf(Uninstall(L, b, w1, pkg, true).usage, pkg.Key()) == {}
  {
    assert |{a, b}| == 2;
    var w1 := Uninstall(L, a, w, pkg, true);
    assert UsageOf(w1.usage, pkg.Key()) == {b};
    assert |{b}| == 1;
    RemoveTreeEffect(w1.nodes, InstallPath(L, pkg), InstallPath(L, pkg));
  }

  // ---------------------------------------------------------------------
  // update

  /** Same install path: the target's vendor symlink, then an in-place update; the ledger is untouched. */
  lemma UpdateInPlace(L: Layout, project: string, w: World, initial: Package, target: Package, confirm: bool)
    requires InstallPath(L, initial) == InstallPath(L, target)
    ensures var r := Update(L, project, w, initial, target, confirm);
      && (r.result.Success? <==> CreateVendorSymlink(L, w.nodes, target).result.Success?)
      && r.world.usage == w.usage
      && (r.result.Success? ==> r.world.repo == w.repo - {initial.Key()} + {target.Key()})
      && (r.result.Success? ==> InstallPath(L, target) in r.world.nodes)
  {
  }

  /**
   * Different install paths: the initial package goes through `uninstall`
   * and the target through `install`; an initial package missing from the
   * repository stops the round trip before anything changes.
   */
  lemma UpdateReplaces(L: Layout, project: string, w: World, initial: Package, target: Package, confirm: bool)
    requires InstallPath(L, initial) != InstallPath(L, target)
    ensures initial.Key() !in w.repo ==>
      Update(L, project, w, initial, target, confirm) == Outcome(Failure(NotInstalled(initial.prettyName)), w)
    ensures initial.Key() in w.repo ==>
      Update(L, project, w, initial, target, confirm) == Install(L, project, Uninstall(L, project, w, initial, confirm), target)
    ensures initial.Key() in w.repo ==>
      Update(L, project, w, initial, target, confirm).world.repo == w.repo - {initial.Key()} + {target.Key()}
  {
    if initial.Key() in w.repo {
      InstallFetches(L, project, Uninstall(L, project, w, initial, confirm), target);
    }
  }
}
