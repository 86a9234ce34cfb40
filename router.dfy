/**
 * `DrupalInstallerInstallerSolver`: the installer Composer talks to. It
 * sends a package to the shared-store installer when the sharing
 * predicate holds and to Composer's default installer otherwise, and it
 * refuses to update or uninstall a shared package the repository does
 * not hold. The predicate is kept as a field so that both routes are
 * described; the constructor fixes it to the solver's
 * `isDrupalInstaller`, which holds for every package.
 */
module Router {
  import opened Wrappers
  import opened Packages
  import opened Fs
  import opened Composer
  import opened SharedStore
  import opened Solver
  import opened Installer

  class DrupalInstallerInstallerSolver {
    const solver: DrupalInstallerSolver
    const symlinkInstaller: DrupalInstallerInstaller
    const defaultInstaller: LibraryInstaller
    /** Which packages go to the shared-store installer. */
    const isShared: Package -> bool

    /** Both installers write to the same disk. */
    predicate Valid()
    {
      defaultInstaller.fs == symlinkInstaller.filesystem
    }

    constructor(solver: DrupalInstallerSolver, symlinkInstaller: DrupalInstallerInstaller, defaultInstaller: LibraryInstaller)
      requires defaultInstaller.fs == symlinkInstaller.filesystem
      ensures Valid()
      ensures this.solver == solver && this.symlinkInstaller == symlinkInstaller && this.defaultInstaller == defaultInstaller
      ensures forall p :: isShared(p) == solver.IsDrupalInstaller(p)
    {
      this.solver := solver;
      this.symlinkInstaller := symlinkInstaller;
      this.defaultInstaller := defaultInstaller;
      this.isShared := p => solver.IsDrupalInstaller(p);
    }

    /** The world the shared-store installer sees, given the repository. */
    function WorldOf(repo: Repository): World
      reads repo, symlinkInstaller.filesystem, symlinkInstaller.packageDataManager
    {
      symlinkInstaller.WorldOf(repo)
    }

    function GetInstallPath(pkg: Package): Path
      reads symlinkInstaller.config
    {
      if isShared(pkg) then symlinkInstaller.GetInstallPath(pkg) else defaultInstaller.GetInstallPath(pkg)
    }

    function IsInstalled(repo: Repository, pkg: Package): bool
      reads repo, symlinkInstaller.filesystem, symlinkInstaller.config, defaultInstaller.fs
    {
      if isShared(pkg) then symlinkInstaller.IsInstalled(repo, pkg) else defaultInstaller.IsInstalled(repo, pkg)
    }

    /** `supports`: every type; the choice is made per package. */
    function Supports(packageType: string): (r: bool)
      ensures r
    {
      true
    }

    method Install(repo: Repository, pkg: Package) returns (r: Result<(), InstallError>)
      requires Valid()
      modifies repo, symlinkInstaller.filesystem, symlinkInstaller.packageDataManager
      ensures symlinkInstaller.packageDataManager.vendorDir == old(symlinkInstaller.packageDataManager.vendorDir)
      ensures isShared(pkg) ==>
        Outcome(r, WorldOf(repo))
        == SharedStore.Install(symlinkInstaller.config.State(), old(symlinkInstaller.packageDataManager.vendorDir), old(WorldOf(repo)), pkg)
      ensures !isShared(pkg) ==>
        r.Success? && repo.packages == old(repo.packages) + {pkg.Key()}
        && symlinkInstaller.filesystem.nodes == InstallCode(old(symlinkInstaller.filesystem.nodes), defaultInstaller.installPath(pkg))
        && symlinkInstaller.packageDataManager.usage == old(symlinkInstaller.packageDataManager.usage)
    {
      if isShared(pkg) {
        r := symlinkInstaller.Install(repo, pkg);
      } else {
        defaultInstaller.Install(repo, pkg);
        r := Success(());
      }
    }

    /** `update`: the default installer only when neither side is shared. */
    method Update(repo: Repository, initial: Package, target: Package, confirmDelete: bool)
      returns (r: Result<(), InstallError>)
      requires Valid()
      modifies repo, symlinkInstaller.filesystem, symlinkInstaller.packageDataManager
      ensures symlinkInstaller.packageDataManager.vendorDir == old(symlinkInstaller.packageDataManager.vendorDir)
      ensures !isShared(initial) && !isShared(target) ==>
        r.Success? && repo.packages == old(repo.packages) - {initial.Key()} + {target.Key()}
        && symlinkInstaller.filesystem.nodes == InstallCode(old(symlinkInstaller.filesystem.nodes), defaultInstaller.installPath(target))
        && symlinkInstaller.packageDataManager.usage == old(symlinkInstaller.packageDataManager.usage)
      ensures (isShared(initial) || isShared(target)) && initial.Key() !in old(repo.packages) ==>
        r == Failure(NotInstalled(initial.prettyName)) && WorldOf(repo) == old(WorldOf(repo))
      ensures (isShared(initial) || isShared(target)) && initial.Key() in old(repo.packages) ==>
        Outcome(r, WorldOf(repo))
        == SharedStore.Update(symlinkInstaller.config.State(), old(symlinkInstaller.packageDataManager.vendorDir),
                              old(WorldOf(repo)), initial, target, confirmDelete)
    {
      if !isShared(initial) && !isShared(target) {
        defaultInstaller.Update(repo, initial, target);
        r := Success(());
      } else {
        if !repo.HasPackage(initial) {
          return Failure(NotInstalled(initial.prettyName));
        }
        r := symlinkInstaller.Update(repo, initial, target, confirmDelete);
      }
    }

    /** `uninstall`: a shared package must be installed; a default one is not checked. */
    method Uninstall(repo: Repository, pkg: Package, confirmDelete: bool) returns (r: Result<(), InstallError>)
      requires Valid()
      modifies repo, symlinkInstaller.filesystem, symlinkInstaller.packageDataManager
      ensures symlinkInstaller.packageDataManager.vendorDir == old(symlinkInstaller.packageDataManager.vendorDir)
      ensures isShared(pkg) && pkg.Key() !in old(repo.packages) ==>
        r == Failure(NotInstalled(pkg.prettyName)) && WorldOf(repo) == old(WorldOf(repo))
      ensures isShared(pkg) && pkg.Key() in old(repo.packages) ==>
        r.Success?
        && WorldOf(repo)
           == SharedStore.Uninstall(symlinkInstaller.config.State(), old(symlinkInstaller.packageDataManager.vendorDir),
                                    old(WorldOf(repo)), pkg, confirmDelete)
      ensures !isShared(pkg) ==>
        r.Success? && repo.packages == old(repo.packages) - {pkg.Key()}
        && symlinkInstaller.filesystem.nodes == RemoveCode(old(symlinkInstaller.filesystem.nodes), defaultInstaller.installPath(pkg))
        && symlinkInstaller.packageDataManager.usage == old(symlinkInstaller.packageDataManager.usage)
    {
      if isShared(pkg) {
        if !repo.HasPackage(pkg) {
          return Failure(NotInstalled(pkg.prettyName));
        }
        symlinkInstaller.Uninstall(repo, pkg, confirmDelete);
        r := Success(());
      } else {
        defaultInstaller.Uninstall(repo, pkg);
        r := Success(());
      }
    }
  }

  /** A router whose predicate is `isDrupalInstaller` answers every query through the shared-store installer. */
  lemma RoutesEverythingShared(router: DrupalInstallerInstallerSolver, repo: Repository, pkg: Package)
    requires forall p :: router.isShared(p) == router.solver.IsDrupalInstaller(p)
    ensures router.isShared(pkg)
    ensures router.GetInstallPath(pkg) == router.symlinkInstaller.GetInstallPath(pkg)
    ensures router.IsInstalled(repo, pkg) == router.symlinkInstaller.IsInstalled(repo, pkg)
  {
  }
}
