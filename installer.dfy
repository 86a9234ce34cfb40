/**
 * `DrupalInstallerInstaller`: the shared-store installer as a class whose
 * methods change the repository, the disk and the usage ledger step by
 * step, each proved to end in the world the functions of `SharedStore`
 * describe. Its parent `LibraryInstaller` calls are the abstract code
 * transitions of `Composer`.
 */
module Installer {
  import opened Wrappers
  import opened Strings
  import opened Packages
  import opened InstallerConfig
  import opened Fs
  import opened Ledger
  import opened Composer
  import opened SharedStore

  class DrupalInstallerInstaller {
    const config: DrupalInstallerInstallerConfig
    const filesystem: SymlinkFilesystem
    const packageDataManager: PackageDataManager

    /** The ledger's project is the configured vendor dir. */
    constructor(filesystem: SymlinkFilesystem, dataManager: PackageDataManager, config: DrupalInstallerInstallerConfig)
      modifies dataManager
      ensures this.config == config && this.filesystem == filesystem && this.packageDataManager == dataManager
      ensures dataManager.vendorDir == config.vendorDir && dataManager.usage == old(dataManager.usage)
    {
      this.filesystem := filesystem;
      this.config := config;
      this.packageDataManager := dataManager;
      new;
      dataManager.SetVendorDir(config.GetVendorDir());
    }

    /** The world the installer acts on, given the repository it is called with. */
    function WorldOf(repo: Repository): World
      reads repo, filesystem, packageDataManager
    {
      World(repo.packages, filesystem.nodes, packageDataManager.usage)
    }

    function GetInstallPath(pkg: Package): Path
      reads config
    {
      InstallPath(config.State(), pkg)
    }

    function GetPackageVendorSymlink(pkg: Package): Path
      reads config
    {
      VendorSymlink(config.State(), pkg)
    }

    function GetSymlinkSourcePath(pkg: Package): Path
      reads config
    {
      SymlinkSource(config.State(), pkg)
    }

    function GetPackageBuildSymlink(pkg: Package): Option<Path>
      reads config
    {
      BuildSymlink(config.State(), pkg)
    }

    /** `supports`: every type. */
    function Supports(packageType: string): (r: bool)
      ensures r
    {
      true
    }

    function IsInstalled(repo: Repository, pkg: Package): (r: bool)
      reads repo, filesystem, config
      ensures r == SharedStore.IsInstalled(config.State(), World(repo.packages, filesystem.nodes, map[]), pkg)
    {
      repo.HasPackage(pkg) && GetInstallPath(pkg) in filesystem.nodes
      && IsLink(filesystem.nodes, GetPackageVendorSymlink(pkg))
    }

    function IsSourceDirUnused(pkg: Package): (r: bool)
      reads packageDataManager
      ensures r == SharedStore.IsSourceDirUnused(World({}, map[], packageDataManager.usage), pkg)
    {
      |packageDataManager.GetPackageUsage(pkg)| <= 1
    }

    /** `parent::install`: download to the install path and register. */
    method ParentInstall(repo: Repository, pkg: Package)
      modifies repo, filesystem
      ensures repo.packages == old(repo.packages) + {pkg.Key()}
      ensures filesystem.nodes == InstallCode(old(filesystem.nodes), GetInstallPath(pkg))
    {
      filesystem.nodes := InstallCode(filesystem.nodes, GetInstallPath(pkg));
      repo.AddPackage(pkg);
    }

    /** `parent::update`: update the code in place and swap the versions in the repository. */
    method ParentUpdate(repo: Repository, initial: Package, target: Package)
      modifies repo, filesystem
      ensures repo.packages == old(repo.packages) - {initial.Key()} + {target.Key()}
      ensures filesystem.nodes == InstallCode(old(filesystem.nodes), GetInstallPath(target))
    {
      filesystem.nodes := InstallCode(filesystem.nodes, GetInstallPath(target));
      repo.RemovePackage(initial);
      repo.AddPackage(target);
    }

    /** `parent::uninstall`: delete the code and unregister. */
    method ParentUninstall(repo: Repository, pkg: Package)
      modifies repo, filesystem
      ensures repo.packages == old(repo.packages) - {pkg.Key()}
      ensures filesystem.nodes == RemoveCode(old(filesystem.nodes), GetInstallPath(pkg))
    {
      filesystem.nodes := RemoveCode(filesystem.nodes, GetInstallPath(pkg));
      repo.RemovePackage(pkg);
    }

    /** `createPackageVendorSymlink`; the result says whether a link was made. */
    method CreatePackageVendorSymlink(pkg: Package) returns (r: Result<bool, FsError>)
      modifies filesystem
      ensures Step(r, filesystem.nodes) == CreateVendorSymlink(config.State(), old(filesystem.nodes), pkg)
    {
      if config.IsSymlinkEnabled() {
        r := filesystem.EnsureSymlinkExists(GetSymlinkSourcePath(pkg), GetPackageVendorSymlink(pkg));
      } else {
        r := Success(false);
      }
    }

    /** `createPackageBuildsymlink`: a NULL build path is passed on as "". */
    method CreatePackageBuildsymlink(pkg: Package) returns (r: Result<bool, FsError>)
      modifies filesystem
      ensures Step(r, filesystem.nodes) == CreateBuildSymlink(config.State(), old(filesystem.nodes), pkg)
    {
      if config.IsSymlinkEnabled() {
        var link := GetPackageBuildSymlink(pkg);
        r := filesystem.EnsureSymlinkExists(GetPackageVendorSymlink(pkg), if link.Some? then link.value else "");
      } else {
        r := Success(false);
      }
    }

    /** `removePackageVendorSymlink`: its body is commented out. */
    method RemovePackageVendorSymlink(pkg: Package)
    {
    }

    method Install(repo: Repository, pkg: Package) returns (r: Result<(), InstallError>)
      modifies repo, filesystem, packageDataManager
      ensures packageDataManager.vendorDir == old(packageDataManager.vendorDir)
      ensures Outcome(r, WorldOf(repo))
           == SharedStore.Install(config.State(), old(packageDataManager.vendorDir), old(WorldOf(repo)), pkg)
    {
      if GetInstallPath(pkg) !in filesystem.nodes {
        ParentInstall(repo, pkg);
      } else if !repo.HasPackage(pkg) {
        repo.AddPackage(pkg);
      }
      if pkg.pkgType == CoreType {
        var sourcePath := GetInstallPath(pkg);
        var targetPath := Dirname(config.GetVendorDir());
        var siteAvailable := targetPath + "/index.php" in filesystem.nodes;
        if !siteAvailable {
          filesystem.Copy(sourcePath, targetPath);
        }
      } else {
        var v := CreatePackageVendorSymlink(pkg);
        if v.Failure? {
          return Failure(FsFailure(v.error));
        }
        if IsDrupalType(pkg.pkgType) {
          var b := CreatePackageBuildsymlink(pkg);
          if b.Failure? {
            return Failure(FsFailure(b.error));
          }
        }
      }
      packageDataManager.AddPackageUsage(pkg);
      return Success(());
    }

    /** `uninstall`; `confirmDelete` is the answer to the question, which is asked only when the sources are unused. */
    method Uninstall(repo: Repository, pkg: Package, confirmDelete: bool)
      modifies repo, filesystem, packageDataManager
      ensures packageDataManager.vendorDir == old(packageDataManager.vendorDir)
      ensures WorldOf(repo)
           == SharedStore.Uninstall(config.State(), old(packageDataManager.vendorDir), old(WorldOf(repo)), pkg, confirmDelete)
    {
      if IsSourceDirUnused(pkg) && confirmDelete {
        ParentUninstall(repo, pkg);
      } else {
        repo.RemovePackage(pkg);
      }
      packageDataManager.RemovePackageUsage(pkg);
      RemovePackageVendorSymlink(pkg);
    }

    /**
     * `update`. With different install paths the installation manager's
     * uninstall and install come back to this installer through the router,
     * which first checks that the initial package is installed.
     */
    method Update(repo: Repository, initial: Package, target: Package, confirmDelete: bool)
      returns (r: Result<(), InstallError>)
      modifies repo, filesystem, packageDataManager
      ensures packageDataManager.vendorDir == old(packageDataManager.vendorDir)
      ensures Outcome(r, WorldOf(repo))
           == SharedStore.Update(config.State(), old(packageDataManager.vendorDir), old(WorldOf(repo)), initial, target, confirmDelete)
    {
      if GetInstallPath(initial) == GetInstallPath(target) {
        var v := CreatePackageVendorSymlink(target);
        if v.Failure? {
          return Failure(FsFailure(v.error));
        }
        ParentUpdate(repo, initial, target);
        return Success(());
      } else {
        if !repo.HasPackage(initial) {
          return Failure(NotInstalled(initial.prettyName));
        }
        Uninstall(repo, initial, confirmDelete);
        r := Install(repo, target);
      }
    }
  }
}
