/**
 * The Composer side the installers call into: the installed repository
 * and the abstract effect of `LibraryInstaller` on it and on the disk.
 * Downloading puts a directory at the install path, uninstalling removes
 * the tree at it; what the archives contain and the binaries Composer
 * links are not modelled.
 */
module Composer {
  import opened Packages
  import opened Fs

  /** `InstalledRepositoryInterface`: the set of installed package versions. */
  class Repository {
    var packages: set<PackageKey>

    constructor(initial: set<PackageKey>)
      ensures packages == initial
    {
      packages := initial;
    }

    function HasPackage(pkg: Package): bool
      reads this
    {
      pkg.Key() in packages
    }

    method AddPackage(pkg: Package)
      modifies this
      ensures packages == old(packages) + {pkg.Key()}
    {
      packages := packages + {pkg.Key()};
    }

    method RemovePackage(pkg: Package)
      modifies this
      ensures packages == old(packages) - {pkg.Key()}
    {
      packages := packages - {pkg.Key()};
    }
  }

  /** Downloading a package's code to its install path, or updating it there. */
  function InstallCode(nodes: Nodes, path: Path): Nodes {
    nodes[path := Dir]
  }

  /** Deleting the code under the install path. */
  function RemoveCode(nodes: Nodes, path: Path): Nodes {
    RemoveTree(nodes, path)
  }

  /** After a download, the install path is readable. */
  lemma InstallCodeReadable(nodes: Nodes, path: Path)
    ensures path in InstallCode(nodes, path)
    ensures path !in RemoveCode(nodes, path)
  {
  }

  /**
   * Composer's own `LibraryInstaller`, used for packages the router does
   * not treat as shared. `installPath` is its `getInstallPath`; `fs` is the
   * disk it writes to.
   */
  class LibraryInstaller {
    const fs: SymlinkFilesystem
    const installPath: Package -> Path

    constructor(fs: SymlinkFilesystem, installPath: Package -> Path)
      ensures this.fs == fs && this.installPath == installPath
    {
      this.fs := fs;
      this.installPath := installPath;
    }

    function GetInstallPath(pkg: Package): Path {
      installPath(pkg)
    }

    function IsInstalled(repo: Repository, pkg: Package): bool
      reads repo, fs
    {
      repo.HasPackage(pkg) && installPath(pkg) in fs.nodes
    }

    method Install(repo: Repository, pkg: Package)
      modifies repo, fs
      ensures repo.packages == old(repo.packages) + {pkg.Key()}
      ensures fs.nodes == InstallCode(old(fs.nodes), installPath(pkg))
    {
      fs.nodes := InstallCode(fs.nodes, installPath(pkg));
      repo.AddPackage(pkg);
    }

    method Update(repo: Repository, initial: Package, target: Package)
      modifies repo, fs
      ensures repo.packages == old(repo.packages) - {initial.Key()} + {target.Key()}
      ensures fs.nodes == InstallCode(old(fs.nodes), installPath(target))
    {
      fs.nodes := InstallCode(fs.nodes, installPath(target));
      repo.RemovePackage(initial);
      repo.AddPackage(target);
    }

    method Uninstall(repo: Repository, pkg: Package)
      modifies repo, fs
      ensures repo.packages == old(repo.packages) - {pkg.Key()}
      ensures fs.nodes == RemoveCode(old(fs.nodes), installPath(pkg))
    {
      fs.nodes := RemoveCode(fs.nodes, installPath(pkg));
      repo.RemovePackage(pkg);
    }
  }
}
