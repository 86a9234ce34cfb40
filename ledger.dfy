/**
 * The package usage ledger (`PackageDataManager`): for each package
 * version, the set of projects, named by their vendor dir, that use it.
 * Only add, remove and get are modelled; where it is stored is not.
 */
module Ledger {
  import opened Packages

  type Usage = map<PackageKey, set<string>>

  function UsageOf(usage: Usage, key: PackageKey): set<string> {
    if key in usage then usage[key] else {}
  }

  function AddUsage(usage: Usage, key: PackageKey, project: string): Usage {
    usage[key := UsageOf(usage, key) + {project}]
  }

  function RemoveUsage(usage: Usage, key: PackageKey, project: string): Usage {
    usage[key := UsageOf(usage, key) - {project}]
  }

  /**
   * Adding records the project for that package only; removing forgets it
   * for that package only; other projects' usage is kept.
   */
  lemma UsageUpdates(usage: Usage, key: PackageKey, project: string, other: PackageKey)
    ensures UsageOf(AddUsage(usage, key, project), key) == UsageOf(usage, key) + {project}
    ensures UsageOf(RemoveUsage(usage, key, project), key) == UsageOf(usage, key) - {project}
    ensures other != key ==> UsageOf(AddUsage(usage, key, project), other) == UsageOf(usage, other)
    ensures other != key ==> UsageOf(RemoveUsage(usage, key, project), other) == UsageOf(usage, other)
  {
  }

  /** Removing after adding restores the users of a package the project did not use before. */
  lemma AddThenRemove(usage: Usage, key: PackageKey, project: string)
    requires project !in UsageOf(usage, key)
    ensures UsageOf(RemoveUsage(AddUsage(usage, key, project), key, project), key) == UsageOf(usage, key)
  {
  }

  class PackageDataManager {
    /** The project this manager records usage for. */
    var vendorDir: string
    var usage: Usage

    constructor(initial: Usage)
      ensures usage == initial && vendorDir == ""
    {
      usage := initial;
      vendorDir := "";
    }

    method SetVendorDir(dir: string)
      modifies this
      ensures vendorDir == dir && usage == old(usage)
    {
      vendorDir := dir;
    }

    method AddPackageUsage(pkg: Package)
      modifies this
      ensures usage == AddUsage(old(usage), pkg.Key(), vendorDir) && vendorDir == old(vendorDir)
    {
      usage := AddUsage(usage, pkg.Key(), vendorDir);
    }

    method RemovePackageUsage(pkg: Package)
      modifies this
      ensures usage == RemoveUsage(old(usage), pkg.Key(), vendorDir) && vendorDir == old(vendorDir)
    {
      usage := RemoveUsage(usage, pkg.Key(), vendorDir);
    }

    function GetPackageUsage(pkg: Package): set<string>
      reads this
    {
      UsageOf(usage, pkg.Key())
    }
  }
}
