# drupal-installer, modelled in Dafny

This project models the core of the Composer plugin `drupal-installer`. The plugin keeps one shared copy of each package version under an original vendor directory. It points each project's build vendor directory at that copy with symlinks. The model covers these parts:

- **Install paths.** The installer's path-template language (`{$name}` placeholders, filled from a package's vendor and name) and the `installer-paths` rules that choose a template by full name, `type:` or `vendor:`. Modules `Template`, `CustomPaths`, `Packages` and `PackageUtils`.
- **Configuration.** How the plugin reads the `extra` block and the composer directories: the build prefix (build dir, then version dir, with the git branch substituted), the build vendor dir and its sanity checks. Modules `Extra`, `BuildConfig` and `InstallerConfig`.
- **Shared-store installer.** The installer proper, `DrupalInstallerInstaller`. It fetches sources once, copies `drupal-core` into the site root and symlinks every other package. It records which projects use which package version, and it deletes sources only when the last user says yes. Module `SharedStore` holds the specification functions. Module `Installer` holds the class whose methods are proved to reach exactly those states.
- **Supporting pieces.** The symlink filesystem helper (`Fs`), the usage ledger (`Ledger`), Composer's repository and default installer (`Composer`), the package-list solver (`Solver`), the router between the two installers (`Router`) and the separate `PluginInstaller` (`PluginInstallerModel`).

The disk is a map from paths to nodes: file, directory, or link with a target. A path is readable when it is present. The repository is a set of (pretty name, pretty version) keys. The usage ledger maps such a key to the set of project vendor dirs that use it. The answer to the "delete the sources?" question is a parameter. So are the git branch, the `--no-dev` flag and the outcome of each `unlink`/`rmdir` call.

Where the design description and the code disagree, the model follows the code. Where the code calls a method that its class does not define, the model supplies the definition listed under "Left out". The disagreements:

- `isDrupalInstaller` returns true for every package. The list, glob and type rules it describes are commented out. The router is modelled for any sharing predicate, and its constructor fixes that predicate to `isDrupalInstaller`.
- The described uninstall removes the project's symlink, but `removePackageVendorSymlink` has an empty body. The model leaves the vendor symlink in place (`SharedStore.UninstallKeepsVendorSymlink`).

## Model

| member | source | states |
|---|---|---|
| Strings.RTrim | src/PluginInstallerConfig.php:123 | `rtrim(s, c)` is the longest prefix of `s` that does not end in `c`; everything cut off is `c` |
| Strings.FirstSegment | src/PackageUtils.php:14-19 | the part of a name before the first separator contains no separator and is followed by one when shorter |
| Strings.SplitNameWithSlash | src/PackageUtils.php:14-19 | a pretty name `vendor/name` or `vendor/name/rest` splits into that vendor and that name |
| Strings.SplitNameWithoutSlash | src/PackageUtils.php:14-19 | a pretty name without `/` has vendor "" and is the name itself |
| Strings.FirstSegmentOf | src/PackageUtils.php:15 | `explode('/')[0]` of `a` followed by `/...` is `a` |
| Strings.BeforeLast | src/VerbruggenAlex/Composer/Installer/DrupalInstallerInstaller.php:119 | the part before the last separator is a prefix of the path, is followed by the separator, and leaves no separator after it |
| Strings.BeforeLastOf | src/VerbruggenAlex/Composer/Installer/DrupalInstallerInstaller.php:119 | cutting at the last `/` of `p/leaf` gives back `p` |
| Strings.DirnameOfJoin | src/VerbruggenAlex/Composer/Installer/DrupalInstallerInstaller.php:119 | `dirname(p/leaf)` is `p` for a leaf without `/` and a `p` not ending in `/` |
| Strings.DropTailRestoresSuffix | src/PluginInstallerConfig.php:59 | `substr(abs, 0, -strlen(rel))` followed by `rel` gives back `abs` when `abs` ends in `rel` |
| Strings.RTrimConcat | src/PluginInstallerConfig.php:123 | trimming a concatenation trims only the tail, or reaches into the head when the tail is all `c` |
| Strings.RTrimIdempotent | src/PluginInstallerConfig.php:123 | trimming twice is trimming once |
| Strings.RTrimDropsSeparator | src/VerbruggenAlex/Composer/Installer/Config/DrupalInstallerInstallerConfig.php:138-141 | a trailing `/` added before `rtrim` disappears again |
| Template.NamePrefix | src/PackageUtils.php:52 | the name scanned after `{$` is a name and is maximal: the next character is not a name character |
| Template.LeadingName | src/PackageUtils.php:52 | a name is found only when the text starts with a complete `{$name}` |
| Template.TemplatePath | src/PackageUtils.php:48-60 | the loop over the matched names computes `Rendered`: each `{$name}` replaced in order, unknown names by "" |
| Template.MatchesAreNames | src/PackageUtils.php:52 | every name `preg_match_all` reports is a placeholder name |
| Template.ReplaceAllSkip | src/PackageUtils.php:55 | `str_replace` leaves a brace-free prefix untouched |
| Template.PlaceholderSkip | src/PackageUtils.php:55 | replacing `{$n}` skips a different placeholder `{$w}` whole |
| Template.ReplaceStep | src/PackageUtils.php:54-57 | one more `str_replace` extends the set of expanded names by one |
| Template.ExpandNamesNone | src/PackageUtils.php:48-60 | expanding no names leaves the text alone |
| Template.ExpandNamesAll | src/PackageUtils.php:48-60 | once every matched name is expanded, the result is the full expansion |
| Template.SubstitutedExpands | src/PackageUtils.php:54-57 | the sequence of replacements equals simultaneous expansion of the replaced names |
| Template.NoBraceNoMatch | src/PackageUtils.php:50 | text without `{` has no placeholders and expands to itself |
| Template.RenderedIsExpand | src/PackageUtils.php:48-60 | for well-formed templates and brace-free values, sequential replacement is simultaneous substitution of every placeholder; a name used twice is replaced both times |
| Template.NoPlaceholderUnchanged | src/PackageUtils.php:50 | a path without `{` is returned unchanged |
| Template.NamePrefixOf | src/PackageUtils.php:52 | the scanner stops at the closing brace of `{$w}` |
| Template.LeadingPlaceholder | src/PackageUtils.php:52 | a text starting with `{$w}` yields `w` and the rest after it |
| Template.ExpandPlaceholder | src/PackageUtils.php:55 | a leading placeholder expands to its value, followed by the expansion of the rest |
| Template.ExpandChar | src/PackageUtils.php:55 | a leading non-brace character is kept |
| Template.TwoPlaceholders | src/PackageUtils.php:48-60 | `{$a}` + separator + `{$b}` renders as value of `a` + separator + value of `b`, e.g. `{$vendor}/{$name}` gives `acme/widget` |
| Template.TwoPlaceholdersExpand | src/PackageUtils.php:48-60 | the same two-placeholder template is well formed and expands to the two values |
| CustomPaths.MapCustomInstallPaths | src/PackageUtils.php:71-79 | no path exactly when no rule lists the name, `type:`type or `vendor:`vendor; otherwise the path of the first rule that does |
| CustomPaths.FirstMatchWins | src/PackageUtils.php:73-77 | a matching rule with no matching rule before it decides the path |
| CustomPaths.AppendedRulesIgnored | src/PackageUtils.php:73-77 | rules after a match never change the result |
| Packages.PackageVarsOfSlashedName | src/PackageUtils.php:14-26 | `vendor/name` gives variables vendor and name, the name replaced by a non-empty installer name |
| Packages.PackageVarsOfPlainName | src/PackageUtils.php:14-26 | a name without `/` gives vendor "" and the whole pretty name (or the installer name) |
| Packages.InstallerNameOnlyRenames | src/PackageUtils.php:21-26 | the installer name never changes the vendor variable, and the variables are exactly `name` and `vendor` |
| PackageUtils.GetPackageInstallPath | src/PackageUtils.php:10-39 | NULL exactly when the root has no `installer-paths` or no rule selects the package; otherwise the first selecting rule's template rendered with the package's variables |
| PackageUtils.FullNameSelects | src/PackageUtils.php:28-38 | a first rule listing the full pretty name decides the path |
| PackageUtils.ShortNameDoesNotSelect | src/PackageUtils.php:72-76 | a rule listing only the short name does not select `vendor/name` |
| PackageUtils.NoRulesNoPath | src/PackageUtils.php:28-38 | without rules there is no custom path |
| Extra.BuildPrefixOf | src/PluginInstallerConfig.php:105-124 | the build prefix never ends in `/` |
| Extra.RawPrefixShape | src/PluginInstallerConfig.php:109-118 | the prefix before substitution is the trimmed build part, `/`, then the version part's segment |
| Extra.NoSectionNoPrefix | src/PluginInstallerConfig.php:109 | without a `drupal-installer` section the build prefix is "" |
| Extra.FlagChoosesVariant | src/PluginInstallerConfig.php:111-114 | the `--no-dev` flag picks the `no-dev` variant, otherwise `dev`; a missing variant is "" |
| Extra.BaseDirCompletesVendorDir | src/PluginInstallerConfig.php:59 | the base dir followed by the relative vendor dir is the absolute vendor dir |
| Extra.BaseDirEmptyCases | src/PluginInstallerConfig.php:59 | an empty or too long relative vendor dir gives base dir "" |
| BuildConfig.Entry2 | src/PluginInstallerConfig.php:130-146 | a lookup succeeds exactly when both keys are present, and returns the stored value |
| BuildConfig.OriginalDirectoryLookups | src/PluginInstallerConfig.php:53-72 | the original table answers base, vendor and bin dirs, and nothing for other path types |
| BuildConfig.BuildDirectoriesShape | src/PluginInstallerConfig.php:78-98 | every build dir is the base dir, then the prefix, then the original relative dir |
| BuildConfig.NoSectionBuildBase | src/PluginInstallerConfig.php:78-98 | without a section the build base dir is the original base dir followed by `//` (the base dir, then `/` for the empty prefix, then the `/` before `vendor`) |
| BuildConfig.PluginInstallerConfig.constructor | src/PluginInstallerConfig.php:42-48 | the object holds the extras, the original table, the prefix and the build table built from them |
| BuildConfig.PluginInstallerConfig.SetOriginalDirectories | src/PluginInstallerConfig.php:53-72 | replaces the original table only |
| BuildConfig.PluginInstallerConfig.SetBuildPrefix | src/PluginInstallerConfig.php:105-124 | the loop over build and version dir computes `BuildPrefixOf` and changes nothing else |
| BuildConfig.PluginInstallerConfig.SetBuildDirectories | src/PluginInstallerConfig.php:78-98 | replaces the build table with the one derived from the original table and the prefix |
| BuildConfig.PluginInstallerConfig.SetExtra | src/PluginInstallerConfig.php:204-207 | replaces the extras only |
| InstallerConfig.CheckSymlinkEnabled | src/VerbruggenAlex/Composer/Installer/Config/DrupalInstallerInstallerConfig.php:190-199 | an error exactly when `symlink-enabled` is present and not a boolean; a boolean replaces the default |
| InstallerConfig.CheckPackageList | src/VerbruggenAlex/Composer/Installer/Config/DrupalInstallerInstallerConfig.php:212-223 | an error exactly when `package-list` is present and not an array; an array replaces the list |
| InstallerConfig.OriginalVendorDirWith | src/VerbruggenAlex/Composer/Installer/Config/DrupalInstallerInstallerConfig.php:264-271 | a `/` is appended only when asked for and the dir is not "" |
| InstallerConfig.SymlinkEnabledRules | src/VerbruggenAlex/Composer/Installer/Config/DrupalInstallerInstallerConfig.php:190-199 | symlinks default to enabled; a non-boolean fails construction; a boolean is kept as given |
| InstallerConfig.PackageListRules | src/VerbruggenAlex/Composer/Installer/Config/DrupalInstallerInstallerConfig.php:212-223 | the list defaults to empty; a non-array fails construction; an array is kept as given |
| InstallerConfig.PathsAndBaseDir | src/VerbruggenAlex/Composer/Installer/Config/DrupalInstallerInstallerConfig.php:75-102 | the rules come from `installer-paths`, the base dir is the composer base dir, and when a `drupal-installer` section exists its `symlink-dir` has no effect on the result |
| InstallerConfig.AccumulatedDependsOnParts | src/VerbruggenAlex/Composer/Installer/Config/DrupalInstallerInstallerConfig.php:117-126 | the accumulated prefix depends only on the build and version parts |
| InstallerConfig.VendorDirShape | src/VerbruggenAlex/Composer/Installer/Config/DrupalInstallerInstallerConfig.php:110-142 | the build vendor dir is the build prefix, `/`, then the relative vendor dir |
| InstallerConfig.DrupalInstallerInstallerConfig.Init | src/VerbruggenAlex/Composer/Installer/Config/DrupalInstallerInstallerConfig.php:71-85 | the fields start at the defaults and get the composer dirs, the base dir and the build vendor dir |
| InstallerConfig.DrupalInstallerInstallerConfig.Create | src/VerbruggenAlex/Composer/Installer/Config/DrupalInstallerInstallerConfig.php:71-85 | construction fails exactly when the extras are malformed, with that error; otherwise the new object's state is that of `ConfigOf` |
| InstallerConfig.DrupalInstallerInstallerConfig.SetBaseDir | src/VerbruggenAlex/Composer/Installer/Config/DrupalInstallerInstallerConfig.php:91-102 | only the base dir changes |
| InstallerConfig.DrupalInstallerInstallerConfig.SetVendorDir | src/VerbruggenAlex/Composer/Installer/Config/DrupalInstallerInstallerConfig.php:110-142 | the loop leaves the build prefix followed by `/` and the original vendor dir; nothing else changes |
| InstallerConfig.DrupalInstallerInstallerConfig.SetSymlinkBasePath | src/VerbruggenAlex/Composer/Installer/Config/DrupalInstallerInstallerConfig.php:161-182 | nothing changes |
| InstallerConfig.DrupalInstallerInstallerConfig.SetIsSymlinkEnabled | src/VerbruggenAlex/Composer/Installer/Config/DrupalInstallerInstallerConfig.php:190-199 | the flag follows `CheckSymlinkEnabled`, and an error leaves the state alone |
| InstallerConfig.DrupalInstallerInstallerConfig.SetPackageList | src/VerbruggenAlex/Composer/Installer/Config/DrupalInstallerInstallerConfig.php:212-223 | the list follows `CheckPackageList`, and an error leaves the state alone |
| InstallerConfig.DrupalInstallerInstallerConfig.SetInstallerPaths | src/VerbruggenAlex/Composer/Installer/Config/DrupalInstallerInstallerConfig.php:228-233 | the rules are replaced only when `installer-paths` is present |
| Fs.CopiedAreCopies | src/VerbruggenAlex/Composer/Installer/DrupalInstallerInstaller.php:123 | every path a copy creates comes from a source path |
| Fs.EnsureSymlinkOnLink | src/SymlinkFilesystem.php:19-25 | on a path that is already a link, `ensureSymlinkExists` returns false and changes nothing |
| Fs.EnsureSymlinkEffect | src/SymlinkFilesystem.php:17-26 | otherwise it creates the parent dir and then the link, or fails with the directory error |
| Fs.EnsureSymlinkTwice | src/SymlinkFilesystem.php:17-26 | a second call after a successful one returns false and changes nothing |
| Fs.RemoveSymlinkEffect | src/SymlinkFilesystem.php:35-48 | a non-link gives false; a failed unlink throws; a successful one removes exactly that link |
| Fs.RemoveEmptyDirectoryEffect | src/SymlinkFilesystem.php:57-70 | anything but an empty dir gives false; a failed rmdir throws; a successful one removes exactly that dir |
| Fs.RemoveTwice | src/SymlinkFilesystem.php:35-70 | removing a link or an empty dir a second time gives false and changes nothing |
| Fs.CopyTreeCopies | src/VerbruggenAlex/Composer/Installer/DrupalInstallerInstaller.php:123 | every node under the source appears at the same place under the target |
| Fs.CopyTreeOutside | src/VerbruggenAlex/Composer/Installer/DrupalInstallerInstaller.php:123 | a copy leaves every path outside the target as it was |
| Fs.RemoveTreeEffect | src/VerbruggenAlex/Composer/Installer/DrupalInstallerInstaller.php:205 | removing a tree deletes everything under the root and nothing else |
| Fs.SymlinkFilesystem.EnsureDirectoryExists | src/SymlinkFilesystem.php:21 | the disk and result follow `EnsureDirectoryStep` |
| Fs.SymlinkFilesystem.RelativeSymlink | src/SymlinkFilesystem.php:22 | the disk and result follow `RelativeSymlinkStep` |
| Fs.SymlinkFilesystem.EnsureSymlinkExists | src/SymlinkFilesystem.php:17-26 | the disk and result follow `EnsureSymlinkStep` |
| Fs.SymlinkFilesystem.RemoveSymlink | src/SymlinkFilesystem.php:35-48 | the disk and result follow `RemoveSymlinkStep` |
| Fs.SymlinkFilesystem.RemoveEmptyDirectory | src/SymlinkFilesystem.php:57-70 | the disk and result follow `RemoveEmptyDirectoryStep` |
| Fs.SymlinkFilesystem.Copy | src/VerbruggenAlex/Composer/Installer/DrupalInstallerInstaller.php:123 | the disk becomes `CopyTree` of the old disk |
| Ledger.UsageUpdates | src/VerbruggenAlex/Composer/Installer/DrupalInstallerInstaller.php:132 | adding or removing usage changes only that package version's set, by exactly that project |
| Ledger.AddThenRemove | src/VerbruggenAlex/Composer/Installer/DrupalInstallerInstaller.php:211 | removing a freshly added project restores the set |
| Ledger.PackageDataManager.SetVendorDir | src/VerbruggenAlex/Composer/Installer/DrupalInstallerInstaller.php:73 | sets the project and keeps the usage |
| Ledger.PackageDataManager.AddPackageUsage | src/VerbruggenAlex/Composer/Installer/DrupalInstallerInstaller.php:132 | records the project for the package version |
| Ledger.PackageDataManager.RemovePackageUsage | src/VerbruggenAlex/Composer/Installer/DrupalInstallerInstaller.php:211 | drops the project for the package version |
| Composer.InstallCodeReadable | src/VerbruggenAlex/Composer/Installer/DrupalInstallerInstaller.php:110-111 | after a download the install path is readable; after a removal it is not |
| Composer.Repository.AddPackage | src/VerbruggenAlex/Composer/Installer/DrupalInstallerInstaller.php:114 | the key joins the repository |
| Composer.Repository.RemovePackage | src/VerbruggenAlex/Composer/Installer/DrupalInstallerInstaller.php:208 | the key leaves the repository |
| Composer.LibraryInstaller.Install | src/VerbruggenAlex/Composer/Installer/Solver/SharedPackageInstallerSolver.php:90 | the default installer registers the package and downloads it to its path |
| Composer.LibraryInstaller.Update | src/VerbruggenAlex/Composer/Installer/Solver/SharedPackageInstallerSolver.php:116 | the default installer swaps the versions and updates the target's path |
| Composer.LibraryInstaller.Uninstall | src/VerbruggenAlex/Composer/Installer/Solver/SharedPackageInstallerSolver.php:141 | the default installer unregisters the package and removes its tree |
| SharedStore.InstallPathShape | src/VerbruggenAlex/Composer/Installer/DrupalInstallerInstaller.php:79-92 | the sources path is original vendor dir, name, version, then `/targetDir` when that is non-empty; nothing else of the project matters |
| SharedStore.BuildSymlinkNullIffNoRule | src/VerbruggenAlex/Composer/Installer/DrupalInstallerInstaller.php:297-324 | the build symlink is NULL exactly when no `installer-paths` rule selects the package |
| SharedStore.EnsureSymlinkGrows | src/SymlinkFilesystem.php:17-26 | ensuring a symlink never removes or changes an existing node |
| SharedStore.CopyTreeGrowsOutside | src/VerbruggenAlex/Composer/Installer/DrupalInstallerInstaller.php:123 | copying keeps every existing node outside the target |
| SharedStore.InstallFetches | src/VerbruggenAlex/Composer/Installer/DrupalInstallerInstaller.php:110-132 | sources are downloaded only when unreadable, the package always ends in the repository, and an installed, readable package is left as it was (usage is stated by `SharedStore.InstallRecordsUsage`) |
| SharedStore.CoreInstall | src/VerbruggenAlex/Composer/Installer/DrupalInstallerInstaller.php:117-125 | `drupal-core` is copied to `dirname(vendorDir)` only when no `index.php` is there, makes no symlink and succeeds |
| SharedStore.CoreInstallProvidesIndex | src/VerbruggenAlex/Composer/Installer/DrupalInstallerInstaller.php:117-125 | after a core install the site root holds an `index.php` when the sources do |
| SharedStore.InstallRecordsUsage | src/VerbruggenAlex/Composer/Installer/DrupalInstallerInstaller.php:132 | a successful install adds this project to the package version's users |
| SharedStore.NoSymlinksWhenDisabled | src/VerbruggenAlex/Composer/Installer/DrupalInstallerInstaller.php:232-263 | with symlinks disabled a non-core install only fetches and succeeds |
| SharedStore.OtherTypesGetVendorLinkOnly | src/VerbruggenAlex/Composer/Installer/DrupalInstallerInstaller.php:126-131 | a type not starting with `drupal-` gets the vendor symlink and nothing more |
| SharedStore.DrupalTypeWithoutRuleThrows | src/VerbruggenAlex/Composer/Installer/DrupalInstallerInstaller.php:250-263 | a `drupal-*` package no rule selects throws at the build symlink (its NULL path becomes ""), after the vendor symlink and before usage is recorded |
| SharedStore.InstallThenInstalled | src/VerbruggenAlex/Composer/Installer/DrupalInstallerInstaller.php:108-164 | a successful non-core install with symlinks enabled leaves the package installed |
| SharedStore.CoreNotInstalled | src/VerbruggenAlex/Composer/Installer/DrupalInstallerInstaller.php:159-163 | `drupal-core` gets no vendor symlink, so it does not count as installed |
| SharedStore.UninstallEffect | src/VerbruggenAlex/Composer/Installer/DrupalInstallerInstaller.php:194-213 | the package always leaves the repository and this project's usage is dropped; the sources go exactly when at most one project used them and the answer is yes |
| SharedStore.UninstallSharedIgnoresAnswer | src/VerbruggenAlex/Composer/Installer/DrupalInstallerInstaller.php:196-202 | with several users the answer makes no difference and the disk is untouched |
| SharedStore.UninstallKeepsVendorSymlink | src/VerbruggenAlex/Composer/Installer/DrupalInstallerInstaller.php:280-295 | the vendor symlink is left as it was |
| SharedStore.LastUserDeletes | src/VerbruggenAlex/Composer/Installer/DrupalInstallerInstaller.php:194-227 | of two users, the first uninstall keeps the sources even with a yes; the second deletes them |
| SharedStore.UpdateInPlace | src/VerbruggenAlex/Composer/Installer/DrupalInstallerInstaller.php:175-179 | equal paths: the target's vendor symlink, then an in-place update that swaps the versions; the ledger is untouched |
| SharedStore.UpdateReplaces | src/VerbruggenAlex/Composer/Installer/DrupalInstallerInstaller.php:180-185 | different paths: uninstall of the initial then install of the target, stopped with no change when the initial package is not installed |
| Installer.DrupalInstallerInstaller.constructor | src/VerbruggenAlex/Composer/Installer/DrupalInstallerInstaller.php:58-74 | the installer keeps the given disk, ledger and configuration, and the ledger's project becomes the build vendor dir |
| Installer.DrupalInstallerInstaller.IsInstalled | src/VerbruggenAlex/Composer/Installer/DrupalInstallerInstaller.php:141-164 | installed exactly when in the repository, the sources are readable and the vendor symlink is a link |
| Installer.DrupalInstallerInstaller.IsSourceDirUnused | src/VerbruggenAlex/Composer/Installer/DrupalInstallerInstaller.php:222-227 | equals `SharedStore.IsSourceDirUnused` on the ledger: at most one project uses the package version |
| Installer.DrupalInstallerInstaller.Supports | src/VerbruggenAlex/Composer/Installer/DrupalInstallerInstaller.php:331-334 | every package type is supported |
| Installer.DrupalInstallerInstaller.ParentInstall | src/VerbruggenAlex/Composer/Installer/DrupalInstallerInstaller.php:111 | the package is registered and downloaded to its sources path |
| Installer.DrupalInstallerInstaller.ParentUpdate | src/VerbruggenAlex/Composer/Installer/DrupalInstallerInstaller.php:178 | the versions are swapped and the target's sources updated in place |
| Installer.DrupalInstallerInstaller.ParentUninstall | src/VerbruggenAlex/Composer/Installer/DrupalInstallerInstaller.php:205 | the package is unregistered and its sources removed |
| Installer.DrupalInstallerInstaller.CreatePackageVendorSymlink | src/VerbruggenAlex/Composer/Installer/DrupalInstallerInstaller.php:232-245 | the disk and result follow `CreateVendorSymlink` |
| Installer.DrupalInstallerInstaller.CreatePackageBuildsymlink | src/VerbruggenAlex/Composer/Installer/DrupalInstallerInstaller.php:250-263 | the disk and result follow `CreateBuildSymlink` |
| Installer.DrupalInstallerInstaller.Install | src/VerbruggenAlex/Composer/Installer/DrupalInstallerInstaller.php:108-133 | the result and the new repository, disk and ledger are those of `SharedStore.Install` |
| Installer.DrupalInstallerInstaller.Uninstall | src/VerbruggenAlex/Composer/Installer/DrupalInstallerInstaller.php:194-213 | the new repository, disk and ledger are those of `SharedStore.Uninstall` |
| Installer.DrupalInstallerInstaller.Update | src/VerbruggenAlex/Composer/Installer/DrupalInstallerInstaller.php:169-186 | the result and the new state are those of `SharedStore.Update` |
| Solver.MatchesPrefixSound | src/VerbruggenAlex/Composer/Installer/Solver/DrupalInstallerSolver.php:94-97 | a successful match attempt at one position matches an instance of the pattern |
| Solver.MatchesPrefixComplete | src/VerbruggenAlex/Composer/Installer/Solver/DrupalInstallerSolver.php:94-97 | an instance of the pattern at a position is found by the attempt there |
| Solver.GlobMatchStarts | src/VerbruggenAlex/Composer/Installer/Solver/DrupalInstallerSolver.php:97 | the unanchored match succeeds exactly when some start position succeeds |
| Solver.GlobMatchIffInstance | src/VerbruggenAlex/Composer/Installer/Solver/DrupalInstallerSolver.php:93-98 | a wildcard entry matches exactly when some substring of the name is an instance of it |
| Solver.LiteralDenotesItself | src/VerbruggenAlex/Composer/Installer/Solver/DrupalInstallerSolver.php:94 | characters other than `*` stand for themselves |
| Solver.StarDenotesWordRuns | src/VerbruggenAlex/Composer/Installer/Solver/DrupalInstallerSolver.php:94 | `*` stands for exactly the non-empty runs of `[a-zA-Z0-9-_]` |
| Solver.MatcherOfAccepts | src/VerbruggenAlex/Composer/Installer/Solver/DrupalInstallerSolver.php:91-104 | an entry without `*` accepts only the identical name; one with `*` accepts names containing an instance |
| Solver.GlobUnanchored | src/VerbruggenAlex/Composer/Installer/Solver/DrupalInstallerSolver.php:97 | a wildcard entry accepts any name that contains a name it accepts |
| Solver.MatchersOf | src/VerbruggenAlex/Composer/Installer/Solver/DrupalInstallerSolver.php:87-108 | one matcher per entry, in list order |
| Solver.DrupalInstallerSolver.constructor | src/VerbruggenAlex/Composer/Installer/Solver/DrupalInstallerSolver.php:37-50 | all shared exactly when the list contains `*`, and then no matchers; otherwise the matchers of the list |
| Solver.DrupalInstallerSolver.CreateCallbacks | src/VerbruggenAlex/Composer/Installer/Solver/DrupalInstallerSolver.php:87-108 | the loop builds one matcher per entry, in list order |
| Solver.DrupalInstallerSolver.IsDrupalInstaller | src/VerbruggenAlex/Composer/Installer/Solver/DrupalInstallerSolver.php:57-80 | every package is shared |
| Router.DrupalInstallerInstallerSolver.constructor | src/VerbruggenAlex/Composer/Installer/Solver/SharedPackageInstallerSolver.php:54-63 | the sharing predicate is `isDrupalInstaller` |
| Router.DrupalInstallerInstallerSolver.Supports | src/VerbruggenAlex/Composer/Installer/Solver/SharedPackageInstallerSolver.php:150-155 | every package type is supported |
| Router.DrupalInstallerInstallerSolver.Install | src/VerbruggenAlex/Composer/Installer/Solver/SharedPackageInstallerSolver.php:85-92 | a shared package is installed as `SharedStore.Install` says, any other by the default installer |
| Router.DrupalInstallerInstallerSolver.Update | src/VerbruggenAlex/Composer/Installer/Solver/SharedPackageInstallerSolver.php:112-124 | the default installer only when neither side is shared; otherwise a missing initial package throws with no change, else `SharedStore.Update` |
| Router.DrupalInstallerInstallerSolver.Uninstall | src/VerbruggenAlex/Composer/Installer/Solver/SharedPackageInstallerSolver.php:132-143 | a shared package missing from the repository throws with no change; an installed one follows `SharedStore.Uninstall`; any other goes to the default installer unchecked |
| Router.RoutesEverythingShared | src/VerbruggenAlex/Composer/Installer/Solver/SharedPackageInstallerSolver.php:72-107 | with `isDrupalInstaller` as predicate, paths and installed checks always come from the shared-store installer |
| PluginInstallerModel.GetInstallPath | src/PluginInstaller.php:11-19 | the base path, followed by `/targetDir` only when that is non-empty |
| PluginInstallerModel.CoreAtSiteRoot | src/PluginInstaller.php:14-18 | with vendor dir `root/vendor`, `drupal-core` goes to `root` and any other package to `root/vendor/<name>` |
| PluginInstallerModel.CoreIgnoresRepository | src/PluginInstaller.php:29-30 | for `drupal-core` only `index.php` under the install path counts; the repository is not consulted |
| PluginInstallerModel.OtherTypesNeedRepository | src/PluginInstaller.php:32-33 | other types are installed exactly when in the repository and readable |
| PluginInstallerModel.CoreCopyIsInstalled | src/PluginInstaller.php:29-30 | a core package the shared-store installer copied counts as installed here |
| PluginInstallerModel.Supports | src/PluginInstaller.php:42-45 | every package type is supported |

The same `templatePath` and `mapCustomInstallPaths` code also appears at src/PluginInstallerConfig.php:155-167 and 178-186. The model defines each once. `inflectPackageVars` (src/PluginInstallerConfig.php:194-197) returns its input and is `CustomPaths.InflectPackageVars`.

## Left out

- Console I/O: `askConfirmation` is the `confirmDelete` parameter, and `writeError` messages are dropped.
- Ambient process state: the git branch (`exec("git branch")`) and the `--no-dev` argument (`$GLOBALS['argv']`) are parameters.
- Composer's `LibraryInstaller` internals: downloading and extracting archives, installing and removing binaries, and `Filesystem::copy` are modelled only by their effect on the install path (a directory appears, a tree is removed, a tree is copied).
- `relativeSymlink`: the relative-path arithmetic is not modelled. A link records the source path it was given.
- `ensureDirectoryExists` creates only the directory itself, not its missing ancestors. The outcome of each `unlink` and `rmdir` call is a parameter.
- Links are not followed: a path is readable only when it is present itself.
- Template.TemplatePath: PHP's `extract()` makes the function's own locals (`$path`, `$vars`, `$matches`) resolvable as placeholders when `vars` does not define them. It also lets a `path` key in `vars` replace the template being rendered and a `matches` key be overwritten by the match list, and it renders a bare `{$var}` placeholder as the text `var`. The model reads every placeholder from `vars` alone and renders the template it was given.
- Undefined helpers: `DrupalInstallerInstallerConfig` has no parent class and defines none of `inflectPackageVars`, `templatePath` and `mapCustomInstallPaths`. It calls the first two itself (src/VerbruggenAlex/Composer/Installer/Config/DrupalInstallerInstallerConfig.php:138-139), and the installer calls the last two on it (src/VerbruggenAlex/Composer/Installer/DrupalInstallerInstaller.php:315-319), so as written those calls fail at run time. The model gives them the definitions of `PluginInstallerConfig` (src/PluginInstallerConfig.php:155-186): `CustomPaths.InflectPackageVars`, `Template.TemplatePath` and `CustomPaths.MapCustomInstallPaths`.
- SharedStore.Install, SharedStore.Update, SharedStore.IsInstalled, SharedStore.InstallPath, Installer.DrupalInstallerInstaller.Install, Installer.DrupalInstallerInstaller.Update, Installer.DrupalInstallerInstaller.IsInstalled, Installer.DrupalInstallerInstaller.GetInstallPath, PluginInstallerModel.GetInstallPath and PluginInstallerModel.IsInstalled: Composer's `initializeVendorDir`, which `getInstallPath` calls (src/VerbruggenAlex/Composer/Installer/DrupalInstallerInstaller.php:81, src/PluginInstaller.php:13) and so runs on every path computation of `isInstalled`, `install` and `update`, creates the vendor directory and throws a `RuntimeException` when a non-directory holds that path. The model does not create that directory and has no such error, because it belongs to Composer's `LibraryInstaller`, which is not part of this model.
- Path identity: paths are compared by their spelling. `a//b` and `a/b` are different paths, and a relative path is never the same as an absolute one.
- Composer.LibraryInstaller: Composer's installer throws `InvalidArgumentException` when `update` or `uninstall` is given a package that is not in the repository; the model has no such error. When `updateCode` finds that the install path changed it moves the old directory; the model writes the target path and leaves the old path on disk as it was.
- Glob matching: regular-expression metacharacters in a list entry other than `*` (for example `.`) are matched literally.
- `in_array` in the `installer-paths` lookup is modelled as exact string comparison. PHP's loose comparison only differs for numeric strings.
- The usage ledger's persistence and `setPackageInstallationSource` are not modelled. The ledger is an in-memory map with add, remove and get.
- Commented-out code (the routing rules in `isDrupalInstaller`, the symlink removal in `removePackageVendorSymlink`) is not modelled, because the code does not execute it.
- The plugin glue (src/Plugin.php, src/VerbruggenAlex/Composer/SharedPackagePlugin.php, src/VerbruggenAlex/Composer/DrupalInstallerPlugin.php) only activates the plugin and wires the objects together. It is not part of this model.
- Paths use `/` as the directory separator.
