/**
 * `mapCustomInstallPaths`: the `installer-paths` table of the root package,
 * read in table order. A rule's key is a path template; its value is the
 * list of selectors that send a package there: a full pretty name,
 * `type:<type>` or `vendor:<vendor>`.
 */
module CustomPaths {
  import opened Wrappers

  datatype Rule = Rule(path: string, names: seq<string>)

  /** The three `in_array` tests of one rule. */
  predicate RuleMatches(rule: Rule, name: string, pkgType: string, vendor: string) {
    name in rule.names || "type:" + pkgType in rule.names || "vendor:" + vendor in rule.names
  }

  /** The key of the first rule that selects the package; `None` stands for PHP's `false`. */
  function MapCustomInstallPaths(paths: seq<Rule>, name: string, pkgType: string, vendor: string): (r: Option<string>)
    ensures r.None? <==> forall i :: 0 <= i < |paths| ==> !RuleMatches(paths[i], name, pkgType, vendor)
    ensures r.Some? ==> exists i :: 0 <= i < |paths| && paths[i].path == r.value
                          && RuleMatches(paths[i], name, pkgType, vendor)
                          && forall j :: 0 <= j < i ==> !RuleMatches(paths[j], name, pkgType, vendor)
    decreases |paths|
  {
    if paths == [] then None
    else if RuleMatches(paths[0], name, pkgType, vendor) then Some(paths[0].path)
    else
      var r := MapCustomInstallPaths(paths[1..], name, pkgType, vendor);
      assert forall i :: 1 <= i < |paths| ==> paths[i] == paths[1..][i - 1];
      if r.Some? then
        var k :| 0 <= k < |paths[1..]| && paths[1..][k].path == r.value
                 && RuleMatches(paths[1..][k], name, pkgType, vendor)
                 && forall j :: 0 <= j < k ==> !RuleMatches(paths[1..][j], name, pkgType, vendor);
        assert paths[k + 1] == paths[1..][k];
        assert forall j :: 0 <= j < k + 1 ==> !RuleMatches(paths[j], name, pkgType, vendor) by {
          forall j | 0 <= j < k + 1 ensures !RuleMatches(paths[j], name, pkgType, vendor) {
            if j > 0 { assert paths[j] == paths[1..][j - 1]; }
          }
        }
        r
      else r
  }

  /** The rule that wins is the first that matches; a later match never overrides it. */
  lemma {:induction false} FirstMatchWins(paths: seq<Rule>, i: nat, name: string, pkgType: string, vendor: string)
    requires i < |paths| && RuleMatches(paths[i], name, pkgType, vendor)
    requires forall j :: 0 <= j < i ==> !RuleMatches(paths[j], name, pkgType, vendor)
    ensures MapCustomInstallPaths(paths, name, pkgType, vendor) == Some(paths[i].path)
    decreases i
  {
    if i > 0 {
      assert !RuleMatches(paths[0], name, pkgType, vendor);
      assert paths[1..][i - 1] == paths[i];
      assert forall j :: 0 <= j < i - 1 ==> paths[1..][j] == paths[j + 1];
      FirstMatchWins(paths[1..], i - 1, name, pkgType, vendor);
    }
  }

  /**
   * Appending rules after a matching one changes nothing: the result only
   * depends on the prefix up to the first match.
   */
  lemma {:induction false} AppendedRulesIgnored(paths: seq<Rule>, more: seq<Rule>, name: string, pkgType: string, vendor: string)
    requires MapCustomInstallPaths(paths, name, pkgType, vendor).Some?
    ensures MapCustomInstallPaths(paths + more, name, pkgType, vendor) == MapCustomInstallPaths(paths, name, pkgType, vendor)
    decreases |paths|
  {
    if !RuleMatches(paths[0], name, pkgType, vendor) {
      assert (paths + more)[1..] == paths[1..] + more;
      AppendedRulesIgnored(paths[1..], more, name, pkgType, vendor);
    }
  }

  /** `inflectPackageVars`: the hook for installers to rewrite the vars; the default keeps them. */
  function InflectPackageVars<V>(vars: V): V { vars }
}
