/**
 * `DrupalInstallerSolver`: turns the configured package list into an
 * all-shared flag or into one name matcher per entry. An entry without
 * `*` compares names exactly; an entry with `*` becomes an unanchored
 * regular expression in which every `*` stands for a non-empty run of
 * letters, digits, `-` and `_`.
 */
module Solver {
  import opened Packages
  import opened InstallerConfig

  datatype Matcher = Exact(name: string) | Glob(pattern: string)

  /** The callback `createCallbacks` builds for one list entry. */
  function MatcherOf(entry: string): Matcher {
    if '*' in entry then Glob(entry) else Exact(entry)
  }

  /** The class `[a-zA-Z0-9-_]`. */
  predicate IsWordChar(c: char) {
    'a' <= c <= 'z' || 'A' <= c <= 'Z' || '0' <= c <= '9' || c == '-' || c == '_'
  }

  predicate AllWord(w: string) {
    forall i :: 0 <= i < |w| ==> IsWordChar(w[i])
  }

  /**
   * Reference meaning of a pattern: `w` is exactly an instance of `p`,
   * every `*` replaced by a non-empty word run, every other character
   * standing for itself.
   */
  ghost predicate Denotes(p: string, w: string)
    decreases |p|
  {
    if p == [] then w == []
    else if p[0] == '*' then
      exists k :: 1 <= k <= |w| && AllWord(w[..k]) && Denotes(p[1..], w[k..])
    else w != [] && w[0] == p[0] && Denotes(p[1..], w[1..])
  }

  /** The regex engine's attempt at one start position: `p` matches some prefix of `s`. */
  predicate MatchesPrefix(p: string, s: string)
    decreases |p| + |s|
  {
    if p == [] then true
    else if p[0] == '*' then
      s != [] && IsWordChar(s[0]) && (MatchesPrefix(p[1..], s[1..]) || MatchesPrefix(p, s[1..]))
    else s != [] && s[0] == p[0] && MatchesPrefix(p[1..], s[1..])
  }

  /** `preg_match` without anchors: some start position succeeds. */
  predicate GlobMatch(p: string, s: string)
    decreases |s|
  {
    MatchesPrefix(p, s) || (s != [] && GlobMatch(p, s[1..]))
  }

  lemma {:induction false} MatchesPrefixSound(p: string, s: string)
    requires MatchesPrefix(p, s)
    ensures exists j :: 0 <= j <= |s| && Denotes(p, s[..j])
    decreases |p| + |s|
  {
    if p == [] {
      assert Denotes(p, s[..0]);
    } else if p[0] == '*' {
      if MatchesPrefix(p[1..], s[1..]) {
        MatchesPrefixSound(p[1..], s[1..]);
        var j' :| 0 <= j' <= |s[1..]| && Denotes(p[1..], s[1..][..j']);
        var w := s[..j' + 1];
        assert w[..1] == [s[0]];
        assert w[1..] == s[1..][..j'];
        assert Denotes(p, w);
      } else {
        MatchesPrefixSound(p, s[1..]);
        var j' :| 0 <= j' <= |s[1..]| && Denotes(p, s[1..][..j']);
        var w' := s[1..][..j'];
        var k' :| 1 <= k' <= |w'| && AllWord(w'[..k']) && Denotes(p[1..], w'[k'..]);
        var w := s[..j' + 1];
        assert w[..k' + 1] == [s[0]] + w'[..k'];
        assert w[k' + 1..] == w'[k'..];
        assert Denotes(p, w);
      }
    } else {
      MatchesPrefixSound(p[1..], s[1..]);
      var j' :| 0 <= j' <= |s[1..]| && Denotes(p[1..], s[1..][..j']);
      var w := s[..j' + 1];
      assert w[1..] == s[1..][..j'];
      assert Denotes(p, w);
    }
  }

  lemma {:induction false} MatchesPrefixComplete(p: string, s: string, j: nat)
    requires j <= |s| && Denotes(p, s[..j])
    ensures MatchesPrefix(p, s)
    decreases |p| + |s|
  {
    var w := s[..j];
    if p == [] {
    } else if p[0] == '*' {
      var k :| 1 <= k <= |w| && AllWord(w[..k]) && Denotes(p[1..], w[k..]);
      assert IsWordChar(w[..k][0]);
      if k == 1 {
        assert w[1..] == s[1..][..j - 1];
        MatchesPrefixComplete(p[1..], s[1..], j - 1);
      } else {
        var v := s[1..][..j - 1];
        var u, wk := v[..k - 1], w[..k];
        assert u == w[1..k];
        assert AllWord(u) by {
          forall i | 0 <= i < |u| ensures IsWordChar(u[i]) {
            assert u[i] == wk[i + 1];
          }
        }
        assert v[k - 1..] == w[k..];
        assert Denotes(p, v);
        MatchesPrefixComplete(p, s[1..], j - 1);
      }
    } else {
      assert w[1..] == s[1..][..j - 1];
      MatchesPrefixComplete(p[1..], s[1..], j - 1);
    }
  }

  lemma {:induction false} GlobMatchStarts(p: string, s: string)
    ensures GlobMatch(p, s) <==> exists i :: 0 <= i <= |s| && MatchesPrefix(p, s[i..])
    decreases |s|
  {
    assert s[0..] == s;
    if s != [] {
      GlobMatchStarts(p, s[1..]);
      if GlobMatch(p, s[1..]) {
        var i :| 0 <= i <= |s[1..]| && MatchesPrefix(p, s[1..][i..]);
        assert s[i + 1..] == s[1..][i..];
      }
      if i :| 0 <= i <= |s| && MatchesPrefix(p, s[i..]) {
        if i > 0 {
          assert s[1..][i - 1..] == s[i..];
        }
      }
    }
  }

  /** A wildcard entry matches a name exactly when some substring of the name is an instance of it. */
  lemma GlobMatchIffInstance(p: string, s: string)
    ensures GlobMatch(p, s) <==> exists i, j :: 0 <= i <= j <= |s| && Denotes(p, s[i..j])
  {
    GlobMatchStarts(p, s);
    if GlobMatch(p, s) {
      var i :| 0 <= i <= |s| && MatchesPrefix(p, s[i..]);
      MatchesPrefixSound(p, s[i..]);
      var j :| 0 <= j <= |s[i..]| && Denotes(p, s[i..][..j]);
      assert s[i..][..j] == s[i..i + j];
    }
    if i, j :| 0 <= i <= j <= |s| && Denotes(p, s[i..j]) {
      assert s[i..][..j - i] == s[i..j];
      MatchesPrefixComplete(p, s[i..], j - i);
    }
  }

  /** A pattern without `*` denotes only itself. */
  lemma {:induction false} LiteralDenotesItself(p: string, w: string)
    requires '*' !in p
    ensures Denotes(p, w) <==> w == p
    decreases |p|
  {
    if p != [] {
      assert p[0] != '*';
      assert '*' !in p[1..] by {
        forall i | 0 <= i < |p[1..]| ensures p[1..][i] != '*' {
          assert p[1..][i] == p[i + 1];
        }
      }
      if w != [] {
        LiteralDenotesItself(p[1..], w[1..]);
        if w[0] == p[0] && w[1..] == p[1..] {
          assert w == [w[0]] + w[1..];
          assert p == [p[0]] + p[1..];
        }
      }
    }
  }

  /** A lone `*` denotes exactly the non-empty word runs. */
  lemma StarDenotesWordRuns(w: string)
    ensures Denotes("*", w) <==> w != [] && AllWord(w)
  {
    assert "*"[1..] == [];
    if w != [] && AllWord(w) {
      assert w[..|w|] == w;
      assert w[|w|..] == [];
    }
  }

  /** The callback for `m`, applied to a pretty name. */
  predicate Matches(m: Matcher, prettyName: string)
  {
    match m
    case Exact(name) => name == prettyName
    case Glob(pattern) => GlobMatch(pattern, prettyName)
  }

  /** What the callback built for `entry` accepts. */
  lemma MatcherOfAccepts(entry: string, prettyName: string)
    ensures '*' !in entry ==> (Matches(MatcherOf(entry), prettyName) <==> prettyName == entry)
    ensures '*' in entry ==> (Matches(MatcherOf(entry), prettyName) <==>
      exists i, j :: 0 <= i <= j <= |prettyName| && Denotes(entry, prettyName[i..j]))
  {
    if '*' in entry {
      GlobMatchIffInstance(entry, prettyName);
    }
  }

  /** An entry with `*` also accepts any name that contains a name it accepts. */
  lemma GlobUnanchored(pattern: string, left: string, name: string, right: string)
    requires GlobMatch(pattern, name)
    ensures GlobMatch(pattern, left + name + right)
  {
    GlobMatchIffInstance(pattern, name);
    var i, j :| 0 <= i <= j <= |name| && Denotes(pattern, name[i..j]);
    var s := left + name + right;
    assert s[|left| + i..|left| + j] == name[i..j];
    GlobMatchIffInstance(pattern, s);
  }

  class DrupalInstallerSolver {
    var packageCallbacks: seq<Matcher>
    var areAllShared: bool

    /** Scans the list for a literal `*`; only without one are callbacks built. */
    constructor(config: DrupalInstallerInstallerConfig)
      ensures areAllShared <==> "*" in config.packageList
      ensures areAllShared ==> packageCallbacks == []
      ensures !areAllShared ==> packageCallbacks == MatchersOf(config.packageList)
    {
      var packageList := config.GetPackageList();
      var allShared := false;
      var i := 0;
      while i < |packageList|
        invariant 0 <= i <= |packageList|
        invariant allShared <==> "*" in packageList[..i]
      {
        if "*" == packageList[i] {
          allShared := true;
        }
        assert packageList[..i + 1] == packageList[..i] + [packageList[i]];
        i := i + 1;
      }
      assert packageList[..i] == packageList;
      var callbacks := [];
      if !allShared {
        callbacks := CreateCallbacks(packageList);
      }
      areAllShared := allShared;
      packageCallbacks := callbacks;
    }

    /** `createCallbacks`: one matcher per entry, in list order. */
    static method CreateCallbacks(packageList: seq<string>) returns (callbacks: seq<Matcher>)
      ensures |callbacks| == |packageList|
      ensures forall i :: 0 <= i < |packageList| ==> callbacks[i] == MatcherOf(packageList[i])
    {
      callbacks := [];
      var i := 0;
      while i < |packageList|
        invariant 0 <= i <= |packageList|
        invariant |callbacks| == i
        invariant forall k :: 0 <= k < i ==> callbacks[k] == MatcherOf(packageList[k])
      {
        callbacks := callbacks + [MatcherOf(packageList[i])];
        i := i + 1;
      }
    }

    /** `isDrupalInstaller`: every package is shared, whatever the list says. */
    function IsDrupalInstaller(pkg: Package): (r: bool)
      ensures r
    {
      true
    }
  }

  /** The matchers for a whole list, as a sequence function. */
  function MatchersOf(packageList: seq<string>): (r: seq<Matcher>)
    ensures |r| == |packageList|
    ensures forall i :: 0 <= i < |packageList| ==> r[i] == MatcherOf(packageList[i])
  {
    if packageList == [] then [] else [MatcherOf(packageList[0])] + MatchersOf(packageList[1..])
  }
}
