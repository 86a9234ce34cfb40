/**
 * `templatePath`: the `{$var}` placeholder substitution used for install
 * paths and for the build prefix. The PHP first collects every match of
 * `\{\$([A-Za-z0-9_]*)\}` with `preg_match_all`, then, for each captured
 * name in order, rewrites the whole path with `str_replace('{$name}',
 * $$name, $path)`. A name without a value substitutes "" (PHP's undefined
 * variable is NULL, which `str_replace` turns into "").
 *
 * `Rendered` is that algorithm as a function, `TemplatePath` the loop
 * itself, and `Expand` an independent single left-to-right pass that
 * replaces each placeholder occurrence by its value; `RenderedIsExpand`
 * proves the two agree on well-formed templates.
 */
module Template {
  import opened Wrappers

  type Vars = map<string, string>

  predicate IsNameChar(c: char) {
    ('A' <= c <= 'Z') || ('a' <= c <= 'z') || ('0' <= c <= '9') || c == '_'
  }

  predicate IsName(s: string) {
    forall i :: 0 <= i < |s| ==> IsNameChar(s[i])
  }

  /** The value `$$name` takes after `extract($vars)`. */
  function Lookup(vars: Vars, name: string): string {
    if name in vars then vars[name] else ""
  }

  /** The text `{$name}`. */
  function Placeholder(name: string): string {
    "{$" + name + "}"
  }

  /** The longest prefix of `s` made of `[A-Za-z0-9_]`. */
  function NamePrefix(s: string): (r: string)
    ensures r <= s && IsName(r)
    ensures |r| < |s| ==> !IsNameChar(s[|r|])
    decreases |s|
  {
    if s != [] && IsNameChar(s[0]) then [s[0]] + NamePrefix(s[1..]) else []
  }

  /** The name captured when the pattern matches at the start of `s`. */
  function LeadingName(s: string): (r: Option<string>)
    ensures r.Some? ==> IsName(r.value) && Placeholder(r.value) <= s
  {
    if |s| >= 2 && s[0] == '{' && s[1] == '$' then
      var w := NamePrefix(s[2..]);
      if |w| + 2 < |s| && s[|w| + 2] == '}' then
        assert s[..|w| + 3] == Placeholder(w);
        Some(w)
      else None
    else None
  }

  /** The names `preg_match_all` captures, left to right, without overlap. */
  function Matches(s: string): seq<string>
    decreases |s|
  {
    if s == [] then []
    else match LeadingName(s)
      case Some(w) => [w] + Matches(s[|w| + 3..])
      case None => Matches(s[1..])
  }

  /** `str_replace($needle, $rep, $s)`: every non-overlapping occurrence, left to right. */
  function ReplaceAll(s: string, needle: string, rep: string): string
    requires needle != []
    decreases |s|
  {
    if s == [] then []
    else if needle <= s then rep + ReplaceAll(s[|needle|..], needle, rep)
    else [s[0]] + ReplaceAll(s[1..], needle, rep)
  }

  /** The path after the loop has handled the first |names| captured names. */
  function Substituted(path: string, vars: Vars, names: seq<string>): string
    decreases |names|
  {
    if names == [] then path
    else
      var last := names[|names| - 1];
      ReplaceAll(Substituted(path, vars, names[..|names| - 1]), Placeholder(last), Lookup(vars, last))
  }

  /** `templatePath($path, $vars)` as written. */
  function Rendered(path: string, vars: Vars): string {
    if '{' in path then Substituted(path, vars, Matches(path)) else path
  }

  /** `templatePath`: the `foreach` over the captured names, one `str_replace` per name. */
  method TemplatePath(path: string, vars: Vars) returns (r: string)
    ensures r == Rendered(path, vars)
  {
    r := path;
    if '{' in path {
      var matches := Matches(path);
      var i := 0;
      while i < |matches|
        invariant 0 <= i <= |matches|
        invariant r == Substituted(path, vars, matches[..i])
      {
        assert matches[..i + 1][..i] == matches[..i];
        r := ReplaceAll(r, Placeholder(matches[i]), Lookup(vars, matches[i]));
        i := i + 1;
      }
      assert matches[..|matches|] == matches;
    }
  }

  // ---------------------------------------------------------------------
  // The reference reading: one pass, each placeholder replaced by its value.

  /** Replace the placeholders whose name is in `done`; keep the others as text. */
  function ExpandNames(s: string, vars: Vars, done: set<string>): string
    decreases |s|
  {
    if s == [] then []
    else match LeadingName(s)
      case Some(w) =>
        (if w in done then Lookup(vars, w) else Placeholder(w)) + ExpandNames(s[|w| + 3..], vars, done)
      case None => [s[0]] + ExpandNames(s[1..], vars, done)
  }

  /** Every placeholder occurrence replaced by its value, in a single left-to-right pass. */
  function Expand(s: string, vars: Vars): string
    decreases |s|
  {
    if s == [] then []
    else match LeadingName(s)
      case Some(w) => Lookup(vars, w) + Expand(s[|w| + 3..], vars)
      case None => [s[0]] + Expand(s[1..], vars)
  }

  /** Every '{' of the template opens a placeholder. */
  predicate WellFormed(s: string) {
    forall i :: 0 <= i < |s| && s[i] == '{' ==> LeadingName(s[i..]).Some?
  }

  /** No value brings a '{' into the path. */
  predicate BraceFree(vars: Vars) {
    forall n :: n in vars ==> '{' !in vars[n]
  }

  function NameSet(names: seq<string>): set<string> {
    set i | 0 <= i < |names| :: names[i]
  }

  lemma WellFormedSuffix(s: string, k: nat)
    requires WellFormed(s) && k <= |s|
    ensures WellFormed(s[k..])
  {
    forall i | 0 <= i < |s[k..]| && s[k..][i] == '{'
      ensures LeadingName(s[k..][i..]).Some?
    {
      assert s[k..][i..] == s[k + i..];
      assert s[k + i] == '{';
    }
  }

  lemma {:induction false} MatchesAreNames(s: string)
    ensures forall i :: 0 <= i < |Matches(s)| ==> IsName(Matches(s)[i])
    decreases |s|
  {
    if s != [] {
      match LeadingName(s)
      case Some(w) => MatchesAreNames(s[|w| + 3..]);
      case None => MatchesAreNames(s[1..]);
    }
  }

  /** A replacement cannot start inside text that holds no '{'. */
  lemma {:induction false} ReplaceAllSkip(a: string, b: string, n: string, rep: string)
    requires '{' !in a
    ensures ReplaceAll(a + b, Placeholder(n), rep) == a + ReplaceAll(b, Placeholder(n), rep)
    decreases |a|
  {
    if a == [] {
      assert a + b == b;
    } else {
      assert (a + b)[0] != '{';
      assert !(Placeholder(n) <= a + b);
      assert (a + b)[1..] == a[1..] + b;
      ReplaceAllSkip(a[1..], b, n, rep);
    }
  }

  /** `{$n}` does not occur at the start of `{$w}...` for a different name `w`. */
  lemma {:induction false} PlaceholderSkip(w: string, x: string, n: string, rep: string)
    requires IsName(w) && IsName(n) && w != n
    ensures ReplaceAll(Placeholder(w) + x, Placeholder(n), rep)
         == Placeholder(w) + ReplaceAll(x, Placeholder(n), rep)
  {
    var s := Placeholder(w) + x;
    var p := Placeholder(n);
    if |n| < |w| {
      assert IsNameChar(w[|n|]);
      assert s[2 + |n|] == w[|n|];
      assert p[2 + |n|] == '}';
    } else if |n| > |w| {
      assert IsNameChar(n[|w|]);
      assert s[2 + |w|] == '}';
      assert p[2 + |w|] == n[|w|];
    } else {
      assert exists i :: 0 <= i < |n| && n[i] != w[i];
      var i :| 0 <= i < |n| && n[i] != w[i];
      assert s[2 + i] == w[i];
      assert p[2 + i] == n[i];
    }
    assert !(p <= s);
    assert s[1..] == (['$'] + w + ['}']) + x;
    assert '{' !in ['$'] + w + ['}'] by {
      assert forall i :: 0 <= i < |w| ==> IsNameChar(w[i]);
    }
    ReplaceAllSkip(['$'] + w + ['}'], x, n, rep);
    assert ['{'] + (['$'] + w + ['}']) == Placeholder(w);
  }

  /** One `str_replace` for name n moves n into the replaced set. */
  lemma {:induction false} ReplaceStep(s: string, vars: Vars, done: set<string>, n: string)
    requires WellFormed(s) && BraceFree(vars) && IsName(n)
    ensures ReplaceAll(ExpandNames(s, vars, done), Placeholder(n), Lookup(vars, n))
         == ExpandNames(s, vars, done + {n})
    decreases |s|
  {
    if s != [] {
      var rep := Lookup(vars, n);
      match LeadingName(s)
      case Some(w) =>
        var rest := s[|w| + 3..];
        WellFormedSuffix(s, |w| + 3);
        ReplaceStep(rest, vars, done, n);
        if w in done {
          ReplaceAllSkip(Lookup(vars, w), ExpandNames(rest, vars, done), n, rep);
        } else if w == n {
          var e := Placeholder(w) + ExpandNames(rest, vars, done);
          assert Placeholder(n) <= e;
          assert e[|Placeholder(n)|..] == ExpandNames(rest, vars, done);
        } else {
          PlaceholderSkip(w, ExpandNames(rest, vars, done), n, rep);
        }
      case None =>
        assert s[0] != '{' by {
          assert s[0..] == s;
        }
        WellFormedSuffix(s, 1);
        ReplaceStep(s[1..], vars, done, n);
        ReplaceAllSkip([s[0]], ExpandNames(s[1..], vars, done), n, rep);
    }
  }

  lemma {:induction false} ExpandNamesNone(s: string, vars: Vars)
    ensures ExpandNames(s, vars, {}) == s
    decreases |s|
  {
    if s != [] {
      match LeadingName(s)
      case Some(w) =>
        ExpandNamesNone(s[|w| + 3..], vars);
        assert s == Placeholder(w) + s[|w| + 3..];
      case None =>
        ExpandNamesNone(s[1..], vars);
        assert s == [s[0]] + s[1..];
    }
  }

  lemma {:induction false} ExpandNamesAll(s: string, vars: Vars, done: set<string>)
    requires NameSet(Matches(s)) <= done
    ensures ExpandNames(s, vars, done) == Expand(s, vars)
    decreases |s|
  {
    if s != [] {
      match LeadingName(s)
      case Some(w) =>
        var rest := s[|w| + 3..];
        assert Matches(s) == [w] + Matches(rest);
        assert Matches(s)[0] == w;
        assert NameSet(Matches(rest)) <= done by {
          forall i | 0 <= i < |Matches(rest)| ensures Matches(rest)[i] in done {
            assert Matches(rest)[i] == Matches(s)[i + 1];
          }
        }
        ExpandNamesAll(rest, vars, done);
      case None =>
        assert Matches(s) == Matches(s[1..]);
        ExpandNamesAll(s[1..], vars, done);
    }
  }

  lemma {:induction false} SubstitutedExpands(s: string, vars: Vars, names: seq<string>)
    requires WellFormed(s) && BraceFree(vars)
    requires forall i :: 0 <= i < |names| ==> IsName(names[i])
    ensures Substituted(s, vars, names) == ExpandNames(s, vars, NameSet(names))
    decreases |names|
  {
    if names == [] {
      ExpandNamesNone(s, vars);
      assert NameSet(names) == {};
    } else {
      var init := names[..|names| - 1];
      var last := names[|names| - 1];
      SubstitutedExpands(s, vars, init);
      ReplaceStep(s, vars, NameSet(init), last);
      assert NameSet(init) + {last} == NameSet(names) by {
        forall x | x in NameSet(names) ensures x in NameSet(init) + {last} {
          var i :| 0 <= i < |names| && names[i] == x;
          if i < |names| - 1 { assert init[i] == x; }
        }
        forall x | x in NameSet(init) ensures x in NameSet(names) {
          var i :| 0 <= i < |init| && init[i] == x;
          assert names[i] == x;
        }
      }
    }
  }

  lemma {:induction false} NoBraceNoMatch(s: string, vars: Vars)
    requires '{' !in s
    ensures Matches(s) == [] && Expand(s, vars) == s
    decreases |s|
  {
    if s != [] {
      assert LeadingName(s).None?;
      NoBraceNoMatch(s[1..], vars);
      assert s == [s[0]] + s[1..];
    }
  }

  // ---------------------------------------------------------------------
  // What `templatePath` promises.

  /**
   * On a template in which every '{' opens a placeholder, and with values
   * that hold no '{', the name-by-name rewriting of `templatePath` is the
   * single-pass substitution: every `{$v}` becomes `vars[v]` (or "" when
   * v has no value) and all other text is kept.
   */
  lemma RenderedIsExpand(path: string, vars: Vars)
    requires WellFormed(path) && BraceFree(vars)
    ensures Rendered(path, vars) == Expand(path, vars)
  {
    if '{' in path {
      MatchesAreNames(path);
      SubstitutedExpands(path, vars, Matches(path));
      ExpandNamesAll(path, vars, NameSet(Matches(path)));
    } else {
      NoBraceNoMatch(path, vars);
    }
  }

  /** A path without '{' has no placeholder and comes back unchanged. */
  lemma NoPlaceholderUnchanged(path: string, vars: Vars)
    requires '{' !in path
    ensures Matches(path) == []
    ensures Rendered(path, vars) == path && Expand(path, vars) == path
  {
    NoBraceNoMatch(path, vars);
  }

  lemma {:induction false} NamePrefixOf(w: string, rest: string)
    requires IsName(w)
    ensures NamePrefix(w + "}" + rest) == w
    decreases |w|
  {
    if w == [] {
      assert (w + "}" + rest)[0] == '}';
    } else {
      assert (w + "}" + rest)[1..] == w[1..] + "}" + rest;
      NamePrefixOf(w[1..], rest);
    }
  }

  /** A placeholder at the front of the text is matched with its whole name. */
  lemma LeadingPlaceholder(w: string, rest: string)
    requires IsName(w)
    ensures LeadingName(Placeholder(w) + rest) == Some(w)
    ensures (Placeholder(w) + rest)[|w| + 3..] == rest
  {
    var s := Placeholder(w) + rest;
    assert s[2..] == w + "}" + rest;
    NamePrefixOf(w, rest);
  }

  lemma ExpandPlaceholder(w: string, rest: string, vars: Vars)
    requires IsName(w)
    ensures Expand(Placeholder(w) + rest, vars) == Lookup(vars, w) + Expand(rest, vars)
    ensures WellFormed(rest) ==> WellFormed(Placeholder(w) + rest)
  {
    LeadingPlaceholder(w, rest);
    var s := Placeholder(w) + rest;
    if WellFormed(rest) {
      assert forall i :: 2 <= i < |w| + 2 ==> s[i] == w[i - 2];
      assert forall i :: 0 < i < |w| + 3 ==> s[i] != '{';
      forall i | 0 <= i < |s| && s[i] == '{' ensures LeadingName(s[i..]).Some? {
        if i == 0 {
          assert s[0..] == s;
        } else if i >= |w| + 3 {
          assert s[i..] == rest[i - (|w| + 3)..];
          assert rest[i - (|w| + 3)] == s[i];
        }
      }
    }
  }

  lemma ExpandChar(c: char, rest: string, vars: Vars)
    requires c != '{'
    ensures Expand([c] + rest, vars) == [c] + Expand(rest, vars)
    ensures WellFormed(rest) ==> WellFormed([c] + rest)
  {
    var s := [c] + rest;
    assert s[1..] == rest;
    if WellFormed(rest) {
      forall i | 0 <= i < |s| && s[i] == '{' ensures LeadingName(s[i..]).Some? {
        assert s[i..] == rest[i - 1..];
        assert rest[i - 1] == s[i];
      }
    }
  }

  /**
   * Two placeholders around a separator each become their value; with a
   * vendor and a name this is `{$vendor}/{$name}` giving `acme/widget`.
   */
  lemma TwoPlaceholders(a: string, sep: char, b: string, vars: Vars)
    requires IsName(a) && IsName(b) && sep != '{' && BraceFree(vars)
    ensures Rendered(Placeholder(a) + [sep] + Placeholder(b), vars)
         == Lookup(vars, a) + [sep] + Lookup(vars, b)
  {
    var tail := Placeholder(b) + [];
    var s := Placeholder(a) + ([sep] + tail);
    TwoPlaceholdersExpand(a, sep, b, vars);
    assert Placeholder(a) + [sep] + Placeholder(b) == s;
    RenderedIsExpand(s, vars);
  }

  lemma TwoPlaceholdersExpand(a: string, sep: char, b: string, vars: Vars)
    requires IsName(a) && IsName(b) && sep != '{'
    ensures WellFormed(Placeholder(a) + ([sep] + (Placeholder(b) + [])))
    ensures Expand(Placeholder(a) + ([sep] + (Placeholder(b) + [])), vars)
         == Lookup(vars, a) + [sep] + Lookup(vars, b)
  {
    var t0: string := [];
    assert WellFormed(t0) && Expand(t0, vars) == [];
    var t1 := Placeholder(b) + t0;
    ExpandPlaceholder(b, t0, vars);
    assert Expand(t1, vars) == Lookup(vars, b);
    var t2 := [sep] + t1;
    ExpandChar(sep, t1, vars);
    assert Expand(t2, vars) == [sep] + Lookup(vars, b);
    ExpandPlaceholder(a, t2, vars);
    assert Expand(Placeholder(a) + t2, vars) == Lookup(vars, a) + ([sep] + Lookup(vars, b));
  }
}
