/**
 * The few PHP string functions the installer relies on, with PHP's own
 * edge cases: `empty()`, `rtrim()`, `substr($s, 0, -$n)`, `dirname()` and
 * the `list($vendor, $name) = explode('/', ...)` split of a package name.
 * The directory separator is '/'.
 */
module Strings {

  /** PHP `empty()` of a string (and falsiness of `$x ? ... : ...`): "" and "0". */
  predicate IsEmpty(s: string) {
    s == "" || s == "0"
  }

  /** `rtrim($s, c)`: drop every trailing `c`. */
  function RTrim(s: string, c: char): (r: string)
    ensures r <= s
    ensures r == [] || r[|r| - 1] != c
    ensures forall i :: |r| <= i < |s| ==> s[i] == c
    decreases |s|
  {
    if |s| > 0 && s[|s| - 1] == c then RTrim(s[..|s| - 1], c) else s
  }

  /** `substr($s, 0, -$n)`: with n == 0 the length is 0, and a length past the start gives "". */
  function DropTail(s: string, n: nat): string {
    if n == 0 || n >= |s| then "" else s[..|s| - n]
  }

  /** The text before the first `c` (all of `s` when there is none). */
  function FirstSegment(s: string, c: char): (r: string)
    ensures r <= s
    ensures c !in r
    ensures |r| < |s| ==> s[|r|] == c
    decreases |s|
  {
    if s == [] || s[0] == c then [] else [s[0]] + FirstSegment(s[1..], c)
  }

  /**
   * `list($vendor, $name) = explode('/', $prettyName)` guarded by
   * `strpos($prettyName, '/') !== false`; without a '/' the vendor is "".
   */
  function SplitName(prettyName: string): (string, string) {
    if '/' in prettyName then
      var vendor := FirstSegment(prettyName, '/');
      (vendor, FirstSegment(prettyName[|vendor| + 1..], '/'))
    else
      ("", prettyName)
  }

  /** The text before the last `c` of `s`. */
  function BeforeLast(s: string, c: char): (r: string)
    requires c in s
    ensures |r| < |s| && s[|r|] == c && r == s[..|r|]
    ensures c !in s[|r| + 1..]
    decreases |s|
  {
    if s[|s| - 1] == c then s[..|s| - 1] else BeforeLast(s[..|s| - 1], c)
  }

  /** PHP `dirname()` (POSIX rules): "" stays "", "a" gives ".", "/a" gives "/". */
  function Dirname(s: string): string {
    if s == "" then ""
    else
      var t := RTrim(s, '/');
      if t == "" then "/"
      else if '/' !in t then "."
      else
        var h := RTrim(BeforeLast(t, '/'), '/');
        if h == "" then "/" else h
  }

  /** True when every character of `s` is `c`. */
  predicate AllChars(s: string, c: char) {
    forall i :: 0 <= i < |s| ==> s[i] == c
  }

  lemma {:induction false} SplitNameWithSlash(vendor: string, name: string, rest: string)
    requires '/' !in vendor && '/' !in name
    ensures SplitName(vendor + "/" + name) == (vendor, name)
    ensures SplitName(vendor + "/" + name + "/" + rest) == (vendor, name)
  {
    SplitNameBefore(vendor, name, []);
    assert vendor + "/" + name + [] == vendor + "/" + name;
    SplitNameBefore(vendor, name, "/" + rest);
    assert vendor + "/" + name + ("/" + rest) == vendor + "/" + name + "/" + rest;
  }

  /** `vendor/name` followed by nothing or by a further `/` segment splits at the first two separators. */
  lemma {:induction false} SplitNameBefore(vendor: string, name: string, tail: string)
    requires '/' !in vendor && '/' !in name
    requires tail == [] || tail[0] == '/'
    ensures SplitName(vendor + "/" + name + tail) == (vendor, name)
  {
    var s := vendor + "/" + name + tail;
    var after := "/" + name + tail;
    assert s == vendor + after;
    assert after[0] == '/';
    FirstSegmentOf(vendor, after);
    assert s[|vendor|] == '/';
    assert s[|vendor| + 1..] == name + tail;
    FirstSegmentOf(name, tail);
  }

  lemma {:induction false} SplitNameWithoutSlash(prettyName: string)
    requires '/' !in prettyName
    ensures SplitName(prettyName) == ("", prettyName)
  {
  }

  /** The first segment of `a + b` is `a` when `a` has no `c` and `b` is empty or starts with `c`. */
  lemma {:induction false} FirstSegmentOf(a: string, b: string)
    requires '/' !in a
    requires b == [] || b[0] == '/'
    ensures FirstSegment(a + b, '/') == a
    decreases |a|
  {
    if a != [] {
      assert (a + b)[1..] == a[1..] + b;
      FirstSegmentOf(a[1..], b);
    }
  }

  /**
   * The base directory computed as `substr($abs, 0, -strlen($rel))`
   * completes the relative directory to the absolute one whenever the
   * relative directory is a non-empty suffix of the absolute one.
   */
  lemma DropTailRestoresSuffix(base: string, rel: string)
    requires rel != []
    ensures DropTail(base + rel, |rel|) + rel == base + rel
  {
    if |rel| < |base + rel| {
      assert (base + rel)[..|base + rel| - |rel|] == base;
    }
  }

  /** `rtrim` over a concatenation whose right part is not only `c`. */
  lemma {:induction false} RTrimConcat(a: string, b: string, c: char)
    ensures RTrim(b, c) != [] ==> RTrim(a + b, c) == a + RTrim(b, c)
    ensures RTrim(b, c) == [] ==> RTrim(a + b, c) == RTrim(a, c)
    decreases |b|
  {
    if |b| > 0 && b[|b| - 1] == c {
      assert (a + b)[..|a + b| - 1] == a + b[..|b| - 1];
      RTrimConcat(a, b[..|b| - 1], c);
    } else if b == [] {
      assert a + b == a;
    }
  }

  /** `dirname($p . '/' . $leaf)` is `$p` for a leaf without '/' and a `$p` not ending in '/'. */
  lemma {:induction false} DirnameOfJoin(p: string, leaf: string)
    requires p != [] && p[|p| - 1] != '/'
    requires leaf != [] && '/' !in leaf
    ensures Dirname(p + "/" + leaf) == p
  {
    var s := p + "/" + leaf;
    assert RTrim(s, '/') == s;
    assert s[|p|] == '/';
    BeforeLastOf(p, leaf);
    assert RTrim(p, '/') == p;
  }

  lemma {:induction false} BeforeLastOf(p: string, leaf: string)
    requires '/' !in leaf
    ensures BeforeLast(p + "/" + leaf, '/') == p
    decreases |leaf|
  {
    var s := p + "/" + leaf;
    assert s[|s| - 1] == (if leaf == [] then '/' else leaf[|leaf| - 1]);
    if leaf == [] {
      assert s[..|s| - 1] == p;
    } else {
      assert s[..|s| - 1] == p + "/" + leaf[..|leaf| - 1];
      BeforeLastOf(p, leaf[..|leaf| - 1]);
    }
  }

  /** `rtrim` is idempotent. */
  lemma RTrimIdempotent(s: string, c: char)
    ensures RTrim(RTrim(s, c), c) == RTrim(s, c)
  {
  }

  /** `rtrim($x . '/', '/')` is `rtrim($x, '/')`: an appended separator never survives. */
  lemma RTrimDropsSeparator(x: string)
    ensures RTrim(x + "/", '/') == RTrim(x, '/')
  {
    assert RTrim("/", '/') == [] by {
      assert RTrim("/"[..0], '/') == [];
    }
    RTrimConcat(x, "/", '/');
  }
}
