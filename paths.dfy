/**
 * Path strings as the script builds them: POSIX `os.path.join`, the parent of
 * a path and the chain of directories `os.makedirs` leaves in place.  Paths are
 * plain strings; `.`, `..` and repeated separators are not normalised.
 */
module Paths {

  /** Number of `/` separators in a path. */
  function Slashes(s: string): nat
  {
    if s == [] then 0 else (if s[0] == '/' then 1 else 0) + Slashes(s[1..])
  }

  /** `posixpath.join(a, b)`: an absolute `b` replaces `a`; no `/` is doubled after a trailing one. */
  function Join(a: string, b: string): (r: string)
    ensures |r| >= |b| && r[|r| - |b|..] == b
    ensures |b| > 0 && b[0] == '/' ==> r == b
    ensures !(|b| > 0 && b[0] == '/') ==> |r| >= |a| && r[..|a|] == a
  {
    if |b| > 0 && b[0] == '/' then b
    else if a == [] || a[|a| - 1] == '/' then a + b
    else a + "/" + b
  }

  /** Index of the last `/` in `p`, or -1 when there is none. */
  function LastSlash(p: string): (k: int)
    ensures -1 <= k < |p|
    ensures k >= 0 ==> p[k] == '/'
    ensures forall j :: k < j < |p| ==> p[j] != '/'
  {
    if p == [] then -1
    else if p[|p| - 1] == '/' then |p| - 1
    else LastSlash(p[..|p| - 1])
  }

  /**
   * The directory that must exist for `open(p, 'w')` to succeed.  The empty
   * string stands for the working directory (for a relative `p` with no `/`)
   * or the root (for `/name`); both always exist.
   */
  function Parent(p: string): (d: string)
    ensures |d| < |p| || p == []
    ensures d == [] || (d <= p && p[|d|] == '/' && '/' !in p[|d| + 1..])
  {
    var k := LastSlash(p);
    if k < 0 then [] else p[..k]
  }

  /**
   * The directories `os.makedirs(p, exist_ok=True)` leaves in place: `p` itself
   * and every proper prefix of `p` that ends just before a `/`.
   */
  function DirChain(p: string): (c: set<string>)
    ensures p != [] ==> p in c
    ensures forall d :: d in c ==> d != [] && d <= p
  {
    (set i | 0 < i < |p| && p[i] == '/' :: p[..i]) + (if p == [] then {} else {p})
  }

  lemma {:induction false} SlashesAppend(a: string, b: string)
    ensures Slashes(a + b) == Slashes(a) + Slashes(b)
  {
    if a == [] {
      assert a + b == b;
    } else {
      assert (a + b)[1..] == a[1..] + b;
      SlashesAppend(a[1..], b);
    }
  }

  lemma {:induction false} SlashFree(s: string)
    ensures '/' !in s <==> Slashes(s) == 0
  {
    if s != [] {
      SlashFree(s[1..]);
      assert s == [s[0]] + s[1..];
    }
  }

  /** A prefix of a path never has more separators than the path. */
  lemma SlashesOfPrefix(d: string, p: string)
    requires d <= p
    ensures Slashes(d) <= Slashes(p)
  {
    assert p == d + p[|d|..];
    SlashesAppend(d, p[|d|..]);
  }

  /** Every directory `os.makedirs(p)` creates has at most as many separators as `p`. */
  lemma DirChainSlashes(p: string, d: string)
    requires d in DirChain(p)
    ensures Slashes(d) <= Slashes(p)
  {
    SlashesOfPrefix(d, p);
  }

  /** Joining a component onto a non-empty path adds exactly one separator before it. */
  lemma JoinRelative(a: string, b: string)
    requires a != [] && a[|a| - 1] != '/'
    requires !(|b| > 0 && b[0] == '/')
    ensures Join(a, b) == a + "/" + b
    ensures Slashes(Join(a, b)) == Slashes(a) + 1 + Slashes(b)
  {
    var sb := "/" + b;
    assert sb[1..] == b;
    assert Slashes(sb) == 1 + Slashes(b);
    SlashesAppend(a, sb);
    assert a + "/" + b == a + sb;
  }

  /** Round trip: the parent of `a` joined with a separator-free name is `a` again. */
  lemma ParentOfJoin(a: string, b: string)
    requires a != [] && a[|a| - 1] != '/'
    requires '/' !in b
    ensures Parent(Join(a, b)) == a
  {
    var p := Join(a, b);
    assert !(|b| > 0 && b[0] == '/') by {
      if |b| > 0 { assert b[0] in b; }
    }
    assert p == a + "/" + b;
    forall j | |a| < j < |p| ensures p[j] != '/' {
      assert p[j] == b[j - |a| - 1];
    }
    assert p[|a|] == '/';
    assert LastSlash(p) == |a|;
  }

  /** A prefix of `q` is a prefix of anything `q` starts. */
  lemma PrefixExtends(b: string, q: string, r: string)
    requires b <= q
    ensures b <= q + r
  {
    assert (q + r)[..|b|] == q[..|b|];
  }
}
