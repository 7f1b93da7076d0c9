/**
 Slash-separated resource paths: when two of them meet and when a scope contains
 one, as string tests and as statements about path components.
 */
module Paths {

  const SLASH: char := '/'

  predicate StartsWith(s: string, prefix: string) {
    prefix <= s
  }

  /** The resource test of the scheduler: the same path, or one strictly below the other. */
  predicate PathsMeet(left: string, right: string) {
    left == right || StartsWith(left, right + [SLASH]) || StartsWith(right, left + [SLASH])
  }

  // -------------------------------------------------------------- components

  /** A slash opens a new component; any other character lengthens the last one. */
  function Extended(parts: seq<string>, c: char): (longer: seq<string>)
    requires |parts| > 0
    ensures |longer| > 0
  {
    if c == SLASH then parts + [""] else parts[..|parts| - 1] + [parts[|parts| - 1] + [c]]
  }

  /** The components of the first `n` characters. */
  function ComponentsUpTo(path: string, n: nat): (parts: seq<string>)
    requires n <= |path|
    ensures |parts| > 0
  {
    if n == 0 then [""] else Extended(ComponentsUpTo(path, n - 1), path[n - 1])
  }

  function Components(path: string): (parts: seq<string>)
    ensures |parts| > 0
  {
    ComponentsUpTo(path, |path|)
  }

  lemma {:induction false} ComponentsOfPrefix(path: string, longer: string, n: nat)
    requires n <= |path| && path <= longer
    ensures ComponentsUpTo(longer, n) == ComponentsUpTo(path, n)
  {
    if n > 0 { ComponentsOfPrefix(path, longer, n - 1); }
  }

  /** All of `a` but its last component is final in `b`, and that one has only grown. */
  predicate Outgrown(a: seq<string>, b: seq<string>) {
    0 < |a| <= |b| && a[..|a| - 1] == b[..|a| - 1] && a[|a| - 1] <= b[|a| - 1]
  }

  lemma ExtendedOutgrows(a: seq<string>, b: seq<string>, c: char)
    requires Outgrown(a, b)
    ensures Outgrown(a, Extended(b, c))
  {
  }

  lemma {:induction false} ComponentsGrow(path: string, m: nat, n: nat)
    requires m <= n <= |path|
    ensures Outgrown(ComponentsUpTo(path, m), ComponentsUpTo(path, n))
  {
    if m < n {
      ComponentsGrow(path, m, n - 1);
      ExtendedOutgrows(ComponentsUpTo(path, m), ComponentsUpTo(path, n - 1), path[n - 1]);
    }
  }

  /** The first `k` components joined by slashes. */
  function JoinUpTo(parts: seq<string>, k: nat): string
    requires 0 < k <= |parts|
  {
    if k == 1 then parts[0] else JoinUpTo(parts, k - 1) + [SLASH] + parts[k - 1]
  }

  lemma {:induction false} JoinOfPrefix(a: seq<string>, b: seq<string>, k: nat)
    requires 0 < k <= |a| && k <= |b| && a[..k] == b[..k]
    ensures JoinUpTo(a, k) == JoinUpTo(b, k)
  {
    assert a[k - 1] == a[..k][k - 1] == b[k - 1];
    if k > 1 {
      assert a[..k - 1] == a[..k][..k - 1] == b[..k - 1];
      JoinOfPrefix(a, b, k - 1);
    }
  }

  lemma JoinExtended(parts: seq<string>, c: char)
    requires |parts| > 0
    ensures JoinUpTo(Extended(parts, c), |Extended(parts, c)|) == JoinUpTo(parts, |parts|) + [c]
  {
    var k, longer := |parts|, Extended(parts, c);
    if c == SLASH {
      JoinOfPrefix(parts, longer, k);
    } else if k > 1 {
      JoinOfPrefix(parts, longer, k - 1);
      assert JoinUpTo(longer, k) == JoinUpTo(parts, k - 1) + [SLASH] + (parts[k - 1] + [c]);
    }
  }

  /** Joining the components gives the path back. */
  lemma {:induction false} JoinOfComponents(path: string, n: nat)
    requires n <= |path|
    ensures var parts := ComponentsUpTo(path, n); JoinUpTo(parts, |parts|) == path[..n]
  {
    if n > 0 {
      JoinOfComponents(path, n - 1);
      JoinExtended(ComponentsUpTo(path, n - 1), path[n - 1]);
      assert path[..n] == path[..n - 1] + [path[n - 1]];
    }
  }

  /** No component holds a slash. */
  lemma {:induction false} ComponentsHoldNoSlash(path: string, n: nat)
    requires n <= |path|
    ensures forall k :: 0 <= k < |ComponentsUpTo(path, n)| ==> SLASH !in ComponentsUpTo(path, n)[k]
  {
    if n > 0 { ComponentsHoldNoSlash(path, n - 1); }
  }

  /** A path is determined by its components. */
  lemma ComponentsAreInjective(a: string, b: string)
    requires Components(a) == Components(b)
    ensures a == b
  {
    JoinOfComponents(a, |a|);
    JoinOfComponents(b, |b|);
    assert a[..|a|] == a && b[..|b|] == b;
  }

  /** The length at which a path has completed its first `k` components. */
  lemma {:induction false} CutAt(path: string, n: nat, k: nat) returns (m: nat)
    requires n <= |path| && 0 < k < |ComponentsUpTo(path, n)|
    ensures m < n && path[m] == SLASH && ComponentsUpTo(path, m) == ComponentsUpTo(path, n)[..k]
  {
    var parts := ComponentsUpTo(path, n - 1);
    if k == |parts| {
      m := n - 1;
    } else {
      m := CutAt(path, n - 1, k);
    }
  }

  lemma BelowExtends(path: string, base: string)
    requires StartsWith(path, base + [SLASH])
    ensures Components(base) <= Components(path) && base != path
  {
    var m := |base|;
    ComponentsOfPrefix(base, path, m);
    assert path[m] == SLASH;
    ComponentsGrow(path, m + 1, |path|);
  }

  lemma ExtendsBelow(path: string, base: string)
    requires Components(base) <= Components(path) && base != path
    ensures StartsWith(path, base + [SLASH])
  {
    if |Components(base)| == |Components(path)| { ComponentsAreInjective(base, path); }
    var m := CutAt(path, |path|, |Components(base)|);
    ComponentsOfPrefix(path[..m], path, m);
    ComponentsAreInjective(base, path[..m]);
    assert path[..m + 1] == base + [SLASH];
  }

  /** A path extends another by a slash exactly when its components strictly extend the other's. */
  lemma StrictlyBelow(path: string, base: string)
    ensures StartsWith(path, base + [SLASH]) <==> Components(base) <= Components(path) && base != path
  {
    if StartsWith(path, base + [SLASH]) { BelowExtends(path, base); }
    if Components(base) <= Components(path) && base != path { ExtendsBelow(path, base); }
  }

  /** Two paths meet exactly when one's components begin with the other's. */
  lemma MeetIsNesting(left: string, right: string)
    ensures PathsMeet(left, right) <==> Components(left) <= Components(right) || Components(right) <= Components(left)
    ensures PathsMeet(left, right) == PathsMeet(right, left)
  {
    StrictlyBelow(left, right);
    StrictlyBelow(right, left);
  }

  /** So the root, whose components are two empty ones, does not meet its children. */
  lemma RootMeetsNoChild(child: string)
    requires |child| > 1 && child[0] == SLASH && child[1] != SLASH
    ensures !PathsMeet([SLASH], child)
  {
  }

  // ------------------------------------------------------------------- scopes

  datatype PathScope = PathScope(prefix: string) {
    predicate Contains(path: string) {
      path == TrimmedUpTo(prefix, |prefix|) || StartsWith(path, prefix)
    }
  }

  function NewScope(prefix: string): PathScope {
    PathScope(if prefix != "" && prefix[|prefix| - 1] == SLASH then prefix else prefix + [SLASH])
  }

  /** The first `n` characters without trailing slashes. */
  function TrimmedUpTo(s: string, n: nat): string
    requires n <= |s|
  {
    if n > 0 && s[n - 1] == SLASH then TrimmedUpTo(s, n - 1) else s[..n]
  }

  /** A base without one trailing slash, if it has any. */
  function WithoutSlash(base: string): string {
    if base != "" && base[|base| - 1] == SLASH then base[..|base| - 1] else base
  }

  /**
   What a scope made from any base contains: the base without all its trailing slashes,
   and what lies strictly below the base without one. So with no or one trailing slash
   it contains exactly the paths whose components begin with the base's.
   */
  lemma ScopeIsNesting(base: string, path: string)
    ensures var floor := WithoutSlash(base);
            NewScope(base).Contains(path)
            <==> path == TrimmedUpTo(floor, |floor|) || (Components(floor) <= Components(path) && path != floor)
    ensures var floor := WithoutSlash(base);
            (floor == "" || floor[|floor| - 1] != SLASH) ==>
              (NewScope(base).Contains(path) <==> Components(floor) <= Components(path))
  {
    var floor := WithoutSlash(base);
    StrictlyBelow(path, floor);
    var prefix := floor + [SLASH];
    assert NewScope(base).prefix == prefix;
    TrimmedOfPrefix(floor, prefix, |floor|);
    assert TrimmedUpTo(prefix, |prefix|) == TrimmedUpTo(prefix, |floor|);
    assert floor[..|floor|] == floor;
  }

  lemma {:induction false} TrimmedOfPrefix(s: string, longer: string, n: nat)
    requires s <= longer && n <= |s|
    ensures TrimmedUpTo(longer, n) == TrimmedUpTo(s, n)
  {
    if n > 0 && s[n - 1] == SLASH { TrimmedOfPrefix(s, longer, n - 1); }
  }
}
