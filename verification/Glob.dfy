/**
  Discovery globs for incremental manifests: a star stands for any run of
  characters other than a slash, and the last component is a fixed name. A
  pattern is listed below its longest fixed directory prefix; what is proved
  here is that this finds what listing from the root would, and that manifests
  found by one pattern own disjoint subtrees.
 */
module Glob {
  import opened Prelude

  /** The components of a path text. */
  function Components(s: string): (parts: seq<string>)
    ensures parts != []
    ensures forall i :: 0 <= i < |parts| ==> '/' !in parts[i]
  {
    if s == "" then [""]
    else
      var rest := Components(s[1..]);
      if s[0] == '/' then [""] + rest else [[s[0]] + rest[0]] + rest[1..]
  }

  function JoinPath(parts: seq<string>): string
    requires parts != []
  {
    if |parts| == 1 then parts[0] else parts[0] + "/" + JoinPath(parts[1..])
  }

  /** The whole of `s` matches the pattern. */
  predicate Matches(p: string, s: string)
    decreases |p| + |s|
  {
    if p == "" then s == ""
    else if p[0] == '*' then Matches(p[1..], s) || (s != "" && s[0] != '/' && Matches(p, s[1..]))
    else s != "" && s[0] == p[0] && Matches(p[1..], s[1..])
  }

  predicate PartsMatch(ps: seq<string>, ss: seq<string>) {
    |ps| == |ss| && forall i :: 0 <= i < |ps| ==> Matches(ps[i], ss[i])
  }

  function Stars(p: string): nat {
    if p == "" then 0 else (if p[0] == '*' then 1 else 0) + Stars(p[1..])
  }

  predicate HasDoubleStar(p: string) {
    exists i :: 0 <= i < |p| - 1 && p[i] == '*' && p[i + 1] == '*'
  }

  predicate Printable(s: string) {
    forall i :: 0 <= i < |s| ==> s[i] >= ' ' && s[i] != '\U{7F}'
  }

  /** A relative path with no empty, `.` or `..` component. */
  predicate PlainPath(parts: seq<string>) {
    forall i :: 0 <= i < |parts| ==> parts[i] != "" && parts[i] != "." && parts[i] != ".."
  }

  predicate ValidPattern(p: string) {
    var parts := Components(p);
    && 0 < |p| <= 512
    && !HasDoubleStar(p)
    && (forall i :: 0 <= i < |p| ==> p[i] !in "?[]{}\\")
    && Printable(p)
    && PlainPath(parts)
    && '*' !in parts[|parts| - 1]
    && |parts| <= 32
    && Stars(p) <= 4
  }

  datatype DiscoveryPattern = DiscoveryPattern(prefix: string, relative: string)

  /** Index of the first component with a star, or of the last one. */
  function FirstWild(parts: seq<string>): (k: nat)
    requires parts != []
    ensures k < |parts|
    ensures forall i :: 0 <= i < k ==> '*' !in parts[i]
  {
    if '*' in parts[0] || |parts| == 1 then 0 else 1 + FirstWild(parts[1..])
  }

  /** `validate_discovery_pattern` */
  function Discovery(p: string): Option<DiscoveryPattern> {
    if !ValidPattern(p) then None
    else
      var parts := Components(p);
      var k := FirstWild(parts);
      Some(DiscoveryPattern(if k == 0 then "" else JoinPath(parts[..k]), JoinPath(parts[k..])))
  }

  // ---- paths and components ----

  lemma {:induction false} JoinComponents(s: string)
    ensures JoinPath(Components(s)) == s
  {
    if s != "" {
      JoinComponents(s[1..]);
      var rest := Components(s[1..]);
      if s[0] == '/' {
        assert Components(s)[1..] == rest;
        assert "" + "/" + JoinPath(rest) == [s[0]] + s[1..];
      } else if |rest| > 1 {
        assert Components(s)[1..] == rest[1..];
        assert [s[0]] + rest[0] + "/" + JoinPath(rest[1..]) == [s[0]] + (rest[0] + "/" + JoinPath(rest[1..]));
      }
    }
  }

  // ---- matching goes component by component ----

  lemma {:induction false} LiteralMatches(lit: string, p: string, s: string)
    requires '*' !in lit
    ensures Matches(lit + p, s) <==> lit <= s && Matches(p, s[|lit|..])
    decreases |lit|
  {
    if lit == "" {
      assert lit + p == p;
    } else {
      assert (lit + p)[1..] == lit[1..] + p;
      assert lit[0] in lit;
      if s != "" && s[0] == lit[0] {
        LiteralMatches(lit[1..], p, s[1..]);
        assert lit <= s <==> lit[1..] <= s[1..];
      }
    }
  }

  lemma StarStep(p: string, s: string)
    requires p != "" && p[0] == '*'
    ensures Matches(p, s) <==> Matches(p[1..], s) || (s != "" && s[0] != '/' && Matches(p, s[1..]))
  {
  }

  /** A component of the pattern eats a component of the path; a slash meets a slash. */
  lemma {:induction false} MatchCut(a: string, p: string, c: string, s: string)
    requires '/' !in a && '/' !in c
    ensures Matches(a + "/" + p, c + "/" + s) <==> Matches(a, c) && Matches(p, s)
    decreases |a| + |c|
  {
    var x, y := a + "/" + p, c + "/" + s;
    if a == "" {
      assert x[1..] == p;
      assert c == "" ==> y[1..] == s;
    } else {
      assert x[1..] == a[1..] + "/" + p;
      assert a[0] in a;
      if a[0] == '*' {
        MatchCut(a[1..], p, c, s);
        if c != "" {
          assert y[1..] == c[1..] + "/" + s && c[0] in c;
          MatchCut(a, p, c[1..], s);
        }
        StarStep(x, y);
        StarStep(a, c);
      } else if c != "" {
        assert y[1..] == c[1..] + "/" + s;
        MatchCut(a[1..], p, c[1..], s);
      }
    }
  }

  lemma {:induction false} MatchLast(a: string, c: string, s: string)
    requires '/' !in a && '/' !in c
    ensures !Matches(a, c + "/" + s)
    decreases |a| + |c|
  {
    var y := c + "/" + s;
    if a != "" {
      assert a[0] in a;
      if c != "" {
        assert y[1..] == c[1..] + "/" + s;
        MatchLast(a, c[1..], s);
        MatchLast(a[1..], c[1..], s);
      }
      MatchLast(a[1..], c, s);
    }
  }

  lemma {:induction false} MatchMore(a: string, p: string, c: string)
    requires '/' !in a && '/' !in c
    ensures !Matches(a + "/" + p, c)
    decreases |a| + |c|
  {
    var x := a + "/" + p;
    if a != "" {
      assert x[1..] == a[1..] + "/" + p;
      MatchMore(a[1..], p, c);
      if c != "" {
        MatchMore(a, p, c[1..]);
        MatchMore(a[1..], p, c[1..]);
      }
    } else if c != "" {
      assert c[0] in c;
    }
  }

  lemma {:induction false} MatchJoined(ps: seq<string>, ss: seq<string>)
    requires ps != [] && ss != []
    requires (forall i :: 0 <= i < |ps| ==> '/' !in ps[i]) && (forall i :: 0 <= i < |ss| ==> '/' !in ss[i])
    ensures Matches(JoinPath(ps), JoinPath(ss)) <==> PartsMatch(ps, ss)
  {
    if |ps| > 1 && |ss| > 1 {
      MatchCut(ps[0], JoinPath(ps[1..]), ss[0], JoinPath(ss[1..]));
      MatchJoined(ps[1..], ss[1..]);
      assert PartsMatch(ps, ss) <==> Matches(ps[0], ss[0]) && PartsMatch(ps[1..], ss[1..]) by {
        assert forall i :: 0 < i < |ps| ==> ps[i] == ps[1..][i - 1];
        assert forall i :: 0 < i < |ss| ==> ss[i] == ss[1..][i - 1];
      }
    } else if |ps| > 1 {
      MatchMore(ps[0], JoinPath(ps[1..]), ss[0]);
    } else if |ss| > 1 {
      MatchLast(ps[0], ss[0], JoinPath(ss[1..]));
    }
  }

  /** A pattern matches a path exactly when it has as many components and they match one by one. */
  lemma MatchesByComponents(p: string, s: string)
    ensures Matches(p, s) <==> PartsMatch(Components(p), Components(s))
  {
    JoinComponents(p);
    JoinComponents(s);
    MatchJoined(Components(p), Components(s));
  }

  lemma {:induction false} LiteralIsExact(lit: string, s: string)
    requires '*' !in lit
    ensures Matches(lit, s) <==> s == lit
  {
    assert lit + "" == lit;
    LiteralMatches(lit, "", s);
    if lit <= s && s[|lit|..] == "" {
      assert s == s[..|lit|] + s[|lit|..];
    }
  }

  /** Every match has the pattern's number of components and its file name. */
  lemma MatchShape(p: string, s: string)
    requires ValidPattern(p) && Matches(p, s)
    ensures |Components(s)| == |Components(p)|
    ensures Components(s)[|Components(s)| - 1] == Components(p)[|Components(p)| - 1]
  {
    MatchesByComponents(p, s);
    LiteralIsExact(Components(p)[|Components(p)| - 1], Components(s)[|Components(s)| - 1]);
  }

  // ---- listing below the fixed prefix ----

  lemma {:induction false} JoinSplit(parts: seq<string>, k: nat)
    requires 0 < k < |parts|
    ensures JoinPath(parts) == JoinPath(parts[..k]) + "/" + JoinPath(parts[k..])
    decreases k
  {
    if k == 1 {
      assert parts[..1] == [parts[0]];
    } else {
      JoinSplit(parts[1..], k - 1);
      assert parts[1..][..k - 1] == parts[..k][1..];
      assert parts[1..][k - 1..] == parts[k..];
      var a, b, c := parts[0], JoinPath(parts[..k][1..]), JoinPath(parts[k..]);
      assert a + "/" + (b + "/" + c) == (a + "/" + b) + "/" + c;
    }
  }

  lemma {:induction false} JoinStarless(parts: seq<string>)
    requires parts != [] && forall i :: 0 <= i < |parts| ==> '*' !in parts[i]
    ensures '*' !in JoinPath(parts)
  {
    if |parts| > 1 {
      JoinStarless(parts[1..]);
    }
  }

  /** The path a listing reports for what it found below the fixed prefix. */
  function Prefixed(d: DiscoveryPattern, t: string): string {
    if d.prefix == "" then t else d.prefix + "/" + t
  }

  /**
    A valid pattern matches a path exactly when the path is the fixed prefix
    followed by something the relative pattern matches.
   */
  lemma SplitEquivalence(p: string, s: string)
    requires ValidPattern(p)
    ensures var d := Discovery(p).value;
      Matches(p, s) <==> exists t :: s == Prefixed(d, t) && Matches(d.relative, t)
  {
    var d, parts := Discovery(p).value, Components(p);
    var k := FirstWild(parts);
    JoinComponents(p);
    if k == 0 {
      assert parts[0..] == parts;
      assert s == Prefixed(d, s);
    } else {
      JoinSplit(parts, k);
      JoinStarless(parts[..k]);
      PrefixNotEmpty(parts, k);
      var lit := d.prefix + "/";
      assert p == lit + d.relative;
      LiteralMatches(lit, d.relative, s);
      if lit <= s {
        assert s == Prefixed(d, s[|lit|..]);
      }
      if t :| s == Prefixed(d, t) && Matches(d.relative, t) {
        assert s[|lit|..] == t;
      }
    }
  }

  lemma PrefixNotEmpty(parts: seq<string>, k: nat)
    requires PlainPath(parts) && 0 < k <= |parts|
    ensures JoinPath(parts[..k]) != ""
  {
    assert parts[..k][0] == parts[0];
  }

  /** The files of a tree that a pattern matches, listed from the root. */
  function Listed(tree: set<string>, p: string): set<string> {
    set s | s in tree && Matches(p, s)
  }

  /** What of a tree lies below a directory, relative to it. */
  function Below(tree: set<string>, prefix: string): set<string> {
    if prefix == "" then tree
    else set s | s in tree && prefix + "/" <= s :: s[|prefix| + 1..]
  }

  /** Listing below the fixed prefix and putting the prefix back finds the manifests a listing from the root finds. */
  lemma ListingBelowPrefix(tree: set<string>, p: string)
    requires ValidPattern(p)
    ensures var d := Discovery(p).value;
      (set t | t in Listed(Below(tree, d.prefix), d.relative) :: Prefixed(d, t)) == Listed(tree, p)
  {
    var d := Discovery(p).value;
    var found := set t | t in Listed(Below(tree, d.prefix), d.relative) :: Prefixed(d, t);
    forall s
      ensures s in found <==> s in Listed(tree, p)
    {
      SplitEquivalence(p, s);
      if s in Listed(tree, p) {
        var t :| s == Prefixed(d, t) && Matches(d.relative, t);
        assert d.prefix != "" ==> s[|d.prefix| + 1..] == t && d.prefix + "/" <= s;
        assert t in Below(tree, d.prefix);
        assert Prefixed(d, t) in found;
      }
      if s in found {
        var t :| t in Listed(Below(tree, d.prefix), d.relative) && s == Prefixed(d, t);
        BelowBack(tree, d, t);
      }
    }
  }

  lemma BelowBack(tree: set<string>, d: DiscoveryPattern, t: string)
    requires t in Below(tree, d.prefix)
    ensures Prefixed(d, t) in tree
  {
    if d.prefix != "" {
      var s :| s in tree && d.prefix + "/" <= s && s[|d.prefix| + 1..] == t;
      assert s[..|d.prefix| + 1] == d.prefix + "/";
      assert s == s[..|d.prefix| + 1] + t;
    }
  }

  // ---- manifests own disjoint subtrees ----

  /** The directory of a path, as components. */
  function ParentOf(s: string): seq<string> {
    var parts := Components(s);
    parts[..|parts| - 1]
  }

  /** Nothing below the directory of one match lies below the directory of another. */
  lemma DisjointSubtrees(p: string, a: string, b: string, x: seq<string>, y: seq<string>)
    requires ValidPattern(p) && Matches(p, a) && Matches(p, b) && a != b
    ensures ParentOf(a) + x != ParentOf(b) + y
  {
    MatchShape(p, a);
    MatchShape(p, b);
    if ParentOf(a) + x == ParentOf(b) + y {
      SamePrefix(ParentOf(a), ParentOf(b), x, y);
      SameParentSamePath(a, b, |Components(p)| - 1);
    }
  }

  lemma SameParentSamePath(a: string, b: string, n: nat)
    requires |Components(a)| == |Components(b)| == n + 1 && Components(a)[n] == Components(b)[n]
    requires ParentOf(a) == ParentOf(b)
    ensures a == b
  {
    JoinComponents(a);
    JoinComponents(b);
    assert Components(a) == ParentOf(a) + [Components(a)[n]];
    assert Components(b) == ParentOf(b) + [Components(b)[n]];
  }

  lemma SamePrefix(a: seq<string>, b: seq<string>, x: seq<string>, y: seq<string>)
    requires |a| == |b| && a + x == b + y
    ensures a == b
  {
    assert a == (a + x)[..|a|] && b == (b + y)[..|b|];
  }
}
