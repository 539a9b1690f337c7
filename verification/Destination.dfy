/** Where the names that `strip_antisocial_prefixes` of `lib/ustar.c` leaves lead: it is meant to
    keep an extractor inside its destination directory, and looks at the front of a name only. */
module Destination {
  import opened Ustar

  /** What comes in front of the first slash. */
  function Component(s: string): (c: string)
    ensures |c| <= |s| && '/' !in c && (c == s <==> '/' !in s)
  {
    if s == "" || s[0] == '/' then "" else [s[0]] + Component(s[1..])
  }

  /** The components between slashes. */
  function Parts(s: string): (p: seq<string>)
    ensures p != [] && p[0] == Component(s)
    ensures forall c :: c in p ==> |c| <= |s|
    decreases |s|
  {
    if '/' in s then [Component(s)] + Parts(AfterSlash(s)) else [s]
  }

  predicate Special(c: string) { c == "" || c == "." || c == ".." }

  /** The components without those that are special in front, but for the last one. */
  function Behind(p: seq<string>): (r: seq<string>) {
    if |p| > 1 && Special(p[0]) then Behind(p[1..]) else p
  }

  /** Where a walk that starts in directory `at` of the tree ends. */
  function Walk(at: seq<string>, p: seq<string>): seq<string>
    decreases |p|
  {
    if p == [] then at
    else Walk(if p[0] == "" || p[0] == "." then at
              else if p[0] == ".." then (if at == [] then [] else at[..|at| - 1])
              else at + [p[0]], p[1..])
  }

  /** Extracted in `destination`, the name leads to a place inside it. */
  predicate Within(destination: seq<string>, name: string) {
    !StartsWith(name, "/") && destination <= Walk(destination, Parts(name))
  }

  function Rise(c: string): int { if c == "" || c == "." then 0 else if c == ".." then -1 else 1 }

  /** How far down the components lead. */
  function Depth(p: seq<string>): int { if p == [] then 0 else Rise(p[0]) + Depth(p[1..]) }

  /** Nowhere are there more steps up than names before them. */
  ghost predicate NeverAbove(p: seq<string>) {
    forall n :: 0 <= n <= |p| ==> Depth(p[..n]) >= 0
  }

  lemma DepthNext(p: seq<string>, n: nat)
    requires 0 < n <= |p|
    ensures Depth(p[..n]) == Rise(p[0]) + Depth(p[1..][..n - 1])
  {
    assert p[..n][1..] == p[1..][..n - 1];
  }

  /** A walk that has come down by `e` stays below `d`. */
  lemma {:induction false} WalkStays(d: seq<string>, e: seq<string>, p: seq<string>)
    requires forall n :: 0 <= n <= |p| ==> |e| + Depth(p[..n]) >= 0
    ensures d <= Walk(d + e, p)
    decreases |p|
  {
    if p != [] {
      var e' := if Rise(p[0]) == 0 then e else if p[0] == ".." then (if e == [] then [] else e[..|e| - 1]) else e + [p[0]];
      forall n | 0 <= n <= |p[1..]|
        ensures |e'| + Depth(p[1..][..n]) >= 0
      {
        DepthNext(p, n + 1);
        DepthNext(p, 1);
        assert p[1..][..0] == [];
        assert |e| + Depth(p[..n + 1]) >= 0 && |e| + Depth(p[..1]) >= 0;
      }
      DepthNext(p, 1);
      assert p[1..][..0] == [] && |e| + Depth(p[..1]) >= 0;
      WalkStays(d, e', p[1..]);
      if p[0] == ".." {
        assert (d + e)[..|d + e| - 1] == d + e';
      } else if Rise(p[0]) == 1 {
        assert d + e + [p[0]] == d + e';
      }
    }
  }

  lemma {:induction false} WalkElsewhere(at: seq<string>, p: seq<string>, f: string)
    requires f !in at && f !in p
    ensures f !in Walk(at, p)
    decreases |p|
  {
    if p != [] {
      WalkElsewhere(if Rise(p[0]) == 0 then at else if p[0] == ".." then (if at == [] then [] else at[..|at| - 1]) else at + [p[0]],
                    p[1..], f);
    }
  }

  /** A walk that goes up once too often leaves directory `f` and does not come back. */
  lemma {:induction false} WalkLeaves(f: string, e: seq<string>, p: seq<string>, n: nat)
    requires f !in e && f !in p && n <= |p| && |e| + Depth(p[..n]) < 0
    ensures f !in Walk([f] + e, p)
    decreases |p|
  {
    assert n > 0 by { assert p[..0] == []; }
    DepthNext(p, n);
    if p[0] == ".." && e == [] {
      assert ([f] + e)[..|[f] + e| - 1] == [];
      WalkElsewhere([], p[1..], f);
    } else {
      var e' := if Rise(p[0]) == 0 then e else if p[0] == ".." then e[..|e| - 1] else e + [p[0]];
      WalkLeaves(f, e', p[1..], n - 1);
      if p[0] == ".." {
        assert ([f] + e)[..|[f] + e| - 1] == [f] + e';
      } else if Rise(p[0]) == 1 {
        assert [f] + e + [p[0]] == [f] + e';
      }
    }
  }

  /** A name leads inside every destination exactly when it never goes up too often. */
  lemma WithinExact(name: string)
    requires !StartsWith(name, "/")
    ensures (forall destination :: Within(destination, name)) <==> NeverAbove(Parts(name))
  {
    var p := Parts(name);
    if NeverAbove(p) {
      forall destination
        ensures Within(destination, name)
      {
        assert destination + [] == destination;
        WalkStays(destination, [], p);
      }
    } else {
      var n: nat :| n <= |p| && Depth(p[..n]) < 0;
      var f := seq(|name| + 1, _ => 'd');
      assert [f] + [] == [f];
      WalkLeaves(f, [], p, n);
      assert [f][0] == f;
      assert !Within([f], name);
    }
  }

  lemma {:induction false} ComponentEnds(s: string)
    ensures var n := |Component(s)|;
      Component(s) == s[..n] && ('/' in s <==> n < |s|) && (n < |s| ==> s[n] == '/')
  {
    if s != "" && s[0] != '/' {
      ComponentEnds(s[1..]);
      assert s == [s[0]] + s[1..];
    }
  }

  lemma FirstComponent(s: string)
    ensures Antisocial(s) <==> '/' in s && Special(Component(s))
  {
    var c, n := Component(s), |Component(s)|;
    ComponentEnds(s);
    assert forall i :: 0 <= i < n ==> c[i] == s[i] && c[i] != '/';
    if '/' in s && Special(c) {
      assert s[..n + 1] == c + "/";
    }
    if StartsWith(s, "/") {
      assert s[0] == "/"[0];
    } else if StartsWith(s, "./") {
      assert s[0] == s[..2][0] == '.' && s[1] == s[..2][1] == '/';
      assert c == ".";
    } else if StartsWith(s, "../") {
      assert s[0] == s[..3][0] == '.' && s[1] == s[..3][1] == '.' && s[2] == s[..3][2] == '/';
      assert c == "..";
    }
  }

  /** The loop of `strip_antisocial_prefixes` drops the special components in front. */
  lemma {:induction false} UnprefixedParts(s: string)
    ensures Parts(Unprefixed(s)) == Behind(Parts(s))
    decreases |s|
  {
    FirstComponent(s);
    if Antisocial(s) {
      UnprefixedParts(AfterSlash(s));
      assert Parts(s)[1..] == Parts(AfterSlash(s));
    }
  }

  /** A stripped name leads inside every destination exactly when, of the components behind the
      front that is stripped, none goes up once more than there are names before it; a name of
      nothing but steps up is replaced. */
  lemma StrippedInside(s: string)
    ensures (forall destination :: Within(destination, Stripped(s))) <==>
      Behind(Parts(s)) == [".."] || NeverAbove(Behind(Parts(s)))
  {
    var r, p := Unprefixed(s), Behind(Parts(s));
    UnprefixedParts(s);
    StripIdempotent(s);
    WithinExact(Stripped(s));
    if r == "" || r == ".." {
      assert Parts(".") == ["."] && Parts("") == [""] && Parts("..") == [".."];
      StaysHere(".");
      StaysHere("");
    } else if p == [".."] {
      OnePart(r);
    }
  }

  lemma StaysHere(c: string)
    requires Rise(c) == 0
    ensures NeverAbove([c])
  {
    forall n | 0 <= n <= 1
      ensures Depth([c][..n]) >= 0
    {
      if n == 1 { DepthNext([c], 1); assert [c][1..][..0] == []; }
    }
  }

  lemma OnePart(s: string)
    requires |Parts(s)| == 1
    ensures Parts(s) == [s]
  {
  }

  lemma {:induction false} PartsOf(c: string, rest: string)
    requires '/' !in c
    ensures Component(c + "/" + rest) == c && '/' in c + "/" + rest && AfterSlash(c + "/" + rest) == rest
  {
    var s := c + "/" + rest;
    assert s[|c|] == '/';
    if c != "" {
      PartsOf(c[1..], rest);
      assert s[0] == c[0] && s[1..] == c[1..] + "/" + rest;
    }
  }

  lemma PartsFrom(s: string, c: string, rest: string)
    requires '/' !in c && s == c + "/" + rest
    ensures Parts(s) == [c] + Parts(rest)
  {
    PartsOf(c, rest);
  }

  const ESCAPE := "a/../../x"

  lemma LastPart(c: string)
    requires '/' !in c
    ensures Parts(c) == [c]
  {
  }

  lemma FourParts(a: string, b: string, c: string, d: string)
    requires '/' !in a && '/' !in b && '/' !in c && '/' !in d
    ensures Parts(a + "/" + (b + "/" + (c + "/" + d))) == [a, b, c, d]
  {
    hide Parts;
    PartsFrom(a + "/" + (b + "/" + (c + "/" + d)), a, b + "/" + (c + "/" + d));
    PartsFrom(b + "/" + (c + "/" + d), b, c + "/" + d);
    PartsFrom(c + "/" + d, c, d);
    LastPart(d);
  }

  lemma EscapeParts()
    ensures Parts(ESCAPE) == ["a", "..", "..", "x"]
  {
    hide Parts;
    FourParts("a", "..", "..", "x");
    assert ESCAPE == "a" + "/" + (".." + "/" + (".." + "/" + "x"));
  }

  lemma EscapeKept()
    ensures Stripped(ESCAPE) == ESCAPE
  {
    assert ESCAPE[0] == 'a' && |ESCAPE| == 9;
    assert "/"[0] == '/' && "./"[0] == '.' && "../"[0] == '.';
    assert forall n :: 0 < n <= 9 ==> ESCAPE[..n][0] == 'a';
  }

  lemma WalkOn(at: seq<string>, c: string, p: seq<string>)
    ensures Walk(at, [c] + p) == Walk(if c == "" || c == "." then at
                                      else if c == ".." then (if at == [] then [] else at[..|at| - 1]) else at + [c], p)
  {
    assert ([c] + p)[1..] == p;
  }

  lemma EscapeWalk(d: string, a: string, x: string)
    requires !Special(a) && !Special(x)
    ensures Walk([d], [a, "..", "..", x]) == [x]
  {
    hide Walk;
    WalkOn([d], a, ["..", "..", x]);
    WalkOn([d, a], "..", ["..", x]);
    WalkOn([d], "..", [x]);
    WalkOn([], x, []);
    WalkEnds([x]);
    assert [a] + ["..", "..", x] == [a, "..", "..", x] && [".."] + ["..", x] == ["..", "..", x] && [".."] + [x] == ["..", x] && [x] + [] == [x];
    assert [d] + [a] == [d, a] && [d, a][..1] == [d] && [d][..0] == [] && [] + [x] == [x];
  }

  lemma WalkEnds(at: seq<string>)
    ensures Walk(at, []) == at
  {
  }

  /** `a/../../x` is left as it is, and leads from directory `d` to `x` beside it. */
  lemma LeavesDestination()
    ensures Stripped(ESCAPE) == ESCAPE && Walk(["d"], Parts(ESCAPE)) == ["x"]
    ensures !Within(["d"], Stripped(ESCAPE))
  {
    hide Walk, Parts, Stripped, StartsWith;
    EscapeKept();
    EscapeParts();
    EscapeWalk("d", "a", "x");
    assert "d"[0] != "x"[0];
    assert ["d"][0] != ["x"][0];
  }
}
