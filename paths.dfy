/** The POSIX path functions server.py builds its bot path with: os.path.join,
    str.split('/') and '/'.join, os.path.normpath and os.path.abspath. A path is
    taken apart into the components between its slashes. */
module Paths {
  import opened Text

  /** path.split('/'): the pieces between slashes, at least one. */
  function SplitSlash(s: string): (r: seq<string>)
    ensures |r| >= 1
    decreases |s|
  {
    if s == [] then [""]
    else if s[0] == '/' then [""] + SplitSlash(s[1..])
    else
      var rest := SplitSlash(s[1..]);
      [[s[0]] + rest[0]] + rest[1..]
  }

  /** '/'.join(cs). */
  function JoinSlash(cs: seq<string>): string
  {
    if cs == [] then ""
    else if |cs| == 1 then cs[0]
    else cs[0] + "/" + JoinSlash(cs[1..])
  }

  /** A component that normalisation keeps as it is. */
  predicate Plain(c: string) { c != "" && c != "." && c != ".." && '/' !in c }

  /** A relative path made only of such components: no leading or doubled slash,
      no "." and no "..". */
  predicate PlainPath(p: string) { forall c :: c in SplitSlash(p) ==> Plain(c) }

  /** One component of normpath's loop: "" and "." are dropped, ".." removes the
      last kept component (kept itself in a relative path with nothing to remove),
      anything else is kept. */
  function Step(acc: seq<string>, c: string, absolute: bool): seq<string>
  {
    if c == "" || c == "." then acc
    else if c != ".." || (!absolute && acc == []) || (acc != [] && acc[|acc| - 1] == "..") then acc + [c]
    else if acc != [] then acc[..|acc| - 1]
    else acc
  }

  /** normpath's loop over the components, from the kept components acc. */
  function Norm(acc: seq<string>, cs: seq<string>, absolute: bool): seq<string>
    decreases |cs|
  {
    if cs == [] then acc else Norm(Step(acc, cs[0], absolute), cs[1..], absolute)
  }

  /** The leading slashes normpath keeps: two exactly when there are exactly two. */
  function Slashes(p: string): string
  {
    if |p| >= 2 && p[0] == '/' && p[1] == '/' && !(|p| >= 3 && p[2] == '/') then "//"
    else if |p| >= 1 && p[0] == '/' then "/"
    else ""
  }

  /** os.path.normpath(p). */
  function NormPath(p: string): string
  {
    if p == "" then "."
    else
      var s := Slashes(p);
      var r := s + JoinSlash(Norm([], SplitSlash(p), s != ""));
      if r == "" then "." else r
  }

  /** os.path.join(a, b). */
  function PathJoin(a: string, b: string): string
  {
    if |b| > 0 && b[0] == '/' then b
    else if a == "" || a[|a| - 1] == '/' then a + b
    else a + "/" + b
  }

  /** os.path.abspath(p), with cwd the working directory. */
  function AbsPath(cwd: string, p: string): string
  {
    NormPath(if |p| > 0 && p[0] == '/' then p else PathJoin(cwd, p))
  }

  // ------------------------------------------------------------ split and join

  lemma {:induction false} SplitAppend(x: string, y: string)
    ensures SplitSlash(x + "/" + y) == SplitSlash(x) + SplitSlash(y)
    decreases |x|
  {
    if x == [] {
      assert x + "/" + y == "/" + y;
      assert ("/" + y)[1..] == y;
    } else {
      assert (x + "/" + y)[0] == x[0];
      assert (x + "/" + y)[1..] == x[1..] + "/" + y;
      SplitAppend(x[1..], y);
    }
  }

  lemma {:induction false} SplitSegment(c: string)
    requires '/' !in c
    ensures SplitSlash(c) == [c]
    decreases |c|
  {
    if c != [] {
      assert c[0] in c;
      assert forall k :: 0 <= k < |c[1..]| ==> c[1..][k] in c;
      SplitSegment(c[1..]);
      assert [c[0]] + c[1..] == c;
    }
  }

  /** Splitting and joining again gives the path back. */
  lemma {:induction false} JoinSplit(s: string)
    ensures JoinSlash(SplitSlash(s)) == s
    decreases |s|
  {
    if s != [] {
      JoinSplit(s[1..]);
      var r := SplitSlash(s[1..]);
      if s[0] == '/' {
        assert SplitSlash(s) == [""] + r;
        assert ([""] + r)[1..] == r;
      } else {
        var cs := SplitSlash(s);
        assert cs == [[s[0]] + r[0]] + r[1..];
        if |r| == 1 {
          assert JoinSlash(cs) == [s[0]] + r[0];
        } else {
          assert cs[1..] == r[1..];
          assert JoinSlash(cs) == [s[0]] + r[0] + "/" + JoinSlash(r[1..]);
        }
      }
    }
  }

  lemma {:induction false} JoinAppend(a: seq<string>, b: seq<string>)
    requires a != [] && b != []
    ensures JoinSlash(a + b) == JoinSlash(a) + "/" + JoinSlash(b)
    decreases |a|
  {
    if |a| == 1 {
      assert (a + b)[1..] == b;
    } else {
      assert (a + b)[1..] == a[1..] + b;
      JoinAppend(a[1..], b);
    }
  }

  lemma {:induction false} SplitHasNoSlash(s: string)
    ensures forall c :: c in SplitSlash(s) ==> '/' !in c
    decreases |s|
  {
    if s != [] {
      SplitHasNoSlash(s[1..]);
      var rest := SplitSlash(s[1..]);
      if s[0] != '/' {
        assert '/' !in [s[0]] + rest[0];
        assert forall c :: c in rest[1..] ==> c in rest;
      }
    }
  }

  // ------------------------------------------------------------ normalisation

  lemma {:induction false} NormAppend(acc: seq<string>, a: seq<string>, b: seq<string>, absolute: bool)
    ensures Norm(acc, a + b, absolute) == Norm(Norm(acc, a, absolute), b, absolute)
    decreases |a|
  {
    if a == [] {
      assert a + b == b;
    } else {
      assert (a + b)[0] == a[0] && (a + b)[1..] == a[1..] + b;
      assert Norm(acc, a + b, absolute) == Norm(Step(acc, a[0], absolute), a[1..] + b, absolute);
      NormAppend(Step(acc, a[0], absolute), a[1..], b, absolute);
    }
  }

  /** Plain components are appended as they are. */
  lemma {:induction false} NormPlain(acc: seq<string>, cs: seq<string>, absolute: bool)
    requires forall c :: c in cs ==> Plain(c)
    ensures Norm(acc, cs, absolute) == acc + cs
    decreases |cs|
  {
    if cs != [] {
      assert cs[0] in cs;
      assert forall c :: c in cs[1..] ==> c in cs;
      NormPlain(acc + [cs[0]], cs[1..], absolute);
      assert acc + [cs[0]] + cs[1..] == acc + cs;
    }
  }

  /** In an absolute path every kept component is plain: no "", "." or ".." is left. */
  lemma {:induction false} NormAbsolutePlain(acc: seq<string>, cs: seq<string>)
    requires forall c :: c in acc ==> Plain(c)
    requires forall c :: c in cs ==> '/' !in c
    ensures forall c :: c in Norm(acc, cs, true) ==> Plain(c)
    decreases |cs|
  {
    if cs != [] {
      var next := Step(acc, cs[0], true);
      assert cs[0] in cs;
      assert forall c :: c in cs[1..] ==> c in cs;
      if acc != [] && cs[0] == ".." {
        assert acc[|acc| - 1] in acc;
        assert forall c :: c in acc[..|acc| - 1] ==> c in acc;
      }
      NormAbsolutePlain(next, cs[1..]);
    }
  }

  /** abspath's result is absolute and normal: it starts with a slash, and its
      components after the leading slashes are all plain. */
  lemma AbsoluteNormal(p: string)
    requires |p| > 0 && p[0] == '/'
    ensures var r := NormPath(p);
      |r| > 0 && r[0] == '/'
      && forall c :: c in Norm([], SplitSlash(p), true) ==> Plain(c)
  {
    SplitHasNoSlash(p);
    NormAbsolutePlain([], SplitSlash(p));
  }

  /** p's last component is c: p is c, or ends in a slash followed by c. */
  predicate EndsIn(p: string, c: string)
  {
    |c| <= |p| && p[|p| - |c|..] == c && (|p| == |c| || p[|p| - |c| - 1] == '/')
  }

  /** A path whose last component is the plain c splits into pieces ending in c,
      and does not end in a slash. */
  lemma SplitLast(p: string, c: string)
    requires Plain(c) && EndsIn(p, c)
    ensures var cs := SplitSlash(p); cs[|cs| - 1] == c
    ensures p != [] && p[|p| - 1] != '/'
  {
    SplitSegment(c);
    assert c[|c| - 1] in c;
    assert p[|p| - 1] == c[|c| - 1];
    if |p| == |c| {
      assert p == c;
    } else {
      var w := p[..|p| - |c| - 1];
      assert p == w + "/" + c;
      SplitAppend(w, c);
    }
  }

  /** os.path.join keeps the last component of its second argument. */
  lemma EndsInJoin(a: string, p: string, c: string)
    requires EndsIn(p, c) && c != ""
    ensures EndsIn(PathJoin(a, p), c)
  {
    var r := PathJoin(a, p);
    if !(|p| > 0 && p[0] == '/') {
      if a == "" || a[|a| - 1] == '/' {
        assert r == a + p;
        assert r[|r| - |c|..] == p[|p| - |c|..];
        if |p| > |c| { assert r[|r| - |c| - 1] == p[|p| - |c| - 1]; }
      } else {
        assert r == (a + "/") + p;
        assert r[|r| - |c|..] == p[|p| - |c|..];
        if |p| > |c| { assert r[|r| - |c| - 1] == p[|p| - |c| - 1]; }
      }
    }
  }

  /** os.path.join with a relative second argument distributes over appending. */
  lemma JoinAppendRelative(a: string, y: string, q: string)
    requires y != [] && y[0] != '/'
    ensures PathJoin(a, y + "/" + q) == PathJoin(a, y) + "/" + q
  {
    assert (y + "/" + q)[0] == y[0];
    if a == "" || a[|a| - 1] == '/' {
      assert a + (y + "/" + q) == a + y + "/" + q;
    } else {
      assert a + "/" + (y + "/" + q) == a + "/" + y + "/" + q;
    }
  }

  /** A plain relative path is not empty and does not start with a slash. */
  lemma PlainPathStart(q: string)
    requires PlainPath(q)
    ensures q != [] && q[0] != '/'
  {
    assert SplitSlash(q)[0] in SplitSlash(q);
  }

  /** The leading slashes of a path are not changed by what follows its last
      non-slash character. */
  lemma SlashesAppend(x: string, q: string)
    requires x != [] && x[|x| - 1] != '/'
    ensures Slashes(x + "/" + q) == Slashes(x)
  {
    var p := x + "/" + q;
    assert p[0] == x[0];
    if |x| >= 2 { assert p[1] == x[1]; }
    if |x| >= 3 { assert p[2] == x[2]; }
  }

  /** A list of components whose last one is plain joins to a non-empty path. */
  lemma JoinNonEmpty(cs: seq<string>)
    requires cs != [] && Plain(cs[|cs| - 1])
    ensures JoinSlash(cs) != ""
  {
    var k := |cs| - 1;
    if k > 0 {
      assert cs == cs[..k] + [cs[k]];
      JoinAppend(cs[..k], [cs[k]]);
    }
  }

  /** Regrouping a concatenation of four strings. */
  lemma Regroup(a: string, b: string, m: string, c: string)
    ensures a + (b + m + c) == a + b + m + c
  {
  }

  /** The kept components of x + "/" + q, for a plain relative q: those of x, then q's. */
  lemma NormComponentsAppend(x: string, q: string, abs: bool)
    requires PlainPath(q)
    ensures Norm([], SplitSlash(x + "/" + q), abs) == Norm([], SplitSlash(x), abs) + SplitSlash(q)
  {
    var nq := SplitSlash(q);
    SplitAppend(x, q);
    NormAppend([], SplitSlash(x), nq, abs);
    NormPlain(Norm([], SplitSlash(x), abs), nq, abs);
  }

  /** Joining kept components followed by those of a plain relative q. */
  lemma JoinTail(nx: seq<string>, q: string)
    requires nx != [] && PlainPath(q)
    ensures JoinSlash(nx + SplitSlash(q)) == JoinSlash(nx) + "/" + q
  {
    JoinAppend(nx, SplitSlash(q));
    JoinSplit(q);
  }

  /** Appending a plain relative path to a path whose normal form ends in a plain
      component appends it to the normal form. */
  lemma NormPathAppend(x: string, q: string)
    requires x != [] && x[|x| - 1] != '/' && PlainPath(q)
    requires var n := Norm([], SplitSlash(x), Slashes(x) != ""); n != [] && Plain(n[|n| - 1])
    ensures NormPath(x + "/" + q) == NormPath(x) + "/" + q
  {
    var p := x + "/" + q;
    var s := Slashes(x);
    var nx := Norm([], SplitSlash(x), s != "");
    var j := JoinSlash(nx);
    assert Slashes(p) == s by {
      SlashesAppend(x, q);
    }
    assert JoinSlash(Norm([], SplitSlash(p), s != "")) == j + "/" + q by {
      NormComponentsAppend(x, q, s != "");
      JoinTail(nx, q);
    }
    assert j != "" by {
      JoinNonEmpty(nx);
    }
    assert NormPath(x) == s + j;
    assert NormPath(p) == s + (j + "/" + q);
    Regroup(s, j, "/", q);
  }

  /** A normalised path whose split ends in a plain component keeps a component. */
  lemma NormKeepsLast(x: string)
    requires var cs := SplitSlash(x); Plain(cs[|cs| - 1])
    ensures Norm([], SplitSlash(x), Slashes(x) != "") != []
    ensures var n := Norm([], SplitSlash(x), Slashes(x) != ""); n[|n| - 1] == SplitSlash(x)[|SplitSlash(x)| - 1]
  {
    var cs := SplitSlash(x);
    var abs := Slashes(x) != "";
    var init, last := cs[..|cs| - 1], cs[|cs| - 1];
    assert cs == init + [last];
    NormAppend([], init, [last], abs);
    NormPlain(Norm([], init, abs), [last], abs);
  }

  // ------------------------------------------------------------ the bot path check

  /** bots_dir = os.path.abspath(os.path.join(os.path.dirname(__file__), 'bots')),
      with dir the server's directory and cwd the working directory. */
  function BotsDir(dir: string, cwd: string): string
  {
    AbsPath(cwd, PathJoin(dir, "bots"))
  }

  /** bot_path_absoluto, for the bot_path of the request. */
  function BotAbsolute(dir: string, cwd: string, botPath: string): string
  {
    AbsPath(cwd, PathJoin(PathJoin(dir, "bots"), botPath))
  }

  /** bot_path_absoluto.startswith(bots_dir). */
  predicate PathAccepted(dir: string, cwd: string, botPath: string)
  {
    StartsWith(BotAbsolute(dir, cwd, botPath), BotsDir(dir, cwd))
  }

  /** What abspath normalises for bots_dir: the join itself when it is absolute,
      otherwise its join to the working directory. */
  function BotsArg(dir: string, cwd: string): string
  {
    var y := PathJoin(dir, "bots");
    if |y| > 0 && y[0] == '/' then y else PathJoin(cwd, y)
  }

  /** That argument ends in the component "bots", and so does its normal form. */
  lemma BotsArgShape(dir: string, cwd: string)
    ensures var x := BotsArg(dir, cwd);
      var n := Norm([], SplitSlash(x), Slashes(x) != "");
      x != [] && x[|x| - 1] != '/' && n != [] && n[|n| - 1] == "bots" && Plain(n[|n| - 1])
    ensures BotsDir(dir, cwd) == NormPath(BotsArg(dir, cwd))
  {
    PlainBots();
    var x := BotsArg(dir, cwd);
    assert EndsIn(x, "bots") by {
      BotsArgEnds(dir, cwd);
    }
    var cs := SplitSlash(x);
    assert x != [] && x[|x| - 1] != '/' && cs[|cs| - 1] == "bots" by {
      SplitLast(x, "bots");
    }
    NormKeepsLast(x);
  }

  lemma PlainBots()
    ensures Plain("bots")
  {
    var b := "bots";
    assert b[0] == 'b' && b[1] == 'o' && b[2] == 't' && b[3] == 's';
    assert |b| == 4;
  }

  lemma BotsArgEnds(dir: string, cwd: string)
    ensures EndsIn(BotsArg(dir, cwd), "bots")
  {
    var y := PathJoin(dir, "bots");
    assert EndsIn(y, "bots") by {
      EndsInJoin(dir, "bots", "bots");
    }
    if !(|y| > 0 && y[0] == '/') {
      EndsInJoin(cwd, y, "bots");
    }
  }

  /** Appending to the bots directory: what abspath normalises for bot_path_absoluto
      is that argument, a slash and the relative bot_path. */
  lemma BotArgAppend(dir: string, cwd: string, r: string)
    requires r != [] && r[0] != '/'
    ensures BotAbsolute(dir, cwd, r) == NormPath(BotsArg(dir, cwd) + "/" + r)
  {
    var y := PathJoin(dir, "bots");
    EndsInJoin(dir, "bots", "bots");
    SplitLast(y, "bots");
    assert PathJoin(y, r) == y + "/" + r;
    assert (y + "/" + r)[0] == y[0];
    if !(y[0] == '/') {
      JoinAppendRelative(cwd, y, r);
    }
  }

  /** A bot_path of plain components (no "..", no ".", no leading or doubled
      slash) resolves beneath the bots directory. */
  lemma BeneathResolves(dir: string, cwd: string, q: string)
    requires PlainPath(q)
    ensures BotAbsolute(dir, cwd, q) == BotsDir(dir, cwd) + "/" + q
  {
    var x := BotsArg(dir, cwd);
    assert BotAbsolute(dir, cwd, q) == NormPath(x + "/" + q) by {
      PlainPathStart(q);
      BotArgAppend(dir, cwd, q);
    }
    BotsArgShape(dir, cwd);
    NormPathAppend(x, q);
  }

  /** ... and so it is accepted. */
  lemma BeneathAccepted(dir: string, cwd: string, q: string)
    requires PlainPath(q)
    ensures PathAccepted(dir, cwd, q)
  {
    BeneathResolves(dir, cwd, q);
    var d := BotsDir(dir, cwd);
    assert (d + "/" + q)[..|d|] == d;
  }

  /** P + q starts with P + b exactly when q starts with b. */
  lemma StartsWithCommon(pre: string, q: string, b: string)
    ensures StartsWith(pre + q, pre + b) <==> StartsWith(q, b)
  {
    if |b| <= |q| {
      assert (pre + q)[..|pre + b|] == pre + q[..|b|];
      if (pre + q)[..|pre + b|] == pre + b {
        assert q[..|b|] == (pre + q[..|b|])[|pre|..];
      }
    }
  }

  /** The leading slashes s and the kept components n without the last one,
      followed by the slash before it. */
  function Above(s: string, n: seq<string>): string
  {
    if |n| <= 1 then s else s + JoinSlash(n[..|n| - 1]) + "/"
  }

  /** The normal form of x without its last component, with the slash before it. */
  function ParentPrefix(x: string): string
  {
    Above(Slashes(x), Norm([], SplitSlash(x), Slashes(x) != ""))
  }

  /** Joined after the leading slashes, kept components ending in c are what is
      above c, then c. */
  lemma AboveLast(s: string, n: seq<string>, c: string)
    requires n != [] && n[|n| - 1] == c && Plain(c)
    ensures s + JoinSlash(n) == Above(s, n) + c
  {
    if |n| > 1 {
      var pre := n[..|n| - 1];
      assert n == pre + [c];
      JoinAppend(pre, [c]);
      Regroup(s, JoinSlash(pre), "/", c);
    } else {
      assert n == [c];
    }
  }

  /** The normal form of a path whose last kept component is c is its parent
      prefix followed by c. */
  lemma NormLast(x: string, c: string)
    requires x != []
    requires var n := Norm([], SplitSlash(x), Slashes(x) != ""); n != [] && n[|n| - 1] == c && Plain(c)
    ensures NormPath(x) == ParentPrefix(x) + c
  {
    var s := Slashes(x);
    var nx := Norm([], SplitSlash(x), s != "");
    AboveLast(s, nx, c);
  }

  /** The components of x + "/../" + q after normalisation: x's kept components
      without the last, then q's. */
  lemma NormParentComponents(x: string, q: string)
    requires PlainPath(q)
    requires var n := Norm([], SplitSlash(x), Slashes(x) != ""); n != [] && Plain(n[|n| - 1])
    ensures var abs := Slashes(x) != "";
      var nx := Norm([], SplitSlash(x), abs);
      Norm([], SplitSlash(x + "/" + ("../" + q)), abs) == nx[..|nx| - 1] + SplitSlash(q)
  {
    SplitParent(x, q);
    NormUpThen(SplitSlash(x), SplitSlash(q), Slashes(x) != "");
  }

  lemma SplitParent(x: string, q: string)
    ensures SplitSlash(x + "/" + ("../" + q)) == SplitSlash(x) + ([".."] + SplitSlash(q))
  {
    var r := "../" + q;
    SplitAppend(x, r);
    SplitSegment("..");
    assert r == ".." + "/" + q;
    SplitAppend("..", q);
  }

  /** Components cs, then "..", then plain components qc: the ".." removes the last
      component kept from cs. */
  lemma NormUpThen(cs: seq<string>, qc: seq<string>, abs: bool)
    requires var n := Norm([], cs, abs); n != [] && Plain(n[|n| - 1])
    requires forall c :: c in qc ==> Plain(c)
    ensures var n := Norm([], cs, abs); Norm([], cs + ([".."] + qc), abs) == n[..|n| - 1] + qc
  {
    var n := Norm([], cs, abs);
    NormAppend([], cs, [".."] + qc, abs);
    NormAppend(n, [".."], qc, abs);
    NormUp(n, abs);
    NormPlain(n[..|n| - 1], qc, abs);
  }

  /** A ".." after a plain kept component removes it. */
  lemma NormUp(acc: seq<string>, absolute: bool)
    requires acc != [] && Plain(acc[|acc| - 1])
    ensures Norm(acc, [".."], absolute) == acc[..|acc| - 1]
  {
    var up: seq<string> := [".."];
    assert up[0] == ".." && up[1..] == [];
    assert Norm(acc, up, absolute) == Norm(Step(acc, "..", absolute), [], absolute);
  }

  /** Joined after the leading slashes, kept components n without their last one
      and then the components of q are what is above n's last one, then q. */
  lemma AboveThen(s: string, n: seq<string>, qc: seq<string>, q: string)
    requires n != [] && qc != [] && JoinSlash(qc) == q
    ensures s + JoinSlash(n[..|n| - 1] + qc) == Above(s, n) + q
  {
    var pre := n[..|n| - 1];
    if pre != [] {
      var j := JoinSlash(pre);
      assert JoinSlash(pre + qc) == j + "/" + q by {
        JoinAppend(pre, qc);
      }
      assert Above(s, n) == s + j + "/";
      assert s + (j + "/" + q) == (s + j + "/") + q;
    } else {
      assert pre + qc == qc;
    }
  }

  /** Normalising x + "/../" + q drops x's last kept component. */
  lemma NormParent(x: string, q: string)
    requires x != [] && x[|x| - 1] != '/' && PlainPath(q)
    requires var n := Norm([], SplitSlash(x), Slashes(x) != ""); n != [] && Plain(n[|n| - 1])
    ensures NormPath(x + "/" + ("../" + q)) == ParentPrefix(x) + q
  {
    var r := "../" + q;
    var s := Slashes(x);
    var nx := Norm([], SplitSlash(x), s != "");
    var qc := SplitSlash(q);
    SlashesAppend(x, r);
    NormParentComponents(x, q);
    PlainPathStart(q);
    JoinSplit(q);
    AboveThen(s, nx, qc, q);
  }

  /** "../" + q leaves the bots directory for its parent, and the prefix check
      still accepts it exactly when q starts with "bots": a sibling directory
      such as bots_x passes, any other leaves the check. */
  lemma ParentIff(dir: string, cwd: string, q: string)
    requires PlainPath(q)
    ensures PathAccepted(dir, cwd, "../" + q) <==> StartsWith(q, "bots")
  {
    var p := ParentPrefix(BotsArg(dir, cwd));
    ParentResolves(dir, cwd, q);
    BotsDirParent(dir, cwd);
    StartsWithCommon(p, q, "bots");
  }

  /** "../" + q resolves to q beside the bots directory. */
  lemma ParentResolves(dir: string, cwd: string, q: string)
    requires PlainPath(q)
    ensures BotAbsolute(dir, cwd, "../" + q) == ParentPrefix(BotsArg(dir, cwd)) + q
  {
    var x := BotsArg(dir, cwd);
    assert BotAbsolute(dir, cwd, "../" + q) == NormPath(x + "/" + ("../" + q)) by {
      BotArgAppend(dir, cwd, "../" + q);
    }
    BotsArgShape(dir, cwd);
    NormParent(x, q);
  }

  /** The bots directory is its parent prefix followed by "bots". */
  lemma BotsDirParent(dir: string, cwd: string)
    ensures BotsDir(dir, cwd) == ParentPrefix(BotsArg(dir, cwd)) + "bots"
  {
    BotsArgShape(dir, cwd);
    NormLast(BotsArg(dir, cwd), "bots");
  }
}
