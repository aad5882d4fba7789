/** Slash-separated paths, as package path/filepath treats them on Unix. */
module Paths {
  /** filepath.Base. */
  function Base(p: string): string {
    if p == "" then "."
    else if LastPart(TrimSlashes(p)) == "" then "/"
    else LastPart(TrimSlashes(p))
  }

  function TrimSlashes(p: string): (r: string)
    ensures r == "" || r[|r| - 1] != '/'
  {
    if p == "" || p[|p| - 1] != '/' then p else TrimSlashes(p[..|p| - 1])
  }

  /** What follows the last slash. */
  function LastPart(p: string): (r: string)
    ensures '/' !in r && |r| <= |p|
    ensures p != "" && p[|p| - 1] != '/' ==> r != ""
  {
    if p == "" || p[|p| - 1] == '/' then ""
    else LastPart(p[..|p| - 1]) + [p[|p| - 1]]
  }

  /** filepath.Dir of a clean absolute path. */
  function Parent(p: string): string {
    var cut := |p| - |LastPart(p)|;
    if cut <= 1 then "/" else p[..cut - 1]
  }

  lemma {:induction false} LastPartOfPart(s: string)
    requires '/' !in s
    ensures LastPart(s) == s
  {
    if s != "" {
      LastPartOfPart(s[..|s| - 1]);
      assert s == s[..|s| - 1] + [s[|s| - 1]];
    }
  }

  /** Taking the base name twice changes nothing. */
  lemma BaseIdempotent(p: string)
    ensures Base(Base(p)) == Base(p)
  {
    var part := LastPart(TrimSlashes(p));
    LastPartOfPart(part);
    LastPartOfPart(".");
    if part == "" && p != "" {
      assert Base(p) == "/";
      assert TrimSlashes("/") == TrimSlashes("/"[..0]) == "";
    }
  }

  function Slashes(n: nat): string { seq(n, _ => '/') }

  lemma {:induction false} TrimsSlashes(p: string, n: nat)
    requires p != "" && p[|p| - 1] != '/'
    ensures TrimSlashes(p + Slashes(n)) == p
    decreases n
  {
    if n == 0 {
      assert p + Slashes(0) == p;
    } else {
      var q := p + Slashes(n);
      assert q[..|q| - 1] == p + Slashes(n - 1);
      TrimsSlashes(p, n - 1);
    }
  }

  lemma {:induction false} LastPartAfterSlash(a: string, b: string)
    requires '/' !in b
    ensures LastPart(a + "/" + b) == b
    decreases |b|
  {
    var p := a + "/" + b;
    if b != "" {
      var n := |b| - 1;
      assert p[..|p| - 1] == a + "/" + b[..n];
      LastPartAfterSlash(a, b[..n]);
      assert b == b[..n] + [b[n]];
    }
  }

  /** The base name of a path is what follows its last slash, those at its end aside. */
  lemma {:induction false} BaseIsLast(dir: string, name: string, n: nat)
    requires name != "" && '/' !in name
    ensures Base(dir + "/" + name + Slashes(n)) == name && Base(name + Slashes(n)) == name
  {
    TrimsSlashes(dir + "/" + name, n);
    TrimsSlashes(name, n);
    LastPartAfterSlash(dir, name);
    LastPartOfPart(name);
  }

  predicate HasSuffix(s: string, suffix: string) {
    |suffix| <= |s| && s[|s| - |suffix|..] == suffix
  }

  const ARCHIVE_SUFFIX := ".tar.gz"

  predicate IsArchive(name: string) { HasSuffix(name, ARCHIVE_SUFFIX) }

  function Split(p: string): (parts: seq<string>)
    ensures parts != [] && forall i | 0 <= i < |parts| :: '/' !in parts[i]
  {
    if p == "" then [""]
    else
      var rest := Split(p[1..]);
      if p[0] == '/' then [""] + rest else [[p[0]] + rest[0]] + rest[1..]
  }

  function Join(parts: seq<string>): string {
    if parts == [] then ""
    else if |parts| == 1 then parts[0]
    else parts[0] + "/" + Join(parts[1..])
  }

  lemma {:induction false} SplitPart(p: string)
    requires '/' !in p
    ensures Split(p) == [p]
  {
    if p != "" {
      SplitPart(p[1..]);
      assert p == [p[0]] + p[1..];
    }
  }

  lemma {:induction false} SplitAtSlash(a: string, b: string)
    ensures Split(a + "/" + b) == Split(a) + Split(b)
  {
    var s := a + "/" + b;
    if a == "" {
      assert s[1..] == b;
    } else {
      assert s[1..] == a[1..] + "/" + b;
      SplitAtSlash(a[1..], b);
    }
  }

  predicate Plain(parts: seq<string>) { forall i | 0 <= i < |parts| :: '/' !in parts[i] }

  lemma {:induction false} SplitJoin(parts: seq<string>)
    requires parts != [] && Plain(parts)
    ensures Split(Join(parts)) == parts
    decreases |parts|
  {
    SplitPart(parts[0]);
    if |parts| > 1 {
      SplitJoin(parts[1..]);
      SplitAtSlash(parts[0], Join(parts[1..]));
    }
  }

  lemma {:induction false} JoinAppend(a: seq<string>, b: seq<string>)
    requires a != [] && b != []
    ensures Join(a + b) == Join(a) + "/" + Join(b)
    decreases |a|
  {
    assert (a + b)[1..] == a[1..] + b;
    if |a| > 1 {
      JoinAppend(a[1..], b);
    }
  }

  /** One element more of a path of which `out` is left so far. */
  function Settle(rooted: bool, p: string, out: seq<string>): seq<string> {
    if p == "" || p == "." then out
    else if p == ".." then
      if out != [] && out[|out| - 1] != ".." then out[..|out| - 1]
      else if rooted then out
      else out + [".."]
    else out + [p]
  }

  /** The elements left of a path when empty ones, "." and "x/.." are resolved from left to right. */
  function Resolve(rooted: bool, parts: seq<string>, out: seq<string>): seq<string>
    decreases |parts|
  {
    if parts == [] then out else Resolve(rooted, parts[1..], Settle(rooted, parts[0], out))
  }

  predicate IsAbs(p: string) { p != "" && p[0] == '/' }

  /** filepath.Clean. */
  function Clean(p: string): string {
    var parts := Resolve(IsAbs(p), Split(p), []);
    if IsAbs(p) then "/" + Join(parts)
    else if parts == [] then "."
    else Join(parts)
  }

  /** filepath.Join of two elements. */
  function JoinPaths(a: string, b: string): string {
    if a == "" && b == "" then ""
    else if a == "" then Clean(b)
    else if b == "" then Clean(a)
    else Clean(a + "/" + b)
  }

  /** Where one element of a path leads, from the directory `at` below the root. */
  function Enter(p: string, at: seq<string>): seq<string> {
    if p in {"", "."} then at
    else if p == ".." then (if at == [] then [] else at[..|at| - 1])
    else at + [p]
  }

  function Walk(parts: seq<string>, at: seq<string>): seq<string>
    decreases |parts|
  {
    if parts == [] then at else Walk(parts[1..], Enter(parts[0], at))
  }

  lemma {:induction false} WalkOn(a: seq<string>, b: seq<string>, at: seq<string>)
    ensures Walk(a + b, at) == Walk(b, Walk(a, at))
    decreases |a|
  {
    if a == [] {
      assert a + b == b;
    } else {
      assert (a + b)[1..] == a[1..] + b && (a + b)[0] == a[0];
      WalkOn(a[1..], b, Enter(a[0], at));
    }
  }

  lemma {:induction false} WalkOne(p: string, at: seq<string>)
    ensures Walk([p], at) == Enter(p, at)
  {
    assert [p][1..] == [];
  }

  lemma {:induction false} WalkBack(out: seq<string>, at: seq<string>)
    requires out != [] && Ordinary(out[|out| - 1])
    ensures Walk(out[..|out| - 1], at) == Enter("..", Walk(out, at))
  {
    var n := |out| - 1;
    assert out == out[..n] + [out[n]];
    WalkOn(out[..n], [out[n]], at);
    WalkOne(out[n], Walk(out[..n], at));
    assert (Walk(out[..n], at) + [out[n]])[..|Walk(out[..n], at)|] == Walk(out[..n], at);
  }

  lemma {:induction false} WalkFurther(out: seq<string>, p: string, at: seq<string>)
    ensures Walk(out + [p], at) == Enter(p, Walk(out, at))
  {
    WalkOn(out, [p], at);
    WalkOne(p, Walk(out, at));
  }

  lemma {:induction false} SettleWalks(rooted: bool, p: string, out: seq<string>, at: seq<string>)
    requires Resolved(rooted, out) && (rooted ==> at == [])
    ensures Walk(Settle(rooted, p, out), at) == Enter(p, Walk(out, at))
  {
    if p == ".." && out != [] && out[|out| - 1] != ".." {
      WalkBack(out, at);
    } else if p == ".." && rooted {
      assert out == [];
    } else if p != "" && p != "." {
      WalkFurther(out, p, at);
    }
  }

  /** What resolving leaves leads where all the elements lead. */
  lemma {:induction false} ResolveWalks(rooted: bool, parts: seq<string>, out: seq<string>, at: seq<string>)
    requires Plain(parts) && Resolved(rooted, out) && (rooted ==> at == [])
    ensures Walk(Resolve(rooted, parts, out), at) == Walk(parts, Walk(out, at))
    decreases |parts|
  {
    if parts != [] {
      SettleResolves(rooted, parts[0], out);
      SettleWalks(rooted, parts[0], out, at);
      ResolveWalks(rooted, parts[1..], Settle(rooted, parts[0], out), at);
    }
  }

  /** A clean path, read again. */
  lemma {:induction false} CleanSplits(out: seq<string>, at: seq<string>)
    requires Plain(out)
    ensures Walk(Split("/" + Join(out)), at) == Walk(out, at)
    ensures out != [] ==> Split(Join(out)) == out
  {
    SplitAtSlash("", Join(out));
    assert "/" + Join(out) == "" + "/" + Join(out);
    WalkOn([""], Split(Join(out)), at);
    WalkOne("", at);
    if out == [] {
      SplitPart("");
    } else {
      SplitJoin(out);
    }
  }

  /** filepath.Clean does not change where a path leads, from any directory. */
  lemma {:induction false} CleanLeadsThere(p: string, at: seq<string>)
    requires IsAbs(p) ==> at == []
    ensures Walk(Split(Clean(p)), at) == Walk(Split(p), at)
  {
    var out := Resolve(IsAbs(p), Split(p), []);
    ResolveWalks(IsAbs(p), Split(p), [], at);
    ResolveResolves(IsAbs(p), Split(p), []);
    CleanSplits(out, at);
    SplitPart(".");
    WalkOne(".", at);
  }

  /** filepath.Join leads to the second path from where the first one leads. */
  lemma {:induction false} JoinLeadsThere(a: string, b: string, at: seq<string>)
    requires a != "" && b != "" && (IsAbs(a) ==> at == [])
    ensures Walk(Split(JoinPaths(a, b)), at) == Walk(Split(b), Walk(Split(a), at))
  {
    CleanLeadsThere(a + "/" + b, at);
    SplitAtSlash(a, b);
    WalkOn(Split(a), Split(b), at);
  }

  lemma {:induction false} ResolvesAgain(rooted: bool, out: seq<string>, k: nat)
    requires Resolved(rooted, out) && k <= |out|
    ensures Resolve(rooted, out[k..], out[..k]) == out
    decreases |out| - k
  {
    if k == |out| {
      assert out[k..] == [] && out[..k] == out;
    } else {
      assert out[k..][1..] == out[k + 1..] && out[..k] + [out[k]] == out[..k + 1];
      ResolvesAgain(rooted, out, k + 1);
    }
  }

  /** A clean path is its own clean form. */
  lemma {:induction false} CleanIsClean(p: string)
    ensures Clean(Clean(p)) == Clean(p)
  {
    var rooted := IsAbs(p);
    var out := Resolve(rooted, Split(p), []);
    ResolveResolves(rooted, Split(p), []);
    ResolvesAgain(rooted, out, 0);
    assert out[0..] == out && out[..0] == [];
    if out == [] {
      SplitPart(".");
      SplitPart("");
      SplitAtSlash("", "");
      assert "/" == "" + "/" + "" && ["."][1..] == [] && ["", ""][1..] == [""] && [""][1..] == [];
      assert Resolve(false, ["."], []) == [] && Resolve(true, ["", ""], []) == Resolve(true, [""], []) == [];
    } else {
      SplitJoin(out);
      SplitAtSlash("", Join(out));
      SplitPart("");
      assert "/" + Join(out) == "" + "/" + Join(out) && ([""] + out)[1..] == out;
      assert rooted ==> Resolve(true, [""] + out, []) == Resolve(true, out, []);
      NotRooted(out);
    }
  }

  lemma {:induction false} NotRooted(out: seq<string>)
    requires out != [] && (out[0] == ".." || Ordinary(out[0]))
    ensures !IsAbs(Join(out))
  {
    assert |out| > 1 ==> Join(out)[0] == out[0][0];
  }

  predicate HasPrefix(s: string, prefix: string) { |prefix| <= |s| && s[..|prefix|] == prefix }

  /** The name of a file or directory. */
  predicate Ordinary(part: string) { part != "" && part != "." && part != ".." && '/' !in part }

  predicate AllOrdinary(parts: seq<string>) { forall i | 0 <= i < |parts| :: Ordinary(parts[i]) }

  lemma {:induction false} ResolveOrdinary(rooted: bool, parts: seq<string>, out: seq<string>)
    requires AllOrdinary(parts)
    ensures Resolve(rooted, parts, out) == out + parts
    decreases |parts|
  {
    if parts != [] {
      ResolveOrdinary(rooted, parts[1..], out + [parts[0]]);
      assert out + [parts[0]] + parts[1..] == out + parts;
    }
  }

  /** What resolution can leave: ".." only at the front of a relative path. */
  predicate Resolved(rooted: bool, out: seq<string>) {
    && (forall i | 0 <= i < |out| :: out[i] == ".." || Ordinary(out[i]))
    && (rooted ==> AllOrdinary(out))
    && (forall i | 1 <= i < |out| :: out[i] == ".." ==> out[i - 1] == "..")
  }

  lemma {:induction false} SettleResolves(rooted: bool, p: string, out: seq<string>)
    requires '/' !in p && Resolved(rooted, out)
    ensures Resolved(rooted, Settle(rooted, p, out))
  {
  }

  lemma {:induction false} ResolveResolves(rooted: bool, parts: seq<string>, out: seq<string>)
    requires Plain(parts) && Resolved(rooted, out)
    ensures Resolved(rooted, Resolve(rooted, parts, out))
    decreases |parts|
  {
    if parts != [] {
      SettleResolves(rooted, parts[0], out);
      ResolveResolves(rooted, parts[1..], Settle(rooted, parts[0], out));
    }
  }

  lemma {:induction false} NoneUp(out: seq<string>, i: nat)
    requires Resolved(false, out) && out != [] && out[0] != ".." && i < |out|
    ensures out[i] != ".."
  {
    if i > 0 {
      NoneUp(out, i - 1);
    }
  }

  lemma JoinStartsWith(out: seq<string>, prefix: string)
    requires out != [] && '/' !in prefix
    ensures HasPrefix(out[0], prefix) ==> HasPrefix(Join(out), prefix)
    ensures !HasPrefix(out[0], prefix) ==> !HasPrefix(Join(out), prefix)
  {
    if |out| > 1 {
      var j := Join(out);
      assert j[..|out[0]|] == out[0];
      assert j[|out[0]|] == '/';
      if |prefix| <= |out[0]| {
        assert j[..|prefix|] == out[0][..|prefix|];
      }
    }
  }

  lemma JoinIsRelative(out: seq<string>)
    requires out != [] && Ordinary(out[0])
    ensures Join(out) != "" && !IsAbs(Join(out)) && Join(out) != "."
  {
    if |out| > 1 {
      assert Join(out)[|out[0]|] == '/';
      assert Join(out)[0] == out[0][0];
    }
  }
}
