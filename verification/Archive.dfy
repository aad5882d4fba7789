/** The names in a directory archive: what sendDirectory writes and what extractTarGz accepts
    (internal/transfer/p2p.go). */
module Archive {
  import opened Protocol
  import opened Paths

  /** The absolute, clean destination directory: its elements below the root. */
  function DirPath(dest: seq<string>): string { "/" + Join(dest) }

  /** The two guards of extractTarGz. */
  predicate Accepted(dest: seq<string>, name: string) {
    var clean := Clean(name);
    && !HasPrefix(clean, "..") && !IsAbs(clean)
    && HasPrefix(Target(dest, name), DirPath(dest) + "/")
  }

  function Target(dest: seq<string>, name: string): string { JoinPaths(DirPath(dest), Clean(name)) }

  function Elements(name: string): seq<string> { Resolve(IsAbs(name), Split(name), []) }

  lemma CleanIsOrdinary(name: string)
    requires !HasPrefix(Clean(name), "..") && !IsAbs(Clean(name))
    ensures AllOrdinary(Elements(name))
    ensures Clean(name) == if Elements(name) == [] then "." else Join(Elements(name))
  {
    var out := Elements(name);
    ResolveResolves(IsAbs(name), Split(name), []);
    if !IsAbs(name) && out != [] {
      JoinStartsWith(out, "..");
      assert out[0] != "..";
      forall i | 0 <= i < |out| ensures Ordinary(out[i]) {
        NoneUp(out, i);
      }
    }
  }

  lemma {:induction false} ResolveThrough(rooted: bool, parts: seq<string>, more: seq<string>, out: seq<string>)
    requires AllOrdinary(parts)
    ensures Resolve(rooted, parts + more, out) == Resolve(rooted, more, out + parts)
    decreases |parts|
  {
    if parts == [] {
      assert parts + more == more && out + parts == out;
    } else {
      assert (parts + more)[1..] == parts[1..] + more;
      ResolveThrough(rooted, parts[1..], more, out + [parts[0]]);
      assert out + [parts[0]] + parts[1..] == out + parts;
    }
  }

  lemma ResolveEmpty(parts: seq<string>, out: seq<string>)
    ensures Resolve(true, [""] + parts, out) == Resolve(true, parts, out)
  {
    assert ([""] + parts)[1..] == parts;
  }

  lemma SplitDir(dest: seq<string>)
    requires AllOrdinary(dest)
    ensures Split(DirPath(dest)) == [""] + (if dest == [] then [""] else dest)
  {
    SplitAtSlash("", Join(dest));
    assert "" + "/" + Join(dest) == DirPath(dest);
    if dest != [] {
      SplitJoin(dest);
    }
  }

  /** A path below the destination is resolved from the destination on. */
  lemma CleanBelow(dest: seq<string>, tail: string)
    requires AllOrdinary(dest)
    ensures Clean(DirPath(dest) + "/" + tail) == "/" + Join(Resolve(true, Split(tail), dest))
  {
    SplitAtSlash(DirPath(dest), tail);
    SplitDir(dest);
    ResolveBelow(dest, Split(tail));
  }

  lemma ResolveBelow(dest: seq<string>, more: seq<string>)
    requires AllOrdinary(dest)
    ensures Resolve(true, [""] + (if dest == [] then [""] else dest) + more, []) == Resolve(true, more, dest)
  {
    if dest == [] {
      assert [""] + [""] + more == [""] + ([""] + more);
      ResolveEmpty([""] + more, []);
      ResolveEmpty(more, []);
    } else {
      assert [""] + dest + more == [""] + (dest + more);
      ResolveEmpty(dest + more, []);
      ResolveThrough(true, dest, more, []);
      assert [] + dest == dest;
    }
  }

  lemma TargetOf(dest: seq<string>, rel: seq<string>)
    requires AllOrdinary(dest) && AllOrdinary(rel) && rel != []
    ensures JoinPaths(DirPath(dest), Join(rel)) == DirPath(dest + rel)
  {
    JoinIsRelative(rel);
    SplitJoin(rel);
    CleanBelow(dest, Join(rel));
    ResolveOrdinary(true, rel, dest);
  }

  lemma DotTarget(dest: seq<string>)
    requires AllOrdinary(dest)
    ensures JoinPaths(DirPath(dest), ".") == DirPath(dest)
  {
    SplitPart(".");
    CleanBelow(dest, ".");
    assert ["."][1..] == [];
    assert Resolve(true, ["."], dest) == Resolve(true, [], dest);
  }

  lemma BelowDest(dest: seq<string>, rel: seq<string>)
    requires AllOrdinary(dest) && AllOrdinary(rel) && rel != []
    ensures HasPrefix(DirPath(dest + rel), DirPath(dest) + "/") <==> dest != []
  {
    if dest != [] {
      JoinAppend(dest, rel);
    } else {
      assert dest + rel == rel;
      JoinIsRelative(rel);
      assert DirPath(dest) + "/" == "//";
      assert DirPath(rel)[..2] == ['/', Join(rel)[0]];
    }
  }

  /** Exactly which entries are extracted: those whose clean name is relative, does not begin with two dots and
      is not ".", unless the destination is the root, where nothing is. What is accepted lands below the
      destination, at the elements of its own name, none of which is "..". */
  lemma AcceptedExactly(dest: seq<string>, name: string)
    requires AllOrdinary(dest)
    ensures Accepted(dest, name) <==>
            !HasPrefix(Clean(name), "..") && !IsAbs(Clean(name)) && Clean(name) != "." && dest != []
    ensures Accepted(dest, name) ==>
            && Elements(name) != [] && AllOrdinary(Elements(name))
            && Target(dest, name) == DirPath(dest + Elements(name))
  {
    if !HasPrefix(Clean(name), "..") && !IsAbs(Clean(name)) {
      CleanIsOrdinary(name);
      if Elements(name) == [] {
        DotTarget(dest);
      } else {
        JoinIsRelative(Elements(name));
        TargetOf(dest, Elements(name));
        BelowDest(dest, Elements(name));
      }
    }
  }

  /** hdr.Name for the file at the elements `rel` below a source directory with this base name; the
      directory itself has none. */
  function EntryName(base: string, rel: seq<string>): string {
    JoinPaths(base, if rel == [] then "." else Join(rel))
  }

  lemma {:induction false} ResolveDotOf(part: string)
    requires Ordinary(part)
    ensures Resolve(false, [part, "."], []) == [part]
  {
    assert [part, "."][1..] == ["."] && ["."][1..] == [];
    assert [] + [part] == [part];
    assert Resolve(false, ["."], [part]) == Resolve(false, [], [part]);
  }

  lemma EntryNameIs(base: string, rel: seq<string>)
    requires Ordinary(base) && AllOrdinary(rel)
    ensures EntryName(base, rel) == Join([base] + rel)
  {
    SplitPart(base);
    if rel == [] {
      SplitPart(".");
      SplitAtSlash(base, ".");
      ResolveDotOf(base);
      assert [base] + rel == [base];
    } else {
      JoinIsRelative(rel);
      SplitJoin(rel);
      SplitAtSlash(base, Join(rel));
      ResolveOrdinary(false, [base] + rel, []);
      assert [] + ([base] + rel) == [base] + rel;
    }
  }

  lemma ElementsOfEntry(base: string, rel: seq<string>)
    requires Ordinary(base) && AllOrdinary(rel)
    ensures Elements(EntryName(base, rel)) == [base] + rel
    ensures Clean(EntryName(base, rel)) == Join([base] + rel)
  {
    EntryNameIs(base, rel);
    SplitJoin([base] + rel);
    JoinIsRelative([base] + rel);
    ResolveOrdinary(false, [base] + rel, []);
    assert [] + ([base] + rel) == [base] + rel;
  }

  /** Every entry of a directory with an ordinary base name is extracted to the same place below the destination,
      if the base name does not begin with two dots and the destination is not the root; otherwise none is. */
  lemma TreeArrives(dest: seq<string>, base: string, rel: seq<string>)
    requires AllOrdinary(dest) && Ordinary(base) && AllOrdinary(rel)
    ensures Accepted(dest, EntryName(base, rel)) <==> dest != [] && !HasPrefix(base, "..")
    ensures dest != [] && !HasPrefix(base, "..") ==>
            Target(dest, EntryName(base, rel)) == DirPath(dest + ([base] + rel))
  {
    var name := EntryName(base, rel);
    ElementsOfEntry(base, rel);
    JoinStartsWith([base] + rel, "..");
    JoinIsRelative([base] + rel);
    AcceptedExactly(dest, name);
  }

  lemma DirPathInjective(a: seq<string>, b: seq<string>)
    requires AllOrdinary(a) && AllOrdinary(b) && DirPath(a) == DirPath(b)
    ensures a == b
  {
    assert Join(a) == DirPath(a)[1..] == DirPath(b)[1..] == Join(b);
    if a != [] && b != [] {
      SplitJoin(a);
      SplitJoin(b);
    } else if a != [] {
      JoinIsRelative(a);
    } else if b != [] {
      JoinIsRelative(b);
    }
  }

  /** Different files of the tree never land on each other. */
  lemma TargetsAreDistinct(dest: seq<string>, base: string, r1: seq<string>, r2: seq<string>)
    requires AllOrdinary(dest) && dest != [] && Ordinary(base) && !HasPrefix(base, "..")
    requires AllOrdinary(r1) && AllOrdinary(r2)
    requires Target(dest, EntryName(base, r1)) == Target(dest, EntryName(base, r2))
    ensures r1 == r2
  {
    TreeArrives(dest, base, r1);
    TreeArrives(dest, base, r2);
    DirPathInjective(dest + ([base] + r1), dest + ([base] + r2));
    TailIs(dest, base, r1);
    TailIs(dest, base, r2);
  }

  lemma TailIs(dest: seq<string>, base: string, rel: seq<string>)
    ensures (dest + ([base] + rel))[|dest| + 1..] == rel
  {
  }

  /** `goxfer send .` and `goxfer send /`: the first entry, for the directory itself, is always refused. */
  lemma OddBasesAreRefused(dest: seq<string>)
    requires AllOrdinary(dest)
    ensures !Accepted(dest, EntryName(".", [])) && !Accepted(dest, EntryName("/", []))
            && !Accepted(dest, EntryName("..", []))
  {
    var dot, slash, up := EntryName(".", []), EntryName("/", []), EntryName("..", []);
    SplitPart(".");
    SplitPart("..");
    SplitPart("");
    SplitAtSlash(".", ".");
    SplitAtSlash("..", ".");
    assert [".", "."][1..] == ["."] && ["."][1..] == [] && ["..", "."][1..] == ["."];
    assert Resolve(false, [".", "."], []) == Resolve(false, ["."], []) == [];
    CleanBelow([], ".");
    assert DirPath([]) == "/" && Resolve(true, ["."], []) == [];
    assert [] + [".."] == [".."];
    assert Resolve(false, ["..", "."], []) == Resolve(false, ["."], [".."]) == [".."];
    assert dot == "." && slash == "/" && up == "..";
    AcceptedExactly(dest, dot);
    AcceptedExactly(dest, slash);
    AcceptedExactly(dest, up);
    assert Clean(".") == ".";
    assert "/" == "" + "/" + "";
    SplitAtSlash("", "");
    assert ["", ""][1..] == [""] && [""][1..] == [];
    assert Resolve(true, ["", ""], []) == Resolve(true, [""], []) == [];
    assert Clean("/") == "/";
    assert Resolve(false, [".."], []) == [".."];
    assert Clean("..") == "..";
  }
}
