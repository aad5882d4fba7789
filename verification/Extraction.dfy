/** The loop of extractTarGz (internal/transfer/p2p.go) on any archive, whoever made it. An archive is
    a list of named entries. */
module Extraction {
  import opened Protocol
  import opened Paths
  import opened Archive

  datatype EntryKind = Dir | Regular | Other

  /** An entry: its header announces `size` bytes. In the last entry of an archive some may be missing. */
  datatype Entry = Entry(name: string, kind: EntryKind, size: nat, content: Bytes)

  predicate Complete(e: Entry) { e.kind == Regular ==> |e.content| == e.size }

  predicate Good(dest: seq<string>, e: Entry) { Accepted(dest, e.name) && Complete(e) }

  predicate AllGood(dest: seq<string>, entries: seq<Entry>) {
    forall i | 0 <= i < |entries| :: Good(dest, entries[i])
  }

  /** Files by their absolute paths, and the directories that MkdirAll has been asked for. */
  datatype Files = Files(data: map<string, Bytes>, dirs: set<string>)

  function Write(dest: seq<string>, e: Entry, fs: Files): Files {
    var path := Target(dest, e.name);
    match e.kind
    case Dir => fs.(dirs := fs.dirs + {path})
    case Regular => Files(fs.data[path := e.content], fs.dirs + {Parent(path)})
    case Other => fs
  }

  /** What the loop leaves, and whether it gets to the end. */
  function Extracted(dest: seq<string>, entries: seq<Entry>, fs: Files): (Files, bool)
    decreases |entries|
  {
    if entries == [] then (fs, true)
    else
      var e := entries[0];
      if !Accepted(dest, e.name) then (fs, false)
      else if Complete(e) then Extracted(dest, entries[1..], Write(dest, e, fs))
      else (Write(dest, e, fs), false)
  }

  /** The two guards of the loop. */
  method Check(dest: seq<string>, name: string) returns (ok: bool, target: string)
    ensures ok <==> Accepted(dest, name)
    ensures target == Target(dest, name)
  {
    var clean := Clean(name);
    target := JoinPaths(DirPath(dest), clean);
    ok := !HasPrefix(clean, "..") && !IsAbs(clean) && HasPrefix(target, DirPath(dest) + "/");
  }

  /** One entry. */
  method CarryOut(dest: seq<string>, e: Entry, before: Files) returns (fs: Files, ok: bool)
    ensures ok <==> Good(dest, e)
    ensures fs == if Accepted(dest, e.name) then Write(dest, e, before) else before
  {
    fs := before;
    var target;
    ok, target := Check(dest, e.name);
    if ok {
      match e.kind {
        case Dir => fs := before.(dirs := before.dirs + {target});
        case Regular =>
          fs := Files(before.data[target := e.content], before.dirs + {Parent(target)});
          ok := |e.content| == e.size;
        case Other =>
      }
    }
  }

  lemma {:induction false} ExtractedStep(dest: seq<string>, entries: seq<Entry>, i: nat, fs: Files)
    requires i < |entries|
    ensures Extracted(dest, entries[i..], fs) ==
            if !Accepted(dest, entries[i].name) then (fs, false)
            else if Complete(entries[i]) then Extracted(dest, entries[i + 1..], Write(dest, entries[i], fs))
            else (Write(dest, entries[i], fs), false)
  {
    assert entries[i..][1..] == entries[i + 1..];
  }

  method ExtractTarGz(dest: seq<string>, entries: seq<Entry>, before: Files) returns (fs: Files, ok: bool)
    ensures (fs, ok) == Extracted(dest, entries, before)
    ensures ok <==> AllGood(dest, entries)
  {
    fs := before;
    var i := 0;
    while i < |entries|
      invariant 0 <= i <= |entries|
      invariant forall j | 0 <= j < i :: Good(dest, entries[j])
      invariant Extracted(dest, entries[i..], fs) == Extracted(dest, entries, before)
    {
      ExtractedStep(dest, entries, i, fs);
      fs, ok := CarryOut(dest, entries[i], fs);
      if !ok {
        return;
      }
      i := i + 1;
    }
    assert entries[i..] == [];
    ok := true;
  }

  /** How many entries are carried out: all before the first one that is refused, or as far as the
      first one with missing bytes. */
  function Reach(dest: seq<string>, entries: seq<Entry>): (m: nat)
    ensures m <= |entries|
  {
    if entries == [] || !Accepted(dest, entries[0].name) then 0
    else if !Complete(entries[0]) then 1
    else 1 + Reach(dest, entries[1..])
  }

  predicate Writes(dest: seq<string>, e: Entry, path: string) {
    e.kind == Regular && Target(dest, e.name) == path
  }

  /** The content of the last regular entry for this path. */
  function Last(dest: seq<string>, entries: seq<Entry>, path: string): Option<Bytes>
    decreases |entries|
  {
    if entries == [] then None
    else
      var later := Last(dest, entries[1..], path);
      if later.Some? then later
      else if Writes(dest, entries[0], path) then Some(entries[0].content)
      else None
  }

  predicate Makes(dest: seq<string>, e: Entry, path: string) {
    || (e.kind == Dir && Target(dest, e.name) == path)
    || (e.kind == Regular && Parent(Target(dest, e.name)) == path)
  }

  /** Where the loop stops, and why. */
  lemma {:induction false} ReachIs(dest: seq<string>, entries: seq<Entry>)
    ensures var m := Reach(dest, entries);
            && (forall i | 0 <= i < m :: Accepted(dest, entries[i].name))
            && (forall i | 0 <= i < m - 1 :: Complete(entries[i]))
            && (m < |entries| ==> !Accepted(dest, entries[m].name) || (m > 0 && !Complete(entries[m - 1])))
    decreases |entries|
  {
    if entries != [] && Good(dest, entries[0]) {
      ReachIs(dest, entries[1..]);
      forall i | 0 < i < |entries| ensures entries[i] == entries[1..][i - 1] {
      }
    }
  }

  /** Exactly what any archive does to any disk: the entries up to the first one that is refused, or
      as far as the first one with missing bytes, are carried out, and nothing else. Each file has the
      content of the last of them that names it, or what it had before. */
  lemma {:induction false} ExtractedExactly(dest: seq<string>, entries: seq<Entry>, fs: Files, path: string)
    ensures var (after, ok) := Extracted(dest, entries, fs);
            var done := entries[..Reach(dest, entries)];
            && (ok <==> AllGood(dest, entries))
            && (path in after.data <==> Last(dest, done, path).Some? || path in fs.data)
            && (path in after.data ==>
                  after.data[path] == if Last(dest, done, path).Some? then Last(dest, done, path).value
                      else fs.data[path])
            && (path in after.dirs <==>
                  path in fs.dirs || exists i :: 0 <= i < |done| && Makes(dest, done[i], path))
    decreases |entries|
  {
    if entries != [] {
      var e := entries[0];
      if Good(dest, e) {
        GoodFirst(dest, entries, fs, path);
      } else {
        assert !Good(dest, entries[0]);
        if Accepted(dest, e.name) {
          OneEntry(dest, e, fs, path);
          assert entries[..1] == [e];
        }
      }
    }
  }

  lemma OneEntry(dest: seq<string>, e: Entry, fs: Files, path: string)
    ensures var after := Write(dest, e, fs);
            && Last(dest, [e], path) == (if Writes(dest, e, path) then Some(e.content) else None)
            && (path in after.data <==> Writes(dest, e, path) || path in fs.data)
            && (path in after.data ==> after.data[path] == if Writes(dest, e, path) then e.content else fs.data[path])
            && (path in after.dirs <==> path in fs.dirs || Makes(dest, e, path))
  {
    assert [e][1..] == [];
  }

  lemma {:induction false} GoodFirst(dest: seq<string>, entries: seq<Entry>, fs: Files, path: string)
    requires entries != [] && Good(dest, entries[0])
    ensures var (after, ok) := Extracted(dest, entries, fs);
            var done := entries[..Reach(dest, entries)];
            && (ok <==> AllGood(dest, entries))
            && (path in after.data <==> Last(dest, done, path).Some? || path in fs.data)
            && (path in after.data ==>
                  after.data[path] == if Last(dest, done, path).Some? then Last(dest, done, path).value
                      else fs.data[path])
            && (path in after.dirs <==>
                  path in fs.dirs || exists i :: 0 <= i < |done| && Makes(dest, done[i], path))
    decreases |entries|, 0
  {
    var e, later := entries[0], entries[1..];
    var next := Write(dest, e, fs);
    ExtractedExactly(dest, later, next, path);
    OneEntry(dest, e, fs, path);
    var done, rest := entries[..Reach(dest, entries)], later[..Reach(dest, later)];
    assert done == [e] + rest && done[1..] == rest;
    FirstAndRest(dest, e, rest, path);
    assert AllGood(dest, entries) <==> AllGood(dest, later) by {
      forall i | 0 < i < |entries| ensures entries[i] == later[i - 1] {
      }
      forall i | 0 <= i < |later| ensures later[i] == entries[i + 1] {
      }
    }
  }

  lemma FirstAndRest(dest: seq<string>, e: Entry, rest: seq<Entry>, path: string)
    ensures var done := [e] + rest;
            (exists i :: 0 <= i < |done| && Makes(dest, done[i], path)) <==>
            Makes(dest, e, path) || exists i :: 0 <= i < |rest| && Makes(dest, rest[i], path)
  {
    var done := [e] + rest;
    if i :| 0 <= i < |rest| && Makes(dest, rest[i], path) {
      assert done[i + 1] == rest[i];
    }
    if i :| 0 <= i < |done| && Makes(dest, done[i], path) {
      assert i > 0 ==> done[i] == rest[i - 1];
    }
    assert done[0] == e;
  }

  predicate Below(dest: seq<string>, path: string) { HasPrefix(path, DirPath(dest) + "/") }

  lemma {:induction false} LastIsBelow(dest: seq<string>, entries: seq<Entry>, path: string)
    requires forall i | 0 <= i < |entries| :: Accepted(dest, entries[i].name)
    requires Last(dest, entries, path).Some?
    ensures Below(dest, path)
    decreases |entries|
  {
    assert Accepted(dest, entries[0].name);
    if Last(dest, entries[1..], path).Some? {
      forall i | 0 <= i < |entries| - 1 ensures entries[1..][i] == entries[i + 1] {
      }
      LastIsBelow(dest, entries[1..], path);
    }
  }

  /** Whatever the archive: no file outside the destination changes, and no directory is made that is
      neither the destination nor below it. */
  lemma NothingOutside(dest: seq<string>, entries: seq<Entry>, fs: Files, path: string)
    requires AllOrdinary(dest) && !Below(dest, path)
    ensures var after := Extracted(dest, entries, fs).0;
            && (path in after.data <==> path in fs.data)
            && (path in fs.data ==> after.data[path] == fs.data[path])
            && (path in after.dirs && path !in fs.dirs ==> path == DirPath(dest))
  {
    var done := entries[..Reach(dest, entries)];
    ReachIs(dest, entries);
    ExtractedExactly(dest, entries, fs, path);
    if Last(dest, done, path).Some? {
      LastIsBelow(dest, done, path);
    }
    forall i | 0 <= i < |done| && Makes(dest, done[i], path) ensures path == DirPath(dest) {
      assert Accepted(dest, done[i].name);
      AcceptedExactly(dest, done[i].name);
      if done[i].kind == Regular {
        ParentIsWithin(dest, Elements(done[i].name));
      }
    }
  }

  lemma ParentIsWithin(dest: seq<string>, rel: seq<string>)
    requires AllOrdinary(dest) && AllOrdinary(rel) && rel != [] && dest != []
    ensures var p := Parent(DirPath(dest + rel));
            p == DirPath(dest) || Below(dest, p)
  {
    var n := |rel| - 1;
    var all := dest + rel;
    assert all == (dest + rel[..n]) + [rel[n]];
    JoinAppend(dest + rel[..n], [rel[n]]);
    assert DirPath(all) == DirPath(dest + rel[..n]) + "/" + rel[n];
    LastPartAfterSlash(DirPath(dest + rel[..n]), rel[n]);
    assert Parent(DirPath(all)) == DirPath(dest + rel[..n]);
    if n == 0 {
      assert dest + rel[..n] == dest;
    } else {
      BelowDest(dest, rel[..n]);
    }
  }
}
