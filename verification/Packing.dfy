/** The walk of sendDirectory (internal/transfer/p2p.go), and what the receiver makes of its archive. */
module Packing {
  import opened Protocol
  import opened Paths
  import opened Archive
  import opened Extraction

  /** Where a symbolic link leads. */
  datatype Destination = ToFile(data: Option<Bytes>) | ToDirectory | Nowhere

  /** What a walk comes across. `data` is what opening the path and reading it to the end gives, if that
      works; the two sizes of a file may differ, as those of the files in /proc do. */
  datatype Item =
    | Directory(listed: bool)
    | File(size: nat, data: Option<Bytes>)
    | Link(to: Destination)
    | Device(data: Option<Bytes>)
    | Socket

  /** A node of the source tree, at its elements below the source directory. `described` says whether
      package tar takes its description: it never takes that of a socket. */
  datatype Node = Node(rel: seq<string>, item: Item, described: bool)

  /** tar.FileInfoHeader: of a link it describes the link. */
  function Header(n: Node): Option<(EntryKind, nat)> {
    match n.item
    case Directory(_) => Some((Dir, 0))
    case File(size, _) => Some((Regular, size))
    case Link(_) => Some((Other, 0))
    case Device(_) => Some((Other, 0))
    case Socket => None
  }

  /** os.Open and reading: of a link that is what it leads to. */
  function Reading(o: Item): Option<Bytes> {
    match o
    case File(_, data) => data
    case Link(ToFile(data)) => data
    case Device(data) => data
    case _ => None
  }

  /** The function that sendDirectory gives to filepath.Walk. More bytes than announced are an error. */
  function PackNode(base: string, n: Node): Option<Entry> {
    match Header(n)
    case None => None
    case Some((kind, size)) =>
      if !n.described then None
      else if n.item.Directory? then
        if n.item.listed then Some(Entry(EntryName(base, n.rel), kind, size, [])) else None
      else
        match Reading(n.item)
        case None => None
        case Some(data) => if |data| > size then None else Some(Entry(EntryName(base, n.rel), kind, size, data))
  }

  /** The archive, in the order of the walk. After an entry with missing bytes no header can be written;
      if it is the last one, nobody notices. */
  function Packed(base: string, tree: seq<Node>): Option<seq<Entry>> {
    if tree == [] then Some([])
    else
      match PackNode(base, tree[0])
      case None => None
      case Some(e) =>
        if |tree| > 1 && |e.content| < e.size then None
        else
          match Packed(base, tree[1..])
          case None => None
          case Some(rest) => Some([e] + rest)
  }

  /** What can be sent whole: readable directories, files with as many bytes as they announce, and
      links to, and devices with, no content at all. */
  predicate Whole(n: Node) {
    && n.described
    && match n.item
       case Directory(listed) => listed
       case File(size, data) => data.Some? && |data.value| == size
       case Link(to) => to == ToFile(Some([]))
       case Device(data) => data == Some([])
       case Socket => false
  }

  /** A file with fewer bytes than it announces. */
  predicate Deficient(n: Node) {
    n.described && n.item.File? && n.item.data.Some? && |n.item.data.value| < n.item.size
  }

  predicate PacksAt(tree: seq<Node>, i: nat)
    requires i < |tree|
  {
    Whole(tree[i]) || (i == |tree| - 1 && Deficient(tree[i]))
  }

  lemma NodePacks(base: string, n: Node)
    ensures PackNode(base, n).Some? <==> Whole(n) || Deficient(n)
    ensures PackNode(base, n).Some? ==>
              var e := PackNode(base, n).value;
              && e.name == EntryName(base, n.rel)
              && (e.kind == Regular <==> n.item.File?) && (e.kind == Dir <==> n.item.Directory?)
              && (Deficient(n) <==> |e.content| < e.size) && (Complete(e) <==> Whole(n))
              && (n.item.File? ==> n.item.data == Some(e.content))
  {
  }

  /** Exactly which directories are sent: every node is whole, except that the last one may be a file
      with missing bytes. */
  lemma {:induction false} PackedExactly(base: string, tree: seq<Node>)
    ensures Packed(base, tree).Some? <==> forall i | 0 <= i < |tree| :: PacksAt(tree, i)
    decreases |tree|
  {
    if tree != [] {
      NodePacks(base, tree[0]);
      PackedExactly(base, tree[1..]);
      forall i | 0 <= i < |tree| - 1 ensures PacksAt(tree[1..], i) <==> PacksAt(tree, i + 1) {
      }
      if PacksAt(tree, 0) && forall i | 0 <= i < |tree| - 1 :: PacksAt(tree[1..], i) {
        forall i | 0 <= i < |tree| ensures PacksAt(tree, i) {
          assert i > 0 ==> PacksAt(tree[1..], i - 1);
        }
      }
    }
  }

  function Behind(entries: seq<Entry>, rest: Option<seq<Entry>>): Option<seq<Entry>> {
    match rest
    case None => None
    case Some(more) => Some(entries + more)
  }

  lemma BehindBoth(entries: seq<Entry>, e: Entry, rest: Option<seq<Entry>>)
    ensures Behind(entries, Behind([e], rest)) == Behind(entries + [e], rest)
  {
    if rest.Some? {
      assert entries + ([e] + rest.value) == entries + [e] + rest.value;
    }
  }

  lemma PackedStep(base: string, tree: seq<Node>, i: nat)
    requires i < |tree|
    ensures var step := PackNode(base, tree[i]);
            Packed(base, tree[i..]) ==
            if step.None? || (i + 1 < |tree| && |step.value.content| < step.value.size) then None
            else Behind([step.value], Packed(base, tree[i + 1..]))
  {
    assert tree[i..][1..] == tree[i + 1..];
  }

  /** The walk as it is written: it stops at the first node that cannot be packed, or, after a file
      with missing bytes, at the next header. */
  method PackDirectory(base: string, tree: seq<Node>) returns (entries: seq<Entry>, ok: bool)
    ensures Packed(base, tree) == if ok then Some(entries) else None
  {
    entries := [];
    var i, missing := 0, false;
    assert tree[0..] == tree;
    BehindNothing(Packed(base, tree));
    while i < |tree|
      invariant 0 <= i <= |tree|
      invariant Packed(base, tree) == if missing && i < |tree| then None else Behind(entries, Packed(base, tree[i..]))
    {
      PackedStep(base, tree, i);
      var step := PackNode(base, tree[i]);
      if step.None? || missing {
        return entries, false;
      }
      BehindBoth(entries, step.value, Packed(base, tree[i + 1..]));
      missing := |step.value.content| < step.value.size;
      entries := entries + [step.value];
      i := i + 1;
    }
    assert tree[i..] == [] && entries + [] == entries;
    ok := true;
  }

  lemma BehindNothing(rest: Option<seq<Entry>>)
    ensures Behind([], rest) == rest
  {
    if rest.Some? {
      assert [] + rest.value == rest.value;
    }
  }

  predicate Tree(tree: seq<Node>) {
    && (forall i | 0 <= i < |tree| :: AllOrdinary(tree[i].rel))
    && (forall i, j | 0 <= i < j < |tree| :: tree[i].rel != tree[j].rel)
  }

  /** Where trees can be sent to, and under which names. */
  predicate Receivable(dest: seq<string>, base: string) {
    AllOrdinary(dest) && dest != [] && Ordinary(base) && !HasPrefix(base, "..")
  }

  function Place(dest: seq<string>, base: string, rel: seq<string>): string { DirPath(dest + ([base] + rel)) }

  function WithNode(dest: seq<string>, base: string, n: Node, fs: Files): Files {
    var path := Place(dest, base, n.rel);
    if n.item.File? && n.item.data.Some? then Files(fs.data[path := n.item.data.value], fs.dirs + {Parent(path)})
    else if n.item.Directory? then fs.(dirs := fs.dirs + {path})
    else fs
  }

  lemma UnpackFirst(dest: seq<string>, base: string, tree: seq<Node>, fs: Files)
    requires Receivable(dest, base) && Tree(tree) && tree != [] && Packed(base, tree).Some?
    ensures Packed(base, tree[1..]).Some? && (|tree| > 1 ==> Whole(tree[0]))
    ensures Extracted(dest, Packed(base, tree).value, fs) ==
            if Whole(tree[0])
            then Extracted(dest, Packed(base, tree[1..]).value, WithNode(dest, base, tree[0], fs))
            else (WithNode(dest, base, tree[0], fs), false)
  {
    NodePacks(base, tree[0]);
    TreeArrives(dest, base, tree[0].rel);
    assert Packed(base, tree).value[1..] == Packed(base, tree[1..]).value;
  }

  predicate SameAt(path: string, a: Files, b: Files) {
    (path in a.data <==> path in b.data) && (path in b.data ==> a.data[path] == b.data[path])
  }

  /** Unpacking leaves every other path alone, and removes no directory. */
  lemma {:induction false} UnpackingKeeps(dest: seq<string>, base: string, tree: seq<Node>, fs: Files, path: string)
    requires Receivable(dest, base) && Tree(tree) && Packed(base, tree).Some?
    requires forall i | 0 <= i < |tree| && tree[i].item.File? :: Place(dest, base, tree[i].rel) != path
    ensures SameAt(path, Extracted(dest, Packed(base, tree).value, fs).0, fs)
    decreases |tree|
  {
    if tree != [] {
      UnpackFirst(dest, base, tree, fs);
      if Whole(tree[0]) {
        UnpackingKeeps(dest, base, tree[1..], WithNode(dest, base, tree[0], fs), path);
      }
    }
  }

  lemma PlacesAreDistinct(dest: seq<string>, base: string, tree: seq<Node>, i: nat, j: nat)
    requires Receivable(dest, base) && Tree(tree) && i < j < |tree|
    ensures Place(dest, base, tree[i].rel) != Place(dest, base, tree[j].rel)
  {
    TreeArrives(dest, base, tree[i].rel);
    TreeArrives(dest, base, tree[j].rel);
    if Place(dest, base, tree[i].rel) == Place(dest, base, tree[j].rel) {
      TargetsAreDistinct(dest, base, tree[i].rel, tree[j].rel);
    }
  }

  /** A regular file is at its place, with what was read of it, and a directory has been made. */
  predicate Arrived(dest: seq<string>, base: string, n: Node, fs: Files) {
    var p := Place(dest, base, n.rel);
    && (n.item.File? ==> p in fs.data && n.item.data == Some(fs.data[p]))
    && (n.item.Directory? ==> p in fs.dirs)
  }

  lemma {:induction false} DirsStay(dest: seq<string>, entries: seq<Entry>, fs: Files)
    ensures fs.dirs <= Extracted(dest, entries, fs).0.dirs
    decreases |entries|
  {
    if entries != [] && Good(dest, entries[0]) {
      DirsStay(dest, entries[1..], Write(dest, entries[0], fs));
    }
  }

  lemma {:induction false} TreeRoundTrips(dest: seq<string>, base: string, tree: seq<Node>, fs: Files)
    requires Receivable(dest, base) && Tree(tree) && Packed(base, tree).Some?
    ensures var (result, ok) := Extracted(dest, Packed(base, tree).value, fs);
            && (ok <==> forall i | 0 <= i < |tree| :: Whole(tree[i]))
            && forall i | 0 <= i < |tree| :: Arrived(dest, base, tree[i], result)
    decreases |tree|
  {
    if tree != [] {
      NodePacks(base, tree[0]);
      UnpackFirst(dest, base, tree, fs);
      if Whole(tree[0]) {
        FirstArrives(dest, base, tree, fs);
        TreeRoundTrips(dest, base, tree[1..], WithNode(dest, base, tree[0], fs));
        forall i | 0 < i < |tree| ensures tree[i] == tree[1..][i - 1] {
        }
      }
    }
  }

  /** What comes later does not overwrite the first file. */
  lemma FirstArrives(dest: seq<string>, base: string, tree: seq<Node>, fs: Files)
    requires Receivable(dest, base) && Tree(tree) && tree != [] && Packed(base, tree).Some? && Whole(tree[0])
    ensures Arrived(dest, base, tree[0], Extracted(dest, Packed(base, tree).value, fs).0)
  {
    var n := tree[0];
    var next := WithNode(dest, base, n, fs);
    UnpackFirst(dest, base, tree, fs);
    DirsStay(dest, Packed(base, tree[1..]).value, next);
    if n.item.File? {
      forall j | 0 <= j < |tree| - 1 ensures Place(dest, base, tree[1..][j].rel) != Place(dest, base, n.rel) {
        PlacesAreDistinct(dest, base, tree, 0, j + 1);
      }
      UnpackingKeeps(dest, base, tree[1..], next, Place(dest, base, n.rel));
    }
  }

  /** Sending a directory and extracting it. It is sent exactly if every node is whole, but for missing
      bytes in a last file, and then every directory has been made and every regular file has what was
      read of it, at its own place below destination/base, no other file has changed, and the
      extraction succeeds exactly if no byte was missing. */
  lemma DirectoryRoundTrips(dest: seq<string>, base: string, tree: seq<Node>, fs: Files)
    requires Receivable(dest, base) && Tree(tree)
    ensures Packed(base, tree).Some? <==> forall i | 0 <= i < |tree| :: PacksAt(tree, i)
    ensures Packed(base, tree).Some? ==>
              var (result, ok) := Extracted(dest, Packed(base, tree).value, fs);
              && (ok <==> forall i | 0 <= i < |tree| :: Whole(tree[i]))
              && (forall i | 0 <= i < |tree| :: Arrived(dest, base, tree[i], result))
              && (forall p |
                    forall i | 0 <= i < |tree| && tree[i].item.File? :: Place(dest, base, tree[i].rel) != p ::
                    SameAt(p, result, fs))
  {
    PackedExactly(base, tree);
    if Packed(base, tree).Some? {
      TreeRoundTrips(dest, base, tree, fs);
      forall p | forall i | 0 <= i < |tree| && tree[i].item.File? :: Place(dest, base, tree[i].rel) != p
        ensures SameAt(p, Extracted(dest, Packed(base, tree).value, fs).0, fs)
      {
        UnpackingKeeps(dest, base, tree, fs, p);
      }
    }
  }

  /** A source that is itself a link to a directory is walked as that link: it is never sent. */
  lemma LinkedRootIsRefused(base: string, tree: seq<Node>)
    requires tree != [] && tree[0].item == Link(ToDirectory)
    ensures Packed(base, tree) == None
  {
    PackedExactly(base, tree);
    assert !PacksAt(tree, 0);
  }

  /** A last file with missing bytes is sent, without an error on the sender's side, and always refused. */
  lemma MissingBytesGoUnnoticed(dest: seq<string>, base: string, tree: seq<Node>, fs: Files)
    requires Receivable(dest, base) && Tree(tree) && tree != [] && Deficient(tree[|tree| - 1])
    requires forall i | 0 <= i < |tree| - 1 :: Whole(tree[i])
    ensures Packed(base, tree).Some? && !Extracted(dest, Packed(base, tree).value, fs).1
  {
    DirectoryRoundTrips(dest, base, tree, fs);
    assert !Whole(tree[|tree| - 1]);
  }
}
