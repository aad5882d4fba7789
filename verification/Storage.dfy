/** The receiver's disk: temporary files, resume state files and destination
    files, with the file operations of internal/transfer/p2p.go. */
module Storage {
  import opened Protocol
  import Paths
  import Archive
  import Extraction

  /** What saveResumeState writes. A temporary file's path is a number. */
  datatype ResumeState = ResumeState(fileId: string, name: string, size: int, nextIndex: int, temp: nat) {
    function ByteOffset(): int { nextIndex * FILE_CHUNK_SIZE }
  }

  /** A state file is torn when a write to it was cut: it does not parse. */
  datatype StateFile = Torn | Readable(rec: ResumeState)

  /** What gunzip and untar make of a file: entries, and then the end of the archive or an error. */
  datatype Tarball = Tarball(entries: seq<Extraction.Entry>, intact: bool)

  /** `nextTemp` is above every temporary name in use or mentioned by a state file; `dest` are files by
      their absolute paths and `dirs` directories; `dir` is the destination directory, and `tarballs`
      is what its bytes say of each file that is a tarball. */
  datatype Disk = Disk(
    temps: map<nat, Bytes>,
    states: map<string, StateFile>,
    dest: map<string, Bytes>,
    dirs: set<string>,
    nextTemp: nat,
    dir: seq<string>,
    tarballs: map<Bytes, Tarball>)

  /** filepath.Join(destDir, filepath.Base(name)). */
  function SavePath(d: Disk, name: string): string { Paths.JoinPaths(Archive.DirPath(d.dir), Paths.Base(name)) }

  function Untar(d: Disk, data: Bytes): Tarball {
    if data in d.tarballs then d.tarballs[data] else Tarball([], false)
  }

  predicate Extractable(d: Disk, data: Bytes) {
    Untar(d, data).intact && Extraction.AllGood(d.dir, Untar(d, data).entries)
  }

  /** extractTarGz. When a write fails, only the first `part` entries have been carried out. */
  function Extract(d: Disk, data: Bytes, io: Io): Disk {
    var all := Untar(d, data).entries;
    var entries := if io.Works? then all else all[..Min(io.part, |all|)];
    var fs := Extraction.Extracted(d.dir, entries, Extraction.Files(d.dest, d.dirs)).0;
    d.(dest := fs.data, dirs := fs.dirs)
  }

  predicate SameWorld(d: Disk, e: Disk) { d.dir == e.dir && d.tarballs == e.tarballs }

  /** One operation's outcome; `part` says how far a failing one got. */
  datatype Io = Works | Fails(part: nat)

  function Min(a: int, b: int): int { if a < b then a else b }

  function Zeros(n: nat): (z: Bytes)
    ensures |z| == n
  {
    seq(n, _ => 0 as byte)
  }

  /** ftruncate: cuts, or pads with zeros. */
  function Resize(data: Bytes, n: nat): (r: Bytes)
    ensures |r| == n
    ensures r[..Min(n, |data|)] == data[..Min(n, |data|)]
  {
    if n <= |data| then data[..n] else data + Zeros(n - |data|)
  }

  /** What is added is zeros. */
  lemma {:induction false} ResizePads(data: Bytes, n: nat, i: nat)
    requires i < n
    ensures Resize(data, n)[i] == if i < |data| then data[i] else 0
  {
  }

  /** A write of `chunk` at file position `pos`. */
  function WriteAt(data: Bytes, pos: nat, chunk: Bytes): Bytes {
    var room := Resize(data, if pos + |chunk| < |data| then |data| else pos + |chunk|);
    room[..pos] + chunk + room[pos + |chunk|..]
  }

  lemma WriteAtEnd(data: Bytes, chunk: Bytes)
    ensures WriteAt(data, |data|, chunk) == data + chunk
  {
  }

  /** loadResumeState: an absent or unparsable file is no state. */
  function LoadState(d: Disk, id: string): Option<ResumeState> {
    if id in d.states && d.states[id].Readable? then Some(d.states[id].rec) else None
  }

  /** saveResumeState, whose errors are ignored: a failing save leaves the old
      file (0) or a torn one. */
  function SaveState(d: Disk, rec: ResumeState, io: Io): Disk {
    match io
    case Works => d.(states := d.states[rec.fileId := Readable(rec)])
    case Fails(part) => if part == 0 then d else d.(states := d.states[rec.fileId := Torn])
  }

  function SetTemp(d: Disk, t: nat, data: Bytes): Disk {
    d.(temps := d.temps[t := data])
  }

  function RemoveTemp(d: Disk, t: nat): Disk {
    d.(temps := d.temps - {t})
  }

  function CreateTemp(d: Disk): Disk {
    d.(temps := d.temps[d.nextTemp := []], nextTemp := d.nextTemp + 1)
  }

  /** CreateTemp never hands out a name that exists or that a state file mentions. */
  predicate FreshOk(d: Disk) {
    && (forall t <- d.temps :: t < d.nextTemp)
    && (forall id <- d.states :: d.states[id].Readable? ==> d.states[id].rec.temp < d.nextTemp)
  }
}
