/** The messages of a session (internal/protocol/message.go).

    A checksum is the hexadecimal SHA-256 of what was hashed; it is idealised
    as the hashed bytes themselves under a constructor, so that two checksums are
    equal exactly when the hashed bytes are.
  */
module Protocol {
  newtype byte = x: int | 0 <= x < 256
  type Bytes = seq<byte>

  const FILE_CHUNK_SIZE: nat := 32 * 1024

  datatype Option<+T> = None | Some(value: T)

  datatype Checksum = NoSum | Sum(hashed: Bytes)

  datatype Kind =
    | FileStart | FileChunk | FileComplete | FileChecksum | FileResume | Ready
    | Unknown(name: string)

  datatype Message = Message(
    kind: Kind,
    fileId: string,
    name: string,
    size: int,
    index: int,
    chunk: Bytes,
    checksum: Checksum,
    resume: bool,
    offset: int)

  /** ValidateMessage: what both EncodeMessage and DecodeMessage insist on. */
  predicate Valid(m: Message) {
    match m.kind
    case FileStart => m.fileId != "" && m.name != "" && m.size >= -1
    case FileChunk => m.fileId != "" && m.index >= 0
    case FileComplete => m.fileId != ""
    case FileChecksum => m.fileId != "" && m.checksum != NoSum
    case FileResume => m.fileId != "" && m.offset >= 0
    case Ready => true
    case Unknown(_) => false
  }

  const BLANK := Message(Ready, "", "", 0, 0, [], NoSum, false, 0)

  function StartMsg(id: string, name: string, size: int, resume: bool): Message {
    BLANK.(kind := FileStart, fileId := id, name := name, size := size, resume := resume)
  }

  function ChunkMsg(id: string, index: int, data: Bytes): Message {
    BLANK.(kind := FileChunk, fileId := id, index := index, chunk := data)
  }

  function CompleteMsg(id: string): Message {
    BLANK.(kind := FileComplete, fileId := id)
  }

  function ChecksumMsg(id: string, sum: Checksum): Message {
    BLANK.(kind := FileChecksum, fileId := id, checksum := sum)
  }

  function ResumeMsg(id: string, offset: int): Message {
    BLANK.(kind := FileResume, fileId := id, offset := offset)
  }

  const READY := BLANK
}
