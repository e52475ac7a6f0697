/**
 * The local file system as a map from paths to entries, and the three
 * java.nio.file.Files operations the persister calls.  Each operation either
 * succeeds completely or fails leaving every entry as it was.
 */
module Files {
  import opened Wrappers
  import opened Json
  import opened Paths

  datatype Node = File(content: seq<byte>) | Dir

  type FsMap = map<Path, Node>

  /** One call into the file system. */
  datatype FsOp =
    | CreateDirectories(dir: Path)
    | WriteFile(path: Path, content: seq<byte>)
    | MoveReplace(source: Path, destination: Path)

  function Lookup(fs: FsMap, p: Path): Option<Node> {
    if p in fs then Some(fs[p]) else None
  }

  /** Files.isDirectory; the root and the working directory (the empty path) always exist. */
  predicate IsDirectory(fs: FsMap, p: Path) {
    p.names == [] || Lookup(fs, p) == Some(Dir)
  }

  predicate IsFile(fs: FsMap, p: Path) {
    p in fs && fs[p].File?
  }

  /** `p` and the paths of all its ancestors below the root. */
  function Ancestors(p: Path): set<Path> {
    set k | 1 <= k <= |p.names| :: Path(p.absolute, p.names[..k])
  }

  /** Files.createDirectories fails when a regular file takes the place of `p` or an ancestor. */
  predicate CanCreateDirectories(fs: FsMap, p: Path) {
    forall q :: q in Ancestors(p) ==> !IsFile(fs, q)
  }

  /** The entries after a successful createDirectories: every missing ancestor is a directory. */
  function CreateDirectoriesResult(fs: FsMap, p: Path): (fs': FsMap)
    requires CanCreateDirectories(fs, p)
    ensures IsDirectory(fs', p)
    ensures forall q :: q !in Ancestors(p) ==> Lookup(fs', q) == Lookup(fs, q)
    ensures forall q :: q in Ancestors(p) ==> Lookup(fs', q) == Some(Dir)
  {
    assert p.names != [] ==> p == Path(p.absolute, p.names[..|p.names|]);
    fs + map q | q in Ancestors(p) :: Dir
  }

  /** The directory a new entry at `p` goes into exists. */
  predicate ParentIsDirectory(fs: FsMap, p: Path) {
    match Parent(p)
    case None => true
    case Some(d) => IsDirectory(fs, d)
  }

  /** Files.write creates or truncates a regular file in an existing directory. */
  predicate CanWrite(fs: FsMap, p: Path) {
    p.names != [] && Lookup(fs, p) != Some(Dir) && ParentIsDirectory(fs, p)
  }

  /**
   * Files.move with ATOMIC_MOVE, i.e. rename(2): the source must be a regular
   * file; an existing regular file at the destination is replaced, a
   * directory there makes the move fail.
   */
  predicate CanMove(fs: FsMap, source: Path, destination: Path) {
    IsFile(fs, source) && destination.names != [] && Lookup(fs, destination) != Some(Dir)
    && ParentIsDirectory(fs, destination)
  }

  /** The entries after a move: one map update, the source gone, the destination its content. */
  function MoveResult(fs: FsMap, source: Path, destination: Path): (fs': FsMap)
    requires CanMove(fs, source, destination)
    ensures Lookup(fs', destination) == Some(fs[source])
    ensures source != destination ==> source !in fs'
    ensures forall q :: q != source && q != destination ==> Lookup(fs', q) == Lookup(fs, q)
  {
    (fs - {source})[destination := fs[source]]
  }

  /** The file system the persister works on; `ops` records the calls made on it. */
  class FileSystem {
    var entries: FsMap
    ghost var ops: seq<FsOp>

    constructor (initial: FsMap)
      ensures entries == initial && ops == []
    {
      entries := initial;
      ops := [];
    }

    method IsDirectoryAt(p: Path) returns (b: bool)
      ensures b == IsDirectory(entries, p)
    {
      b := p.names == [] || (p in entries && entries[p] == Dir);
    }

    method CreateDirectoriesAt(p: Path) returns (ok: bool)
      modifies this
      ensures ok == CanCreateDirectories(old(entries), p)
      ensures entries == if ok then CreateDirectoriesResult(old(entries), p) else old(entries)
      ensures ops == old(ops) + [CreateDirectories(p)]
    {
      ok := forall q | q in Ancestors(p) :: !IsFile(entries, q);
      if ok {
        entries := CreateDirectoriesResult(entries, p);
      }
      ops := ops + [CreateDirectories(p)];
    }

    method Write(p: Path, content: seq<byte>) returns (ok: bool)
      modifies this
      ensures ok == CanWrite(old(entries), p)
      ensures entries == if ok then old(entries)[p := File(content)] else old(entries)
      ensures ops == old(ops) + [WriteFile(p, content)]
    {
      ok := CanWrite(entries, p);
      if ok {
        entries := entries[p := File(content)];
      }
      ops := ops + [WriteFile(p, content)];
    }

    method Move(source: Path, destination: Path) returns (ok: bool)
      modifies this
      ensures ok == CanMove(old(entries), source, destination)
      ensures entries == if ok then MoveResult(old(entries), source, destination) else old(entries)
      ensures ops == old(ops) + [MoveReplace(source, destination)]
    {
      ok := CanMove(entries, source, destination);
      if ok {
        entries := MoveResult(entries, source, destination);
      }
      ops := ops + [MoveReplace(source, destination)];
    }
  }
}
