/** The chunk store behind the document index (internal/vectorstore), reduced to
    the atomic calls the indexer makes. Each call either takes effect, fails
    without effect, or never happens because the process was cut off first. */
module VectorIndex {

  type Path = string

  /** "%s-%d" of a relative path and a position; printing it is injective. */
  datatype ChunkId = ChunkId(path: Path, index: nat)

  /** Whose embedding a chunk carries: none, or the named model's. */
  datatype Vector = Absent | Of(model: string)

  /** A stored chunk; its document path is that of its id. */
  datatype Chunk = Chunk(content: string, title: string, lastModified: int, vector: Vector)

  datatype FileInfo = FileInfo(hash: string, modTime: int, size: nat, chunkCount: nat)

  datatype Phase = Unset | Dirty | Ready

  datatype Meta = Meta(phase: Phase, model: string, chunker: string, root: string, keywordOnly: bool)

  type Chunks = map<ChunkId, Chunk>
  type Files = map<Path, FileInfo>

  datatype State = State(chunks: Chunks, files: Files, meta: Meta)

  datatype Status = Ok | Failed | Interrupted

  function Without(chunks: Chunks, path: Path): Chunks {
    map id | id in chunks && id.path != path :: chunks[id]
  }

  predicate Expected(files: Files, id: ChunkId) {
    id.path in files && id.index < files[id.path].chunkCount
  }

  /** CleanOrphans: drops chunks that no tracked file accounts for, but does
      nothing at all when no file is tracked. */
  function Cleaned(s: State): State {
    if |s.files| == 0 then s
    else s.(chunks := map id | id in s.chunks && Expected(s.files, id) :: s.chunks[id])
  }

  method Attempt() returns (status: Status) {
    if {
      case true => status := Ok;
      case true => status := Failed;
      case true => status := Interrupted;
    }
  }

  class VectorStore {
    var chunks: Chunks
    var files: Files
    var meta: Meta

    ghost function Now(): State
      reads this
    {
      State(chunks, files, meta)
    }

    constructor ()
      ensures Now() == State(map[], map[], Meta(Unset, "", "", "", false))
    {
      chunks, files, meta := map[], map[], Meta(Unset, "", "", "", false);
    }

    method Upsert(batch: Chunks) returns (status: Status)
      modifies this
      ensures Now() == if status.Ok? then old(Now()).(chunks := old(chunks) + batch) else old(Now())
    {
      status := Attempt();
      if status.Ok? {
        chunks := chunks + batch;
      }
    }

    method DeleteByDocPath(path: Path) returns (status: Status)
      modifies this
      ensures Now() == if status.Ok? then old(Now()).(chunks := Without(old(chunks), path)) else old(Now())
    {
      status := Attempt();
      if status.Ok? {
        chunks := map id | id in chunks && id.path != path :: chunks[id];
      }
    }

    method ChunksByDocPath(path: Path) returns (status: Status, found: Chunks)
      ensures found == map id | id in chunks && id.path == path :: chunks[id]
    {
      status := Attempt();
      found := map id | id in chunks && id.path == path :: chunks[id];
    }

    method GetAllIndexedFiles() returns (status: Status, found: Files)
      ensures found == if status.Ok? then files else map[]
    {
      status := Attempt();
      found := if status.Ok? then files else map[];
    }

    /** One transaction: metadata, then deletions, then upserts. */
    method CommitIndexState(update: Meta, deletes: set<Path>, upserts: Files) returns (status: Status)
      modifies this
      ensures Now() == if status.Ok? then State(old(chunks), (old(files) - deletes) + upserts, update) else old(Now())
    {
      status := Attempt();
      if status.Ok? {
        meta, files := update, (files - deletes) + upserts;
      }
    }

    method CleanOrphans() returns (status: Status)
      modifies this
      ensures Now() == if status.Ok? then Cleaned(old(Now())) else old(Now())
    {
      status := Attempt();
      if status.Ok? && |files| != 0 {
        chunks := map id | id in chunks && Expected(files, id) :: chunks[id];
      }
    }
  }
}
