/**
 * The semantic memory: a flat vector index and the conversation log, kept
 * as two parallel append-only sequences, plus their two on-disk copies.
 */
module MemoryStore {
  import opened Wrappers
  import opened Faults

  /** Dimension of a freshly created index (the embedding model's output size). */
  const VectorDimension: nat := 1536

  /** An embedding; its float32 components are opaque to this model. */
  type Vector = seq<real>

  /** One conversation turn, as stored in the log and sent to the chat model. */
  datatype Message = Message(role: string, content: string)

  /** A flat (exhaustive) L2 index: its dimension and the vectors in insertion order. */
  datatype FlatIndex = FlatIndex(dimension: nat, vectors: seq<Vector>) {
    /** Number of vectors held; a vector's label is its insertion position. */
    function NTotal(): nat { |vectors| }
  }

  /** The in-memory state: the index and the conversation log. */
  datatype Store = Store(index: FlatIndex, log: seq<Message>)

  /** The two persisted artifacts; `None` when the file does not exist. */
  datatype Disk = Disk(indexFile: Option<FlatIndex>, memoryFile: Option<seq<Message>>)

  /** The process state the memory functions act on: memory and what is on disk. */
  datatype World = World(mem: Store, disk: Disk)

  /** Label `i` of the index and entry `i` of the log describe the same turn. */
  predicate Aligned(s: Store) {
    s.index.NTotal() == |s.log|
  }

  /** Durable storage holds exactly the in-memory state. */
  predicate Persisted(w: World) {
    Load(w.disk) == w.mem
  }

  /** Write both artifacts; each file holds exactly what was in memory. */
  function Save(s: Store): (d: Disk)
    ensures d.indexFile.Some? && d.memoryFile.Some?
    ensures Load(d) == s
  {
    Disk(Some(s.index), Some(s.log))
  }

  /**
   * Start-up load: each artifact is read when its file exists and replaced
   * by a fresh empty value otherwise. The two are loaded independently.
   */
  function Load(d: Disk): (s: Store)
    ensures d.indexFile.Some? ==> s.index == d.indexFile.value
    ensures d.indexFile.None? ==> s.index.dimension == VectorDimension && s.index.NTotal() == 0
    ensures d.memoryFile.Some? ==> s.log == d.memoryFile.value
    ensures d.memoryFile.None? ==> s.log == []
  {
    var index := match d.indexFile
      case Some(ix) => ix
      case None => FlatIndex(VectorDimension, []);
    var log := match d.memoryFile
      case Some(l) => l
      case None => [];
    Store(index, log)
  }

  /**
   * Store one turn: embed `text`, add the vector to the index, append
   * `{role, content: text}` to the log, then persist both. A failing
   * embedding call raises before anything is changed.
   */
  function StoreMessage(w: World, text: string, role: string, embed: string -> Option<Vector>): (r: Result<World, Fault>)
    ensures r.Failure? <==> embed(text).None?
    ensures r.Failure? ==> r.error == EmbeddingFailed
    ensures r.Success? ==> r.value.mem.index.vectors == w.mem.index.vectors + [embed(text).value]
    ensures r.Success? ==> r.value.mem.index.dimension == w.mem.index.dimension
    ensures r.Success? ==> r.value.mem.log == w.mem.log + [Message(role, text)]
    ensures r.Success? ==> Persisted(r.value)
    ensures r.Success? && Aligned(w.mem) ==> Aligned(r.value.mem)
  {
    match embed(text)
    case None => Failure(EmbeddingFailed)
    case Some(v) =>
      var mem := Store(FlatIndex(w.mem.index.dimension, w.mem.index.vectors + [v]),
                       w.mem.log + [Message(role, text)]);
      Success(World(mem, Save(mem)))
  }

  /** A freshly saved state loads back unchanged. */
  lemma LoadSaveRoundTrip(s: Store)
    ensures Load(Save(s)) == s
  {
  }

  /** Loading does not compare the two artifacts: an index file without a log file loads misaligned. */
  lemma LoadAcceptsMismatchedArtifacts(ix: FlatIndex)
    requires ix.NTotal() > 0
    ensures !Aligned(Load(Disk(Some(ix), None)))
  {
  }
}
