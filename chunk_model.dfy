/**
 * The chunk collection (ChunkModel), replaced by an in-memory sequence of rows.
 * Its two operations follow their names: deleting every chunk of a project, and
 * appending a batch of rows.  A ghost log records the order in which they ran.
 */
module ChunkModel {
  import opened DbSchemes

  /** One write issued against the chunk collection. */
  datatype StoreOp = DeleteByProject(projectId: ObjectId) | InsertMany(records: seq<DataChunk>)

  /** The chunks of project `p`, in store order. */
  function ChunksOf(chunks: seq<DataChunk>, p: ObjectId): (r: seq<DataChunk>)
    ensures |r| <= |chunks|
    ensures forall c :: c in r <==> c in chunks && c.chunkProjectId == p
  {
    if chunks == [] then []
    else (if chunks[0].chunkProjectId == p then [chunks[0]] else []) + ChunksOf(chunks[1..], p)
  }

  /** The chunks of every project other than `p`, in store order. */
  function WithoutProject(chunks: seq<DataChunk>, p: ObjectId): (r: seq<DataChunk>)
    ensures |r| <= |chunks|
    ensures forall c :: c in r <==> c in chunks && c.chunkProjectId != p
  {
    if chunks == [] then []
    else (if chunks[0].chunkProjectId != p then [chunks[0]] else []) + WithoutProject(chunks[1..], p)
  }

  /** Selecting one project distributes over concatenation. */
  lemma {:induction false} ChunksOfAppend(a: seq<DataChunk>, b: seq<DataChunk>, p: ObjectId)
    ensures ChunksOf(a + b, p) == ChunksOf(a, p) + ChunksOf(b, p)
  {
    if a != [] {
      assert (a + b)[1..] == a[1..] + b;
      ChunksOfAppend(a[1..], b, p);
    } else {
      assert a + b == b;
    }
  }

  /** Deleting project `p` leaves every other project's chunks exactly as they were
      and removes all of `p`'s. */
  lemma {:induction false} ChunksOfWithoutProject(chunks: seq<DataChunk>, p: ObjectId, q: ObjectId)
    ensures ChunksOf(WithoutProject(chunks, p), q) == if q == p then [] else ChunksOf(chunks, q)
  {
    if chunks != [] {
      ChunksOfWithoutProject(chunks[1..], p, q);
      var head := if chunks[0].chunkProjectId != p then [chunks[0]] else [];
      ChunksOfAppend(head, WithoutProject(chunks[1..], p), q);
    }
  }

  /** A batch whose rows all belong to `p` contributes nothing to other projects
      and all of itself to `p`. */
  lemma {:induction false} ChunksOfOwnBatch(batch: seq<DataChunk>, p: ObjectId, q: ObjectId)
    requires forall c :: c in batch ==> c.chunkProjectId == p
    ensures ChunksOf(batch, q) == if q == p then batch else []
  {
    if batch != [] {
      assert batch[0] in batch;
      assert forall c :: c in batch[1..] ==> c in batch;
      ChunksOfOwnBatch(batch[1..], p, q);
      assert batch == [batch[0]] + batch[1..];
    }
  }

  class ChunkStore {
    /** The rows of the chunk collection. */
    var chunks: seq<DataChunk>
    /** Every write issued so far, oldest first. */
    ghost var log: seq<StoreOp>

    constructor (initial: seq<DataChunk>)
      ensures chunks == initial && log == []
    {
      chunks := initial;
      log := [];
    }

    /** delete_chunks_by_project_id: removes every chunk of `projectId`, returns how many. */
    method DeleteChunksByProjectId(projectId: ObjectId) returns (deleted: nat)
      modifies this
      ensures chunks == WithoutProject(old(chunks), projectId)
      ensures deleted == |old(chunks)| - |chunks|
      ensures log == old(log) + [DeleteByProject(projectId)]
    {
      var before := |chunks|;
      chunks := WithoutProject(chunks, projectId);
      deleted := before - |chunks|;
      log := log + [DeleteByProject(projectId)];
    }

    /** insert_many_chunks: appends the batch, returns how many rows were inserted. */
    method InsertManyChunks(records: seq<DataChunk>) returns (inserted: nat)
      modifies this
      ensures chunks == old(chunks) + records
      ensures inserted == |records|
      ensures log == old(log) + [InsertMany(records)]
    {
      chunks := chunks + records;
      inserted := |records|;
      log := log + [InsertMany(records)];
    }
  }
}
