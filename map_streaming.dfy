/**
 * The chunk systems of the generator plugin (src/map/mod.rs): the visible
 * columns around a camera, the first missing column each camera spawns,
 * and the despawn test on three-axis chunk coordinates.
 *
 * Camera positions are floats: each camera enters as the chunk column it
 * stands in (for spawning) or the rounded column (for despawning).
 */
module MapStreaming {

  import opened Streaming
  import ChunkCoords

  const VISIBLE_CHUNKS_DISTANCE: nat := 10
  const CHUNKS_CUT_DISTANCE: nat := 0

  /** `get_visible_chunks` with radius 10 and no cut: the 21 x 21 square around the camera's column, x-major. */
  method GetVisibleChunks(chX: int, chZ: int) returns (result: seq<Column>)
    ensures forall p :: p in result <==> Within(p, chX, chZ, VISIBLE_CHUNKS_DISTANCE)
    ensures |result| == 441
    ensures Ordered(result)
  {
    result := VisibleChunks(chX, chZ, VISIBLE_CHUNKS_DISTANCE, CHUNKS_CUT_DISTANCE);
    forall p
      ensures p in result <==> Within(p, chX, chZ, VISIBLE_CHUNKS_DISTANCE)
    {
      VisibleMembership(chX, chZ, VISIBLE_CHUNKS_DISTANCE, CHUNKS_CUT_DISTANCE, p);
    }
    VisibleShape(chX, chZ, VISIBLE_CHUNKS_DISTANCE, CHUNKS_CUT_DISTANCE);
  }

  /** The (x, z) columns of the existing chunks; their y plays no part in the spawner's match. */
  function Columns(query: seq<ChunkCoords.ChunkCoordinates>): (cols: seq<Column>)
    ensures |cols| == |query|
    ensures forall i :: 0 <= i < |query| ==> cols[i] == (query[i].x, query[i].z)
  {
    seq(|query|, i requires 0 <= i < |query| => (query[i].x, query[i].z))
  }

  /**
   * `chunk_spawner`: each camera, in order, spawns the first visible
   * column with no chunk on it; the pass ends at the first camera with
   * nothing missing.
   */
  method ChunkSpawnerPass(cameras: seq<Column>, query: seq<ChunkCoords.ChunkCoordinates>) returns (spawned: seq<Column>)
    ensures spawned == SpawnPlan(cameras, Columns(query), VISIBLE_CHUNKS_DISTANCE, CHUNKS_CUT_DISTANCE)
    ensures |spawned| <= |cameras|
    ensures forall k :: 0 <= k < |spawned| ==>
      Within(spawned[k], cameras[k].0, cameras[k].1, VISIBLE_CHUNKS_DISTANCE) &&
      forall c :: c in query ==> (c.x, c.z) != spawned[k]
  {
    spawned := ChunkSpawner(cameras, Columns(query), VISIBLE_CHUNKS_DISTANCE, CHUNKS_CUT_DISTANCE);
    SpawnPlanCameras(cameras, Columns(query), VISIBLE_CHUNKS_DISTANCE, CHUNKS_CUT_DISTANCE);
    forall k | 0 <= k < |spawned|
      ensures Within(spawned[k], cameras[k].0, cameras[k].1, VISIBLE_CHUNKS_DISTANCE)
      ensures forall c :: c in query ==> (c.x, c.z) != spawned[k]
    {
      SpawnPlanSpawnsMissing(cameras, Columns(query), VISIBLE_CHUNKS_DISTANCE, CHUNKS_CUT_DISTANCE, k);
      VisibleMembership(cameras[k].0, cameras[k].1, VISIBLE_CHUNKS_DISTANCE, CHUNKS_CUT_DISTANCE, spawned[k]);
      forall c | c in query
        ensures (c.x, c.z) != spawned[k]
      {
        var i :| 0 <= i < |query| && query[i] == c;
        assert Columns(query)[i] == (c.x, c.z);
      }
    }
  }

  /** The despawn test of `chunk_despawner` against the rounded camera column (px, pz). */
  predicate ShouldDespawn(coords: ChunkCoords.ChunkCoordinates, px: int, pz: int) {
    ChunkCoords.Distance(coords, px, pz) > VISIBLE_CHUNKS_DISTANCE * 3 ||
    ChunkCoords.Distance(coords, px, pz) < CHUNKS_CUT_DISTANCE
  }

  /**
   * With no cut the test is Manhattan distance above 30, whatever the
   * chunk's y; a chunk on a column visible from the same camera column is
   * never despawned.
   */
  lemma DespawnRule(coords: ChunkCoords.ChunkCoordinates, px: int, pz: int)
    ensures ShouldDespawn(coords, px, pz) <==> ChunkCoords.Distance(coords, px, pz) > 30
    ensures (coords.x, coords.z) in VisibleSpec(px, pz, VISIBLE_CHUNKS_DISTANCE, CHUNKS_CUT_DISTANCE) ==> !ShouldDespawn(coords, px, pz)
  {
    if (coords.x, coords.z) in VisibleSpec(px, pz, VISIBLE_CHUNKS_DISTANCE, CHUNKS_CUT_DISTANCE) {
      VisibleManhattan(px, pz, VISIBLE_CHUNKS_DISTANCE, CHUNKS_CUT_DISTANCE, (coords.x, coords.z));
    }
  }

  /** `chunk_despawner`: the chunks despawned around the fold of the camera columns (see `LastCamera`). */
  method ChunkDespawner(cameras: seq<Column>, query: seq<ChunkCoords.ChunkCoordinates>)
    returns (despawned: seq<ChunkCoords.ChunkCoordinates>)
    ensures forall c :: c in despawned <==> c in query && ShouldDespawn(c, FoldLatest((0, 0), cameras).0, FoldLatest((0, 0), cameras).1)
    ensures |despawned| <= |query|
  {
    var (px, pz) := FoldLatest((0, 0), cameras);
    despawned := [];
    var i := 0;
    while i < |query|
      invariant i <= |query| && |despawned| <= i
      invariant forall c :: c in despawned <==> c in query[..i] && ShouldDespawn(c, px, pz)
    {
      assert query[..i + 1] == query[..i] + [query[i]];
      if ShouldDespawn(query[i], px, pz) {
        despawned := despawned + [query[i]];
      }
      i := i + 1;
    }
    assert query[..i] == query;
  }
}
