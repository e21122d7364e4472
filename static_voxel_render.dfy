/**
 * The mesh system of the voxel store (src/map/render/static_voxel_render.rs).
 * `From<&Chunk> for Mesh` builds the same culled mesh as the mesher module,
 * and `update_mesh` rebuilds the mesh of every chunk whose `is_updated` flag
 * is set, clearing the flag.
 */
module StaticVoxelRender {

  import opened VoxelChunk
  import opened CulledMesher

  /** The `Mesh3d` component of a chunk entity: the mesh currently shown for it. */
  class MeshHandle {
    var mesh: Mesh

    constructor (mesh: Mesh)
      ensures this.mesh == mesh
    {
      this.mesh := mesh;
    }
  }

  /**
   * `From<&Chunk> for Mesh`: the culled mesh of the chunk. Its loop is the
   * one of `create_mesh_culled`, so it is that method here. The chunk is
   * only read.
   */
  method MeshFromChunk(chunk: Chunk) returns (mesh: Mesh)
    requires chunk.Valid()
    ensures mesh == MeshOf(Faces(chunk.blocks[..], SIZE))
  {
    mesh := CreateMeshCulled(chunk);
  }

  /** The chunks and handles of a query: one entity each, so no chunk and no handle appears twice. */
  ghost predicate Entities(query: seq<(Chunk, MeshHandle)>)
    reads set j | 0 <= j < |query| :: query[j].0
  {
    (forall j :: 0 <= j < |query| ==> query[j].0.Valid()) &&
    (forall j, k :: 0 <= j < k < |query| ==> query[j].0 != query[k].0 && query[j].1 != query[k].1)
  }

  /** What `update_mesh` leaves behind for one entity, given its flag and mesh before the pass: the flag is always clear. */
  ghost predicate Refreshed(chunk: Chunk, handle: MeshHandle, wasUpdated: bool, oldMesh: Mesh)
    reads chunk, chunk.blocks, handle
    requires chunk.Valid()
  {
    !chunk.isUpdated && handle.mesh == if wasUpdated then MeshOf(Faces(chunk.blocks[..], SIZE)) else oldMesh
  }

  /**
   * `update_mesh`: a chunk whose flag is clear keeps its mesh; a chunk
   * whose flag is set gets the flag cleared and a mesh rebuilt from its
   * cells. Cells and block counters are untouched.
   */
  method UpdateMesh(query: seq<(Chunk, MeshHandle)>)
    requires Entities(query)
    modifies set j | 0 <= j < |query| :: query[j].0
    modifies set j | 0 <= j < |query| :: query[j].1
    ensures forall j :: 0 <= j < |query| ==> query[j].0.Valid()
    ensures forall j :: 0 <= j < |query| ==>
      Refreshed(query[j].0, query[j].1, old(query[j].0.isUpdated), old(query[j].1.mesh))
    ensures forall j :: 0 <= j < |query| ==> query[j].0.amountOfBlocks == old(query[j].0.amountOfBlocks)
  {
    var i := 0;
    while i < |query|
      invariant i <= |query|
      invariant forall j :: 0 <= j < |query| ==> query[j].0.Valid()
      invariant forall j :: 0 <= j < i ==>
        Refreshed(query[j].0, query[j].1, old(query[j].0.isUpdated), old(query[j].1.mesh))
      invariant forall j :: i <= j < |query| ==>
        query[j].0.isUpdated == old(query[j].0.isUpdated) && query[j].1.mesh == old(query[j].1.mesh)
      invariant forall j :: 0 <= j < |query| ==> query[j].0.amountOfBlocks == old(query[j].0.amountOfBlocks)
    {
      var (chunk, handle) := query[i];
      RefreshEntity(chunk, handle);
      i := i + 1;
    }
  }

  /** The body of `update_mesh` for one entity. */
  method RefreshEntity(chunk: Chunk, handle: MeshHandle)
    requires chunk.Valid()
    modifies chunk`isUpdated, handle
    ensures chunk.Valid()
    ensures Refreshed(chunk, handle, old(chunk.isUpdated), old(handle.mesh))
  {
    if !chunk.isUpdated {
      return;
    }
    chunk.isUpdated := false;
    handle.mesh := MeshFromChunk(chunk);
  }
}
