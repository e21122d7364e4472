/**
 * The face-culling mesher of the voxel store (src/map/render/culled_chunk_mesher.rs).
 * Every occupied cell contributes one square face per side whose neighbour
 * is not an occupied cell of the same chunk. Each face appends four
 * corner positions, six triangle indices and four colours.
 *
 * Positions are kept in half-voxel units: the float coordinate
 * `v + x * VOXEL_HALF_SIDE * 2.0` with `v = ±0.5` is `(2x ± 1) / 2`, so a
 * corner is the integer `2x ± 1`. A colour is the block type's named colour;
 * the alpha channel is always 1 and is left implicit.
 */
module CulledMesher {

  import opened Wrappers
  import opened Utils
  import opened Counting
  import opened BlockTypes
  import opened VoxelChunk

  /** A mesh vertex position in half-voxel units. */
  datatype Vertex = Vertex(x: int, y: int, z: int)

  /** The three buffers of a triangle-list mesh. */
  datatype Mesh = Mesh(positions: seq<Vertex>, indices: seq<nat>, colors: seq<Color>)

  /** A side of a voxel, as an index into the three side tables. */
  type Side = k: nat | k < 6

  /** One emitted face: the voxel it belongs to, which side, and the block that colours it. */
  datatype Face = Face(pos: BlockPos, side: Side, block: BlockType)

  /** `SIDES_OFFSETS`: TOP, BOTTOM, RIGHT, LEFT, FORWARD, BACKWARD. */
  const SIDES_OFFSETS: seq<(int, int, int)> := [(0, 1, 0), (0, -1, 0), (1, 0, 0), (-1, 0, 0), (0, 0, 1), (0, 0, -1)]

  /** `SIDES_INDICES`: the two triangles of a face, relative to its first corner. */
  const SIDES_INDICES: seq<nat> := [2, 1, 0, 3, 2, 0]

  /** `SIDES_VERTICES` in half-voxel units: every corner coordinate is `±VOXEL_HALF_SIDE`, that is ±1. */
  const SIDES_VERTICES: seq<seq<Vertex>> := [
    [Vertex(1, 1, 1), Vertex(-1, 1, 1), Vertex(-1, 1, -1), Vertex(1, 1, -1)],
    [Vertex(1, -1, -1), Vertex(-1, -1, -1), Vertex(-1, -1, 1), Vertex(1, -1, 1)],
    [Vertex(1, 1, -1), Vertex(1, -1, -1), Vertex(1, -1, 1), Vertex(1, 1, 1)],
    [Vertex(-1, 1, 1), Vertex(-1, -1, 1), Vertex(-1, -1, -1), Vertex(-1, 1, -1)],
    [Vertex(1, -1, 1), Vertex(-1, -1, 1), Vertex(-1, 1, 1), Vertex(1, 1, 1)],
    [Vertex(1, 1, -1), Vertex(-1, 1, -1), Vertex(-1, -1, -1), Vertex(1, -1, -1)]
  ]

  /** Each side's four corners lie in the plane that faces its neighbour, and the six sides are distinct directions. */
  lemma SidesGeometry()
    ensures |SIDES_OFFSETS| == 6 && |SIDES_VERTICES| == 6
    ensures forall k :: 0 <= k < 6 ==> |SIDES_VERTICES[k]| == 4
    ensures forall k, t :: 0 <= k < 6 && 0 <= t < 4 ==>
      (SIDES_OFFSETS[k].0 != 0 ==> SIDES_VERTICES[k][t].x == SIDES_OFFSETS[k].0) &&
      (SIDES_OFFSETS[k].1 != 0 ==> SIDES_VERTICES[k][t].y == SIDES_OFFSETS[k].1) &&
      (SIDES_OFFSETS[k].2 != 0 ==> SIDES_VERTICES[k][t].z == SIDES_OFFSETS[k].2)
    ensures forall k, l :: 0 <= k < l < 6 ==> SIDES_OFFSETS[k] != SIDES_OFFSETS[l]
  {
  }

  /** The cell next to `p` across side `side`; it may lie outside the chunk. */
  function Neighbour(p: BlockPos, side: nat): BlockPos
    requires side < 6
  {
    BlockPos(p.x + SIDES_OFFSETS[side].0, p.y + SIDES_OFFSETS[side].1, p.z + SIDES_OFFSETS[side].2)
  }

  /**
   * The culling rule: a side shows unless the lookup of its neighbour
   * succeeds and finds a block; a neighbour outside the chunk shows it.
   */
  predicate Visible(cells: seq<Voxel>, p: BlockPos, side: nat)
    requires |cells| == SIZE && side < 6
  {
    var lookup := BlockAt(cells, Neighbour(p, side));
    !(lookup.Ok? && lookup.value.Some?)
  }

  /** The faces of the voxel at `p` among its first `k` sides, in side order. */
  function SidesUpTo(cells: seq<Voxel>, p: BlockPos, b: BlockType, k: nat): seq<Face>
    requires |cells| == SIZE && k <= 6
  {
    if k == 0 then []
    else SidesUpTo(cells, p, b, k - 1) + (if Visible(cells, p, k - 1) then [Face(p, k - 1, b)] else [])
  }

  /** The faces one occupied voxel contributes. */
  function VoxelFaces(cells: seq<Voxel>, p: BlockPos, b: BlockType): seq<Face>
    requires |cells| == SIZE
  {
    SidesUpTo(cells, p, b, 6)
  }

  /** The faces of the first `n` cells, in index order: the order of `iter_with_pos`. */
  function Faces(cells: seq<Voxel>, n: nat): seq<Face>
    requires |cells| == SIZE && n <= SIZE
  {
    if n == 0 then []
    else Faces(cells, n - 1) + (if cells[n - 1].Some? then VoxelFaces(cells, FromIndex(n - 1), cells[n - 1].value) else [])
  }

  /** `SIDES_VERTICES[side].map(..)`: a side's corners moved to the voxel at `p`, whose centre is `2p` in half-voxel units. */
  function Translate(corners: seq<Vertex>, p: BlockPos): (r: seq<Vertex>)
    ensures |r| == |corners|
  {
    seq(|corners|, t requires 0 <= t < |corners| => Vertex(corners[t].x + 2 * p.x, corners[t].y + 2 * p.y, corners[t].z + 2 * p.z))
  }

  /** The four corners of a face. */
  function Corners(f: Face): seq<Vertex> {
    Translate(SIDES_VERTICES[f.side], f.pos)
  }

  /** `SIDES_INDICES.map(..)`: the six indices of the `n`-th face, shifted past the corners of the faces before it. */
  function FaceIndices(n: nat): (r: seq<nat>)
    ensures |r| == 6
  {
    seq(6, t requires 0 <= t < 6 => SIDES_INDICES[t] + n * 4)
  }

  /** The buffers a list of faces fills: each face appends 4 positions, 6 indices and 4 colours. */
  function MeshOf(faces: seq<Face>): (m: Mesh)
    ensures |m.positions| == 4 * |faces| && |m.colors| == 4 * |faces| && |m.indices| == 6 * |faces|
  {
    if faces == [] then Mesh([], [], [])
    else
      var m := MeshOf(faces[..|faces| - 1]);
      var f := faces[|faces| - 1];
      Mesh(m.positions + Corners(f), m.indices + FaceIndices(|faces| - 1), m.colors + [f.block.color, f.block.color, f.block.color, f.block.color])
  }

  lemma MeshOfSnoc(faces: seq<Face>, f: Face)
    ensures MeshOf(faces + [f]) ==
      Mesh(MeshOf(faces).positions + Corners(f), MeshOf(faces).indices + FaceIndices(|faces|),
           MeshOf(faces).colors + [f.block.color, f.block.color, f.block.color, f.block.color])
  {
    assert (faces + [f])[..|faces|] == faces;
  }

  /** A voxel contributes at most one face per side. */
  lemma {:induction false} SidesBound(cells: seq<Voxel>, p: BlockPos, b: BlockType, k: nat)
    requires |cells| == SIZE && k <= 6
    ensures |SidesUpTo(cells, p, b, k)| <= k
  {
    if k > 0 {
      SidesBound(cells, p, b, k - 1);
    }
  }

  /**
   * Which faces a voxel contributes: exactly its visible sides below `k`,
   * carrying the voxel's own position and block.
   */
  lemma {:induction false} SidesMembership(cells: seq<Voxel>, p: BlockPos, b: BlockType, k: nat, f: Face)
    requires |cells| == SIZE && k <= 6
    ensures f in SidesUpTo(cells, p, b, k) <==> f.pos == p && f.block == b && f.side < k && Visible(cells, p, f.side)
  {
    if k > 0 {
      SidesMembership(cells, p, b, k - 1, f);
    }
  }

  /**
   * The culling rule over the whole chunk: a face is emitted exactly when
   * its voxel is an occupied cell among the first `n`, the face carries that
   * cell's block, and the neighbour across the side is not an occupied cell
   * of the chunk.
   */
  lemma {:induction false} FacesMembership(cells: seq<Voxel>, n: nat, f: Face)
    requires |cells| == SIZE && n <= SIZE
    ensures f in Faces(cells, n) <==>
      IsValid(f.pos) && ToIndex(f.pos) < n && cells[ToIndex(f.pos)] == Some(f.block) && Visible(cells, f.pos, f.side)
  {
    if n > 0 {
      var i := n - 1;
      FacesMembership(cells, i, f);
      FacesStep(cells, i);
      IndexMatch(i, f.pos);
      if cells[i].Some? {
        SidesMembership(cells, FromIndex(i), cells[i].value, 6, f);
      }
    }
  }

  /** At most six faces per occupied cell. */
  lemma {:induction false} FacesBound(cells: seq<Voxel>, n: nat)
    requires |cells| == SIZE && n <= SIZE
    ensures |Faces(cells, n)| <= 6 * Occupied(cells[..n])
  {
    if n > 0 {
      var i := n - 1;
      FacesBound(cells, i);
      FacesStep(cells, i);
      OccupiedPrefix(cells, n);
      if cells[i].Some? {
        SidesBound(cells, FromIndex(i), cells[i].value, 6);
      }
    }
  }

  /** What the buffers hold: position `j` and colour `j` belong to face `j / 4`, index `j` to face `j / 6`. */
  lemma {:induction false} MeshContents(faces: seq<Face>)
    ensures forall j :: 0 <= j < |MeshOf(faces).positions| ==> MeshOf(faces).positions[j] == Corners(faces[j / 4])[j % 4]
    ensures forall j :: 0 <= j < |MeshOf(faces).colors| ==> MeshOf(faces).colors[j] == faces[j / 4].block.color
    ensures forall j :: 0 <= j < |MeshOf(faces).indices| ==> MeshOf(faces).indices[j] == SIDES_INDICES[j % 6] + 4 * (j / 6)
  {
    if faces != [] {
      var n := |faces| - 1;
      var init := faces[..n];
      MeshContents(init);
      var m := MeshOf(faces);
      forall j | 0 <= j < |m.positions|
        ensures m.positions[j] == Corners(faces[j / 4])[j % 4] && m.colors[j] == faces[j / 4].block.color
      {
        if j < 4 * n {
          assert faces[j / 4] == init[j / 4];
        } else {
          assert j / 4 == n && j % 4 == j - 4 * n;
        }
      }
      forall j | 0 <= j < |m.indices|
        ensures m.indices[j] == SIDES_INDICES[j % 6] + 4 * (j / 6)
      {
        if j >= 6 * n {
          assert j / 6 == n && j % 6 == j - 6 * n;
        }
      }
    }
  }

  /** Every triangle index names one of the positions already emitted. */
  lemma {:induction false} IndicesInRange(faces: seq<Face>)
    ensures forall j :: 0 <= j < |MeshOf(faces).indices| ==> MeshOf(faces).indices[j] < |MeshOf(faces).positions|
  {
    if faces != [] {
      IndicesInRange(faces[..|faces| - 1]);
    }
  }

  /** In a full chunk mesh every index fits the `u32` index buffer, and `current_index * 4` never overflows. */
  lemma ChunkIndicesFitU32(cells: seq<Voxel>)
    requires |cells| == SIZE
    ensures 4 * |Faces(cells, SIZE)| <= 24 * SIZE < 0xffff_ffff
    ensures forall j :: 0 <= j < |MeshOf(Faces(cells, SIZE)).indices| ==> MeshOf(Faces(cells, SIZE)).indices[j] < 24 * SIZE
  {
    FacesBound(cells, SIZE);
    assert cells[..SIZE] == cells;
    OccupiedBound(cells);
    IndicesInRange(Faces(cells, SIZE));
  }

  lemma {:induction false} OccupiedBound(cells: seq<Voxel>)
    ensures Occupied(cells) <= |cells|
  {
    if cells != [] {
      OccupiedBound(cells[..|cells| - 1]);
    }
  }

  /** A voxel whose six neighbours are air or outside the chunk shows all six faces, in side order. */
  lemma IsolatedVoxel(cells: seq<Voxel>, p: BlockPos, b: BlockType)
    requires |cells| == SIZE
    requires forall k :: 0 <= k < 6 ==> !IsValid(Neighbour(p, k)) || cells[ToIndex(Neighbour(p, k))].None?
    ensures VoxelFaces(cells, p, b) == [Face(p, 0, b), Face(p, 1, b), Face(p, 2, b), Face(p, 3, b), Face(p, 4, b), Face(p, 5, b)]
  {
    assert SidesUpTo(cells, p, b, 1) == [Face(p, 0, b)];
    assert SidesUpTo(cells, p, b, 2) == [Face(p, 0, b), Face(p, 1, b)];
    assert SidesUpTo(cells, p, b, 3) == [Face(p, 0, b), Face(p, 1, b), Face(p, 2, b)];
    assert SidesUpTo(cells, p, b, 4) == [Face(p, 0, b), Face(p, 1, b), Face(p, 2, b), Face(p, 3, b)];
    assert SidesUpTo(cells, p, b, 5) == [Face(p, 0, b), Face(p, 1, b), Face(p, 2, b), Face(p, 3, b), Face(p, 4, b)];
  }

  /** A voxel whose six neighbours are all occupied cells of the chunk shows no face. */
  lemma EnclosedVoxel(cells: seq<Voxel>, p: BlockPos, b: BlockType)
    requires |cells| == SIZE
    requires forall k :: 0 <= k < 6 ==> IsValid(Neighbour(p, k)) && cells[ToIndex(Neighbour(p, k))].Some?
    ensures VoxelFaces(cells, p, b) == []
  {
    assert SidesUpTo(cells, p, b, 1) == [];
    assert SidesUpTo(cells, p, b, 2) == [];
    assert SidesUpTo(cells, p, b, 3) == [];
    assert SidesUpTo(cells, p, b, 4) == [];
    assert SidesUpTo(cells, p, b, 5) == [];
  }

  /** A chunk of air meshes to three empty buffers. */
  lemma {:induction false} EmptyChunk(cells: seq<Voxel>, n: nat)
    requires |cells| == SIZE && n <= SIZE
    requires forall i :: 0 <= i < SIZE ==> cells[i].None?
    ensures Faces(cells, n) == []
    ensures MeshOf(Faces(cells, n)) == Mesh([], [], [])
  {
    if n > 0 {
      EmptyChunk(cells, n - 1);
    }
  }

  /**
   * A chunk holding a single block at index `i` meshes it as an isolated
   * voxel: six faces, 24 positions, 36 indices.
   */
  lemma {:induction false} SingleBlockFaces(cells: seq<Voxel>, i: nat, n: nat)
    requires |cells| == SIZE && i < SIZE && n <= SIZE && cells[i].Some?
    requires forall j :: 0 <= j < SIZE && j != i ==> cells[j].None?
    ensures Faces(cells, n) == if n <= i then [] else VoxelFaces(cells, FromIndex(i), cells[i].value)
  {
    if n > 0 {
      SingleBlockFaces(cells, i, n - 1);
    }
  }

  lemma SingleBlockChunk(cells: seq<Voxel>, i: nat)
    requires |cells| == SIZE && i < SIZE && cells[i].Some?
    requires forall j :: 0 <= j < SIZE && j != i ==> cells[j].None?
    ensures |Faces(cells, SIZE)| == 6
    ensures |MeshOf(Faces(cells, SIZE)).positions| == 24 && |MeshOf(Faces(cells, SIZE)).indices| == 36
  {
    SingleBlockFaces(cells, i, SIZE);
    var p := FromIndex(i);
    ToFromIndex(i);
    forall k | 0 <= k < 6
      ensures !IsValid(Neighbour(p, k)) || cells[ToIndex(Neighbour(p, k))].None?
    {
      if IsValid(Neighbour(p, k)) {
        FromToIndex(Neighbour(p, k));
      }
    }
    IsolatedVoxel(cells, p, cells[i].value);
  }

  /** One more side of a voxel: its face is appended when the side is visible. */
  lemma SidesStep(before: seq<Face>, cells: seq<Voxel>, p: BlockPos, b: BlockType, k: nat)
    requires |cells| == SIZE && k < 6
    ensures before + SidesUpTo(cells, p, b, k + 1) ==
      (before + SidesUpTo(cells, p, b, k)) + (if Visible(cells, p, k) then [Face(p, k, b)] else [])
  {
  }

  /** One more cell: its faces are appended when it is occupied. */
  lemma FacesStep(cells: seq<Voxel>, i: nat)
    requires |cells| == SIZE && i < SIZE
    ensures cells[i].Some? ==> Faces(cells, i + 1) == Faces(cells, i) + VoxelFaces(cells, FromIndex(i), cells[i].value)
    ensures cells[i].None? ==> Faces(cells, i + 1) == Faces(cells, i)
  {
    assert Faces(cells, i) + [] == Faces(cells, i);
  }

  /** `get_block_at(..).map(is_some).unwrap_or(false)` on the chunk is the negation of `Visible`. */
  lemma LookupDecidesVisibility(chunk: Chunk, p: BlockPos, k: Side)
    requires chunk.Valid()
    ensures var lookup := chunk.GetBlockAt(Neighbour(p, k));
            (lookup.Ok? && lookup.value.Some?) <==> !Visible(chunk.blocks[..], p, k)
  {
  }

  /**
   * `create_mesh_culled`: walks the cells in `iter_with_pos` order, that is
   * index `i` at position `BlockPos::from_index(i)`, and for each occupied
   * one appends the faces of its visible sides. The chunk is only read.
   */
  method CreateMeshCulled(chunk: Chunk) returns (mesh: Mesh)
    requires chunk.Valid()
    ensures mesh == MeshOf(Faces(chunk.blocks[..], SIZE))
  {
    var vertices: seq<Vertex>, indices: seq<nat>, colors: seq<Color> := [], [], [];
    var currentIndex: nat := 0;
    ghost var cells := chunk.blocks[..];
    var i := 0;
    while i < SIZE
      invariant i <= SIZE
      invariant Mesh(vertices, indices, colors) == MeshOf(Faces(cells, i))
      invariant currentIndex == |Faces(cells, i)|
    {
      var pos, block := FromIndex(i), chunk.blocks[i];
      FacesStep(cells, i);
      if block.Some? {
        vertices, indices, colors, currentIndex :=
          EmitVisibleSides(chunk, pos, block.value, vertices, indices, colors, currentIndex, Faces(cells, i));
      }
      i := i + 1;
    }
    mesh := Mesh(vertices, indices, colors);
  }

  /**
   * The inner loop of the mesher for one occupied voxel: for each side in
   * order whose neighbour lookup does not find a block, append the face's
   * corners, its indices from `current_index * 4`, and four copies of the
   * block's colour.
   */
  method EmitVisibleSides(chunk: Chunk, pos: BlockPos, b: BlockType,
                          vertices0: seq<Vertex>, indices0: seq<nat>, colors0: seq<Color>, current0: nat,
                          ghost before: seq<Face>)
    returns (vertices: seq<Vertex>, indices: seq<nat>, colors: seq<Color>, current: nat)
    requires chunk.Valid()
    requires Mesh(vertices0, indices0, colors0) == MeshOf(before) && current0 == |before|
    ensures Mesh(vertices, indices, colors) == MeshOf(before + VoxelFaces(chunk.blocks[..], pos, b))
    ensures current == |before + VoxelFaces(chunk.blocks[..], pos, b)|
  {
    vertices, indices, colors, current := vertices0, indices0, colors0, current0;
    ghost var cells := chunk.blocks[..];
    ghost var faces := before;
    assert before + SidesUpTo(cells, pos, b, 0) == before;
    var k := 0;
    while k < 6
      invariant k <= 6
      invariant faces == before + SidesUpTo(cells, pos, b, k)
      invariant Mesh(vertices, indices, colors) == MeshOf(faces)
      invariant current == |faces|
    {
      var lookup := chunk.GetBlockAt(Neighbour(pos, k));
      var occupied := lookup.Ok? && lookup.value.Some?;
      LookupDecidesVisibility(chunk, pos, k);
      SidesStep(before, cells, pos, b, k);
      if !occupied {
        MeshOfSnoc(faces, Face(pos, k, b));
        vertices := vertices + Translate(SIDES_VERTICES[k], pos);
        indices := indices + FaceIndices(current);
        current := current + 1;
        colors := colors + [b.color, b.color, b.color, b.color];
        faces := faces + [Face(pos, k, b)];
      }
      k := k + 1;
    }
  }
}
