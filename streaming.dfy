/**
 * The chunk streaming selection shared by the cuboid renderer
 * (src/map/render/mod.rs) and the voxel-store map (src/map/mod.rs). Both
 * have the same `get_visible_chunks` and the same first-missing choice in
 * `chunk_spawner`; only their constants differ.
 *
 * `get_visible_chunks` pushes the square of chunk columns of radius R
 * around the camera's column, x-major. When the cut distance is positive it
 * then retains, for every column of the inner square of that radius, the
 * entries that are not that column.
 */
module Streaming {

  import opened RustInt
  import opened Wrappers

  /** A chunk column (x, z). */
  type Column = (int, int)

  /** The column lies within Chebyshev distance `r` of (cx, cz). */
  predicate Within(p: Column, cx: int, cz: int, r: int) {
    Abs(p.0 - cx) <= r && Abs(p.1 - cz) <= r
  }

  /** The first `n` entries of row `x` of the square: z runs from `cz - r` upward. */
  function Row(x: int, cz: int, r: nat, n: nat): (s: seq<Column>)
    ensures |s| == n
    ensures forall j :: 0 <= j < n ==> s[j] == (x, cz - r + j)
  {
    seq(n, j requires 0 <= j < n => (x, cz - r + j))
  }

  /** The first `n` full rows of the square of radius `r`, in push order. */
  function Square(cx: int, cz: int, r: nat, n: nat): seq<Column> {
    if n == 0 then [] else Square(cx, cz, r, n - 1) + Row(cx - r + n - 1, cz, r, 2 * r + 1)
  }

  /** The part of the inner square the retain loops have removed when they stand at (x, z). */
  datatype Region = Region(cx: int, cz: int, cut: nat, x: int, z: int) {
    predicate Removed(p: Column) {
      (cx - cut <= p.0 < x && cz - cut <= p.1 <= cz + cut) || (p.0 == x && cz - cut <= p.1 < z)
    }
  }

  /** The entries of `s` outside the removed region, in their order. */
  function Keep(s: seq<Column>, region: Region): (k: seq<Column>)
    ensures |k| <= |s|
  {
    if s == [] then []
    else Keep(s[..|s| - 1], region) + (if region.Removed(s[|s| - 1]) then [] else [s[|s| - 1]])
  }

  /** `Vec::retain(|&(rx, rz)| !(rx == x && rz == z))`. */
  function Retain(s: seq<Column>, x: int, z: int): seq<Column> {
    if s == [] then []
    else Retain(s[..|s| - 1], x, z) + (if s[|s| - 1] == (x, z) then [] else [s[|s| - 1]])
  }

  /** What `get_visible_chunks` returns. */
  function VisibleSpec(cx: int, cz: int, r: nat, cut: nat): seq<Column> {
    if cut == 0 then Square(cx, cz, r, 2 * r + 1)
    else Keep(Square(cx, cz, r, 2 * r + 1), Region(cx, cz, cut, cx + cut + 1, cz - cut))
  }

  /** x-major order: a column comes before another of larger x, or of the same x and larger z. */
  predicate Before(a: Column, b: Column) {
    a.0 < b.0 || (a.0 == b.0 && a.1 < b.1)
  }

  /** Strictly increasing in x-major order, hence free of duplicates. */
  predicate Ordered(s: seq<Column>) {
    forall i, j :: 0 <= i < j < |s| ==> Before(s[i], s[j])
  }

  /** `get_visible_chunks(ch_x, ch_z)` with the visible radius and the cut distance as parameters. */
  method VisibleChunks(chX: int, chZ: int, radius: nat, cut: nat) returns (result: seq<Column>)
    ensures result == VisibleSpec(chX, chZ, radius, cut)
  {
    result := [];
    var x := chX - radius;
    while x <= chX + radius
      invariant chX - radius <= x <= chX + radius + 1
      invariant result == Square(chX, chZ, radius, x - (chX - radius))
    {
      var z := chZ - radius;
      while z <= chZ + radius
        invariant chZ - radius <= z <= chZ + radius + 1
        invariant result == Square(chX, chZ, radius, x - (chX - radius)) + Row(x, chZ, radius, z - (chZ - radius))
      {
        assert Row(x, chZ, radius, z - (chZ - radius) + 1) == Row(x, chZ, radius, z - (chZ - radius)) + [(x, z)];
        result := result + [(x, z)];
        z := z + 1;
      }
      x := x + 1;
    }
    if cut == 0 {
      return;
    }
    result := CutInnerSquare(result, chX, chZ, cut);
  }

  /** The retain loops of `get_visible_chunks`: every column of the inner square is removed, the rest keep their order. */
  method CutInnerSquare(full: seq<Column>, chX: int, chZ: int, cut: nat) returns (result: seq<Column>)
    ensures result == Keep(full, Region(chX, chZ, cut, chX + cut + 1, chZ - cut))
  {
    result := full;
    KeepNothing(full, Region(chX, chZ, cut, chX - cut, chZ - cut));
    var x := chX - cut;
    while x <= chX + cut
      invariant chX - cut <= x <= chX + cut + 1
      invariant result == Keep(full, Region(chX, chZ, cut, x, chZ - cut))
    {
      result := CutColumn(full, chX, chZ, cut, x, result);
      x := x + 1;
    }
  }

  /** The inner retain loop for one x: removes (x, z) for every z of the inner square. */
  method CutColumn(full: seq<Column>, chX: int, chZ: int, cut: nat, x: int, before: seq<Column>) returns (result: seq<Column>)
    requires chX - cut <= x
    requires before == Keep(full, Region(chX, chZ, cut, x, chZ - cut))
    ensures result == Keep(full, Region(chX, chZ, cut, x + 1, chZ - cut))
  {
    result := before;
    var z := chZ - cut;
    while z <= chZ + cut
      invariant chZ - cut <= z <= chZ + cut + 1
      invariant result == Keep(full, Region(chX, chZ, cut, x, z))
    {
      RetainStep(full, Region(chX, chZ, cut, x, z));
      result := Retain(result, x, z);
      z := z + 1;
    }
    NextColumn(full, Region(chX, chZ, cut, x, chZ + cut + 1));
  }

  lemma {:induction false} KeepSame(s: seq<Column>, a: Region, b: Region)
    requires forall p :: a.Removed(p) == b.Removed(p)
    ensures Keep(s, a) == Keep(s, b)
  {
    if s != [] {
      KeepSame(s[..|s| - 1], a, b);
    }
  }

  /** Past the last z of column x the region is the one at the start of column x + 1. */
  lemma NextColumn(s: seq<Column>, region: Region)
    requires region.cx - region.cut <= region.x && region.z == region.cz + region.cut + 1
    ensures Keep(s, region) == Keep(s, region.(x := region.x + 1, z := region.cz - region.cut))
  {
    KeepSame(s, region, region.(x := region.x + 1, z := region.cz - region.cut));
  }

  /** Before the retain loops nothing is removed. */
  lemma {:induction false} KeepNothing(s: seq<Column>, region: Region)
    requires region.x == region.cx - region.cut && region.z == region.cz - region.cut
    ensures Keep(s, region) == s
  {
    if s != [] {
      KeepNothing(s[..|s| - 1], region);
    }
  }

  lemma {:induction false} RetainAppend(a: seq<Column>, b: seq<Column>, x: int, z: int)
    ensures Retain(a + b, x, z) == Retain(a, x, z) + Retain(b, x, z)
  {
    if b == [] {
      assert a + b == a;
    } else {
      var n := |b| - 1;
      assert (a + b)[..|a + b| - 1] == a + b[..n];
      RetainAppend(a, b[..n], x, z);
    }
  }

  /** One retain removes the column (x, z) and moves the region one step along z. */
  lemma {:induction false} RetainStep(s: seq<Column>, region: Region)
    requires region.z >= region.cz - region.cut
    ensures Retain(Keep(s, region), region.x, region.z) == Keep(s, region.(z := region.z + 1))
  {
    if s != [] {
      var n := |s| - 1;
      var next := region.(z := region.z + 1);
      RetainStep(s[..n], region);
      var kept := Keep(s[..n], region);
      var last := if region.Removed(s[n]) then [] else [s[n]];
      assert Keep(s, region) == kept + last;
      RetainAppend(kept, last, region.x, region.z);
      assert Retain(last, region.x, region.z) == if next.Removed(s[n]) then [] else [s[n]] by {
        if last != [] {
          assert [s[n]][..0] == [];
        }
      }
      assert Keep(s, next) == Keep(s[..n], next) + (if next.Removed(s[n]) then [] else [s[n]]);
    }
  }

  lemma {:induction false} KeepMembership(s: seq<Column>, region: Region, p: Column)
    ensures p in Keep(s, region) <==> p in s && !region.Removed(p)
  {
    if s != [] {
      KeepMembership(s[..|s| - 1], region, p);
      assert s == s[..|s| - 1] + [s[|s| - 1]];
    }
  }

  lemma {:induction false} SquareMembership(cx: int, cz: int, r: nat, n: nat, p: Column)
    ensures p in Square(cx, cz, r, n) <==> cx - r <= p.0 < cx - r + n && Abs(p.1 - cz) <= r
  {
    if n > 0 {
      SquareMembership(cx, cz, r, n - 1, p);
      var row := Row(cx - r + n - 1, cz, r, 2 * r + 1);
      if p.0 == cx - r + n - 1 && Abs(p.1 - cz) <= r {
        assert row[p.1 - (cz - r)] == p;
      }
    }
  }

  lemma {:induction false} SquareLength(cx: int, cz: int, r: nat, n: nat)
    ensures |Square(cx, cz, r, n)| == n * (2 * r + 1)
  {
    if n > 0 {
      SquareLength(cx, cz, r, n - 1);
      assert (n - 1) * (2 * r + 1) + (2 * r + 1) == n * (2 * r + 1);
    }
  }

  lemma {:induction false} SquareOrdered(cx: int, cz: int, r: nat, n: nat)
    ensures Ordered(Square(cx, cz, r, n))
  {
    if n > 0 {
      SquareOrdered(cx, cz, r, n - 1);
      var init := Square(cx, cz, r, n - 1);
      var row := Row(cx - r + n - 1, cz, r, 2 * r + 1);
      var s := init + row;
      forall i, j | 0 <= i < j < |s|
        ensures Before(s[i], s[j])
      {
        if j >= |init| && i < |init| {
          assert s[i] in init;
          SquareMembership(cx, cz, r, n - 1, s[i]);
        }
      }
    }
  }

  lemma {:induction false} KeepOrdered(s: seq<Column>, region: Region)
    requires Ordered(s)
    ensures Ordered(Keep(s, region))
  {
    if s != [] {
      var n := |s| - 1;
      assert Ordered(s[..n]);
      KeepOrdered(s[..n], region);
      var kept := Keep(s[..n], region);
      if !region.Removed(s[n]) {
        forall i | 0 <= i < |kept|
          ensures Before(kept[i], s[n])
        {
          assert kept[i] in kept;
          KeepMembership(s[..n], region, kept[i]);
          var m :| 0 <= m < n && s[m] == kept[i];
        }
      }
    }
  }

  /**
   * The columns `get_visible_chunks` returns: those within the visible
   * radius and, for a positive cut distance, outside the cut radius.
   */
  lemma VisibleMembership(cx: int, cz: int, r: nat, cut: nat, p: Column)
    ensures p in VisibleSpec(cx, cz, r, cut) <==> Within(p, cx, cz, r) && (cut == 0 || !Within(p, cx, cz, cut))
  {
    SquareMembership(cx, cz, r, 2 * r + 1, p);
    if cut > 0 {
      KeepMembership(Square(cx, cz, r, 2 * r + 1), Region(cx, cz, cut, cx + cut + 1, cz - cut), p);
    }
  }

  /** Without a cut the result holds the (2R+1)^2 columns; in every case x-major and without duplicates. */
  lemma VisibleShape(cx: int, cz: int, r: nat, cut: nat)
    ensures cut == 0 ==> |VisibleSpec(cx, cz, r, cut)| == (2 * r + 1) * (2 * r + 1)
    ensures Ordered(VisibleSpec(cx, cz, r, cut))
  {
    SquareLength(cx, cz, r, 2 * r + 1);
    SquareOrdered(cx, cz, r, 2 * r + 1);
    if cut > 0 {
      KeepOrdered(Square(cx, cz, r, 2 * r + 1), Region(cx, cz, cut, cx + cut + 1, cz - cut));
    }
  }

  /** Every visible column lies within Manhattan distance 2R of the centre. */
  lemma VisibleManhattan(cx: int, cz: int, r: nat, cut: nat, p: Column)
    requires p in VisibleSpec(cx, cz, r, cut)
    ensures Abs(p.0 - cx) + Abs(p.1 - cz) <= 2 * r
  {
    VisibleMembership(cx, cz, r, cut, p);
  }

  /**
   * `new_chunks`: the visible columns that no existing chunk occupies
   * (an existing chunk matches on x and z), in visible order.
   */
  function Missing(visible: seq<Column>, existing: seq<Column>): seq<Column> {
    if visible == [] then []
    else (if visible[0] in existing then [] else [visible[0]]) + Missing(visible[1..], existing)
  }

  /** `new_chunks` holds exactly the visible columns that are not spawned yet. */
  lemma {:induction false} MissingMembership(visible: seq<Column>, existing: seq<Column>, p: Column)
    ensures p in Missing(visible, existing) <==> p in visible && p !in existing
  {
    if visible != [] {
      MissingMembership(visible[1..], existing, p);
      assert visible == [visible[0]] + visible[1..];
    }
  }

  /** The spawner's choice, `new_chunks[0]`; `None` when nothing is missing. */
  function FirstMissing(visible: seq<Column>, existing: seq<Column>): Option<Column> {
    var m := Missing(visible, existing);
    if |m| == 0 then None else Some(m[0])
  }

  /**
   * The choice is the first visible column not already spawned: every
   * column before it is spawned. There is none exactly when every visible
   * column is spawned.
   */
  lemma {:induction false} FirstMissingIsFirst(visible: seq<Column>, existing: seq<Column>)
    ensures FirstMissing(visible, existing).None? <==> forall j :: 0 <= j < |visible| ==> visible[j] in existing
    ensures FirstMissing(visible, existing).Some? ==>
      exists i :: 0 <= i < |visible| && visible[i] == FirstMissing(visible, existing).value &&
        visible[i] !in existing && forall j :: 0 <= j < i ==> visible[j] in existing
  {
    if visible != [] {
      FirstMissingIsFirst(visible[1..], existing);
      if visible[0] !in existing {
        assert FirstMissing(visible, existing) == Some(visible[0]);
      } else {
        assert Missing(visible, existing) == Missing(visible[1..], existing);
        if FirstMissing(visible, existing).Some? {
          var i :| 0 <= i < |visible[1..]| && visible[1..][i] == FirstMissing(visible, existing).value &&
            visible[1..][i] !in existing && forall j :: 0 <= j < i ==> visible[1..][j] in existing;
          assert visible[i + 1] == visible[1..][i];
          forall j | 0 <= j < i + 1
            ensures visible[j] in existing
          {
            if j > 0 {
              assert visible[j] == visible[1..][j - 1];
            }
          }
        } else {
          forall j | 0 <= j < |visible|
            ensures visible[j] in existing
          {
            if j > 0 {
              assert visible[j] == visible[1..][j - 1];
            }
          }
        }
      }
    }
  }

  /**
   * One pass of `chunk_spawner` over the cameras, in camera order, given
   * what each camera asks to spawn: the pass `return`s at the first camera
   * that asks for nothing, so later cameras spawn nothing.
   */
  function Pass(cameras: seq<Column>, choose: Column -> Option<Column>): seq<Column> {
    if cameras == [] then []
    else match choose(cameras[0])
      case None => []
      case Some(p) => [p] + Pass(cameras[1..], choose)
  }

  /** Camera `k` spawns the `k`-th chunk of the pass; the pass ends early exactly at a camera that asks for nothing. */
  lemma {:induction false} PassCameras(cameras: seq<Column>, choose: Column -> Option<Column>)
    ensures |Pass(cameras, choose)| <= |cameras|
    ensures forall k :: 0 <= k < |Pass(cameras, choose)| ==> choose(cameras[k]) == Some(Pass(cameras, choose)[k])
    ensures |Pass(cameras, choose)| < |cameras| ==> choose(cameras[|Pass(cameras, choose)|]).None?
  {
    if cameras != [] {
      var rest := Pass(cameras[1..], choose);
      PassCameras(cameras[1..], choose);
      var plan := Pass(cameras, choose);
      if choose(cameras[0]).Some? {
        assert plan == [choose(cameras[0]).value] + rest;
        forall k | 1 <= k < |plan|
          ensures choose(cameras[k]) == Some(plan[k])
        {
          assert plan[k] == rest[k - 1] && cameras[k] == cameras[1..][k - 1];
        }
        if |plan| < |cameras| {
          assert cameras[|plan|] == cameras[1..][|rest|];
        }
      }
    }
  }

  /** What one camera asks to spawn: the first missing column it sees. */
  function Choice(camera: Column, existing: seq<Column>, r: nat, cut: nat): Option<Column> {
    FirstMissing(VisibleSpec(camera.0, camera.1, r, cut), existing)
  }

  /** The choice of every camera, against the same existing chunks: spawns are deferred commands. */
  function Chooser(existing: seq<Column>, r: nat, cut: nat): Column -> Option<Column> {
    camera => Choice(camera, existing, r, cut)
  }

  /** The chunks one pass of `chunk_spawner` spawns. */
  function SpawnPlan(cameras: seq<Column>, existing: seq<Column>, r: nat, cut: nat): seq<Column> {
    Pass(cameras, Chooser(existing, r, cut))
  }

  /**
   * Camera `k` spawns the `k`-th chunk of the pass, its own choice; the
   * pass ends early exactly at a camera with nothing missing.
   */
  lemma SpawnPlanCameras(cameras: seq<Column>, existing: seq<Column>, r: nat, cut: nat)
    ensures |SpawnPlan(cameras, existing, r, cut)| <= |cameras|
    ensures forall k :: 0 <= k < |SpawnPlan(cameras, existing, r, cut)| ==>
      Choice(cameras[k], existing, r, cut) == Some(SpawnPlan(cameras, existing, r, cut)[k])
    ensures |SpawnPlan(cameras, existing, r, cut)| < |cameras| ==>
      Choice(cameras[|SpawnPlan(cameras, existing, r, cut)|], existing, r, cut).None?
  {
    PassCameras(cameras, Chooser(existing, r, cut));
  }

  /** Every chunk a pass spawns is visible from its camera and was missing. */
  lemma SpawnPlanSpawnsMissing(cameras: seq<Column>, existing: seq<Column>, r: nat, cut: nat, k: nat)
    requires k < |SpawnPlan(cameras, existing, r, cut)|
    ensures k < |cameras|
    ensures SpawnPlan(cameras, existing, r, cut)[k] in VisibleSpec(cameras[k].0, cameras[k].1, r, cut)
    ensures SpawnPlan(cameras, existing, r, cut)[k] !in existing
  {
    SpawnPlanCameras(cameras, existing, r, cut);
    var visible := VisibleSpec(cameras[k].0, cameras[k].1, r, cut);
    FirstMissingIsFirst(visible, existing);
    assert Choice(cameras[k], existing, r, cut) == FirstMissing(visible, existing);
  }

  /**
   * The camera loop of `chunk_spawner`, given each camera's chunk column
   * and the columns of the chunks already spawned.
   */
  method ChunkSpawner(cameras: seq<Column>, existing: seq<Column>, radius: nat, cut: nat) returns (spawned: seq<Column>)
    ensures spawned == SpawnPlan(cameras, existing, radius, cut)
  {
    spawned := [];
    var i := 0;
    while i < |cameras|
      invariant i <= |cameras|
      invariant spawned + SpawnPlan(cameras[i..], existing, radius, cut) == SpawnPlan(cameras, existing, radius, cut)
    {
      var (chX, chZ) := cameras[i];
      var chunks := VisibleChunks(chX, chZ, radius, cut);
      var newChunks := Missing(chunks, existing);
      assert Chooser(existing, radius, cut)(cameras[i]) == if |newChunks| == 0 then None else Some(newChunks[0]);
      if |newChunks| == 0 {
        assert SpawnPlan(cameras[i..], existing, radius, cut) == [];
        assert spawned + [] == spawned;
        return;
      }
      assert SpawnPlan(cameras[i..], existing, radius, cut) == [newChunks[0]] + SpawnPlan(cameras[i + 1..], existing, radius, cut) by {
        assert cameras[i..][0] == cameras[i] && cameras[i..][1..] == cameras[i + 1..];
      }
      spawned := spawned + [newChunks[0]];
      i := i + 1;
    }
    assert cameras[i..] == [];
    assert spawned + [] == spawned;
  }

  /** `fold(acc, |_, x| x)` over the camera positions: each step keeps the newer position. */
  function FoldLatest(acc: Column, cameras: seq<Column>): Column
    decreases |cameras|
  {
    if cameras == [] then acc else FoldLatest(cameras[0], cameras[1..])
  }

  /**
   * The despawn centre of `chunk_despawner`: the fold above started from
   * the origin. Only the last camera counts, and with no camera it is the
   * origin.
   */
  lemma {:induction false} LastCamera(acc: Column, cameras: seq<Column>)
    ensures cameras == [] ==> FoldLatest(acc, cameras) == acc
    ensures cameras != [] ==> FoldLatest(acc, cameras) == cameras[|cameras| - 1]
    decreases |cameras|
  {
    if cameras != [] {
      LastCamera(cameras[0], cameras[1..]);
    }
  }
}
