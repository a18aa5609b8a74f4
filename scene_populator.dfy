/** The two loops of `read`: keep the chunks the baker produced a fragment for,
    then turn each kept fragment into a spawned scene object with a random
    colour and the chunk position as its translation. The baker and the random
    number generator are outside the model: their results come in as inputs. */
module ScenePopulator {
  import opened Wrappers
  import opened MeshAdapter

  /** A chunk as the loop sees it: its position and what the baker returned. */
  datatype BakedChunk = BakedChunk(position: Vec3, mesh: Option<MeshFragment>)

  /** An albedo colour. */
  datatype Rgb = Rgb(r: real, g: real, b: real)

  /** What one `commands.spawn(PbrBundle { .. })` registers. */
  datatype SceneObject = SceneObject(mesh: RenderMesh, albedo: Rgb, translation: Vec3)

  /** The specification of the first loop: the baked fragments, each paired
      with its chunk's position, in input order. */
  function Kept(chunks: seq<BakedChunk>): seq<(MeshFragment, Vec3)>
  {
    if chunks == [] then []
    else
      var last := chunks[|chunks| - 1];
      match last.mesh
      case Some(m) => Kept(chunks[..|chunks| - 1]) + [(m, last.position)]
      case None => Kept(chunks[..|chunks| - 1])
  }

  /** The number of chunks for which the baker returned nothing. */
  function CountEmpty(chunks: seq<BakedChunk>): (k: nat)
    ensures k <= |chunks|
  {
    if chunks == [] then 0
    else CountEmpty(chunks[..|chunks| - 1]) + (if chunks[|chunks| - 1].mesh.None? then 1 else 0)
  }

  /** The positions of the chunks the baker produced a fragment for, ascending. */
  function BakedIndices(chunks: seq<BakedChunk>): (r: seq<nat>)
    ensures |r| == |chunks| - CountEmpty(chunks)
    ensures forall j :: 0 <= j < |r| ==> r[j] < |chunks| && chunks[r[j]].mesh.Some?
    ensures forall j1, j2 :: 0 <= j1 < j2 < |r| ==> r[j1] < r[j2]
    ensures forall i :: 0 <= i < |chunks| && chunks[i].mesh.Some? ==> i in r
  {
    if chunks == [] then []
    else
      var n := |chunks| - 1;
      BakedIndices(chunks[..n]) + (if chunks[n].mesh.Some? then [n] else [])
  }

  /** Kept keeps exactly the baked chunks, in input order, paired with their
      positions. */
  lemma {:induction false} KeptFollowsBakedIndices(chunks: seq<BakedChunk>)
    ensures |Kept(chunks)| == |BakedIndices(chunks)|
    ensures forall j :: 0 <= j < |Kept(chunks)| ==>
      var c := chunks[BakedIndices(chunks)[j]];
      Kept(chunks)[j] == (c.mesh.value, c.position)
  {
    if chunks != [] {
      var n := |chunks| - 1;
      var prefix := chunks[..n];
      KeptFollowsBakedIndices(prefix);
      var idx := BakedIndices(prefix);
      assert forall j :: 0 <= j < |idx| ==> chunks[idx[j]] == prefix[idx[j]];
      var kept, all := Kept(prefix), BakedIndices(chunks);
      assert all[..|idx|] == idx;
      if chunks[n].mesh.Some? {
        assert Kept(chunks) == kept + [(chunks[n].mesh.value, chunks[n].position)];
      } else {
        assert Kept(chunks) == kept;
      }
      forall j | 0 <= j < |Kept(chunks)|
        ensures Kept(chunks)[j] == (chunks[all[j]].mesh.value, chunks[all[j]].position)
      {
        if j < |kept| {
          assert Kept(chunks)[j] == kept[j];
          assert all[j] == idx[j];
        }
      }
    }
  }

  /** The channels drawn by `rng.gen_range(0.0, 1.0)`. */
  predicate UnitDraws(draws: seq<real>) {
    forall i :: 0 <= i < |draws| ==> 0.0 <= draws[i] < 1.0
  }

  /** The colour of the k-th spawned object: the k-th triple of draws. */
  function ColourAt(draws: seq<real>, k: nat): (c: Rgb)
    requires 3 * k + 3 <= |draws|
    ensures UnitDraws(draws) ==> 0.0 <= c.r < 1.0 && 0.0 <= c.g < 1.0 && 0.0 <= c.b < 1.0
  {
    Rgb(draws[3 * k], draws[3 * k + 1], draws[3 * k + 2])
  }

  /** The first loop of `read`: push every baked fragment with its chunk's
      position. */
  method CollectMeshes(chunks: seq<BakedChunk>) returns (meshes: seq<(MeshFragment, Vec3)>)
    ensures meshes == Kept(chunks)
  {
    meshes := [];
    for i := 0 to |chunks|
      invariant meshes == Kept(chunks[..i])
    {
      assert chunks[..i + 1][..i] == chunks[..i];
      match chunks[i].mesh {
        case Some(m) =>
          meshes := meshes + [(m, chunks[i].position)];
        case None =>
      }
    }
    assert chunks[..|chunks|] == chunks;
  }

  /** The second loop of `read`: spawn one object per kept fragment, with its
      normalised mesh, a fresh colour and the chunk position as translation. */
  method SpawnAll(meshes: seq<(MeshFragment, Vec3)>, draws: seq<real>) returns (scene: seq<SceneObject>)
    requires 3 * |meshes| <= |draws| && UnitDraws(draws)
    ensures |scene| == |meshes|
    ensures forall k :: 0 <= k < |meshes| ==>
      scene[k].mesh == ToRenderMesh(meshes[k].0) &&
      scene[k].translation == Vec3(meshes[k].1.x, meshes[k].1.y, meshes[k].1.z) &&
      scene[k].albedo == ColourAt(draws, k)
    ensures forall k :: 0 <= k < |scene| ==>
      0.0 <= scene[k].albedo.r < 1.0 && 0.0 <= scene[k].albedo.g < 1.0 && 0.0 <= scene[k].albedo.b < 1.0
  {
    scene := [];
    for k := 0 to |meshes|
      invariant |scene| == k
      invariant forall j :: 0 <= j < k ==>
        scene[j].mesh == ToRenderMesh(meshes[j].0) &&
        scene[j].translation == Vec3(meshes[j].1.x, meshes[j].1.y, meshes[j].1.z) &&
        scene[j].albedo == ColourAt(draws, j)
    {
      var (fragment, chunkPos) := meshes[k];
      var albedo := Rgb(draws[3 * k], draws[3 * k + 1], draws[3 * k + 2]);
      var translation := Vec3(chunkPos.x, chunkPos.y, chunkPos.z);
      scene := scene + [SceneObject(ToRenderMesh(fragment), albedo, translation)];
    }
  }

  /** `read` without the engine: the scene holds one object per non-empty
      chunk, in chunk order, placed at that chunk's position. */
  method Read(chunks: seq<BakedChunk>, draws: seq<real>) returns (scene: seq<SceneObject>)
    requires 3 * |Kept(chunks)| <= |draws| && UnitDraws(draws)
    ensures |scene| == |chunks| - CountEmpty(chunks)
    ensures forall k :: 0 <= k < |scene| ==>
      var c := chunks[BakedIndices(chunks)[k]];
      scene[k].mesh == ToRenderMesh(c.mesh.value) && scene[k].translation == c.position
    ensures forall k :: 0 <= k < |scene| ==> 3 * k + 3 <= |draws| && scene[k].albedo == ColourAt(draws, k)
  {
    var meshes := CollectMeshes(chunks);
    scene := SpawnAll(meshes, draws);
    KeptFollowsBakedIndices(chunks);
  }
}
