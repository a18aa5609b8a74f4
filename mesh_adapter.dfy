/** The per-fragment half of `read`: one baked mesh fragment becomes the four
    attributes of a triangle-list render mesh (indices, "Vertex_Position",
    "Vertex_Normal", "Vertex_Uv"). Coordinates are only copied, never computed,
    so they are modelled as exact reals. */
module MeshAdapter {

  /** An entry of the fragment's 16-bit index buffer. */
  newtype u16 = x: int | 0 <= x < 0x1_0000

  /** The vector types the baker hands out. */
  datatype Vec3 = Vec3(x: real, y: real, z: real)
  datatype Vec2 = Vec2(x: real, y: real)

  /** The `[f32; 3]` and `[f32; 2]` elements of a render-mesh attribute. */
  type Float3 = a: seq<real> | |a| == 3 witness [0.0, 0.0, 0.0]
  type Float2 = a: seq<real> | |a| == 2 witness [0.0, 0.0]

  /** What the baker produces for one chunk. Normals and UVs may be missing
      (any length other than that of `vertices` counts as missing). */
  datatype MeshFragment = MeshFragment(
    vertices: seq<Vec3>,
    indices: seq<u16>,
    normals: seq<Vec3>,
    uv: seq<Vec2>)

  /** The render-ready mesh: an index buffer and three vertex attributes. */
  datatype RenderMesh = RenderMesh(
    indices: seq<u16>,
    positions: seq<Float3>,
    normals: seq<Float3>,
    uvs: seq<Float2>)

  /** Every vertex attribute has one entry per position. */
  predicate Aligned(m: RenderMesh) {
    |m.normals| == |m.positions| && |m.uvs| == |m.positions|
  }

  /** Every index names an existing vertex (the source never checks this). */
  predicate IndicesInRange(indices: seq<u16>, vertexCount: nat) {
    forall i :: 0 <= i < |indices| ==> indices[i] as int < vertexCount
  }

  function ToArray3(v: Vec3): Float3 { [v.x, v.y, v.z] }
  function ToArray2(v: Vec2): Float2 { [v.x, v.y] }
  function FromArray3(a: Float3): Vec3 { Vec3(a[0], a[1], a[2]) }
  function FromArray2(a: Float2): Vec2 { Vec2(a[0], a[1]) }

  /** `iter().map(|v| [v.x, v.y, v.z]).collect()` */
  function ToArrays3(vs: seq<Vec3>): (r: seq<Float3>)
    ensures |r| == |vs|
    ensures forall i :: 0 <= i < |vs| ==> r[i] == [vs[i].x, vs[i].y, vs[i].z]
  {
    if vs == [] then [] else [ToArray3(vs[0])] + ToArrays3(vs[1..])
  }

  /** `iter().map(|uv| [uv.x, uv.y]).collect()` */
  function ToArrays2(vs: seq<Vec2>): (r: seq<Float2>)
    ensures |r| == |vs|
    ensures forall i :: 0 <= i < |vs| ==> r[i] == [vs[i].x, vs[i].y]
  {
    if vs == [] then [] else [ToArray2(vs[0])] + ToArrays2(vs[1..])
  }

  /** `(0..n).map(|_| [0.0; 3]).collect()` */
  function Zeros3(n: nat): (r: seq<Float3>)
    ensures |r| == n
    ensures forall i :: 0 <= i < n ==> r[i] == [0.0, 0.0, 0.0]
  {
    if n == 0 then [] else [[0.0, 0.0, 0.0]] + Zeros3(n - 1)
  }

  /** `(0..n).map(|_| [0.0; 2]).collect()` */
  function Zeros2(n: nat): (r: seq<Float2>)
    ensures |r| == n
    ensures forall i :: 0 <= i < n ==> r[i] == [0.0, 0.0]
  {
    if n == 0 then [] else [[0.0, 0.0]] + Zeros2(n - 1)
  }

  /** Reads attribute arrays back as vectors: the inverse of ToArrays3. */
  function FromArrays3(arrays: seq<Float3>): (r: seq<Vec3>)
    ensures |r| == |arrays|
  {
    if arrays == [] then [] else [FromArray3(arrays[0])] + FromArrays3(arrays[1..])
  }

  /** The inverse of ToArrays2. */
  function FromArrays2(arrays: seq<Float2>): (r: seq<Vec2>)
    ensures |r| == |arrays|
  {
    if arrays == [] then [] else [FromArray2(arrays[0])] + FromArrays2(arrays[1..])
  }

  /** Builds the render mesh of one fragment: indices and positions are copied,
      normals and UVs are copied when there is one per vertex and are zero
      for every vertex otherwise. */
  function ToRenderMesh(f: MeshFragment): (m: RenderMesh)
    ensures m.indices == f.indices
    ensures |m.positions| == |f.vertices| && Aligned(m)
    ensures forall i :: 0 <= i < |f.vertices| ==>
      m.positions[i] == [f.vertices[i].x, f.vertices[i].y, f.vertices[i].z]
    ensures |f.normals| != |f.vertices| ==>
      forall i :: 0 <= i < |m.normals| ==> m.normals[i] == [0.0, 0.0, 0.0]
    ensures |f.normals| == |f.vertices| ==>
      forall i :: 0 <= i < |m.normals| ==> m.normals[i] == [f.normals[i].x, f.normals[i].y, f.normals[i].z]
    ensures |f.uv| != |f.vertices| ==>
      forall i :: 0 <= i < |m.uvs| ==> m.uvs[i] == [0.0, 0.0]
    ensures |f.uv| == |f.vertices| ==>
      forall i :: 0 <= i < |m.uvs| ==> m.uvs[i] == [f.uv[i].x, f.uv[i].y]
    ensures IndicesInRange(m.indices, |m.positions|) <==> IndicesInRange(f.indices, |f.vertices|)
  {
    RenderMesh(
      f.indices,
      ToArrays3(f.vertices),
      if |f.normals| != |f.vertices| then Zeros3(|f.vertices|) else ToArrays3(f.normals),
      if |f.uv| != |f.vertices| then Zeros2(|f.vertices|) else ToArrays2(f.uv))
  }

  /** Reads a render mesh back as a fragment, every attribute present. */
  function ToFragment(m: RenderMesh): (f: MeshFragment)
    ensures |f.vertices| == |m.positions| && f.indices == m.indices
    ensures Aligned(m) ==> |f.normals| == |f.vertices| && |f.uv| == |f.vertices|
  {
    MeshFragment(FromArrays3(m.positions), m.indices, FromArrays3(m.normals), FromArrays2(m.uvs))
  }

  /** Copying vectors into attribute arrays loses nothing. */
  lemma {:induction false} Arrays3RoundTrip(vs: seq<Vec3>)
    ensures FromArrays3(ToArrays3(vs)) == vs
  {
    if vs != [] {
      Arrays3RoundTrip(vs[1..]);
      assert ToArrays3(vs)[1..] == ToArrays3(vs[1..]);
    }
  }

  lemma {:induction false} Arrays2RoundTrip(vs: seq<Vec2>)
    ensures FromArrays2(ToArrays2(vs)) == vs
  {
    if vs != [] {
      Arrays2RoundTrip(vs[1..]);
      assert ToArrays2(vs)[1..] == ToArrays2(vs[1..]);
    }
  }

  /** Reading attribute arrays as vectors and copying them back loses nothing. */
  lemma {:induction false} Vectors3RoundTrip(arrays: seq<Float3>)
    ensures ToArrays3(FromArrays3(arrays)) == arrays
  {
    if arrays != [] {
      Vectors3RoundTrip(arrays[1..]);
      assert ToArray3(FromArray3(arrays[0])) == arrays[0];
      assert FromArrays3(arrays)[1..] == FromArrays3(arrays[1..]);
    }
  }

  lemma {:induction false} Vectors2RoundTrip(arrays: seq<Float2>)
    ensures ToArrays2(FromArrays2(arrays)) == arrays
  {
    if arrays != [] {
      Vectors2RoundTrip(arrays[1..]);
      assert ToArray2(FromArray2(arrays[0])) == arrays[0];
      assert FromArrays2(arrays)[1..] == FromArrays2(arrays[1..]);
    }
  }

  /** A fragment that has every attribute is recovered exactly from its mesh. */
  lemma CompleteFragmentRoundTrip(f: MeshFragment)
    requires |f.normals| == |f.vertices| && |f.uv| == |f.vertices|
    ensures ToFragment(ToRenderMesh(f)) == f
  {
    Arrays3RoundTrip(f.vertices);
    Arrays3RoundTrip(f.normals);
    Arrays2RoundTrip(f.uv);
  }

  /** Normalising is a fixpoint: reading a render mesh back as a fragment and
      normalising again gives the same mesh. */
  lemma NormaliseIdempotent(f: MeshFragment)
    ensures ToRenderMesh(ToFragment(ToRenderMesh(f))) == ToRenderMesh(f)
  {
    var m := ToRenderMesh(f);
    Vectors3RoundTrip(m.positions);
    Vectors3RoundTrip(m.normals);
    Vectors2RoundTrip(m.uvs);
  }

  /** A normal or UV buffer of the wrong length behaves exactly as an empty one. */
  lemma MismatchedAttributesAreAbsent(f: MeshFragment)
    requires |f.normals| != |f.vertices| || |f.uv| != |f.vertices|
    ensures var g := f.(normals := if |f.normals| != |f.vertices| then [] else f.normals,
                        uv := if |f.uv| != |f.vertices| then [] else f.uv);
            ToRenderMesh(g) == ToRenderMesh(f)
  {
  }
}
