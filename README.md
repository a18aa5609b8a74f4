# Voxel chunk viewer: mesh assembly and fly camera

A Dafny model of the logic in `src/main.rs` of the marching-cubes voxel viewer,
a Bevy application that reads a voxel file, bakes every chunk into a mesh
fragment and shows the result with a keyboard-driven camera. Three pieces are
modelled:

- **Chunk filtering** (`ScenePopulator`): the first loop of `read` keeps the
  chunks the baker produced a fragment for, each paired with its chunk
  position, in chunk order. The baker's answers are an input sequence of
  optional fragments.
- **Mesh normalisation** (`MeshAdapter`): every kept fragment becomes a render
  mesh with its indices, its positions, one normal per vertex and one UV per
  vertex. Normals and UVs are copied when there is one per vertex and are all
  zero otherwise. The second loop of `read` (`ScenePopulator.SpawnAll`) gives
  each mesh a colour and the chunk position as translation. The random
  generator is an input stream of draws in [0, 1), three per mesh.
- **Fly camera** (`FlyCamera`): the `update` system moves the camera entity one
  step of 0.01 world units per held key along one axis. Translations are
  counted in whole steps. The key bindings come from `MainCamera::default()`.

Normalisation is a Dafny function, so the same fragment always gives the same
mesh; `MeshAdapter.NormaliseIdempotent` adds that normalising a mesh read back as
a fragment changes nothing.

Files: `wrappers.dfy` (the `Option` type), `mesh_adapter.dfy`,
`scene_populator.dfy`, `fly_camera.dfy`.

Two features of the code are easy to misread:

- Key bindings. The bindings are not the usual W-forward layout. Z lowers z,
  X raises z, W raises y, S lowers y, A lowers x and D raises x
  (`src/main.rs:132-149`, `src/main.rs:160-171`). Holding W for ten ticks from
  the origin therefore moves the camera to (0, 0.1, 0)
  (`FlyCamera.HoldingKeysUnderDefaults`).
- No validation. The code checks neither index ranges nor attribute lengths.
  A normal or UV buffer of any length other than the vertex count is treated
  as missing (`MeshAdapter.MismatchedAttributesAreAbsent`), and indices are
  copied unchecked. Index validity appears only as the predicate
  `MeshAdapter.IndicesInRange`, which normalisation preserves in both
  directions.

## Model

| member | source | states |
|---|---|---|
| `MeshAdapter.ToArrays3` | src/main.rs:70-74 | one `[x, y, z]` array per vector, same length, element i built from vector i |
| `MeshAdapter.ToArrays2` | src/main.rs:99-103 | one `[x, y]` array per UV, same length, element i built from UV i |
| `MeshAdapter.Zeros3` | src/main.rs:79-81 | exactly n entries, each the zero 3-vector |
| `MeshAdapter.Zeros2` | src/main.rs:94-96 | exactly n entries, each the zero 2-vector |
| `MeshAdapter.ToRenderMesh` | src/main.rs:65-105 | indices copied verbatim; position i is vertex i; normals and UVs always have one entry per vertex; on a length mismatch every normal is (0,0,0) and every UV is (0,0), otherwise entry i is normal i or UV i; indices are in range of the positions exactly when they are in range of the vertices |
| `MeshAdapter.Arrays3RoundTrip` | src/main.rs:70-74 | copying vectors into attribute arrays loses nothing: reading them back gives the same vectors |
| `MeshAdapter.Vectors3RoundTrip` | src/main.rs:84-88 | reading 3-arrays as vectors and copying them back gives the same arrays |
| `MeshAdapter.Arrays2RoundTrip` | src/main.rs:99-103 | copying UVs into 2-arrays loses nothing |
| `MeshAdapter.Vectors2RoundTrip` | src/main.rs:99-103 | reading 2-arrays as UVs and copying them back gives the same arrays |
| `MeshAdapter.CompleteFragmentRoundTrip` | src/main.rs:65-105 | a fragment with one normal and one UV per vertex is recovered exactly from its render mesh |
| `MeshAdapter.NormaliseIdempotent` | src/main.rs:65-105 | normalising the fragment read back from a render mesh gives that same mesh |
| `MeshAdapter.MismatchedAttributesAreAbsent` | src/main.rs:78-105 | a normal or UV buffer of the wrong length gives the same mesh as an empty one |
| `ScenePopulator.BakedIndices` | src/main.rs:44-49 | the indices of the chunks with a fragment: ascending, each one a chunk with a fragment, every such chunk listed, and there are N - K of them for N chunks of which K are empty |
| `ScenePopulator.KeptFollowsBakedIndices` | src/main.rs:44-49 | the kept list has one entry per chunk with a fragment, and entry j is that chunk's fragment paired with its position, in chunk order |
| `ScenePopulator.CollectMeshes` | src/main.rs:39-49 | the loop builds exactly the kept list |
| `ScenePopulator.ColourAt` | src/main.rs:113-117 | the k-th colour is the k-th triple of draws, each channel in [0, 1) |
| `ScenePopulator.SpawnAll` | src/main.rs:65-127 | one object per kept fragment, in order: its mesh is the normalised fragment, its translation the chunk position component by component, its colour the next three draws, each channel in [0, 1) |
| `ScenePopulator.Read` | src/main.rs:44-127 | N - K objects for N chunks of which K are empty; object k carries the normalised mesh and the position of the k-th chunk with a fragment, and the k-th triple of draws as its colour |
| `FlyCamera.DefaultBindings` | src/main.rs:160-171 | the default bindings use six different keys, and the bound keys are exactly W, A, S, D, Z and X |
| `FlyCamera.Displacement` | src/main.rs:132-149 | each axis moves by -1, 0 or +1 steps per tick; an axis stays put exactly when both or neither of its keys are held; with no bound key held nothing moves |
| `FlyCamera.KeyEffect` | src/main.rs:132-149 | for any table of six distinct keys, the key in field z gives z-1, in x gives z+1, in w gives y+1, in s gives y-1, in a gives x-1 and in d gives x+1, so a bound key moves exactly one axis; an unbound key moves nothing |
| `FlyCamera.HeldKeysAdd` | src/main.rs:132-149 | holding one more key adds exactly that key's effect (its axis and direction as stated for `KeyEffect`), so effects add up and opposite keys cancel |
| `FlyCamera.DefaultKeyEffects` | src/main.rs:130-171 | under the defaults Z gives z-1, X gives z+1, W gives y+1, S gives y-1, A gives x-1, D gives x+1 |
| `FlyCamera.AfterTicksIsLinear` | src/main.rs:130-151 | n ticks with the same keys held move the camera n times the one-tick displacement |
| `FlyCamera.HoldingKeysUnderDefaults` | src/main.rs:130-171 | under the defaults, holding W for n ticks gives (0, n, 0) steps; holding W and Z gives (0, n, -n) |
| `FlyCamera.Camera.constructor` | src/main.rs:26-31 | the camera entity starts with the given bindings and translation |
| `FlyCamera.Camera.Tick` | src/main.rs:130-151 | one `update`: the new translation is the old one plus the displacement of the held keys; the bindings do not change |

## Left out

- App setup, plugins and system registration (`src/main.rs:6-12`): engine wiring.
- The light bundle and the camera's `looking_at` orientation (`src/main.rs:19-31`): engine wiring; the camera's start translation is a constructor argument.
- Reading the `.gox` file and baking chunks (`src/main.rs:35-38`, `src/main.rs:45`): calls into the gaiku library; the baker's results are the `BakedChunk` input sequence.
- Timing and the `println!` report (`src/main.rs:34`, `src/main.rs:41-60`): I/O with no effect on the scene.
- The entropy-seeded random generator (`src/main.rs:62`, `src/main.rs:113-117`): its draws are an input sequence assumed to lie in [0, 1).
- ScenePopulator.Read and ScenePopulator.SpawnAll: require three draws per spawned object, because the model replaces the unbounded generator by a finite sequence.
- Asset handles (`meshies.add`, `materials.add`) and the remaining `PbrBundle` defaults (`src/main.rs:108-126`): a spawned object is the record of its mesh, colour and translation.
- The triangle-list topology and the attribute names of the Bevy mesh: constants with no behaviour; `RenderMesh` has one field per attribute.
- Floating point: coordinates are exact reals and are only copied; camera translations are whole steps of 0.01, so the rounding of repeated f32 additions is not modelled.
- The `Query` over camera entities and the polling of `Input<KeyCode>` (`src/main.rs:130-132`): one camera object, and the held keys are a set passed to `Tick`.
