# UV-sphere generator of kg-opentk

This project models the `Sphere` class of kg-opentk (`kg-opentk/Common/Sphere.cs`). It also models the one
stride question that `kg-opentk/Window.cs` raises about the sphere's output.

A `Sphere` is built from a radius `R`, a center `(X, Y, Z)` and a resolution of `SectorCount` columns by
`StackCount` rows. Its constructor runs `CalculateVertecies`, a nested loop over stack rows
`i = 0..StackCount` and, inside each row, sector columns `j = 0..SectorCount`, both ends included. Each
step appends three floats to `Vertices`, three to `Normals` and two to `TexCoords`:

- the position: the local point `(xy·cos(sectorAngle), xy·sin(sectorAngle), z)` plus the center;
- the normal: the local point times `1/R`;
- the texture coordinate: `(j/SectorCount, i/StackCount)`.

`GetVertecies` and `GetNormals` copy a list out. `GetSphere(isNormals, isTexCoords)` packs the lists vertex
by vertex: three position floats, then three normal floats and two texture floats when asked for.
The model spells the source's `GetVertecies` and `CalculateVertecies` as `GetVertices` and
`CalculateVertices`; the other names are the source's own.

Files and modules:

- `geometry.dfy`, module `Geometry`: the parametrisation as pure functions.
  - `Floats` gives the floats one vertex contributes to one list.
  - `Emitted` and `Generated` give each list in generation order.
  - Lemmas state the layout, the lengths and the geometric facts.
- `interleaving.dfy`, module `Interleaving`: the packing done by `GetSphere`, as the function `Interleave`,
  with its inverse `Fetch`. `Fetch` reads one attribute back with a stride and an offset, as a vertex
  attribute pointer does.
- `sphere.dfy`, module `Common`: the class `Sphere`.
  - Its `seq<real>` fields are filled in place by `CalculateVertices`, whose loops keep the invariant that
    each field is the prefix `Emitted` of the rows and columns done so far.
  - `GetSphere` builds its result with the source's append loop.
  - `Valid()` says that the three fields are exactly the generated lists.
- `sequences.dfy`, module `Sequences`: one slice-of-concatenation fact that both `Geometry` and
  `Interleaving` use.
- `window.dfy`, module `Window`: the three vertex-attribute pointers of `Window.cs`, each stepping 8 floats
  per vertex, and the buffer they read.

Numbers are `real`. `Math.Cos` and `Math.Sin`, each followed by the cast to `float`, are parameters of the
model (`Cos`, `Sin : real -> real`), so no statement here depends on a trigonometric identity. `Pi` is
`(float)Math.PI`, whose exact value is `3.1415927410125732421875`.

## Model

| member | source | states |
|---|---|---|
| Common.Sphere.constructor | kg-opentk/Common/Sphere.cs:11-25 | Stores radius and center, uses the fixed resolution of 2048 sectors and 1024 stacks, and leaves the three lists equal to the generated lists (`Valid()`); requires `R != 0` |
| Common.Sphere.WithResolution | kg-opentk/Common/Sphere.cs:16-25 | The same constructor for any resolution of at least one sector and one stack, also establishing `Valid()` |
| Common.Sphere.Establish | kg-opentk/Common/Sphere.cs:77-107 | Lists equal to the generated ones have lengths `3·VertexCount`, `3·VertexCount` and `2·VertexCount`, so `Valid()` holds |
| Common.Sphere.CalculateVertices | kg-opentk/Common/Sphere.cs:65-109 | The nested loops append to each list exactly `Generated(Params(), a)`, the vertices in row-major order (stack row outer, sector column inner, both inclusive) |
| Common.Sphere.AddVertex | kg-opentk/Common/Sphere.cs:84-105 | One inner-loop step, computed from the row's `xy` and `z` and the precomputed steps, appends exactly `Floats` for vertex (i, j) to each list |
| Common.Sphere.GetVertices | kg-opentk/Common/Sphere.cs:27-30 | Returns a fresh array whose contents equal `Vertices`; the fields are not modified |
| Common.Sphere.GetNormals | kg-opentk/Common/Sphere.cs:32-35 | Returns a fresh array whose contents equal `Normals`; the fields are not modified |
| Common.Sphere.GetSphere | kg-opentk/Common/Sphere.cs:37-63 | Requires only that the attribute lists hold as many vertices as the parts asked for need. Returns a fresh array equal to `Interleave` of the three lists over `Vertices.Count / 3` vertices, of length `(Vertices.Count / 3) · Stride`. With both flags false the result is `Vertices` up to its last whole position. The fields are not modified |
| Common.Sphere.ValidPacks | kg-opentk/Common/Sphere.cs:18-63 | On a constructed sphere, `Vertices.Count / 3` is the vertex count, every layout can be packed, and no float trails the last position |
| Geometry.StackAngle | kg-opentk/Common/Sphere.cs:74-79 | The stack angle starts at `Pi/2` for row 0 and reaches `-Pi/2` at row `StackCount` |
| Geometry.SectorAngle | kg-opentk/Common/Sphere.cs:73-84 | The sector angle is 0 at column 0 and `2·Pi` at column `SectorCount` |
| Geometry.Floats | kg-opentk/Common/Sphere.cs:84-105 | One vertex contributes 3 position floats, 3 normal floats and 2 texture floats |
| Geometry.SectorStep | kg-opentk/Common/Sphere.cs:73 | Defines `sectorStep = 2·Pi / SectorCount` |
| Geometry.StackStep | kg-opentk/Common/Sphere.cs:74 | Defines `stackStep = Pi / StackCount` |
| Geometry.LengthInv | kg-opentk/Common/Sphere.cs:70 | Defines `lengthInv = 1 / R` |
| Geometry.RowRadius | kg-opentk/Common/Sphere.cs:79-80 | Defines row i's `xy = R·Cos(stackAngle)` |
| Geometry.RowHeight | kg-opentk/Common/Sphere.cs:79-81 | Defines row i's `z = R·Sin(stackAngle)` |
| Geometry.LocalX | kg-opentk/Common/Sphere.cs:84-87 | Defines `x = xy·Cos(sectorAngle)` for vertex (i, j) |
| Geometry.LocalY | kg-opentk/Common/Sphere.cs:84-88 | Defines `y = xy·Sin(sectorAngle)` for vertex (i, j) |
| Geometry.Emitted | kg-opentk/Common/Sphere.cs:77-107 | Defines the contents of a list after rows 0..i−1 and the first j vertices of row i, in append order |
| Geometry.Generated | kg-opentk/Common/Sphere.cs:77-108 | Defines the finished list: all rows 0..StackCount |
| Geometry.EmittedLength | kg-opentk/Common/Sphere.cs:77-107 | After the rows before i and the columns before j, a list holds `Width · (i·(SectorCount+1) + j)` floats |
| Geometry.EmittedAt | kg-opentk/Common/Sphere.cs:77-107 | Once emitted, vertex (i, j)'s floats stay at offset `Width · Index(i, j)` for the rest of the generation |
| Geometry.GeneratedLength | kg-opentk/Common/Sphere.cs:77-107 | The finished lists hold `3·(StackCount+1)·(SectorCount+1)`, `3·(…)·(…)` and `2·(…)·(…)` floats |
| Geometry.Layout | kg-opentk/Common/Sphere.cs:77-105 | Vertex (i, j) is stored row-major: its floats in each list are the slice starting at `Width · (i·(SectorCount+1) + j)`, inside the list |
| Geometry.LayoutAt | kg-opentk/Common/Sphere.cs:77-105 | The same layout, one float at a time |
| Geometry.NormalIsRadial | kg-opentk/Common/Sphere.cs:89-99 | The lists describe the same number of vertices, and each stored normal component is (stored position − center) / R |
| Geometry.NormalOfPosition | kg-opentk/Common/Sphere.cs:89-96 | For one vertex, the normal floats are the position floats minus the center, divided by R |
| Geometry.RowSharesHeight | kg-opentk/Common/Sphere.cs:79-91 | All vertices of stack row i have the same z, equal to `R·Sin(Pi/2 − i·stackStep) + Z` |
| Geometry.TexCoordAt | kg-opentk/Common/Sphere.cs:102-105 | The texture coordinate of (i, j) is `(j/SectorCount, i/StackCount)` and both parts are in [0, 1]; s is 0 exactly at j = 0 and 1 exactly at j = SectorCount, and t likewise for i and StackCount |
| Geometry.NorthPole | kg-opentk/Common/Sphere.cs:79-99 | If cos(Pi/2) = 0 and sin(Pi/2) = 1, every vertex of row 0 is (X, Y, Z+R) with normal (0, 0, 1) |
| Geometry.SouthPole | kg-opentk/Common/Sphere.cs:79-99 | If cos(−Pi/2) = 0 and sin(−Pi/2) = −1, every vertex of the last row is (X, Y, Z−R) with normal (0, 0, −1) |
| Geometry.Seam | kg-opentk/Common/Sphere.cs:82-105 | If cos and sin repeat after 2·Pi, the first and last vertex of each row have equal position and normal, with s = 0 and s = 1 and equal t |
| Interleaving.Block | kg-opentk/Common/Sphere.cs:43-58 | Defines what one pass of the packing loop appends for vertex k |
| Interleaving.Interleave | kg-opentk/Common/Sphere.cs:41-59 | Defines the packed buffer after the first count passes |
| Interleaving.InterleaveLength | kg-opentk/Common/Sphere.cs:41-59 | Packing n vertices gives `n · (3 + (isNormals ? 3 : 0) + (isTexCoords ? 2 : 0))` floats |
| Interleaving.InterleavePrefix | kg-opentk/Common/Sphere.cs:41-59 | Packing fewer vertices gives a prefix of the packed buffer: blocks appear in vertex order |
| Interleaving.InterleaveBlock | kg-opentk/Common/Sphere.cs:41-59 | Vertex k's block sits at offset `k · Stride` |
| Interleaving.InterleaveAt | kg-opentk/Common/Sphere.cs:43-57 | Inside vertex k's block come its 3 position floats, then its 3 normal floats if normals are packed, then its 2 texture floats (at offset 6 or 3) if texture coordinates are |
| Interleaving.InterleavePositionsOnly | kg-opentk/Common/Sphere.cs:41-59 | With both flags false, packing count vertices gives the first count vertices of the position list (`v[..3·count]`) |
| Interleaving.FetchOfSlots | kg-opentk/Common/Sphere.cs:41-59 | A strided reader whose slots match the first count width-float slots of a source list reads back that prefix (`src[..width·count]`) |
| Interleaving.FetchInterleave | kg-opentk/Common/Sphere.cs:41-59 | Round trip: reading the buffer packed for count vertices, with its stride, at offset 0, 3, and 6 (or 3 without normals), gives back the first count vertices of the position, normal and texture lists (`v[..3·count]`, `n[..3·count]`, `t[..2·count]`) |
| Interleaving.FetchPositions | kg-opentk/Common/Sphere.cs:43-45 | The position reader (offset 0) gives back the first count vertices of the position list (`v[..3·count]`) |
| Interleaving.FetchNormals | kg-opentk/Common/Sphere.cs:47-52 | The normal reader (offset 3) gives back the first count vertices of the normal list (`n[..3·count]`) |
| Interleaving.FetchTexCoords | kg-opentk/Common/Sphere.cs:54-58 | The texture reader (offset 6, or 3 without normals) gives back the first count vertices of the texture list (`t[..2·count]`) |
| Interleaving.InterleaveReaches | kg-opentk/Common/Sphere.cs:41-59 | Every reader whose offset and width fit in one block stays inside the packed buffer |
| Window.DrawCount | kg-opentk/Window.cs:126 | Defines the draw call's vertex count as the position list's length over 3 |
| Window.PositionOnlyUploadOverruns | kg-opentk/Window.cs:45-72 | The uploaded buffer (the position list alone) has `3·VertexCount` floats; the draw count is `VertexCount`; yet none of the three stride-8 pointers stays inside it for that many vertices |
| Window.InterleavedUploadFeedsAttributes | kg-opentk/Window.cs:59-72 | The stride-8 packing of the three lists has `8·VertexCount` floats, and the pointers at offsets 0, 3 and 6 read back exactly the position, normal and texture lists |
| Window.UploadBuffer | kg-opentk/Window.cs:45-72 | Uploading `GetSphere(true, true)` of a constructed sphere gives each attribute pointer its own list, for the drawn vertex count |

## Left out

- Floating point: lists hold `real`s. The `float` rounding of every product and sum, and of the casts
  `(float)j`, `(float)Math.Cos(…)`, and so on, is not modelled.
- Trigonometry: `Math.Cos` and `Math.Sin` are parameters, so no lemma relies on cos² + sin² = 1. Unit-length
  normals and "every vertex lies at distance R" are therefore not stated.
- Geometry.NorthPole: assumes cos(Pi/2) = 0 and sin(Pi/2) = 1 exactly. With `(float)Math.PI` the real
  library gives values only close to them.
- Geometry.SouthPole: assumes cos(−Pi/2) = 0 and sin(−Pi/2) = −1 exactly, for the same reason.
- Geometry.Seam: assumes cos and sin take equal values at 0 and 2·Pi exactly, for the same reason.
- Common.Sphere.constructor: requires `R != 0`. With `R = 0` the source computes `lengthInv = 1/0` (infinity)
  and, with `x`, `y` and `z` all zero, stores NaN (0·∞) in every normal component. That behaviour is not modelled.
- Common.Sphere.WithResolution: the source has no such constructor. Its counts are fixed field initialisers
  (2048 and 1024). This second constructor only makes other resolutions available to the lemmas, and it
  requires at least one sector and one stack because the generator divides by both counts.
- Common.Sphere.AddVertex: the source writes the inner-loop body inline. It is a separate method here only to
  keep the loop's proof small.
- `List<float>` capacity growth and `ToArray` are modelled as `seq<real>` values and fresh arrays.
- The default argument values `isNormals = true, isTexCoords = true` of `GetSphere`: every caller in the model
  passes both flags.
- Everything else in `kg-opentk/Window.cs`, and `kg-opentk/Program.cs`: the OpenGL calls, shaders,
  textures, camera, uniforms and event loop. Only the attribute layout and the uploaded buffer are modelled.
- Camera, Shader and Texture are not part of this model.
- Triangle indices: the sphere code generates no index buffer, so none is modelled.

## Findings

| source | as written | input that shows it | evidently intended | confidence | as-written member | corrected member |
|---|---|---|---|---|---|---|
| kg-opentk/Window.cs:45-72 | The buffer uploaded is `Sun.GetVertecies()`, 3 floats per vertex. The position, normal and texture pointers all use a stride of 8 floats, at offsets 0, 3 and 6. | Any sphere, e.g. the default `Sphere(1, 0, 0, 0)`. Its `VertexCount` is 2100225 and its buffer has 3·2100225 floats, but the position pointer needs `(2100225 − 1)·8 + 3` floats. | Upload `GetSphere(true, true)`, whose stride-8 layout the pointers describe. | not executed | Window.PositionOnlyUploadOverruns | Window.UploadBuffer |
