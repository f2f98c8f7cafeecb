# ProgrammablePulling: the mesh loader, buffer layouts and draw table

This project models the host side of the ProgrammablePulling demo, which
renders one OBJ mesh with 28 vertex-pulling modes. It covers four parts.

- **The WaveFront OBJ loader** (`WaveFrontObj`). It reads `v`, `vn` and `f`
  lines. Faces are split into triangles, and the face format (`v//n` or
  `v/t/n`) is fixed by the first face that matches a pattern.
  - Every face corner gets a vertex id for its `(v, n)` pair, numbered by
    first appearance. That id goes to `Indices`, and the pair's position and
    normal go to `Positions`/`Normals`.
  - The corner's raw position and normal are also looked up in value-deduplicated
    tables (`UniquePositions`/`UniqueNormals`), and those slots go to
    `PositionIndices`/`NormalIndices`.
  - The loop is modelled as a `while` loop over the lines. It calls
    `ProcessLine`, and `ProcessLine` calls `AddFace` for `f` lines. Both work on
    a value `Tables` that holds the output tables and the loader's caches. The
    specification function `LoadT` sits beside the loop. Lemmas prove what the
    tables mean: which data each index points at, that ids are numbered by
    first appearance, that the value tables have no duplicates, and that the
    index buffers form whole triangles.
- **`PerModel::load`** (`Layout.PerModel`). It loads a mesh and lays it out
  in the buffers the modes read:
  - index, position-index and normal-index buffers;
  - unique XYZW buffers;
  - the "assembly" index buffer, in which normal indices are tagged with the
    top bit;
  - interleaved, AoS, AoS-XYZW and SoA vertex buffers;
  - the size of the vertex cache buffer;
  - the per-mode draw-command table.

  Each buffer fill is a method, specified by a function on the mesh. Each of
  those functions has a round-trip lemma: the data can be read back out of
  the layout. The table fill copies some entries from others. It is proved
  equal, entry by entry, to a per-mode reference `DrawCommandFor`.
- **The soft vertex cache configuration** (`SoftCache`, and
  `Demo.BuddhaDemo.SetSoftVertexCacheConfig`). Setting a configuration does
  three things:
  - it computes the bucket count `1 << (bits - 1)` on a 32-bit `int`;
  - it computes the sizes of the bucket and bucket-locks buffers, with the
    casts of the source written out;
  - it builds the `#define` preamble for the soft-cache puller's vertex shader.

  Lemmas prove three things about the preamble. Each sizing macro reads back,
  through a model of `#define` lookup, as the value it was given. The
  miss-counter switch is present exactly when it is enabled. Decimal
  rendering round-trips.
- **`BuddhaDemo`** (`Demo`). Its constructor installs the default
  configuration. `addMesh` loads a model, appends it and returns its id.
  `renderScene` makes checks (asserts) before it draws. These checks hold for
  a mode exactly when the mode is not a puller mode or its draw count is
  non-zero.

Modules: `Wrappers` (Option), `Interning` (first-occurrence numbering),
`WaveFront`, `Layout`, `SoftCache` and `Demo`.

## Model

| member | source | states |
|---|---|---|
| WaveFront.Kind | ProgrammablePulling/wavefront.cpp:74-96 | A line is a `v` line exactly when it starts with `v` and a space, a `vn` line exactly when it starts with `vn`, and a face line exactly when it starts with `f`. |
| WaveFront.Step | ProgrammablePulling/wavefront.cpp:72-142 | Reading a line only appends to the positions, normals and corners read so far. A latched format is kept. A line adds at most one position or normal, or else 0, 3 or 6 corners, never both. |
| WaveFront.Parsed | ProgrammablePulling/wavefront.cpp:72-142 | A file gives at most one position or normal per line and at most six corners per line. |
| WaveFront.AddPosition | ProgrammablePulling/wavefront.cpp:74-84 | A `v` line appends its value to the raw positions. The value joins the unique positions exactly when it was not seen before. The raw normals and every output table are unchanged, and every raw value keeps its cache entry. |
| WaveFront.AddNormal | ProgrammablePulling/wavefront.cpp:85-95 | A `vn` line appends its value to the raw normals. The value joins the unique normals exactly when it was not seen before. The raw positions and every output table are unchanged, and every raw value keeps its cache entry. |
| WaveFront.AddCornerT | ProgrammablePulling/wavefront.cpp:121-139 | Adding one corner leaves the raw positions, raw normals and format unchanged, and every raw value keeps its cache entry. Its effect on the output tables is stated by `AddCornerKeepsInv`. |
| WaveFront.AddCornersT | ProgrammablePulling/wavefront.cpp:117-140 | Adding a face's corners leaves the raw positions, raw normals and format unchanged, and every raw value keeps its cache entry. Its effect on the output tables is stated by `AddCornersKeepsInv`. |
| WaveFront.StepT | ProgrammablePulling/wavefront.cpp:72-142 | One line's table update keeps a cache entry for every raw value. How it moves the raw tables is stated by `StepTracksParse`, and the invariant it keeps by `LoadKeepsInv`. |
| Interning.IdsMatchOccurrences | ProgrammablePulling/wavefront.cpp:124-136 | Two elements of a sequence get the same first-appearance id exactly when they are equal. Applied to the corners' `(v, n)` pairs, this is how the index cache numbers vertices. |
| WaveFront.ScanFace | ProgrammablePulling/wavefront.cpp:97-115 | The result always has four vertex and four normal slots. A latched format is kept. While the format is unknown, the `v//n` pattern wins when it assigns at least 6 values, then `v/t/n` when it assigns at least 9, else the format stays unknown. |
| WaveFront.FaceCorners | ProgrammablePulling/wavefront.cpp:117-123 | A face whose fourth vertex index is 0 gives the corners 0,1,2. Any other face gives the corners 0,1,2,0,2,3. |
| WaveFront.AddCornersSnoc | ProgrammablePulling/wavefront.cpp:119-140 | Adding the corners of a face one at a time, in order, equals adding them all. Every corner still fits the tables after the earlier ones are added. |
| WaveFront.StepTracksParse | ProgrammablePulling/wavefront.cpp:72-142 | One line's table update moves the raw positions, raw normals and format exactly as the line-by-line reading `Step` does. |
| WaveFront.LoadT | ProgrammablePulling/wavefront.cpp:72-142 | The tables after a file have every raw value in its value cache. Their raw positions, raw normals and format are the ones the lines define. |
| WaveFront.PairCacheAdd | ProgrammablePulling/wavefront.cpp:126-136 | Inserting a corner into the `(v, n)` cache keeps it mapping each distinct pair to its first-appearance id. A new pair gets the next id. |
| WaveFront.ValueTableSnoc | ProgrammablePulling/wavefront.cpp:77-94 | Reading a value keeps the unique table equal to the distinct raw values, with its id map. A new value is appended at the next slot. |
| WaveFront.SlotIsIndexOf | ProgrammablePulling/wavefront.cpp:138-139 | The slot the `find` lookup returns for a raw value is the first index of that value in the unique table. |
| WaveFront.AddCornerKeepsInv | ProgrammablePulling/wavefront.cpp:121-139 | Adding one corner keeps the loader invariant, extended by that corner. |
| WaveFront.AddCornersKeepsInv | ProgrammablePulling/wavefront.cpp:117-140 | Adding a face's corners keeps the loader invariant, extended by those corners. |
| WaveFront.AddPositionKeepsInv | ProgrammablePulling/wavefront.cpp:74-84 | A `v` line keeps the loader invariant. |
| WaveFront.AddNormalKeepsInv | ProgrammablePulling/wavefront.cpp:85-95 | A `vn` line keeps the loader invariant. |
| WaveFront.InvIgnoresFormat | ProgrammablePulling/wavefront.cpp:101-115 | Latching the face format does not disturb the loader invariant. |
| WaveFront.LoadKeepsInv | ProgrammablePulling/wavefront.cpp:72-142 | After any loadable file, the tables satisfy the loader invariant for the corners of all its faces. |
| WaveFront.ProcessLine | ProgrammablePulling/wavefront.cpp:74-141 | Processing one line gives the specified one-line update: `v`, `vn`, `f` or ignored. |
| WaveFront.AddFace | ProgrammablePulling/wavefront.cpp:117-140 | The loop over a face's corners adds exactly its triangulated corners, in order. |
| WaveFront.LoadablePrefix | ProgrammablePulling/wavefront.cpp:72-142 | Every prefix of a loadable file is loadable. |
| WaveFront.LoadNextLine | ProgrammablePulling/wavefront.cpp:72-73 | Reading line `i` after the first `i` lines gives the tables of the first `i + 1` lines, and line `i` names only data already read. |
| WaveFront.WaveFrontObj.constructor | ProgrammablePulling/wavefront.cpp:22-146 | The members hold the tables of the file. A file that cannot be opened leaves every table empty. |
| WaveFront.CornersFormTriangles | ProgrammablePulling/wavefront.cpp:117-119 | The number of face corners read is always a multiple of three. |
| WaveFront.FormatLatches | ProgrammablePulling/wavefront.cpp:101-115 | Once a face has fixed the format, later lines never change it. |
| WaveFront.LatchedFormatIgnoresOtherPattern | ProgrammablePulling/wavefront.cpp:101-115 | Under a latched format, only that format's pattern affects how a face is read. |
| WaveFront.IgnoredLineChangesNothing | ProgrammablePulling/wavefront.cpp:72-96 | A line that is not `v`, `vn` or `f` leaves everything read unchanged. |
| WaveFront.LineKinds | ProgrammablePulling/wavefront.cpp:74-96 | `v ` lines are positions, `vn` lines normals and `f` lines faces. `vt`, comment and empty lines are ignored. |
| WaveFront.CornerData | ProgrammablePulling/wavefront.cpp:121-139 | Under the loader invariant, a corner's vertex id and both slots lie in range. They point at the corner's raw position and raw normal. |
| WaveFront.IndicesPointAtCornerData | ProgrammablePulling/wavefront.cpp:121-139 | For every corner of a loaded file, `Indices` selects its position and normal in `Positions`/`Normals`. `PositionIndices` and `NormalIndices` select them in the unique tables. All indices are in range. |
| WaveFront.VertexIdsByFirstAppearance | ProgrammablePulling/wavefront.cpp:124-136 | Two corners share a vertex id exactly when they have the same `(v, n)` pair. A pair seen for the first time gets the number of distinct pairs before it. |
| WaveFront.TablesAreDistinct | ProgrammablePulling/wavefront.cpp:77-94 | There is one vertex per distinct pair. The unique tables have no duplicates. They hold exactly the raw values read. |
| WaveFront.IndexBuffersFormTriangles | ProgrammablePulling/wavefront.cpp:117-139 | The three index buffers have one entry per corner, and their length is a multiple of three. |
| Interning.Distinct | ProgrammablePulling/wavefront.cpp:128-133 | The distinct elements hold exactly the elements of the input, and there are no more of them. |
| Interning.IndexOf | ProgrammablePulling/wavefront.cpp:138-139 | The position found holds the value searched for. |
| Interning.IndexOfIsFirst | ProgrammablePulling/wavefront.cpp:138-139 | No earlier position holds the value. |
| Interning.DistinctHasNoDuplicates | ProgrammablePulling/wavefront.cpp:128-133 | The distinct elements contain no duplicates. |
| Interning.Ids | ProgrammablePulling/wavefront.cpp:57-58 | The id map has exactly the distinct values as keys. Each id is the value's slot. |
| Interning.IdsSnoc | ProgrammablePulling/wavefront.cpp:79-83 | Appending a new value gives it the next id and keeps the others. |
| Interning.DistinctSnoc | ProgrammablePulling/wavefront.cpp:128-133 | Appending a seen value keeps the distinct elements. Appending a new one adds it at the end. |
| Interning.DistinctPrefix | ProgrammablePulling/wavefront.cpp:128-133 | The distinct elements of a prefix are a prefix of the distinct elements of the whole. |
| Interning.IndexOfPrefix | ProgrammablePulling/wavefront.cpp:138-139 | Extending a sequence does not move a value's first index. |
| Interning.IndexOfDistinctSlot | ProgrammablePulling/wavefront.cpp:138-139 | In a duplicate-free sequence, each slot is its value's first index. |
| Interning.FirstOccurrenceId | ProgrammablePulling/wavefront.cpp:129-133 | A first occurrence gets as its id the count of distinct elements before it. |
| Interning.DistinctGrows | ProgrammablePulling/wavefront.cpp:129-133 | A first occurrence adds one distinct element. |
| Interning.DistinctLonger | ProgrammablePulling/wavefront.cpp:129-133 | After a first occurrence, later prefixes have strictly more distinct elements. |
| Interning.FirstOccurrencesIncrease | ProgrammablePulling/wavefront.cpp:129-133 | Ids of first occurrences increase in order of appearance. |
| Layout.ToInt32 | ProgrammablePulling/buddha.cpp:246 | The `int` conversion lies in the 32-bit range and agrees with its argument modulo 2^32. |
| Layout.SmallToInt32 | ProgrammablePulling/buddha.cpp:707 | A size below 2^31 converts to `int` unchanged. |
| Layout.FillXYZW | ProgrammablePulling/buddha.cpp:250-257 | The filled array is the input with `w` appended to every vertex. |
| Layout.FillAssemblyIndices | ProgrammablePulling/buddha.cpp:287-292 | The filled array alternates position indices with normal indices that carry the top bit. |
| Layout.FillInterleaved | ProgrammablePulling/buddha.cpp:310-319 | The filled array pairs each position with the normal at the same index. |
| Layout.FillSoA | ProgrammablePulling/buddha.cpp:399-410 | The filled array is the chosen component (position x/y/z or normal x/y/z) of every vertex. |
| Layout.WidenedRoundTrip | ProgrammablePulling/buddha.cpp:250-274 | An XYZW buffer has one entry per vertex. Dropping `w` gives back the vertex, and every `w` is the constant. |
| Layout.InterleavedRoundTrip | ProgrammablePulling/buddha.cpp:310-319 | The positions and normals can be read back out of the interleaved records. |
| Layout.SoARoundTrip | ProgrammablePulling/buddha.cpp:386-410 | The six SoA buffers have one entry per vertex and give back every position and normal. |
| Layout.AssemblySlots | ProgrammablePulling/buddha.cpp:287-292 | For a position index and a normal index both below 2^31: even slots are untagged position indices. Odd slots are tagged and, once untagged, give the normal indices. |
| Layout.AssemblyRoundTrip | ProgrammablePulling/buddha.cpp:287-292 | For indices below 2^31, splitting the assembly buffer gives back both index lists. |
| Layout.ModeAtIndex | ProgrammablePulling/buddha.cpp:492-581 | Every mode has its own slot in the draw table. |
| Layout.IndexOfModeAt | ProgrammablePulling/buddha.cpp:492-581 | Every slot of the draw table belongs to a mode. |
| Layout.SetFixedFunctionCommands | ProgrammablePulling/buddha.cpp:492-506 | The four fixed-function entries are configured, and no other entry changes. |
| Layout.SetFetcherCommands | ProgrammablePulling/buddha.cpp:508-534 | The ten fetcher entries are configured or copied from their source entry, and no other entry changes. |
| Layout.SetPullerCommands | ProgrammablePulling/buddha.cpp:536-562 | The ten puller entries are configured or copied from their source entry, and no other entry changes. |
| Layout.SetObjAndAssemblerCommands | ProgrammablePulling/buddha.cpp:564-581 | The OBJ-puller and assembler entries are configured, and no other entry changes. |
| Layout.FillDrawCommands | ProgrammablePulling/buddha.cpp:492-581 | Every mode's entry is its source entry configured for that mode. |
| Layout.CopiedEntriesMatch | ProgrammablePulling/buddha.cpp:511-558 | A copied entry equals one configured for the mode it is copied into. |
| Layout.FreshTableEntries | ProgrammablePulling/buddha.cpp:55-68 | On a table of default commands, the fill makes every entry the reference command of its mode. |
| Layout.DrawTypes | ProgrammablePulling/buddha.cpp:492-581 | No mode is left with an unknown draw type. Puller modes draw arrays. Fixed-function, fetcher and assembler modes draw elements. |
| Layout.DrawCounts | ProgrammablePulling/buddha.cpp:494-581 | The count is the number of indices modulo 2^32. OBJ pullers use the number of position indices, and assemblers twice that, modulo 2^32. |
| Layout.DoubleModulo | ProgrammablePulling/buddha.cpp:575 | Doubling the truncated size in `GLuint` equals doubling and then truncating. |
| Layout.PatchSetup | ProgrammablePulling/buddha.cpp:572-581 | Only the tessellation assembler draws patches, with 6 vertices per patch. Only the geometry-shader assembler draws triangles with adjacency. Every other mode has 0 patch vertices. |
| Layout.MeshShape | ProgrammablePulling/buddha.cpp:217 | A loaded mesh has as many normals as positions and three index buffers of equal length, a multiple of three. |
| Layout.RenderAssertsFor | ProgrammablePulling/buddha.cpp:1145-1185 | A mode's reference command passes the draw asserts exactly when the mode is not a puller mode or its count is non-zero. |
| Layout.LoadedMeshPassesRenderAsserts | ProgrammablePulling/buddha.cpp:1145-1185 | A non-empty mesh with fewer than 2^32 indices passes the asserts in every mode. A file that cannot be opened fails them in every puller mode. |
| Layout.VertexCacheHoldsEveryDrawnVertex | ProgrammablePulling/buddha.cpp:654-657 | The vertex cache buffer has 48 bytes for every vertex the soft-cache OBJ puller draws. |
| Layout.PerModel.constructor | ProgrammablePulling/buddha.cpp:55-68 | A new model has a 28-entry table of default draw commands. |
| Layout.PerModel.UploadSoABuffers | ProgrammablePulling/buddha.cpp:385-418 | Each of the six SoA buffers holds its component of every vertex. |
| Layout.PerModel.StoreIndexBuffers | ProgrammablePulling/buddha.cpp:219-299 | The three index buffers hold the loader's lists. `numUniqueVerts` is the position-index count as an `int`. It also fills the assembly buffer and the vertex cache size. |
| Layout.PerModel.StoreUniqueBuffers | ProgrammablePulling/buddha.cpp:248-283 | The unique buffers are the unique tables widened with `w` = 1 for positions and 0 for normals. |
| Layout.PerModel.StoreVertexBuffers | ProgrammablePulling/buddha.cpp:301-418 | The interleaved, AoS, AoS-XYZW and SoA buffers hold the loader's positions and normals. |
| Layout.PerModel.Store | ProgrammablePulling/buddha.cpp:219-581 | The model holds every layout of the tables, and the draw table is filled for them. |
| Layout.PerModel.Load | ProgrammablePulling/buddha.cpp:215-658 | After loading a file, the model holds the layouts of its tables and the filled draw table. |
| SoftCache.Log2Pow2 | ProgrammablePulling/buddha.cpp:878 | The logarithm of 2^k is k. |
| SoftCache.NumBuckets | ProgrammablePulling/buddha.cpp:896 | For up to 31 bits, the bucket count is the power of two 2^(bits-1). For 32 bits, the shift lands on the sign bit and gives the most negative `int`. |
| SoftCache.Pow2Bound | ProgrammablePulling/buddha.cpp:896 | 2^k is below 2^31 for k < 31 and equals it for k = 31. |
| SoftCache.Pow2Add | ProgrammablePulling/buddha.cpp:896 | 2^(a+b) = 2^a * 2^b. |
| SoftCache.DefaultBuckets | ProgrammablePulling/buddha.cpp:692-699 | The default configuration has 2^19 buckets. |
| SoftCache.BucketSizeInBytes | ProgrammablePulling/buddha.cpp:895 | The bucket size fits a `GLsizei` and, for counts that do not overflow, is 16 bytes per entry. |
| SoftCache.BucketLocksBufferBytes | ProgrammablePulling/buddha.cpp:906 | For up to 31 bits, the locks buffer has 4 bytes per bucket. |
| SoftCache.BufferSizes | ProgrammablePulling/buddha.cpp:895-908 | The buckets buffer has four dwords per entry, the configured number of entries per bucket, and 2^(bits-1) buckets. The locks buffer has one `GLuint` per bucket. |
| SoftCache.DefaultSizes | ProgrammablePulling/buddha.cpp:692-699 | The default configuration gives 32-byte buckets, a 16 MiB buckets buffer and a 2 MiB locks buffer, with no overflow. |
| SoftCache.ParseNatToString | ProgrammablePulling/buddha.cpp:878-882 | Reading back a rendered natural number gives the number. |
| SoftCache.ParseIntToString | ProgrammablePulling/buddha.cpp:878-882 | Reading back a rendered integer, negative ones included, gives the integer. |
| SoftCache.SizingLine | ProgrammablePulling/buddha.cpp:878-882 | Every sizing macro has a line in the preamble order. |
| SoftCache.DefineTextAppend | ProgrammablePulling/buddha.cpp:884-887 | Appending the switch line after the defines equals writing the defines in front of it. |
| SoftCache.DefineLineRoundTrip | ProgrammablePulling/buddha.cpp:878-882 | A `#define NAME VALUE` line defines NAME as VALUE. |
| SoftCache.OtherDefineIgnored | ProgrammablePulling/buddha.cpp:878-882 | A line defining a different name does not define NAME. |
| SoftCache.NamesDiffer | ProgrammablePulling/buddha.cpp:878-882 | The five macro names differ pairwise. |
| SoftCache.PreambleLines | ProgrammablePulling/buddha.cpp:877-887 | The preamble is the five define lines in order, followed by the switch line only when the miss counter is enabled. |
| SoftCache.PreambleDefinesSizes | ProgrammablePulling/buddha.cpp:877-882 | Looking up each sizing macro in the preamble gives its configured value. |
| SoftCache.PreambleCounterSwitch | ProgrammablePulling/buddha.cpp:884-887 | The preamble contains the miss-counter switch line exactly when the counter is enabled. |
| Demo.CheckDrawCommand | ProgrammablePulling/buddha.cpp:1145-1185 | The checks pass exactly when the patch-vertex and draw-type asserts all hold. |
| Demo.LoadedModel | ProgrammablePulling/buddha.cpp:704-705 | A freshly made model, once loaded, holds the layouts of the file and the reference draw command for every mode. |
| Demo.BuddhaDemo.constructor | ProgrammablePulling/buddha.cpp:660-700 | There are no models. The default configuration is installed, and `GetSoftVertexCacheConfig` returns it, with its preamble and buffer sizes. |
| Demo.BuddhaDemo.GetSoftVertexCacheConfig | ProgrammablePulling/buddha.cpp:868-909 | Returns the stored configuration. The getter reads back what the setter stored: `SetSoftVertexCacheConfig` ensures the getter then returns its argument, and the constructor ensures it returns the default configuration. |
| Demo.BuddhaDemo.SetSoftVertexCacheConfig | ProgrammablePulling/buddha.cpp:873-909 | Stores the configuration, so that `GetSoftVertexCacheConfig` returns it. The preamble and both buffer sizes become the ones derived from it. |
| Demo.BuddhaDemo.SetDefaultSoftVertexCacheConfig | ProgrammablePulling/buddha.cpp:692-699 | Installs the default configuration and its derived state. |
| Demo.BuddhaDemo.AddMesh | ProgrammablePulling/buddha.cpp:702-708 | Appends one fresh model loaded from the file and keeps every earlier model. Returns the new size minus one as an `int`, which is the new model's index while the count fits an `int`. The cache configuration, preamble and buffer sizes are untouched. |
| Demo.BuddhaDemo.RenderChecks | ProgrammablePulling/buddha.cpp:949-1185 | The command drawn is the model's reference command for the mode. It passes the asserts exactly when the mode is not a puller mode or its count is non-zero. |

## Left out

- OpenGL itself is left out: buffer and texture names, `glBufferStorage`, vertex array setup (buddha.cpp:420-490), texture buffers (583-652) and `glUnmapBuffer` (281). Buffers are modelled by their contents, and vertex arrays by the role each mode's command names.
- The `(GLsizei)` byte-size casts of `load` are left out. Only the data placed in buffers and the draw counts are modelled.
- `sscanf` and float parsing are left out. Each line carries its text and a `Scan` record of what the `sscanf` calls assign.
- Floats are modelled as reals. The loader's `std::set` of `uniquevec3` orders floats with `<`, and the model treats two values as the same exactly when they are equal. NaN and signed zero behave differently.
- File reading and printing are left out. A file is `Option<seq<ObjLine>>`, and `None` is a file that cannot be opened.
- WaveFront.WaveFrontObj.constructor: requires every face to name only positions and normals already read (`Loadable`). The loader indexes the raw tables unchecked, so an out-of-range face is undefined behaviour.
- WaveFront.WaveFrontObj.constructor: the vertex id counter is a `GLuint`. Its wrap-around after 2^32 distinct pairs is not modelled.
- WaveFront.AddPosition, WaveFront.AddNormal: the unique-table slots are taken as `(uint32_t)UniquePositions.size()` and `(uint32_t)UniqueNormals.size()` (wavefront.cpp:79, 90), and the index buffers hold `uint32_t`. The model uses unbounded slots, so a wrap after 2^32 distinct values is not modelled.
- The unused `IndexGroup::operator==` (wavefront.cpp:28-30) is not modelled, since `std::set` uses only `operator<`.
- Layout.AssemblyRoundTrip: only holds for indices below 2^31. A larger normal index collides with the tag bit.
- Shader loading and the reload of the soft-cache puller program in `SetSoftVertexCacheConfig` (buddha.cpp:889-893) are left out. The preamble it passes is modelled.
- SoftCache.PreambleDefinesSizes: the GLSL preprocessor is abstracted to the first `#define NAME VALUE` line for a name.
- Demo.BuddhaDemo.SetSoftVertexCacheConfig: requires `1 <= NumCacheBucketBits <= 32` and that the `int` products do not overflow (`SizesDefined`). Outside that range the C++ is undefined behaviour.
- SoftCache.BufferSizes: stated only for at most 31 bucket bits and fewer than 2^27 entries per bucket. The 32-bit case is covered by `NumBuckets`.
- Demo.BuddhaDemo.RenderChecks: requires `0 <= meshID < |models|`, because `models[meshID]` (buddha.cpp:949) is unchecked. The GL draw calls, camera, timing queries and per-mode buffer bindings of `renderScene` are left out.
- Demo.BuddhaDemo.AddMesh: `PerModel` objects are copied into the vector in C++. Here each model is a fresh object that the demo references.
- main.cpp is not part of this model.
- The declaration of `SoftVertexCacheConfig` is not part of this model. Its five numeric fields are taken to be 32-bit `int`s. `SizesDefined` (signed overflow as undefined behaviour) and the decimal text of `std::to_string` rest on that.
- The mode enumeration in buddha.h lists only the first 24 modes. The model adds `PULLER_OBJ`, `PULLER_OBJ_SOFTCACHE`, `GS_ASSEMBLER` and `TS_ASSEMBLER` as slots 24-27, the modes buddha.cpp uses.
