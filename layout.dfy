/**
  The host-side buffer layouts that `BuddhaDemo::PerModel::load` builds from
  a loaded OBJ mesh before handing them to OpenGL, and the per-mode table of
  draw commands it fills in.

  Every buffer is modelled by the contents of the host array passed to
  `glBufferStorage`; the GL object names themselves are not modelled.
*/
module Layout {
  import opened Wrappers
  import opened WaveFront

  // ---------------------------------------------------------------------
  // 32-bit unsigned words
  // ---------------------------------------------------------------------

  /** A value of C++ type `GLuint`. */
  type GLuint = x: int | 0 <= x < 0x1_0000_0000

  /** The conversion `(GLuint)n`: reduction modulo 2^32. */
  function ToGLuint(n: int): GLuint {
    n % 0x1_0000_0000
  }

  /** The conversion `int(n)` of a size to a 32-bit signed `int`. */
  function ToInt32(n: int): (r: int)
    ensures -0x8000_0000 <= r < 0x8000_0000
    ensures (r - n) % 0x1_0000_0000 == 0
  {
    var w := n % 0x1_0000_0000;
    if w < 0x8000_0000 then w else w - 0x1_0000_0000
  }

  /** A size below 2^31 converts to itself. */
  lemma SmallToInt32(n: int)
    requires 0 <= n < 0x8000_0000
    ensures ToInt32(n) == n
  {
    assert n % 0x1_0000_0000 == n;
  }

  /** Bit 31, the tag of a normal index in the assembly stream. */
  const NormalTag: GLuint := 0x8000_0000

  /** `x | 0x80000000` on a 32-bit word: bit 31 is added unless it is set. */
  function TagNormal(x: GLuint): GLuint {
    if x < NormalTag then x + NormalTag else x
  }

  /** Whether bit 31 of a word is set. */
  predicate IsTagged(w: GLuint) {
    w >= NormalTag
  }

  /** `w & 0x7FFFFFFF`: the word with bit 31 cleared. */
  function Untag(w: GLuint): GLuint {
    w % NormalTag
  }

  // ---------------------------------------------------------------------
  // Vertex records
  // ---------------------------------------------------------------------

  /** A `glm::vec4`. */
  datatype Vec4 = Vec4(x: real, y: real, z: real, w: real)

  /** One record of the AoS interleaved buffer (the local `Interleaved` struct). */
  datatype Interleaved = Interleaved(position: Vec3, normal: Vec3)

  /** A `vec3` copied into a `vec4` with the given fourth component. */
  function Widen(v: Vec3, w: real): Vec4 {
    Vec4(v.x, v.y, v.z, w)
  }

  /** The first three components of a `vec4`. */
  function Narrow(v: Vec4): Vec3 {
    Vec3(v.x, v.y, v.z)
  }

  /** The XYZW copy of a buffer of `vec3`s. */
  function Widened(vs: seq<Vec3>, w: real): seq<Vec4> {
    seq(|vs|, i requires 0 <= i < |vs| => Widen(vs[i], w))
  }

  /** The fourth component used for positions (a point) and normals (a direction). */
  const PositionW: real := 1.0
  const NormalW: real := 0.0

  /** The records of the AoS interleaved buffer, one per vertex. */
  function InterleavedRecords(positions: seq<Vec3>, normals: seq<Vec3>): seq<Interleaved>
    requires |positions| <= |normals|
  {
    seq(|positions|, i requires 0 <= i < |positions| => Interleaved(positions[i], normals[i]))
  }

  /** The assembly index stream: corner `i` occupies slots `2i` (its
      position slot) and `2i+1` (its normal slot, tagged with bit 31). */
  function AssemblyIndices(positionIndices: seq<nat>, normalIndices: seq<nat>): seq<GLuint>
    requires |positionIndices| == |normalIndices|
  {
    seq(2 * |positionIndices|, k requires 0 <= k < 2 * |positionIndices| =>
      if k % 2 == 0 then ToGLuint(positionIndices[k / 2])
      else TagNormal(ToGLuint(normalIndices[k / 2])))
  }

  /** The six SoA buffers, in the order px, py, pz, nx, ny, nz. */
  type SoAIndex = k: nat | k < 6

  /** Component `k` of the vertex made of `p` and `n`. */
  function SoAValue(p: Vec3, n: Vec3, k: SoAIndex): real {
    match k
    case 0 => p.x
    case 1 => p.y
    case 2 => p.z
    case 3 => n.x
    case 4 => n.y
    case 5 => n.z
  }

  /** The contents of SoA buffer `k`: component `k` of every vertex. */
  function SoAComponent(positions: seq<Vec3>, normals: seq<Vec3>, k: SoAIndex): seq<real>
    requires |positions| <= |normals|
  {
    seq(|positions|, i requires 0 <= i < |positions| => SoAValue(positions[i], normals[i], k))
  }

  // ---------------------------------------------------------------------
  // Fill loops
  // ---------------------------------------------------------------------

  /** The loops that widen a `vec3` buffer to XYZW. */
  method FillXYZW(vs: seq<Vec3>, w: real) returns (a: array<Vec4>)
    ensures a[..] == Widened(vs, w)
  {
    a := new Vec4[|vs|];
    for i := 0 to |vs|
      invariant forall k :: 0 <= k < i ==> a[k] == Widen(vs[k], w)
    {
      a[i] := Vec4(vs[i].x, vs[i].y, vs[i].z, w);
    }
  }

  /** The loop that builds the assembly index stream. */
  method FillAssemblyIndices(positionIndices: seq<nat>, normalIndices: seq<nat>) returns (a: array<GLuint>)
    requires |positionIndices| == |normalIndices|
    ensures a[..] == AssemblyIndices(positionIndices, normalIndices)
  {
    a := new GLuint[|positionIndices| + |normalIndices|];
    for i := 0 to |positionIndices|
      invariant forall k :: 0 <= k < 2 * i ==> a[k] == AssemblyIndices(positionIndices, normalIndices)[k]
    {
      a[i * 2 + 0] := ToGLuint(positionIndices[i]);
      a[i * 2 + 1] := TagNormal(ToGLuint(normalIndices[i]));
    }
  }

  /** The loop that builds the AoS interleaved records. */
  method FillInterleaved(positions: seq<Vec3>, normals: seq<Vec3>) returns (a: array<Interleaved>)
    requires |positions| <= |normals|
    ensures a[..] == InterleavedRecords(positions, normals)
  {
    a := new Interleaved[|positions|];
    for i := 0 to |positions|
      invariant forall k :: 0 <= k < i ==> a[k] == Interleaved(positions[k], normals[k])
    {
      a[i] := Interleaved(positions[i], normals[i]);
    }
  }

  /** The inner loop that fills SoA buffer `soaIdx`. */
  method FillSoA(positions: seq<Vec3>, normals: seq<Vec3>, soaIdx: SoAIndex) returns (buf: array<real>)
    requires |positions| <= |normals|
    ensures buf[..] == SoAComponent(positions, normals, soaIdx)
  {
    buf := new real[|positions|];
    for i := 0 to |positions|
      invariant forall k :: 0 <= k < i ==> buf[k] == SoAValue(positions[k], normals[k], soaIdx)
    {
      buf[i] :=
        if soaIdx == 0 then positions[i].x
        else if soaIdx == 1 then positions[i].y
        else if soaIdx == 2 then positions[i].z
        else if soaIdx == 3 then normals[i].x
        else if soaIdx == 4 then normals[i].y
        else normals[i].z;
    }
  }

  // ---------------------------------------------------------------------
  // What the layouts preserve
  // ---------------------------------------------------------------------

  /** Widening keeps x, y and z and sets w: dropping w gives back the input. */
  lemma WidenedRoundTrip(vs: seq<Vec3>, w: real)
    ensures |Widened(vs, w)| == |vs|
    ensures forall i :: 0 <= i < |vs| ==> Narrow(Widened(vs, w)[i]) == vs[i] && Widened(vs, w)[i].w == w
  {
  }

  /** Reading the positions and the normals back out of the interleaved records
      gives the two input buffers. */
  lemma InterleavedRoundTrip(positions: seq<Vec3>, normals: seq<Vec3>)
    requires |positions| == |normals|
    ensures var r := InterleavedRecords(positions, normals);
      && seq(|r|, i requires 0 <= i < |r| => r[i].position) == positions
      && seq(|r|, i requires 0 <= i < |r| => r[i].normal) == normals
  {
  }

  /** The six SoA buffers have one entry per vertex, and the three position
      buffers and the three normal buffers put each vertex back together. */
  lemma SoARoundTrip(positions: seq<Vec3>, normals: seq<Vec3>, i: nat)
    requires |positions| <= |normals| && i < |positions|
    ensures forall k: SoAIndex :: |SoAComponent(positions, normals, k)| == |positions|
    ensures Vec3(SoAComponent(positions, normals, 0)[i], SoAComponent(positions, normals, 1)[i],
                 SoAComponent(positions, normals, 2)[i]) == positions[i]
    ensures Vec3(SoAComponent(positions, normals, 3)[i], SoAComponent(positions, normals, 4)[i],
                 SoAComponent(positions, normals, 5)[i]) == normals[i]
  {
  }

  /** Position slots of the assembly stream are never tagged and normal slots
      always are; clearing the tag of a normal slot gives back the normal
      index, as long as indices stay below 2^31. */
  lemma AssemblySlots(positionIndices: seq<nat>, normalIndices: seq<nat>, i: nat)
    requires |positionIndices| == |normalIndices| && i < |positionIndices|
    requires positionIndices[i] < 0x8000_0000 && normalIndices[i] < 0x8000_0000
    ensures var a := AssemblyIndices(positionIndices, normalIndices);
      && |a| == |positionIndices| + |normalIndices|
      && !IsTagged(a[2 * i]) && a[2 * i] == positionIndices[i]
      && IsTagged(a[2 * i + 1]) && Untag(a[2 * i + 1]) == normalIndices[i]
  {
    var a := AssemblyIndices(positionIndices, normalIndices);
    assert a[2 * i + 1] == TagNormal(ToGLuint(normalIndices[i]));
  }

  /** Splitting the assembly stream on bit 31 gives back both index buffers. */
  function Deassemble(a: seq<GLuint>): (seq<nat>, seq<nat>)
    requires |a| % 2 == 0
  {
    (seq(|a| / 2, i requires 0 <= i < |a| / 2 => a[2 * i] as nat),
     seq(|a| / 2, i requires 0 <= i < |a| / 2 => Untag(a[2 * i + 1]) as nat))
  }

  lemma AssemblyRoundTrip(positionIndices: seq<nat>, normalIndices: seq<nat>)
    requires |positionIndices| == |normalIndices|
    requires forall i :: 0 <= i < |positionIndices| ==> positionIndices[i] < 0x8000_0000
    requires forall i :: 0 <= i < |normalIndices| ==> normalIndices[i] < 0x8000_0000
    ensures |AssemblyIndices(positionIndices, normalIndices)| % 2 == 0
    ensures Deassemble(AssemblyIndices(positionIndices, normalIndices)) == (positionIndices, normalIndices)
  {
    var a := AssemblyIndices(positionIndices, normalIndices);
    var (p, n) := Deassemble(a);
    forall i | 0 <= i < |positionIndices|
      ensures p[i] == positionIndices[i] && n[i] == normalIndices[i]
    {
      AssemblySlots(positionIndices, normalIndices, i);
    }
    assert p == positionIndices && n == normalIndices;
  }

  // ---------------------------------------------------------------------
  // The draw-command table
  // ---------------------------------------------------------------------

  /** The vertex pulling modes, grouped by how they fetch vertices. */
  datatype Mode =
    | FixedFunction(layout: FixedLayout)  // fixed-function vertex pulling
    | Fetcher(fetcher: FetchVariant)      // attributes fetched by gl_VertexID through the index buffer
    | Puller(puller: FetchVariant)        // index buffer read by gl_VertexID, attributes fetched with it
    | PullerObj(softCache: bool)          // OBJ position and normal indices pulled directly
    | Assembler(stage: AssemblerStage)    // assembly index stream drawn as patches of six

  datatype FixedLayout = FixedAoS | FixedAoSXYZW | FixedSoA | FixedInterleaved

  datatype FetchVariant =
    | AoS1RGBAFetch | AoS1RGBFetch | AoS3Fetch | SoAFetch
    | ImageAoS1Fetch | ImageAoS3Fetch | ImageSoAFetch
    | SSBOAoS1Fetch | SSBOAoS3Fetch | SSBOSoAFetch

  datatype AssemblerStage = GeometryShader | TessellationShader

  /** `NUMBER_OF_MODES_INCLUDING_DISABLED_ONES`, the size of the table. */
  const NumModes: nat := 28

  function FixedLayoutIndex(l: FixedLayout): (i: nat)
    ensures i < 4
  {
    match l
    case FixedAoS => 0
    case FixedAoSXYZW => 1
    case FixedSoA => 2
    case FixedInterleaved => 3
  }

  function FetchVariantIndex(v: FetchVariant): (i: nat)
    ensures i < 10
  {
    match v
    case AoS1RGBAFetch => 0
    case AoS1RGBFetch => 1
    case AoS3Fetch => 2
    case SoAFetch => 3
    case ImageAoS1Fetch => 4
    case ImageAoS3Fetch => 5
    case ImageSoAFetch => 6
    case SSBOAoS1Fetch => 7
    case SSBOAoS3Fetch => 8
    case SSBOSoAFetch => 9
  }

  /** The enumeration value of a mode, its slot in the table: the
      fixed-function modes first, then the fetchers, the pullers, the two OBJ
      pullers and the two assemblers. */
  function ModeIndex(m: Mode): (i: nat)
    ensures i < NumModes
  {
    match m
    case FixedFunction(l) => FixedLayoutIndex(l)
    case Fetcher(v) => 4 + FetchVariantIndex(v)
    case Puller(v) => 14 + FetchVariantIndex(v)
    case PullerObj(softCache) => if softCache then 25 else 24
    case Assembler(stage) => if stage == GeometryShader then 26 else 27
  }

  /** The mode with a given enumeration value. */
  function ModeAt(i: nat): Mode
    requires i < NumModes
  {
    var variants := [AoS1RGBAFetch, AoS1RGBFetch, AoS3Fetch, SoAFetch, ImageAoS1Fetch,
                     ImageAoS3Fetch, ImageSoAFetch, SSBOAoS1Fetch, SSBOAoS3Fetch, SSBOSoAFetch];
    if i < 4 then FixedFunction([FixedAoS, FixedAoSXYZW, FixedSoA, FixedInterleaved][i])
    else if i < 14 then Fetcher(variants[i - 4])
    else if i < 24 then Puller(variants[i - 14])
    else if i < 26 then PullerObj(i == 25)
    else Assembler(if i == 26 then GeometryShader else TessellationShader)
  }

  /** Reading a mode's slot gives back the mode, so no two modes share a slot. */
  lemma ModeAtIndex(m: Mode)
    ensures ModeAt(ModeIndex(m)) == m
  {
    match m
    case FixedFunction(l) =>
    case Fetcher(v) =>
    case Puller(v) =>
    case PullerObj(_) =>
    case Assembler(_) =>
  }

  /** Every slot of the table belongs to a mode. */
  lemma IndexOfModeAt(i: nat)
    requires i < NumModes
    ensures ModeIndex(ModeAt(i)) == i
  {
  }

  /** `DrawCmdType`. */
  datatype DrawCmdType = DrawCmdUnknown | DrawCmdDrawArrays | DrawCmdDrawElements

  /** The primitive types the table uses. */
  datatype PrimType = Triangles | TrianglesAdjacency | Patches

  /** The vertex array objects of a model, by role; `NoVertexArray` is name 0. */
  datatype VertexArray =
    | NoVertexArray | NullVertexArray | IndexBufferOnlyArray | InterleavedArray
    | AoSArray | AoSXYZWArray | SoAArray | AssemblyArray

  datatype DrawArraysCmd = DrawArraysCmd(count: GLuint, instanceCount: GLuint, first: GLuint, baseInstance: GLuint)

  datatype DrawElementsCmd = DrawElementsCmd(
    count: GLuint, instanceCount: GLuint, firstIndex: GLuint, baseVertex: GLuint, baseInstance: GLuint)

  /** A `DrawCommand`; the two fixed-size `GLfloat` arrays are tuples. */
  datatype DrawCommand = DrawCommand(
    vertexArray: VertexArray,
    primType: PrimType,
    patchVertices: int,
    patchDefaultOuterLevel: (real, real, real, real),
    patchDefaultInnerLevel: (real, real),
    drawType: DrawCmdType,
    drawElements: DrawElementsCmd,
    drawArrays: DrawArraysCmd)

  /** A default-initialised `DrawCommand`. */
  const DefaultDrawCommand: DrawCommand := DrawCommand(
    NoVertexArray, Triangles, 0, (1.0, 1.0, 1.0, 1.0), (1.0, 1.0), DrawCmdUnknown,
    DrawElementsCmd(0, 1, 0, 0, 0), DrawArraysCmd(0, 1, 0, 0))

  /** The vertex array a mode draws with. */
  function VertexArrayFor(m: Mode): VertexArray {
    match m
    case FixedFunction(FixedAoS) => AoSArray
    case FixedFunction(FixedAoSXYZW) => AoSXYZWArray
    case FixedFunction(FixedSoA) => SoAArray
    case FixedFunction(FixedInterleaved) => InterleavedArray
    case Fetcher(_) => IndexBufferOnlyArray
    case Puller(_) => NullVertexArray
    case PullerObj(_) => NullVertexArray
    case Assembler(_) => AssemblyArray
  }

  /** Pullers fetch their own indices and draw arrays; every other mode draws
      elements. */
  function DrawTypeFor(m: Mode): DrawCmdType {
    if m.Puller? || m.PullerObj? then DrawCmdDrawArrays else DrawCmdDrawElements
  }

  /** The vertex count a mode draws, given the lengths of `Indices` and of
      `PositionIndices`. */
  function CountFor(m: Mode, numIndices: nat, numPositionIndices: nat): GLuint {
    match m
    case PullerObj(_) => ToGLuint(numPositionIndices)
    case Assembler(_) => ToGLuint(ToGLuint(numPositionIndices) * 2)
    case _ => ToGLuint(numIndices)
  }

  /** The fields `load` sets in the entry of mode `m`, starting from entry `c`. */
  function Configure(c: DrawCommand, m: Mode, numIndices: nat, numPositionIndices: nat): DrawCommand {
    var count := CountFor(m, numIndices, numPositionIndices);
    var c := c.(vertexArray := VertexArrayFor(m), drawType := DrawTypeFor(m));
    match m
    case Assembler(GeometryShader) =>
      c.(primType := TrianglesAdjacency, drawElements := c.drawElements.(count := count))
    case Assembler(TessellationShader) =>
      c.(primType := Patches, patchVertices := 6, drawElements := c.drawElements.(count := count))
    case Puller(_) => c.(drawArrays := c.drawArrays.(count := count))
    case PullerObj(_) => c.(drawArrays := c.drawArrays.(count := count))
    case _ => c.(drawElements := c.drawElements.(count := count))
  }

  /** The variant whose entry a variant's entry is copied from: the RGB and
      three-fetch variants reuse the entry of their one-fetch sibling. */
  function SourceVariant(v: FetchVariant): FetchVariant {
    match v
    case AoS1RGBFetch => AoS1RGBAFetch
    case AoS3Fetch => AoS1RGBAFetch
    case ImageAoS3Fetch => ImageAoS1Fetch
    case SSBOAoS3Fetch => SSBOAoS1Fetch
    case _ => v
  }

  /** The mode whose entry a mode's entry is copied from. */
  function Source(m: Mode): Mode {
    match m
    case Fetcher(v) => Fetcher(SourceVariant(v))
    case Puller(v) => Puller(SourceVariant(v))
    case _ => m
  }

  /** The entry of mode `m` in the table of a freshly loaded model. */
  function DrawCommandFor(m: Mode, numIndices: nat, numPositionIndices: nat): DrawCommand {
    Configure(DefaultDrawCommand, m, numIndices, numPositionIndices)
  }

  /** The count a draw command draws with. */
  function DrawCount(c: DrawCommand): GLuint {
    if c.drawType == DrawCmdDrawArrays then c.drawArrays.count else c.drawElements.count
  }

  /** The entries of the fixed-function modes: indexed draws through the vertex array of their layout. */
  method SetFixedFunctionCommands(drawCmd: array<DrawCommand>, numIndices: nat, numPositionIndices: nat)
    requires drawCmd.Length == NumModes
    modifies drawCmd
    ensures forall l: FixedLayout :: (drawCmd[ModeIndex(FixedFunction(l))]
      == Configure(old(drawCmd[ModeIndex(Source(FixedFunction(l)))]), FixedFunction(l), numIndices, numPositionIndices))
    ensures forall i | 0 <= i < NumModes && !(0 <= i < 4) :: drawCmd[i] == old(drawCmd[i])
  {
    var n := ToGLuint(numIndices);
    drawCmd[0] := drawCmd[0].(
      vertexArray := AoSArray,
      drawType := DrawCmdDrawElements,
      drawElements := drawCmd[0].drawElements.(count := n));

    drawCmd[1] := drawCmd[1].(
      vertexArray := AoSXYZWArray,
      drawType := DrawCmdDrawElements,
      drawElements := drawCmd[1].drawElements.(count := n));

    drawCmd[2] := drawCmd[2].(
      vertexArray := SoAArray,
      drawType := DrawCmdDrawElements,
      drawElements := drawCmd[2].drawElements.(count := n));

    drawCmd[3] := drawCmd[3].(
      vertexArray := InterleavedArray,
      drawType := DrawCmdDrawElements,
      drawElements := drawCmd[3].drawElements.(count := n));

    forall l: FixedLayout
      ensures drawCmd[ModeIndex(FixedFunction(l))]
        == Configure(old(drawCmd[ModeIndex(Source(FixedFunction(l)))]), FixedFunction(l), numIndices, numPositionIndices)
    {
      match l
      case FixedAoS =>
      case FixedAoSXYZW =>
      case FixedSoA =>
      case FixedInterleaved =>
    }
  }

  /** The entries of the fetcher modes: indexed draws that bind only the index buffer. */
  method SetFetcherCommands(drawCmd: array<DrawCommand>, numIndices: nat, numPositionIndices: nat)
    requires drawCmd.Length == NumModes
    modifies drawCmd
    ensures forall v: FetchVariant :: (drawCmd[ModeIndex(Fetcher(v))]
      == Configure(old(drawCmd[ModeIndex(Source(Fetcher(v)))]), Fetcher(v), numIndices, numPositionIndices))
    ensures forall i | 0 <= i < NumModes && !(4 <= i < 14) :: drawCmd[i] == old(drawCmd[i])
  {
    var n := ToGLuint(numIndices);
    drawCmd[4] := drawCmd[4].(
      vertexArray := IndexBufferOnlyArray,
      drawType := DrawCmdDrawElements,
      drawElements := drawCmd[4].drawElements.(count := n));
    drawCmd[5] := drawCmd[4];
    drawCmd[6] := drawCmd[4];

    drawCmd[7] := drawCmd[7].(
      vertexArray := IndexBufferOnlyArray,
      drawType := DrawCmdDrawElements,
      drawElements := drawCmd[7].drawElements.(count := n));

    drawCmd[8] := drawCmd[8].(
      vertexArray := IndexBufferOnlyArray,
      drawType := DrawCmdDrawElements,
      drawElements := drawCmd[8].drawElements.(count := n));
    drawCmd[9] := drawCmd[8];

    drawCmd[10] := drawCmd[10].(
      vertexArray := IndexBufferOnlyArray,
      drawType := DrawCmdDrawElements,
      drawElements := drawCmd[10].drawElements.(count := n));

    drawCmd[11] := drawCmd[11].(
      vertexArray := IndexBufferOnlyArray,
      drawType := DrawCmdDrawElements,
      drawElements := drawCmd[11].drawElements.(count := n));
    drawCmd[12] := drawCmd[11];

    drawCmd[13] := drawCmd[13].(
      vertexArray := IndexBufferOnlyArray,
      drawType := DrawCmdDrawElements,
      drawElements := drawCmd[13].drawElements.(count := n));

    forall v: FetchVariant
      ensures drawCmd[ModeIndex(Fetcher(v))]
        == Configure(old(drawCmd[ModeIndex(Source(Fetcher(v)))]), Fetcher(v), numIndices, numPositionIndices)
    {
      match v
      case AoS1RGBAFetch =>
      case AoS1RGBFetch =>
      case AoS3Fetch =>
      case SoAFetch =>
      case ImageAoS1Fetch =>
      case ImageAoS3Fetch =>
      case ImageSoAFetch =>
      case SSBOAoS1Fetch =>
      case SSBOAoS3Fetch =>
      case SSBOSoAFetch =>
    }
  }

  /** The entries of the puller modes: array draws of one vertex per index. */
  method SetPullerCommands(drawCmd: array<DrawCommand>, numIndices: nat, numPositionIndices: nat)
    requires drawCmd.Length == NumModes
    modifies drawCmd
    ensures forall v: FetchVariant :: (drawCmd[ModeIndex(Puller(v))]
      == Configure(old(drawCmd[ModeIndex(Source(Puller(v)))]), Puller(v), numIndices, numPositionIndices))
    ensures forall i | 0 <= i < NumModes && !(14 <= i < 24) :: drawCmd[i] == old(drawCmd[i])
  {
    var n := ToGLuint(numIndices);
    drawCmd[14] := drawCmd[14].(
      vertexArray := NullVertexArray,
      drawType := DrawCmdDrawArrays,
      drawArrays := drawCmd[14].drawArrays.(count := n));
    drawCmd[15] := drawCmd[14];
    drawCmd[16] := drawCmd[14];

    drawCmd[17] := drawCmd[17].(
      vertexArray := NullVertexArray,
      drawType := DrawCmdDrawArrays,
      drawArrays := drawCmd[17].drawArrays.(count := n));

    drawCmd[18] := drawCmd[18].(
      vertexArray := NullVertexArray,
      drawType := DrawCmdDrawArrays,
      drawArrays := drawCmd[18].drawArrays.(count := n));
    drawCmd[19] := drawCmd[18];

    drawCmd[20] := drawCmd[20].(
      vertexArray := NullVertexArray,
      drawType := DrawCmdDrawArrays,
      drawArrays := drawCmd[20].drawArrays.(count := n));

    drawCmd[21] := drawCmd[21].(
      vertexArray := NullVertexArray,
      drawType := DrawCmdDrawArrays,
      drawArrays := drawCmd[21].drawArrays.(count := n));
    drawCmd[22] := drawCmd[21];

    drawCmd[23] := drawCmd[23].(
      vertexArray := NullVertexArray,
      drawType := DrawCmdDrawArrays,
      drawArrays := drawCmd[23].drawArrays.(count := n));

    forall v: FetchVariant
      ensures drawCmd[ModeIndex(Puller(v))]
        == Configure(old(drawCmd[ModeIndex(Source(Puller(v)))]), Puller(v), numIndices, numPositionIndices)
    {
      match v
      case AoS1RGBAFetch =>
      case AoS1RGBFetch =>
      case AoS3Fetch =>
      case SoAFetch =>
      case ImageAoS1Fetch =>
      case ImageAoS3Fetch =>
      case ImageSoAFetch =>
      case SSBOAoS1Fetch =>
      case SSBOAoS3Fetch =>
      case SSBOSoAFetch =>
    }
  }

  /** The entries of the OBJ pullers, one vertex per corner, and of the assemblers, two indices per corner. */
  method SetObjAndAssemblerCommands(drawCmd: array<DrawCommand>, numIndices: nat, numPositionIndices: nat)
    requires drawCmd.Length == NumModes
    modifies drawCmd
    ensures forall m: Mode | m.PullerObj? || m.Assembler? :: (drawCmd[ModeIndex(m)]
      == Configure(old(drawCmd[ModeIndex(Source(m))]), m, numIndices, numPositionIndices))
    ensures forall i | 0 <= i < NumModes && !(24 <= i < 28) :: drawCmd[i] == old(drawCmd[i])
  {
    var np := ToGLuint(numPositionIndices);
    drawCmd[24] := drawCmd[24].(
      vertexArray := NullVertexArray,
      drawType := DrawCmdDrawArrays,
      drawArrays := drawCmd[24].drawArrays.(count := np));

    drawCmd[25] := drawCmd[25].(
      vertexArray := NullVertexArray,
      drawType := DrawCmdDrawArrays,
      drawArrays := drawCmd[25].drawArrays.(count := np));

    drawCmd[26] := drawCmd[26].(
      vertexArray := AssemblyArray,
      drawType := DrawCmdDrawElements,
      primType := TrianglesAdjacency,
      drawElements := drawCmd[26].drawElements.(count := ToGLuint(np as int * 2)));

    drawCmd[27] := drawCmd[27].(
      vertexArray := AssemblyArray,
      drawType := DrawCmdDrawElements,
      primType := Patches,
      patchVertices := 6,
      drawElements := drawCmd[27].drawElements.(count := ToGLuint(np as int * 2)));

    forall m: Mode | m.PullerObj? || m.Assembler?
      ensures drawCmd[ModeIndex(m)]
        == Configure(old(drawCmd[ModeIndex(Source(m))]), m, numIndices, numPositionIndices)
    {
      match m
      case FixedFunction(_) =>
      case Fetcher(_) =>
      case Puller(_) =>
      case PullerObj(_) =>
      case Assembler(_) =>
    }
  }

  /** The statements of `load` that set up the draw-command table; slot `i`
      is the entry of the mode with enumeration value `i`. */
  method FillDrawCommands(drawCmd: array<DrawCommand>, numIndices: nat, numPositionIndices: nat)
    requires drawCmd.Length == NumModes
    modifies drawCmd
    ensures forall m :: (drawCmd[ModeIndex(m)]
      == Configure(old(drawCmd[ModeIndex(Source(m))]), m, numIndices, numPositionIndices))
  {
    SetFixedFunctionCommands(drawCmd, numIndices, numPositionIndices);
    SetFetcherCommands(drawCmd, numIndices, numPositionIndices);
    SetPullerCommands(drawCmd, numIndices, numPositionIndices);
    SetObjAndAssemblerCommands(drawCmd, numIndices, numPositionIndices);
    forall m
      ensures drawCmd[ModeIndex(m)]
        == Configure(old(drawCmd[ModeIndex(Source(m))]), m, numIndices, numPositionIndices)
    {
      match m
      case FixedFunction(_) =>
      case Fetcher(_) =>
      case Puller(_) =>
      case PullerObj(_) =>
      case Assembler(_) =>
    }
  }

  // ---------------------------------------------------------------------
  // What the draw table promises
  // ---------------------------------------------------------------------

  /** The entries a copy statement fills are the entries a direct
      configuration of the copying mode would give. */
  lemma CopiedEntriesMatch(c: DrawCommand, m: Mode, numIndices: nat, numPositionIndices: nat)
    ensures Configure(c, Source(m), numIndices, numPositionIndices) == Configure(c, m, numIndices, numPositionIndices)
    ensures Source(Source(m)) == Source(m)
  {
  }

  /** Fetchers, fixed-function modes and assemblers draw elements, pullers
      draw arrays, and no mode is left with an unknown draw type. */
  lemma DrawTypes(m: Mode, numIndices: nat, numPositionIndices: nat)
    ensures var c := DrawCommandFor(m, numIndices, numPositionIndices);
      && c.drawType != DrawCmdUnknown
      && (c.drawType == DrawCmdDrawArrays <==> m.Puller? || m.PullerObj?)
      && (c.drawType == DrawCmdDrawElements <==> m.FixedFunction? || m.Fetcher? || m.Assembler?)
  {
  }

  /** Fixed-function, fetcher and puller modes draw one vertex per entry of
      `Indices`, the OBJ pullers one per entry of `PositionIndices`, and the
      assemblers two indices per entry of `PositionIndices`, all as 32-bit
      counts. */
  lemma DrawCounts(m: Mode, numIndices: nat, numPositionIndices: nat)
    ensures var c := DrawCommandFor(m, numIndices, numPositionIndices);
      DrawCount(c) == (
        if m.PullerObj? then numPositionIndices % 0x1_0000_0000
        else if m.Assembler? then (2 * numPositionIndices) % 0x1_0000_0000
        else numIndices % 0x1_0000_0000)
  {
    if m.Assembler? {
      DoubleModulo(numPositionIndices);
    }
  }

  /** Doubling commutes with reduction modulo 2^32. */
  lemma DoubleModulo(n: nat)
    ensures ToGLuint(ToGLuint(n) * 2) == (2 * n) % 0x1_0000_0000
  {
    var q := n / 0x1_0000_0000;
    assert 2 * n == ToGLuint(n) * 2 + 0x1_0000_0000 * (2 * q);
  }

  /** Only the tessellation assembler draws patches, of six vertices; the
      geometry-shader assembler draws triangles with adjacency (six vertices
      each), and every other mode keeps plain triangles and no patch size. */
  lemma PatchSetup(m: Mode, numIndices: nat, numPositionIndices: nat)
    ensures var c := DrawCommandFor(m, numIndices, numPositionIndices);
      && (c.primType == Patches <==> m == Assembler(TessellationShader))
      && (c.primType == TrianglesAdjacency <==> m == Assembler(GeometryShader))
      && c.patchVertices == (if m == Assembler(TessellationShader) then 6 else 0)
  {
  }

  /** The checks `renderScene` asserts on the entry it draws with. */
  predicate RenderAsserts(c: DrawCommand) {
    && (if c.primType == Patches then c.patchVertices >= 1 else c.patchVertices == 0)
    && (c.drawType == DrawCmdDrawArrays ==> c.drawArrays.count >= 1)
    && (c.drawType == DrawCmdDrawArrays || c.drawType == DrawCmdDrawElements)
  }

  /** An entry of a freshly loaded table passes the checks exactly when it is
      not an array draw of zero vertices. */
  lemma RenderAssertsFor(m: Mode, numIndices: nat, numPositionIndices: nat)
    ensures RenderAsserts(DrawCommandFor(m, numIndices, numPositionIndices))
      <==> !(m.Puller? || m.PullerObj?) || CountFor(m, numIndices, numPositionIndices) != 0
  {
  }

  /** The mesh `load` receives: the tables of a loaded file, or empty tables
      for a file that cannot be opened. */
  function MeshTables(file: Option<seq<ObjLine>>): Tables
    requires file.Some? ==> Loadable(file.value)
  {
    if file.Some? then LoadT(file.value) else NoTables
  }

  /** The shapes the layouts rely on: one normal per position and one normal
      index per position index, one per face corner. */
  lemma MeshShape(file: Option<seq<ObjLine>>)
    requires file.Some? ==> Loadable(file.value)
    ensures var t := MeshTables(file);
      && |t.positions| == |t.normals|
      && |t.indices| == |t.positionIndices| == |t.normalIndices|
      && |t.indices| % 3 == 0
  {
    if file.Some? {
      TablesAreDistinct(file.value);
      IndexBuffersFormTriangles(file.value);
    }
  }

  /** A file with at least one face passes every check in every mode (below
      2^32 corners); a file that cannot be opened fails the count check of
      every array-drawing mode. */
  lemma LoadedMeshPassesRenderAsserts(file: Option<seq<ObjLine>>, m: Mode)
    requires file.Some? ==> Loadable(file.value)
    ensures var t := MeshTables(file);
      0 < |t.indices| < 0x1_0000_0000 ==> RenderAsserts(DrawCommandFor(m, |t.indices|, |t.positionIndices|))
    ensures file.None? && (m.Puller? || m.PullerObj?) ==> !RenderAsserts(DrawCommandFor(m, 0, 0))
  {
    var t := MeshTables(file);
    MeshShape(file);
    if 0 < |t.indices| < 0x1_0000_0000 {
      NonEmptyMeshPasses(m, |t.indices|, |t.positionIndices|);
    }
    if file.None? {
      assert t.indices == [];
      RenderAssertsFor(m, 0, 0);
    }
  }

  /** Index counts below 2^32 with one position index per index pass every
      check as soon as there is one index. */
  lemma NonEmptyMeshPasses(m: Mode, numIndices: nat, numPositionIndices: nat)
    requires 0 < numIndices < 0x1_0000_0000 && numPositionIndices == numIndices
    ensures RenderAsserts(DrawCommandFor(m, numIndices, numPositionIndices))
  {
    RenderAssertsFor(m, numIndices, numPositionIndices);
  }

  // ---------------------------------------------------------------------
  // Soft vertex cache storage of a model
  // ---------------------------------------------------------------------

  /** `VERTEX_CACHE_VERTEX_SIZE_IN_DWORDS`, the size of one cached vertex. */
  const VertexCacheVertexSizeInDwords: nat := 12

  /** The byte size of the per-model vertex cache buffer, in `size_t`. */
  function VertexCacheBufferBytes(numPositionIndices: nat): nat {
    (VertexCacheVertexSizeInDwords * 4 * numPositionIndices) % 0x1_0000_0000_0000_0000
  }

  /** The per-model cache has one 48-byte slot per vertex the soft-cache
      puller draws. */
  lemma VertexCacheHoldsEveryDrawnVertex(numIndices: nat, numPositionIndices: nat)
    requires numPositionIndices < 0x1_0000_0000
    ensures VertexCacheBufferBytes(numPositionIndices)
      == 48 * DrawCount(DrawCommandFor(PullerObj(true), numIndices, numPositionIndices))
  {
  }

  // ---------------------------------------------------------------------
  // A model
  // ---------------------------------------------------------------------

  /** `BuddhaDemo::PerModel`: the host contents of every buffer of a mesh,
      and its draw-command table. */
  class PerModel {
    var indexBuffer: seq<nat>
    var positionIndexBuffer: seq<nat>
    var normalIndexBuffer: seq<nat>
    var numUniqueVerts: int
    var uniquePositionBufferXYZW: seq<Vec4>
    var uniqueNormalBufferXYZW: seq<Vec4>
    var assemblyIndexBuffer: seq<GLuint>
    var interleavedBuffer: seq<Interleaved>
    var positionBuffer: seq<Vec3>
    var positionBufferXYZW: seq<Vec4>
    var normalBuffer: seq<Vec3>
    var normalBufferXYZW: seq<Vec4>
    var positionXBuffer: seq<real>
    var positionYBuffer: seq<real>
    var positionZBuffer: seq<real>
    var normalXBuffer: seq<real>
    var normalYBuffer: seq<real>
    var normalZBuffer: seq<real>
    var vertexCacheBufferBytes: nat
    /** One entry per mode, indexed by the mode's enumeration value. */
    const drawCmd: array<DrawCommand>

    /** SoA buffer `k`, the one `load` selects with `soaIdx == k`. */
    function SoABuffer(k: SoAIndex): seq<real>
      reads this
    {
      match k
      case 0 => positionXBuffer
      case 1 => positionYBuffer
      case 2 => positionZBuffer
      case 3 => normalXBuffer
      case 4 => normalYBuffer
      case 5 => normalZBuffer
    }

    /** The host buffers hold every layout `load` builds from the mesh
        tables `t`. */
    ghost predicate HoldsLayouts(t: Tables)
      reads this
    {
      && indexBuffer == t.indices
      && positionIndexBuffer == t.positionIndices
      && normalIndexBuffer == t.normalIndices
      && numUniqueVerts == ToInt32(|t.positionIndices|)
      && uniquePositionBufferXYZW == Widened(t.uniquePositions, PositionW)
      && uniqueNormalBufferXYZW == Widened(t.uniqueNormals, NormalW)
      && |t.positionIndices| == |t.normalIndices|
      && assemblyIndexBuffer == AssemblyIndices(t.positionIndices, t.normalIndices)
      && |t.positions| == |t.normals|
      && interleavedBuffer == InterleavedRecords(t.positions, t.normals)
      && positionBuffer == t.positions
      && positionBufferXYZW == Widened(t.positions, PositionW)
      && normalBuffer == t.normals
      && normalBufferXYZW == Widened(t.normals, NormalW)
      && (forall k: SoAIndex :: SoABuffer(k) == SoAComponent(t.positions, t.normals, k))
      && vertexCacheBufferBytes == VertexCacheBufferBytes(|t.positionIndices|)
    }

    /** A default-constructed model: empty buffers and default draw commands. */
    constructor ()
      ensures fresh(drawCmd) && drawCmd.Length == NumModes
      ensures forall i | 0 <= i < NumModes :: drawCmd[i] == DefaultDrawCommand
    {
      drawCmd := new DrawCommand[NumModes](_ => DefaultDrawCommand);
    }

    /** The loop that fills and uploads the six SoA buffers. */
    method UploadSoABuffers(positions: seq<Vec3>, normals: seq<Vec3>)
      requires |positions| <= |normals|
      modifies this`positionXBuffer, this`positionYBuffer, this`positionZBuffer
      modifies this`normalXBuffer, this`normalYBuffer, this`normalZBuffer
      ensures forall k: SoAIndex :: SoABuffer(k) == SoAComponent(positions, normals, k)
    {
      for soaIdx := 0 to 6
        invariant forall k: SoAIndex | k < soaIdx :: SoABuffer(k) == SoAComponent(positions, normals, k)
      {
        var buf := FillSoA(positions, normals, soaIdx);
        if soaIdx == 0 {
          positionXBuffer := buf[..];
        } else if soaIdx == 1 {
          positionYBuffer := buf[..];
        } else if soaIdx == 2 {
          positionZBuffer := buf[..];
        } else if soaIdx == 3 {
          normalXBuffer := buf[..];
        } else if soaIdx == 4 {
          normalYBuffer := buf[..];
        } else {
          normalZBuffer := buf[..];
        }
      }
    }

    /** The index buffers of `load`: the three index lists, the vertex
        count, the packed assembly indices and the vertex cache size. */
    method StoreIndexBuffers(indices: seq<nat>, positionIndices: seq<nat>, normalIndices: seq<nat>)
      requires |positionIndices| == |normalIndices|
      modifies this`indexBuffer, this`positionIndexBuffer, this`normalIndexBuffer, this`numUniqueVerts
      modifies this`assemblyIndexBuffer, this`vertexCacheBufferBytes
      ensures indexBuffer == indices && positionIndexBuffer == positionIndices && normalIndexBuffer == normalIndices
      ensures numUniqueVerts == ToInt32(|positionIndices|)
      ensures assemblyIndexBuffer == AssemblyIndices(positionIndices, normalIndices)
      ensures vertexCacheBufferBytes == VertexCacheBufferBytes(|positionIndices|)
    {
      indexBuffer := indices;
      positionIndexBuffer := positionIndices;
      normalIndexBuffer := normalIndices;
      numUniqueVerts := ToInt32(|positionIndices|);
      var assemblyIndices := FillAssemblyIndices(positionIndices, normalIndices);
      assemblyIndexBuffer := assemblyIndices[..];
      vertexCacheBufferBytes := VertexCacheBufferBytes(|positionIndices|);
    }

    /** The unique-vertex buffers of `load`: the unique positions and
        normals widened to XYZW. */
    method StoreUniqueBuffers(uniquePositions: seq<Vec3>, uniqueNormals: seq<Vec3>)
      modifies this`uniquePositionBufferXYZW, this`uniqueNormalBufferXYZW
      ensures uniquePositionBufferXYZW == Widened(uniquePositions, PositionW)
      ensures uniqueNormalBufferXYZW == Widened(uniqueNormals, NormalW)
    {
      var uniquePositionsXYZW := FillXYZW(uniquePositions, PositionW);
      uniquePositionBufferXYZW := uniquePositionsXYZW[..];
      var uniqueNormalsXYZW := FillXYZW(uniqueNormals, NormalW);
      uniqueNormalBufferXYZW := uniqueNormalsXYZW[..];
    }

    /** The vertex buffers of `load`: the interleaved records and the AoS,
        XYZW and SoA layouts of the vertex tables. */
    method StoreVertexBuffers(positions: seq<Vec3>, normals: seq<Vec3>)
      requires |positions| == |normals|
      modifies this`interleavedBuffer
      modifies this`positionBuffer, this`positionBufferXYZW, this`normalBuffer, this`normalBufferXYZW
      modifies this`positionXBuffer, this`positionYBuffer, this`positionZBuffer
      modifies this`normalXBuffer, this`normalYBuffer, this`normalZBuffer
      ensures interleavedBuffer == InterleavedRecords(positions, normals)
      ensures positionBuffer == positions && positionBufferXYZW == Widened(positions, PositionW)
      ensures normalBuffer == normals && normalBufferXYZW == Widened(normals, NormalW)
      ensures forall k: SoAIndex :: SoABuffer(k) == SoAComponent(positions, normals, k)
    {
      var interleaved := FillInterleaved(positions, normals);
      interleavedBuffer := interleaved[..];
      positionBuffer := positions;
      var positionsXYZW := FillXYZW(positions, PositionW);
      positionBufferXYZW := positionsXYZW[..];
      normalBuffer := normals;
      var normalsXYZW := FillXYZW(normals, NormalW);
      normalBufferXYZW := normalsXYZW[..];
      UploadSoABuffers(positions, normals);
    }

    /** Everything `load` does once the mesh is read: every layout and the
        draw table, built from the mesh tables `t`. */
    method Store(ghost t: Tables, indices: seq<nat>, positionIndices: seq<nat>, normalIndices: seq<nat>,
                 positions: seq<Vec3>, normals: seq<Vec3>, uniquePositions: seq<Vec3>, uniqueNormals: seq<Vec3>)
      requires indices == t.indices && positionIndices == t.positionIndices && normalIndices == t.normalIndices
      requires positions == t.positions && normals == t.normals
      requires uniquePositions == t.uniquePositions && uniqueNormals == t.uniqueNormals
      requires |t.positions| == |t.normals| && |t.positionIndices| == |t.normalIndices|
      requires drawCmd.Length == NumModes
      modifies this, drawCmd
      ensures HoldsLayouts(t)
      ensures forall m :: (drawCmd[ModeIndex(m)]
        == Configure(old(drawCmd[ModeIndex(Source(m))]), m, |t.indices|, |t.positionIndices|))
    {
      StoreIndexBuffers(indices, positionIndices, normalIndices);
      StoreUniqueBuffers(uniquePositions, uniqueNormals);
      StoreVertexBuffers(positions, normals);
      FillDrawCommands(drawCmd, |indices|, |positionIndices|);
    }

    /** The state `addMesh` leaves a model in: the layouts of the mesh
        tables `t`, and every draw-table slot set up for them. */
    ghost predicate Loaded(t: Tables)
      reads this, drawCmd
    {
      && drawCmd.Length == NumModes
      && HoldsLayouts(t)
      && forall m :: drawCmd[ModeIndex(m)] == DrawCommandFor(m, |t.indices|, |t.positionIndices|)
    }

    /** `load`: reads the mesh, builds every layout and fills the draw table. */
    method Load(file: Option<seq<ObjLine>>)
      requires file.Some? ==> Loadable(file.value)
      requires drawCmd.Length == NumModes
      modifies this, drawCmd
      ensures HoldsLayouts(MeshTables(file))
      ensures var t := MeshTables(file);
        forall m :: (drawCmd[ModeIndex(m)]
          == Configure(old(drawCmd[ModeIndex(Source(m))]), m, |t.indices|, |t.positionIndices|))
    {
      var buddhaObj := new WaveFrontObj(file);
      MeshShape(file);
      Store(MeshTables(file), buddhaObj.Indices, buddhaObj.PositionIndices, buddhaObj.NormalIndices,
        buddhaObj.Positions, buddhaObj.Normals, buddhaObj.UniquePositions, buddhaObj.UniqueNormals);
    }
  }

  /** A model made by the default constructor and then loaded, as `addMesh`
      does, holds in each slot the entry `DrawCommandFor` describes. */
  lemma FreshTableEntries(table: seq<DrawCommand>, loaded: seq<DrawCommand>, numIndices: nat, numPositionIndices: nat)
    requires |table| == |loaded| == NumModes
    requires forall i | 0 <= i < NumModes :: table[i] == DefaultDrawCommand
    requires forall m :: loaded[ModeIndex(m)] == Configure(table[ModeIndex(Source(m))], m, numIndices, numPositionIndices)
    ensures forall m :: loaded[ModeIndex(m)] == DrawCommandFor(m, numIndices, numPositionIndices)
  {
  }
}
