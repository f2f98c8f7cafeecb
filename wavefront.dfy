/**
  The WaveFront OBJ loader of the demo (the `WaveFrontObj` constructor).

  The loader reads a file line by line. `v` lines add a raw position, `vn`
  lines a raw normal, and `f` lines a face whose corners are `(v, n)` index
  pairs. A face is split into one triangle (three corners) or, for a quad, two
  triangles taken in the corner order 0,1,2,0,2,3. Every corner is then
  interned twice:

  - its `(v, n)` pair gets a vertex id, numbered by first appearance; a new
    pair appends its position and normal to `Positions`/`Normals`, and the
    corner's id goes to `Indices`;
  - its raw position and raw normal are looked up in value tables
    (`UniquePositions`/`UniqueNormals`, filled by the `v`/`vn` lines), and the
    slots go to `PositionIndices`/`NormalIndices`.

  The numeric text parsing (`sscanf`) is not modelled: each line carries its
  text, which the dispatch tests exactly as the loader does, and a `Scan`
  record holding what the `sscanf` calls of that line assign.
*/
module WaveFront {
  import opened Wrappers
  import opened Interning

  /** A `glm::vec3` read from the file. It is only copied and compared for
      equality, so its components are modelled as reals. */
  datatype Vec3 = Vec3(x: real, y: real, z: real)

  /** The values the `sscanf` calls of one line assign:
      `vec`, the three floats of a `v`/`vn` line;
      `vn`, the integers the pattern `f %d//%d %d//%d ...` assigns, in the
      order v0, n0, v1, n1, ... (its length is the call's return value);
      `vtn`, the integers the pattern `f %d/%d/%d ...` assigns, in the order
      v0, t0, n0, v1, t1, n1, ... */
  datatype Scan = Scan(vec: Vec3, vn: seq<int>, vtn: seq<int>)

  /** One line of the file: its text and what `sscanf` makes of it. */
  datatype ObjLine = ObjLine(text: string, scan: Scan)

  datatype LineKind = PositionLine | NormalLine | FaceLine | IgnoredLine

  /** The dispatch of the loader's loop, tested in the loader's order. */
  function Kind(text: string): (k: LineKind)
    ensures k == PositionLine <==> |text| >= 2 && text[0] == 'v' && text[1] == ' '
    ensures k == NormalLine <==> |text| >= 2 && text[0] == 'v' && text[1] == 'n'
    ensures k == FaceLine <==> |text| >= 1 && text[0] == 'f'
  {
    if |text| >= 2 && text[0] == 'v' && text[1] == ' ' then PositionLine
    else if |text| >= 2 && text[0] == 'v' && text[1] == 'n' then NormalLine
    else if |text| >= 1 && text[0] == 'f' then FaceLine
    else IgnoredLine
  }

  /** The face syntax the loader has committed to. */
  datatype ObjFormat = UnknownFormat | VNFormat | VTNFormat

  /** A face corner: 1-based raw position index `v` and raw normal index `n`. */
  datatype IndexPair = IndexPair(v: int, n: int)

  /** The corner arrays `ivs`/`ivns` of a face after both `sscanf` attempts,
      and the format latched by them. */
  datatype FaceFields = FaceFields(ivs: seq<int>, ivns: seq<int>, format: ObjFormat)

  /** The pattern `f %d//%d ...` writes v0, n0, v1, n1, ... in that order; the
      first `|vals|` of them are written, the rest keep their value. */
  function AssignVN(ivs: seq<int>, ivns: seq<int>, vals: seq<int>): (r: (seq<int>, seq<int>))
    requires |ivs| == 4 && |ivns| == 4
    ensures |r.0| == 4 && |r.1| == 4
  {
    (seq(4, k requires 0 <= k < 4 => if 2 * k < |vals| then vals[2 * k] else ivs[k]),
     seq(4, k requires 0 <= k < 4 => if 2 * k + 1 < |vals| then vals[2 * k + 1] else ivns[k]))
  }

  /** The pattern `f %d/%d/%d ...` writes v0, t0, n0, v1, t1, n1, ... in that
      order; texture indices are read and dropped. */
  function AssignVTN(ivs: seq<int>, ivns: seq<int>, vals: seq<int>): (r: (seq<int>, seq<int>))
    requires |ivs| == 4 && |ivns| == 4
    ensures |r.0| == 4 && |r.1| == 4
  {
    (seq(4, k requires 0 <= k < 4 => if 3 * k < |vals| then vals[3 * k] else ivs[k]),
     seq(4, k requires 0 <= k < 4 => if 3 * k + 2 < |vals| then vals[3 * k + 2] else ivns[k]))
  }

  /** Both `sscanf` attempts on a face line, starting from zeroed corner arrays.
      The `v//n` form is tried unless `v/t/n` was latched, and latches with six
      or more fields; then the `v/t/n` form is tried unless `v//n` is latched,
      and latches with nine or more fields. */
  function ScanFace(format: ObjFormat, scan: Scan): (f: FaceFields)
    ensures |f.ivs| == 4 && |f.ivns| == 4
    ensures format != UnknownFormat ==> f.format == format
    ensures format == UnknownFormat ==>
      f.format == if |scan.vn| >= 6 then VNFormat else if |scan.vtn| >= 9 then VTNFormat else UnknownFormat
  {
    var zeros := [0, 0, 0, 0];
    var afterVN :=
      if format == UnknownFormat || format == VNFormat then
        var r := AssignVN(zeros, zeros, scan.vn);
        FaceFields(r.0, r.1, if |scan.vn| >= 6 then VNFormat else format)
      else
        FaceFields(zeros, zeros, format);
    if afterVN.format == UnknownFormat || afterVN.format == VTNFormat then
      var r := AssignVTN(afterVN.ivs, afterVN.ivns, scan.vtn);
      FaceFields(r.0, r.1, if |scan.vtn| >= 9 then VTNFormat else afterVN.format)
    else
      afterVN
  }

  /** One of the four corner slots of a face. */
  type CornerSlot = k: nat | k < 4

  /** The corner order that splits a quad into the triangles 0,1,2 and 0,2,3. */
  const Triangulation: seq<CornerSlot> := [0, 1, 2, 0, 2, 3]

  /** Corner `k` of a scanned face. */
  function Corner(f: FaceFields, k: nat): IndexPair
    requires |f.ivs| == 4 && |f.ivns| == 4 && k < 4
  {
    IndexPair(f.ivs[k], f.ivns[k])
  }

  /** Three corners for a triangle (fourth position index 0), six for a quad. */
  function NumVerts(f: FaceFields): nat
    requires |f.ivs| == 4
  {
    if f.ivs[3] == 0 then 3 else 6
  }

  /** The corners a face expands to, in the order the loader visits them. */
  function FaceCorners(f: FaceFields): (cs: seq<IndexPair>)
    requires |f.ivs| == 4 && |f.ivns| == 4
    ensures f.ivs[3] == 0 ==> cs == [Corner(f, 0), Corner(f, 1), Corner(f, 2)]
    ensures f.ivs[3] != 0 ==>
      cs == [Corner(f, 0), Corner(f, 1), Corner(f, 2), Corner(f, 0), Corner(f, 2), Corner(f, 3)]
  {
    seq(NumVerts(f), i requires 0 <= i < NumVerts(f) => Corner(f, Triangulation[i]))
  }

  /** What the loader has read so far, before any interning: the raw
      positions and normals, the latched face format, and every face corner. */
  datatype ParseState = ParseState(
    positions: seq<Vec3>, normals: seq<Vec3>, format: ObjFormat, corners: seq<IndexPair>)

  /** The effect of one line on what has been read. */
  function Step(st: ParseState, line: ObjLine): (r: ParseState)
    ensures st.positions <= r.positions && st.normals <= r.normals && st.corners <= r.corners
    ensures st.format != UnknownFormat ==> r.format == st.format
    ensures |r.positions| + |r.normals| <= |st.positions| + |st.normals| + 1
    ensures (|r.corners| - |st.corners|) in {0, 3, 6}
    ensures |r.positions| + |r.normals| == |st.positions| + |st.normals| || r.corners == st.corners
  {
    match Kind(line.text)
    case PositionLine => st.(positions := st.positions + [line.scan.vec])
    case NormalLine => st.(normals := st.normals + [line.scan.vec])
    case FaceLine =>
      var f := ScanFace(st.format, line.scan);
      st.(format := f.format, corners := st.corners + FaceCorners(f))
    case IgnoredLine => st
  }

  /** What the loader has read after the given lines. */
  function Parsed(lines: seq<ObjLine>): (r: ParseState)
    ensures |r.positions| + |r.normals| <= |lines|
    ensures |r.corners| <= 6 * |lines|
  {
    if lines == [] then ParseState([], [], UnknownFormat, [])
    else Step(Parsed(lines[..|lines| - 1]), lines[|lines| - 1])
  }

  /** The loader indexes the raw tables with `v - 1` and `n - 1` unchecked: a
      face read under `format` must name only positions and normals among the
      first `np` and `nn` already read. */
  predicate FaceInRange(format: ObjFormat, np: nat, nn: nat, line: ObjLine) {
    Kind(line.text) == FaceLine ==>
      forall c :: c in FaceCorners(ScanFace(format, line.scan)) ==>
        1 <= c.v <= np && 1 <= c.n <= nn
  }

  /** Every face of the file names only positions and normals read before it. */
  predicate Loadable(lines: seq<ObjLine>) {
    forall k :: 0 <= k < |lines| ==>
      var st := Parsed(lines[..k]);
      FaceInRange(st.format, |st.positions|, |st.normals|, lines[k])
  }

  /** The loader's tables and working state, as a value: the output tables,
      the raw `v`/`vn` values, the three caches, the next vertex id and the
      latched face format. */
  datatype Tables = Tables(
    positions: seq<Vec3>, normals: seq<Vec3>, indices: seq<nat>,
    positionIndices: seq<nat>, normalIndices: seq<nat>,
    uniquePositions: seq<Vec3>, uniqueNormals: seq<Vec3>,
    rawPositions: seq<Vec3>, rawNormals: seq<Vec3>,
    indexCache: map<IndexPair, nat>, positionIds: map<Vec3, nat>, normalIds: map<Vec3, nat>,
    id: nat, format: ObjFormat)

  /** The state before the first line, and after a file that cannot be opened. */
  const NoTables := Tables([], [], [], [], [], [], [], [], [], map[], map[], map[], 0, UnknownFormat)

  /** Every raw value read has an entry in its value cache, so the loader's
      `find(...)->i` lookups always hit. */
  predicate Covered(t: Tables) {
    && (forall x :: x in t.rawPositions ==> x in t.positionIds)
    && (forall x :: x in t.rawNormals ==> x in t.normalIds)
  }

  /** A corner names a raw position and a raw normal already read. */
  predicate CornerFits(t: Tables, c: IndexPair) {
    1 <= c.v <= |t.rawPositions| && 1 <= c.n <= |t.rawNormals|
  }

  /** A `v` line: the raw position is kept, and added to the value table unless
      an equal value is already there. */
  function AddPosition(t: Tables, v: Vec3): (r: Tables)
    requires Covered(t)
    ensures Covered(r)
    ensures r.rawPositions == t.rawPositions + [v] && r.rawNormals == t.rawNormals
    ensures r.uniquePositions == if v in t.positionIds then t.uniquePositions else t.uniquePositions + [v]
    ensures r.positions == t.positions && r.normals == t.normals && r.indices == t.indices
    ensures r.positionIndices == t.positionIndices && r.normalIndices == t.normalIndices
  {
    var t' := t.(rawPositions := t.rawPositions + [v]);
    if v in t.positionIds then t'
    else t'.(positionIds := t.positionIds[v := |t.uniquePositions|],
             uniquePositions := t.uniquePositions + [v])
  }

  /** A `vn` line, symmetric to `AddPosition`. */
  function AddNormal(t: Tables, n: Vec3): (r: Tables)
    requires Covered(t)
    ensures Covered(r)
    ensures r.rawNormals == t.rawNormals + [n] && r.rawPositions == t.rawPositions
    ensures r.uniqueNormals == if n in t.normalIds then t.uniqueNormals else t.uniqueNormals + [n]
    ensures r.positions == t.positions && r.normals == t.normals && r.indices == t.indices
    ensures r.positionIndices == t.positionIndices && r.normalIndices == t.normalIndices
  {
    var t' := t.(rawNormals := t.rawNormals + [n]);
    if n in t.normalIds then t'
    else t'.(normalIds := t.normalIds[n := |t.uniqueNormals|],
             uniqueNormals := t.uniqueNormals + [n])
  }

  /** One iteration of the corner loop: a new `(v, n)` pair appends a vertex
      and takes the next id, a repeated one reuses its id; the corner's raw
      position and normal slots are appended in either case. */
  function AddCornerT(t: Tables, c: IndexPair): (r: Tables)
    requires Covered(t) && CornerFits(t, c)
    ensures Covered(r)
    ensures r.rawPositions == t.rawPositions && r.rawNormals == t.rawNormals && r.format == t.format
  {
    var p := t.rawPositions[c.v - 1];
    var n := t.rawNormals[c.n - 1];
    var t' := t.(positionIndices := t.positionIndices + [t.positionIds[p]],
                 normalIndices := t.normalIndices + [t.normalIds[n]]);
    if c !in t.indexCache then
      t'.(positions := t.positions + [p], normals := t.normals + [n], indices := t.indices + [t.id],
          indexCache := t.indexCache[c := t.id], id := t.id + 1)
    else
      t'.(indices := t.indices + [t.indexCache[c]])
  }

  /** The corner loop over `cs`, in order. */
  function AddCornersT(t: Tables, cs: seq<IndexPair>): (r: Tables)
    requires Covered(t) && forall c :: c in cs ==> CornerFits(t, c)
    ensures Covered(r)
    ensures r.rawPositions == t.rawPositions && r.rawNormals == t.rawNormals && r.format == t.format
  {
    if cs == [] then t
    else
      var init := cs[..|cs| - 1];
      assert forall c :: c in init ==> c in cs;
      assert cs[|cs| - 1] in cs && CornerFits(t, cs[|cs| - 1]);
      var mid := AddCornersT(t, init);
      AddCornerT(mid, cs[|cs| - 1])
  }

  /** The corner loop over one more corner is one more `AddCornerT`. */
  lemma AddCornersSnoc(t: Tables, cs: seq<IndexPair>, i: nat)
    requires Covered(t) && (forall c :: c in cs ==> CornerFits(t, c)) && i < |cs|
    ensures forall c :: c in cs[..i] ==> CornerFits(t, c)
    ensures forall c :: c in cs[..i + 1] ==> CornerFits(t, c)
    ensures CornerFits(AddCornersT(t, cs[..i]), cs[i])
    ensures AddCornersT(t, cs[..i + 1]) == AddCornerT(AddCornersT(t, cs[..i]), cs[i])
  {
    assert cs[i] in cs;
    assert cs[..i + 1][..i] == cs[..i];
  }

  /** The effect of one line on the tables. */
  function StepT(t: Tables, line: ObjLine): (r: Tables)
    requires Covered(t) && FaceInRange(t.format, |t.rawPositions|, |t.rawNormals|, line)
    ensures Covered(r)
  {
    match Kind(line.text)
    case PositionLine => AddPosition(t, line.scan.vec)
    case NormalLine => AddNormal(t, line.scan.vec)
    case FaceLine =>
      var f := ScanFace(t.format, line.scan);
      AddCornersT(t.(format := f.format), FaceCorners(f))
    case IgnoredLine => t
  }

  /** `StepT` reads the raw values and latches the format exactly as `Step` does. */
  lemma StepTracksParse(t: Tables, st: ParseState, line: ObjLine)
    requires Covered(t) && FaceInRange(t.format, |t.rawPositions|, |t.rawNormals|, line)
    requires t.rawPositions == st.positions && t.rawNormals == st.normals && t.format == st.format
    ensures StepT(t, line).rawPositions == Step(st, line).positions
    ensures StepT(t, line).rawNormals == Step(st, line).normals
    ensures StepT(t, line).format == Step(st, line).format
  {
    match Kind(line.text)
    case FaceLine =>
      var f := ScanFace(t.format, line.scan);
      assert StepT(t, line) == AddCornersT(t.(format := f.format), FaceCorners(f));
    case _ =>
  }

  /** Dropping the last line of a loadable file leaves a loadable file, and
      the last line is in range for what was read before it. */
  lemma LoadableLast(lines: seq<ObjLine>)
    requires Loadable(lines) && lines != []
    ensures Loadable(lines[..|lines| - 1])
    ensures var st := Parsed(lines[..|lines| - 1]);
      FaceInRange(st.format, |st.positions|, |st.normals|, lines[|lines| - 1])
  {
    LoadablePrefix(lines, |lines| - 1);
  }

  /** The tables after the given lines. The raw values and the format are
      exactly what was read. */
  function LoadT(lines: seq<ObjLine>): (r: Tables)
    requires Loadable(lines)
    ensures Covered(r)
    ensures r.rawPositions == Parsed(lines).positions && r.rawNormals == Parsed(lines).normals
    ensures r.format == Parsed(lines).format
  {
    if lines == [] then NoTables
    else
      var init := lines[..|lines| - 1];
      LoadableLast(lines);
      var t := LoadT(init);
      StepTracksParse(t, Parsed(init), lines[|lines| - 1]);
      StepT(t, lines[|lines| - 1])
  }

  /** The `(v, n)` cache after `corners`: it maps exactly the pairs seen to
      their first-appearance ids, and `id` is the next id. */
  ghost predicate PairCache(corners: seq<IndexPair>, cache: map<IndexPair, nat>, id: nat) {
    id == |Distinct(corners)| && cache == Ids(Distinct(corners))
  }

  /** A value table: the distinct raw values in order of first appearance,
      and a cache mapping each of them to its slot. */
  ghost predicate ValueTable(raw: seq<Vec3>, unique: seq<Vec3>, ids: map<Vec3, nat>) {
    unique == Distinct(raw) && ids == Ids(unique)
  }

  /** Vertex `j` holds the raw position and raw normal of the `j`-th distinct pair. */
  ghost predicate VertexOk(t: Tables, pairs: seq<IndexPair>, j: int)
    requires 0 <= j < |pairs|
  {
    var c := pairs[j];
    && 1 <= c.v <= |t.rawPositions| && 1 <= c.n <= |t.rawNormals|
    && j < |t.positions| && j < |t.normals|
    && t.positions[j] == t.rawPositions[c.v - 1]
    && t.normals[j] == t.rawNormals[c.n - 1]
  }

  /** Corner `k` names raw values already read and is drawn with the id of
      its pair. */
  ghost predicate CornerIdOk(t: Tables, corners: seq<IndexPair>, k: int)
    requires 0 <= k < |corners|
  {
    var c := corners[k];
    && 1 <= c.v <= |t.rawPositions| && 1 <= c.n <= |t.rawNormals|
    && k < |t.indices|
    && t.indices[k] == IndexOf(Distinct(corners), c)
  }

  /** Corner `k` carries the value-table slots of its raw position and normal. */
  ghost predicate CornerSlotsOk(t: Tables, corners: seq<IndexPair>, k: int)
    requires 0 <= k < |corners|
  {
    var c := corners[k];
    && 1 <= c.v <= |t.rawPositions| && 1 <= c.n <= |t.rawNormals|
    && k < |t.positionIndices| && k < |t.normalIndices|
    && t.rawPositions[c.v - 1] in t.uniquePositions
    && t.rawNormals[c.n - 1] in t.uniqueNormals
    && t.positionIndices[k] == IndexOf(t.uniquePositions, t.rawPositions[c.v - 1])
    && t.normalIndices[k] == IndexOf(t.uniqueNormals, t.rawNormals[c.n - 1])
  }

  /** Everything the loader records for corner `k` is right. */
  ghost predicate CornerOk(t: Tables, corners: seq<IndexPair>, k: int)
    requires 0 <= k < |corners|
  {
    CornerIdOk(t, corners, k) && CornerSlotsOk(t, corners, k)
  }

  /** The loader's invariant relating the tables to the corners read so far. */
  ghost predicate Inv(t: Tables, corners: seq<IndexPair>) {
    && PairCache(corners, t.indexCache, t.id)
    && ValueTable(t.rawPositions, t.uniquePositions, t.positionIds)
    && ValueTable(t.rawNormals, t.uniqueNormals, t.normalIds)
    && |t.positions| == |t.normals| == t.id
    && |t.indices| == |t.positionIndices| == |t.normalIndices| == |corners|
    && (forall j :: 0 <= j < t.id ==> VertexOk(t, Distinct(corners), j))
    && (forall k :: 0 <= k < |corners| ==> CornerOk(t, corners, k))
  }

  /** A repeated pair leaves the cache alone; a new one gets the next id. */
  lemma PairCacheAdd(corners: seq<IndexPair>, cache: map<IndexPair, nat>, id: nat, c: IndexPair)
    requires PairCache(corners, cache, id)
    ensures c in cache ==> PairCache(corners + [c], cache, id)
    ensures c !in cache ==> PairCache(corners + [c], cache[c := id], id + 1)
  {
    DistinctSnoc(corners, c);
    if c !in cache {
      IdsSnoc(Distinct(corners), c);
    }
  }

  /** Reading one more raw value keeps its value table consistent. */
  lemma ValueTableSnoc(raw: seq<Vec3>, unique: seq<Vec3>, ids: map<Vec3, nat>, x: Vec3)
    requires ValueTable(raw, unique, ids)
    ensures x in ids ==> ValueTable(raw + [x], unique, ids)
    ensures x !in ids ==> ValueTable(raw + [x], unique + [x], ids[x := |unique|])
  {
    DistinctSnoc(raw, x);
    if x !in ids {
      IdsSnoc(unique, x);
    }
  }

  /** A vertex already in the table is not touched by a later corner. */
  lemma VertexStays(t: Tables, pairs: seq<IndexPair>, pairs': seq<IndexPair>, c: IndexPair, j: nat)
    requires Covered(t) && CornerFits(t, c) && pairs <= pairs' && j < |pairs|
    requires VertexOk(t, pairs, j)
    ensures VertexOk(AddCornerT(t, c), pairs', j)
  {
    var t' := AddCornerT(t, c);
    assert pairs'[j] == pairs[j];
    assert t'.positions[j] == t.positions[j] && t'.normals[j] == t.normals[j];
  }

  /** A new pair appends the vertex made of its raw position and normal. */
  lemma NewVertexOk(t: Tables, pairs: seq<IndexPair>, c: IndexPair)
    requires Covered(t) && CornerFits(t, c) && c !in t.indexCache
    requires |t.positions| == |t.normals| == t.id == |pairs|
    ensures VertexOk(AddCornerT(t, c), pairs + [c], t.id)
  {
    assert (pairs + [c])[t.id] == c;
  }

  /** A corner already read keeps its entries when a later corner is interned. */
  lemma CornerStays(t: Tables, corners: seq<IndexPair>, c: IndexPair, k: nat)
    requires Covered(t) && CornerFits(t, c) && k < |corners|
    requires |t.indices| == |t.positionIndices| == |t.normalIndices| == |corners|
    requires CornerOk(t, corners, k)
    ensures CornerOk(AddCornerT(t, c), corners + [c], k)
  {
    var t' := AddCornerT(t, c);
    var corners' := corners + [c];
    assert corners'[k] == corners[k];
    DistinctSnoc(corners, c);
    IndexOfPrefix(Distinct(corners), Distinct(corners'), corners[k]);
    assert t'.indices[k] == t.indices[k];
    assert t'.positionIndices[k] == t.positionIndices[k];
    assert t'.normalIndices[k] == t.normalIndices[k];
  }

  /** The corner just interned gets its pair's id. */
  lemma NewCornerIdOk(t: Tables, corners: seq<IndexPair>, c: IndexPair)
    requires Covered(t) && CornerFits(t, c)
    requires PairCache(corners, t.indexCache, t.id) && |t.indices| == |corners|
    ensures CornerIdOk(AddCornerT(t, c), corners + [c], |corners|)
  {
    var t' := AddCornerT(t, c);
    var k := |corners|;
    assert (corners + [c])[k] == c;
    DistinctSnoc(corners, c);
    var pairs := Distinct(corners);
    if c in t.indexCache {
      assert t'.indices[k] == t.indexCache[c] == IndexOf(pairs, c);
    } else {
      assert IndexOf(pairs + [c], c) == |pairs|;
    }
  }

  /** The corner just interned gets the slots of its raw position and normal. */
  lemma NewCornerSlotsOk(t: Tables, corners: seq<IndexPair>, c: IndexPair)
    requires Covered(t) && CornerFits(t, c)
    requires ValueTable(t.rawPositions, t.uniquePositions, t.positionIds)
    requires ValueTable(t.rawNormals, t.uniqueNormals, t.normalIds)
    requires |t.positionIndices| == |t.normalIndices| == |corners|
    ensures CornerSlotsOk(AddCornerT(t, c), corners + [c], |corners|)
  {
    assert (corners + [c])[|corners|] == c;
    SlotIsIndexOf(t.rawPositions, t.uniquePositions, t.positionIds, t.rawPositions[c.v - 1]);
    SlotIsIndexOf(t.rawNormals, t.uniqueNormals, t.normalIds, t.rawNormals[c.n - 1]);
  }

  /** A raw value read is in its value table, and its cached slot is its id there. */
  lemma SlotIsIndexOf(raw: seq<Vec3>, unique: seq<Vec3>, ids: map<Vec3, nat>, x: Vec3)
    requires ValueTable(raw, unique, ids) && x in raw
    ensures x in unique && x in ids && ids[x] == IndexOf(unique, x)
  {
  }

  /** After a corner is interned, every vertex is still right. */
  lemma VerticesAfterCorner(t: Tables, corners: seq<IndexPair>, c: IndexPair)
    requires Inv(t, corners) && Covered(t) && CornerFits(t, c)
    ensures AddCornerT(t, c).id == |Distinct(corners + [c])|
    ensures forall j :: 0 <= j < AddCornerT(t, c).id ==>
      VertexOk(AddCornerT(t, c), Distinct(corners + [c]), j)
  {
    var t' := AddCornerT(t, c);
    var pairs, pairs' := Distinct(corners), Distinct(corners + [c]);
    DistinctSnoc(corners, c);
    forall j | 0 <= j < t.id
      ensures VertexOk(t', pairs', j)
    {
      VertexStays(t, pairs, pairs', c, j);
    }
    if c !in t.indexCache {
      assert t'.id == t.id + 1;
      assert c !in pairs;
      NewVertexOk(t, pairs, c);
    } else {
      assert t'.id == t.id;
    }
  }

  /** After a corner is interned, every corner, old and new, is right. */
  lemma CornersAfterCorner(t: Tables, corners: seq<IndexPair>, c: IndexPair)
    requires Inv(t, corners) && Covered(t) && CornerFits(t, c)
    ensures forall k :: 0 <= k < |corners + [c]| ==> CornerOk(AddCornerT(t, c), corners + [c], k)
  {
    var t', corners' := AddCornerT(t, c), corners + [c];
    NewCornerIdOk(t, corners, c);
    NewCornerSlotsOk(t, corners, c);
    assert CornerOk(t', corners', |corners|);
    forall k | 0 <= k < |corners|
      ensures CornerOk(t', corners', k)
    {
      CornerStays(t, corners, c, k);
    }
  }

  /** Interning a corner keeps the invariant, with the corner appended. */
  lemma AddCornerKeepsInv(t: Tables, corners: seq<IndexPair>, c: IndexPair)
    requires Inv(t, corners) && Covered(t) && CornerFits(t, c)
    ensures Inv(AddCornerT(t, c), corners + [c])
  {
    PairCacheAdd(corners, t.indexCache, t.id, c);
    VerticesAfterCorner(t, corners, c);
    CornersAfterCorner(t, corners, c);
  }

  /** The invariant does not involve the latched format. */
  lemma InvIgnoresFormat(t: Tables, corners: seq<IndexPair>, format: ObjFormat)
    requires Inv(t, corners)
    ensures Inv(t.(format := format), corners)
  {
    var t' := t.(format := format);
    forall j | 0 <= j < t.id
      ensures VertexOk(t', Distinct(corners), j)
    {
      assert VertexOk(t, Distinct(corners), j);
    }
    forall k | 0 <= k < |corners|
      ensures CornerOk(t', corners, k)
    {
      assert CornerOk(t, corners, k);
    }
  }

  /** Appending a face's corners is appending all but the last, then the last. */
  lemma AppendLast(corners: seq<IndexPair>, cs: seq<IndexPair>)
    requires cs != []
    ensures corners + cs[..|cs| - 1] + [cs[|cs| - 1]] == corners + cs
  {
    assert cs == cs[..|cs| - 1] + [cs[|cs| - 1]];
  }

  /** The corner loop keeps the invariant, with the face's corners appended. */
  lemma {:induction false} AddCornersKeepsInv(t: Tables, corners: seq<IndexPair>, cs: seq<IndexPair>)
    requires Inv(t, corners) && Covered(t) && forall c :: c in cs ==> CornerFits(t, c)
    ensures Inv(AddCornersT(t, cs), corners + cs)
  {
    if cs != [] {
      var init := cs[..|cs| - 1];
      var last := cs[|cs| - 1];
      assert forall c :: c in init ==> c in cs;
      assert last in cs && CornerFits(t, last);
      AddCornersKeepsInv(t, corners, init);
      var mid := AddCornersT(t, init);
      AddCornerKeepsInv(mid, corners + init, last);
      AppendLast(corners, cs);
    } else {
      assert corners + cs == corners;
    }
  }

  /** A `v` line keeps the invariant: earlier slots stay put as the value
      table grows behind them. */
  lemma AddPositionKeepsInv(t: Tables, corners: seq<IndexPair>, v: Vec3)
    requires Inv(t, corners) && Covered(t)
    ensures Inv(AddPosition(t, v), corners)
  {
    var t' := AddPosition(t, v);
    ValueTableSnoc(t.rawPositions, t.uniquePositions, t.positionIds, v);
    forall j | 0 <= j < t.id
      ensures VertexOk(t', Distinct(corners), j)
    {
      assert VertexOk(t, Distinct(corners), j);
    }
    forall k | 0 <= k < |corners|
      ensures CornerOk(t', corners, k)
    {
      assert CornerOk(t, corners, k);
      IndexOfPrefix(t.uniquePositions, t'.uniquePositions, t.rawPositions[corners[k].v - 1]);
    }
  }

  /** A `vn` line keeps the invariant. */
  lemma AddNormalKeepsInv(t: Tables, corners: seq<IndexPair>, n: Vec3)
    requires Inv(t, corners) && Covered(t)
    ensures Inv(AddNormal(t, n), corners)
  {
    var t' := AddNormal(t, n);
    ValueTableSnoc(t.rawNormals, t.uniqueNormals, t.normalIds, n);
    forall j | 0 <= j < t.id
      ensures VertexOk(t', Distinct(corners), j)
    {
      assert VertexOk(t, Distinct(corners), j);
    }
    forall k | 0 <= k < |corners|
      ensures CornerOk(t', corners, k)
    {
      assert CornerOk(t, corners, k);
      IndexOfPrefix(t.uniqueNormals, t'.uniqueNormals, t.rawNormals[corners[k].n - 1]);
    }
  }

  /** The loader's invariant holds after every prefix of a loadable file:
      the tables are the first-appearance interning of the corners read. */
  lemma {:induction false} LoadKeepsInv(lines: seq<ObjLine>)
    requires Loadable(lines)
    ensures Inv(LoadT(lines), Parsed(lines).corners)
  {
    if lines != [] {
      var init := lines[..|lines| - 1];
      var line := lines[|lines| - 1];
      LoadableLast(lines);
      LoadKeepsInv(init);
      var t := LoadT(init);
      var cs := Parsed(init).corners;
      match Kind(line.text)
      case PositionLine => AddPositionKeepsInv(t, cs, line.scan.vec);
      case NormalLine => AddNormalKeepsInv(t, cs, line.scan.vec);
      case FaceLine =>
        var f := ScanFace(t.format, line.scan);
        InvIgnoresFormat(t, cs, f.format);
        AddCornersKeepsInv(t.(format := f.format), cs, FaceCorners(f));
      case IgnoredLine =>
    }
  }

  /** One iteration of the loader's line loop, on the loader's state: a `v`
      or `vn` line extends the raw values and their value table, a face line
      latches the format and runs the corner loop, any other line is skipped. */
  method ProcessLine(t: Tables, line: ObjLine) returns (r: Tables)
    requires Covered(t) && FaceInRange(t.format, |t.rawPositions|, |t.rawNormals|, line)
    ensures r == StepT(t, line)
  {
    if |line.text| >= 2 && line.text[0] == 'v' && line.text[1] == ' ' {
      r := AddPosition(t, line.scan.vec);
    } else if |line.text| >= 2 && line.text[0] == 'v' && line.text[1] == 'n' {
      r := AddNormal(t, line.scan.vec);
    } else if |line.text| >= 1 && line.text[0] == 'f' {
      var f := ScanFace(t.format, line.scan);
      r := AddFace(t.(format := f.format), f);
    } else {
      r := t;
    }
  }

  /** The corner loop of a face line: three corners for a triangle, six for a
      quad split along the diagonal 0-2. */
  method AddFace(t: Tables, f: FaceFields) returns (r: Tables)
    requires |f.ivs| == 4 && |f.ivns| == 4
    requires Covered(t) && forall c :: c in FaceCorners(f) ==> CornerFits(t, c)
    ensures r == AddCornersT(t, FaceCorners(f))
  {
    ghost var cs := FaceCorners(f);
    var numVerts := if f.ivs[3] == 0 then 3 else 6;
    r := t;
    var i := 0;
    while i < numVerts
      invariant 0 <= i <= numVerts == |cs|
      invariant r == AddCornersT(t, cs[..i])
    {
      var k := Triangulation[i];
      AddCornersSnoc(t, cs, i);
      assert IndexPair(f.ivs[k], f.ivns[k]) == cs[i];
      r := AddCornerT(r, IndexPair(f.ivs[k], f.ivns[k]));
      i := i + 1;
    }
    assert cs[..i] == cs;
  }

  /** Every prefix of a loadable file is loadable. */
  lemma LoadablePrefix(lines: seq<ObjLine>, i: nat)
    requires Loadable(lines) && i <= |lines|
    ensures Loadable(lines[..i])
  {
    forall k | 0 <= k < i
      ensures lines[..i][..k] == lines[..k]
    {
    }
  }

  /** The tables after one more line are one `StepT` further, and that line
      is in range for the tables before it. */
  lemma LoadNextLine(lines: seq<ObjLine>, i: nat)
    requires Loadable(lines) && i < |lines|
    ensures Loadable(lines[..i]) && Loadable(lines[..i + 1])
    ensures var t := LoadT(lines[..i]);
      && FaceInRange(t.format, |t.rawPositions|, |t.rawNormals|, lines[i])
      && LoadT(lines[..i + 1]) == StepT(t, lines[i])
  {
    LoadablePrefix(lines, i);
    LoadablePrefix(lines, i + 1);
    assert lines[..i + 1][..i] == lines[..i];
  }

  class WaveFrontObj {
    /** One entry per distinct `(v, n)` pair, in order of first appearance. */
    var Positions: seq<Vec3>
    var Normals: seq<Vec3>
    /** One entry per face corner: the vertex id of its `(v, n)` pair. */
    var Indices: seq<nat>
    /** One entry per face corner: the slots of its raw position and raw
        normal in the value tables. */
    var PositionIndices: seq<nat>
    var NormalIndices: seq<nat>
    /** The distinct raw positions and normals, in order of first appearance. */
    var UniquePositions: seq<Vec3>
    var UniqueNormals: seq<Vec3>

    /** The members hold the output tables of `t`. */
    ghost predicate Holds(t: Tables)
      reads this
    {
      && Positions == t.positions && Normals == t.normals && Indices == t.indices
      && PositionIndices == t.positionIndices && NormalIndices == t.normalIndices
      && UniquePositions == t.uniquePositions && UniqueNormals == t.uniqueNormals
    }

    /** Loads a file; `None` is a file that cannot be opened, which leaves
        every table empty. */
    constructor (file: Option<seq<ObjLine>>)
      requires file.Some? ==> Loadable(file.value)
      ensures Holds(if file.Some? then LoadT(file.value) else NoTables)
    {
      var t := NoTables;
      if file.Some? {
        var lines := file.value;
        var i := 0;
        LoadablePrefix(lines, 0);
        while i < |lines|
          invariant 0 <= i <= |lines|
          invariant Loadable(lines[..i])
          invariant t == LoadT(lines[..i])
        {
          LoadNextLine(lines, i);
          t := ProcessLine(t, lines[i]);
          i := i + 1;
        }
        assert lines[..i] == lines;
      }
      Positions, Normals, Indices := t.positions, t.normals, t.indices;
      PositionIndices, NormalIndices := t.positionIndices, t.normalIndices;
      UniquePositions, UniqueNormals := t.uniquePositions, t.uniqueNormals;
    }
  }

  /** A face expands to whole triangles, so the corner count, and with it the
      length of `Indices`, `PositionIndices` and `NormalIndices`, is always a
      multiple of three. */
  lemma {:induction false} CornersFormTriangles(lines: seq<ObjLine>)
    ensures |Parsed(lines).corners| % 3 == 0
  {
    if lines != [] {
      CornersFormTriangles(lines[..|lines| - 1]);
    }
  }

  /** Once a face has fixed the format, it stays fixed for the rest of the file. */
  lemma {:induction false} FormatLatches(lines: seq<ObjLine>, k: nat)
    requires k <= |lines|
    requires Parsed(lines[..k]).format != UnknownFormat
    ensures Parsed(lines).format == Parsed(lines[..k]).format
  {
    if k < |lines| {
      var init := lines[..|lines| - 1];
      assert init[..k] == lines[..k];
      FormatLatches(init, k);
    } else {
      assert lines[..k] == lines;
    }
  }

  /** With a format latched, the other pattern's outcome has no effect on a face. */
  lemma LatchedFormatIgnoresOtherPattern(a: Vec3, b: Vec3, vn: seq<int>, vn': seq<int>, vtn: seq<int>, vtn': seq<int>)
    ensures ScanFace(VNFormat, Scan(a, vn, vtn)) == ScanFace(VNFormat, Scan(b, vn, vtn'))
    ensures ScanFace(VTNFormat, Scan(a, vn, vtn)) == ScanFace(VTNFormat, Scan(b, vn', vtn))
  {
  }

  /** Lines other than `v `, `vn` and `f` lines (texture coordinates,
      comments, groups, empty lines) change nothing. */
  lemma IgnoredLineChangesNothing(lines: seq<ObjLine>, line: ObjLine)
    requires Kind(line.text) == IgnoredLine
    ensures Parsed(lines + [line]) == Parsed(lines)
  {
    assert (lines + [line])[..|lines|] == lines;
  }

  /** The dispatch on the first two characters of a line. */
  lemma LineKinds(rest: string)
    ensures Kind("v " + rest) == PositionLine
    ensures Kind("vn" + rest) == NormalLine
    ensures Kind("f" + rest) == FaceLine
    ensures Kind("vt" + rest) == IgnoredLine
    ensures Kind("#" + rest) == IgnoredLine
    ensures Kind("") == IgnoredLine
  {
  }

  /** Under the invariant, the entries of corner `k` point at its data. */
  lemma CornerData(t: Tables, cs: seq<IndexPair>, k: nat)
    requires Inv(t, cs) && k < |cs|
    ensures var c := cs[k];
      && 1 <= c.v <= |t.rawPositions| && 1 <= c.n <= |t.rawNormals|
      && t.indices[k] < |t.positions|
      && t.positions[t.indices[k]] == t.rawPositions[c.v - 1]
      && t.normals[t.indices[k]] == t.rawNormals[c.n - 1]
      && t.positionIndices[k] < |t.uniquePositions|
      && t.uniquePositions[t.positionIndices[k]] == t.rawPositions[c.v - 1]
      && t.normalIndices[k] < |t.uniqueNormals|
      && t.uniqueNormals[t.normalIndices[k]] == t.rawNormals[c.n - 1]
  {
    var pairs := Distinct(cs);
    assert cs[k] in cs;
    assert CornerOk(t, cs, k);
    var i := IndexOf(pairs, cs[k]);
    assert VertexOk(t, pairs, i);
  }

  /** Every index the loader emits is in range and points at the data of its
      corner: `Indices` into `Positions`/`Normals`, `PositionIndices` and
      `NormalIndices` into the value tables. */
  lemma IndicesPointAtCornerData(lines: seq<ObjLine>, k: nat)
    requires Loadable(lines) && k < |Parsed(lines).corners|
    ensures var t, c := LoadT(lines), Parsed(lines).corners[k];
      && |t.indices| == |t.positionIndices| == |t.normalIndices| == |Parsed(lines).corners|
      && 1 <= c.v <= |t.rawPositions| && 1 <= c.n <= |t.rawNormals|
      && t.indices[k] < |t.positions| == |t.normals|
      && t.positions[t.indices[k]] == t.rawPositions[c.v - 1]
      && t.normals[t.indices[k]] == t.rawNormals[c.n - 1]
      && t.positionIndices[k] < |t.uniquePositions|
      && t.uniquePositions[t.positionIndices[k]] == t.rawPositions[c.v - 1]
      && t.normalIndices[k] < |t.uniqueNormals|
      && t.uniqueNormals[t.normalIndices[k]] == t.rawNormals[c.n - 1]
  {
    var t, cs := LoadT(lines), Parsed(lines).corners;
    LoadKeepsInv(lines);
    assert Inv(t, cs);
    CornerData(t, cs, k);
  }

  /** A `(v, n)` pair seen for the first time gets the number of distinct pairs
      seen before it; a repeated pair gets the id of its first occurrence, and
      different pairs never share an id. */
  lemma VertexIdsByFirstAppearance(lines: seq<ObjLine>, j: nat, k: nat)
    requires Loadable(lines) && j < |Parsed(lines).corners| && k < |Parsed(lines).corners|
    ensures var t, cs := LoadT(lines), Parsed(lines).corners;
      && |t.indices| == |cs|
      && (cs[k] !in cs[..k] ==> t.indices[k] == |Distinct(cs[..k])|)
      && (t.indices[j] == t.indices[k] <==> cs[j] == cs[k])
  {
    LoadKeepsInv(lines);
    var t, cs := LoadT(lines), Parsed(lines).corners;
    assert CornerOk(t, cs, j) && CornerOk(t, cs, k);
    if cs[k] !in cs[..k] {
      FirstOccurrenceId(cs, k);
    }
    IdsMatchOccurrences(cs, j, k);
  }

  /** There is one vertex per distinct `(v, n)` pair, and one slot in each
      value table per distinct raw value; no table holds a value twice. */
  lemma TablesAreDistinct(lines: seq<ObjLine>)
    requires Loadable(lines)
    ensures var t := LoadT(lines);
      && |t.positions| == |t.normals| == t.id == |Distinct(Parsed(lines).corners)|
      && NoDuplicates(t.uniquePositions) && NoDuplicates(t.uniqueNormals)
      && (forall p :: p in t.uniquePositions <==> p in Parsed(lines).positions)
      && (forall n :: n in t.uniqueNormals <==> n in Parsed(lines).normals)
  {
    LoadKeepsInv(lines);
    DistinctHasNoDuplicates(Parsed(lines).positions);
    DistinctHasNoDuplicates(Parsed(lines).normals);
  }

  /** The three per-corner index buffers have one entry per corner, and so a
      length that is a multiple of three. */
  lemma IndexBuffersFormTriangles(lines: seq<ObjLine>)
    requires Loadable(lines)
    ensures var t := LoadT(lines);
      && |t.indices| == |t.positionIndices| == |t.normalIndices| == |Parsed(lines).corners|
      && |t.indices| % 3 == 0
  {
    LoadKeepsInv(lines);
    CornersFormTriangles(lines);
  }
}
