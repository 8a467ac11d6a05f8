/** The index patterns shared by the latitude/longitude meshes of
    shapes/FrustumCone.java, shapes/Cylinder.java and shapes/SolidCone.java.
    Vertex (j, i) of a grid `xlong` vertices wide is vertex number
    j * xlong + i; every `createIndices` writes the quads of such a grid
    row by row, and two of them add triangle fans after the quads. */
module MeshIndices {

  /** Quad (j, i): vertex a = j*xlong + i, its right neighbour and the two
      vertices above them, as the anticlockwise triangles
      (a, a+1, a+xlong+1) and (a, a+xlong+1, a+xlong).  The two triangles
      share the diagonal from a to a+xlong+1. */
  function Quad(xlong: int, j: int, i: int): (q: seq<int>)
    ensures |q| == 6
    ensures q[0] == q[3] && q[2] == q[4]
  {
    var a := j * xlong + i;
    [a, a + 1, a + xlong + 1, a, a + xlong + 1, a + xlong]
  }

  /** Quads (j, 0) .. (j, n-1), in the order the inner loop writes them. */
  function QuadRow(xlong: int, j: int, n: nat): (r: seq<int>)
    ensures |r| == n * 6
  {
    seq(n * 6, k requires 0 <= k < n * 6 => Quad(xlong, j, k / 6)[k % 6])
  }

  /** Rows 0 .. rows-1 of quads, each row `cols` quads long. */
  function QuadGrid(xlong: int, cols: nat, rows: nat): (g: seq<int>)
    ensures |g| == rows * (cols * 6)
  {
    if rows == 0 then [] else QuadGrid(xlong, cols, rows - 1) + QuadRow(xlong, rows - 1, cols)
  }

  /** Fan triangles (i, i+1, apex) for i = 0 .. n-1. */
  function Fan(apex: int, n: nat): (f: seq<int>)
    ensures |f| == n * 3
  {
    if n == 0 then [] else Fan(apex, n - 1) + [n - 1, n, apex]
  }

  /** The slot `base + i * 6 + c`, with `base = j * cols * 6`, that the
      quad loops give to corner c of quad (j, i). */
  function QuadSlot(cols: nat, j: nat, i: nat, c: nat): nat {
    (j * cols + i) * 6 + c
  }

  /** The slot `base + i * 3 + c` that a fan loop starting at `base` gives
      to corner c of triangle i. */
  function FanSlot(base: nat, i: nat, c: nat): nat {
    base + i * 3 + c
  }

  lemma MulMonotone(a: nat, b: nat, w: nat)
    requires a <= b
    ensures a * w <= b * w
  {
  }

  lemma MulSucc(a: nat, w: nat)
    ensures (a + 1) * w == a * w + w
  {
  }

  /** Row j of quads starts at slot j * (cols * 6). */
  lemma RowStart(cols: nat, j: nat)
    ensures QuadSlot(cols, j, 0, 0) == j * (cols * 6)
  {
  }

  /** Corner c of quad (j, i) sits at offset i*6 + c of its row. */
  lemma QuadRowAt(xlong: int, j: int, n: nat, i: nat, c: nat)
    requires i < n && c < 6
    ensures QuadRow(xlong, j, n)[i * 6 + c] == Quad(xlong, j, i)[c]
  {
    assert (i * 6 + c) / 6 == i && (i * 6 + c) % 6 == c;
  }

  /** Corner c of quad (j, i) sits at QuadSlot(cols, j, i, c) of the grid. */
  lemma {:induction false} QuadGridAt(xlong: int, cols: nat, rows: nat, j: nat, i: nat, c: nat)
    requires j < rows && i < cols && c < 6
    ensures QuadSlot(cols, j, i, c) < rows * (cols * 6)
    ensures QuadGrid(xlong, cols, rows)[QuadSlot(cols, j, i, c)] == Quad(xlong, j, i)[c]
  {
    var w := cols * 6;
    var k := QuadSlot(cols, j, i, c);
    RowStart(cols, j);
    MulSucc(j, w);
    MulMonotone(j + 1, rows, w);
    MulSucc(rows - 1, w);
    var front := QuadGrid(xlong, cols, rows - 1);
    assert |front| == (rows - 1) * w;
    if j < rows - 1 {
      MulMonotone(j + 1, rows - 1, w);
      QuadGridAt(xlong, cols, rows - 1, j, i, c);
      assert QuadGrid(xlong, cols, rows)[k] == front[k];
    } else {
      QuadRowAt(xlong, j, cols, i, c);
      assert k == |front| + (i * 6 + c);
    }
  }

  /** Corner c of fan triangle i sits at offset i*3 + c. */
  lemma {:induction false} FanAt(apex: int, n: nat, i: nat, c: nat)
    requires i < n && c < 3
    ensures Fan(apex, n)[FanSlot(0, i, c)] == [i, i + 1, apex][c]
  {
    if i < n - 1 {
      FanAt(apex, n - 1, i, c);
    }
  }

  /** Slots s .. s+5 of `t` hold quad (j, i) of a grid `xlong` wide. */
  predicate QuadIn(t: seq<int>, s: int, xlong: int, j: int, i: int) {
    var a := j * xlong + i;
    0 <= s && s + 6 <= |t| &&
    t[s] == a && t[s + 1] == a + 1 && t[s + 2] == a + xlong + 1 &&
    t[s + 3] == a && t[s + 4] == a + xlong + 1 && t[s + 5] == a + xlong
  }

  /** Quad (j, i) sits in its own slots, QuadSlot(cols, j, i, 0) onwards. */
  predicate QuadPlaced(t: seq<int>, xlong: int, cols: nat, j: nat, i: nat) {
    QuadIn(t, QuadSlot(cols, j, i, 0), xlong, j, i)
  }

  /** Slots s .. s+2 of `t` hold the fan triangle (i, i+1, apex). */
  predicate TriangleIn(t: seq<int>, s: int, i: int, apex: int) {
    0 <= s && s + 3 <= |t| && t[s] == i && t[s + 1] == i + 1 && t[s + 2] == apex
  }

  /** Fan triangle i of a fan starting at `base` sits at base + i*3. */
  predicate TrianglePlaced(t: seq<int>, base: nat, i: nat, apex: int) {
    TriangleIn(t, FanSlot(base, i, 0), i, apex)
  }

  /** Every quad of the grid is in place. */
  lemma QuadCorners(xlong: int, cols: nat, rows: nat, j: nat, i: nat)
    requires j < rows && i < cols
    ensures QuadPlaced(QuadGrid(xlong, cols, rows), xlong, cols, j, i)
  {
    QuadGridAt(xlong, cols, rows, j, i, 0);
    QuadGridAt(xlong, cols, rows, j, i, 1);
    QuadGridAt(xlong, cols, rows, j, i, 2);
    QuadGridAt(xlong, cols, rows, j, i, 3);
    QuadGridAt(xlong, cols, rows, j, i, 4);
    QuadGridAt(xlong, cols, rows, j, i, 5);
  }

  /** Every triangle of the fan is in place. */
  lemma FanCorners(apex: int, n: nat, i: nat)
    requires i < n
    ensures TrianglePlaced(Fan(apex, n), 0, i, apex)
  {
    FanAt(apex, n, i, 0);
    FanAt(apex, n, i, 1);
    FanAt(apex, n, i, 2);
  }

  /** What sits in `t` sits at the same place in `t + u` ... */
  lemma InPrefix(t: seq<int>, u: seq<int>, s: int, xlong: int, j: int, i: int, apex: int)
    ensures QuadIn(t, s, xlong, j, i) ==> QuadIn(t + u, s, xlong, j, i)
    ensures TriangleIn(t, s, i, apex) ==> TriangleIn(t + u, s, i, apex)
  {
  }

  /** ... and what sits in `u` sits |t| slots further in `t + u`. */
  lemma InSuffix(t: seq<int>, u: seq<int>, s: int, xlong: int, j: int, i: int, apex: int)
    ensures QuadIn(u, s, xlong, j, i) ==> QuadIn(t + u, |t| + s, xlong, j, i)
    ensures TriangleIn(u, s, i, apex) ==> TriangleIn(t + u, |t| + s, i, apex)
  {
  }

  /** Every quad the loops reach before quad (j, i) is in place: the whole
      rows below j, and the first i quads of row j.  With i = 0 and j the
      number of rows, this is the whole grid. */
  ghost predicate QuadsBefore(t: seq<int>, xlong: int, cols: nat, j: nat, i: nat) {
    forall j': nat, i': nat :: (j' < j && i' < cols) || (j' == j && i' < i) ==> QuadPlaced(t, xlong, cols, j', i')
  }

  /** The first n triangles of the fan starting at `base` are in place. */
  ghost predicate TrianglesBefore(t: seq<int>, base: nat, n: nat, apex: int) {
    forall i: nat :: i < n ==> TrianglePlaced(t, base, i, apex)
  }

  /** `t` and `u` agree below slot p. */
  ghost predicate Agree(t: seq<int>, u: seq<int>, p: int) {
    |t| == |u| && 0 <= p <= |t| && forall k :: 0 <= k < p ==> t[k] == u[k]
  }

  /** Slots p onwards of `t` still hold the 0 they were created with. */
  ghost predicate ZeroFrom(t: seq<int>, p: int) {
    forall k :: 0 <= k < |t| && p <= k ==> t[k] == 0
  }

  /** Writes at or past the slot of quad (j, i) leave the quads before it
      in place. */
  lemma QuadsKept(t: seq<int>, u: seq<int>, xlong: int, cols: nat, j: nat, i: nat, p: int)
    requires i <= cols && QuadSlot(cols, j, i, 0) <= p && Agree(t, u, p)
    requires QuadsBefore(t, xlong, cols, j, i)
    ensures QuadsBefore(u, xlong, cols, j, i)
  {
    var w := cols * 6;
    forall j': nat, i': nat | (j' < j && i' < cols) || (j' == j && i' < i)
      ensures QuadPlaced(u, xlong, cols, j', i')
    {
      RowStart(cols, j');
      RowStart(cols, j);
      if j' < j {
        MulSucc(j', w);
        MulMonotone(j' + 1, j, w);
      }
      assert QuadSlot(cols, j', i', 0) + 6 <= p;
      assert QuadPlaced(t, xlong, cols, j', i');
    }
  }

  /** Writes at or past the slot of triangle n leave the triangles before
      it in place. */
  lemma TrianglesKept(t: seq<int>, u: seq<int>, base: nat, n: nat, apex: int, p: int)
    requires FanSlot(base, n, 0) <= p && Agree(t, u, p)
    requires TrianglesBefore(t, base, n, apex)
    ensures TrianglesBefore(u, base, n, apex)
  {
    forall i: nat | i < n
      ensures TrianglePlaced(u, base, i, apex)
    {
      assert TrianglePlaced(t, base, i, apex);
    }
  }

  /** One pass of the quad loop: quad (j, i), with a = j*xlong + i and
      b = a + xlong, written into its own six slots, which were still 0,
      keeps the quads before it and the zeros after it. */
  lemma QuadStep(t: seq<int>, u: seq<int>, xlong: int, cols: nat, j: nat, i: nat, s: int, a: int, b: int)
    requires i < cols && s == QuadSlot(cols, j, i, 0) && s + 6 <= |t|
    requires a == j * xlong + i && b == a + xlong
    requires QuadsBefore(t, xlong, cols, j, i) && ZeroFrom(t, s)
    requires u == t[s := a][s + 1 := a + 1][s + 2 := b + 1][s + 3 := a][s + 4 := b + 1][s + 5 := b]
    ensures QuadsBefore(u, xlong, cols, j, i + 1) && ZeroFrom(u, QuadSlot(cols, j, i + 1, 0))
  {
    QuadsKept(t, u, xlong, cols, j, i, s);
    assert QuadPlaced(u, xlong, cols, j, i);
  }

  /** One pass of a fan loop: triangle (i, i+1, apex) written into its own
      three slots, which were still 0, keeps the triangles before it, the
      zeros after it and every slot below it. */
  lemma TriangleStep(t: seq<int>, u: seq<int>, base: nat, i: nat, apex: int, s: int)
    requires s == FanSlot(base, i, 0) && s + 3 <= |t|
    requires TrianglesBefore(t, base, i, apex) && ZeroFrom(t, s)
    requires u == t[s := i][s + 1 := i + 1][s + 2 := apex]
    ensures TrianglesBefore(u, base, i + 1, apex) && ZeroFrom(u, FanSlot(base, i + 1, 0))
    ensures Agree(t, u, s)
  {
    TrianglesKept(t, u, base, i, apex, s);
    assert TrianglePlaced(u, base, i, apex);
  }

  /** The six stores of one pass of a quad loop, `indices[s + c] = ...`
      for c = 0 .. 5, with a = j*xlong + i and b = (j+1)*xlong + i.  The
      slots are distinct, so the six stores are one simultaneous
      assignment. */
  method PlaceQuad(indices: array<int>, xlong: int, cols: nat, j: nat, i: nat, s: int, a: int, b: int)
    requires i < cols && s == QuadSlot(cols, j, i, 0) && s + 6 <= indices.Length
    requires a == j * xlong + i && b == a + xlong
    requires QuadsBefore(indices[..], xlong, cols, j, i) && ZeroFrom(indices[..], s)
    modifies indices
    ensures indices[..] == old(indices[..])[s := a][s + 1 := a + 1][s + 2 := b + 1][s + 3 := a][s + 4 := b + 1][s + 5 := b]
    ensures QuadsBefore(indices[..], xlong, cols, j, i + 1) && ZeroFrom(indices[..], QuadSlot(cols, j, i + 1, 0))
  {
    ghost var before := indices[..];
    indices[s], indices[s + 1], indices[s + 2], indices[s + 3], indices[s + 4], indices[s + 5] :=
      a, a + 1, b + 1, a, b + 1, b;
    QuadStep(before, indices[..], xlong, cols, j, i, s, a, b);
  }

  /** The three stores of one pass of a fan loop, `indices[s + c] = ...`
      for c = 0 .. 2. */
  method PlaceTriangle(indices: array<int>, base: nat, i: nat, apex: int, s: int)
    requires s == FanSlot(base, i, 0) && s + 3 <= indices.Length
    requires TrianglesBefore(indices[..], base, i, apex) && ZeroFrom(indices[..], s)
    modifies indices
    ensures indices[..] == old(indices[..])[s := i][s + 1 := i + 1][s + 2 := apex]
    ensures TrianglesBefore(indices[..], base, i + 1, apex) && ZeroFrom(indices[..], FanSlot(base, i + 1, 0))
    ensures Agree(old(indices[..]), indices[..], s)
  {
    ghost var before := indices[..];
    indices[s], indices[s + 1], indices[s + 2] := i, i + 1, apex;
    TriangleStep(before, indices[..], base, i, apex, s);
  }

  /** Two tables with the whole grid in place agree on every slot of it. */
  lemma QuadSlotAgrees(t: seq<int>, u: seq<int>, xlong: int, cols: nat, rows: nat, k: nat)
    requires QuadsBefore(t, xlong, cols, rows, 0) && QuadsBefore(u, xlong, cols, rows, 0)
    requires k < rows * (cols * 6)
    ensures k < |t| && k < |u| && t[k] == u[k]
  {
    QuadSlotsCover(cols, rows, k);
    var j: nat, i: nat, c: nat :| j < rows && i < cols && c < 6 && QuadSlot(cols, j, i, c) == k;
    assert QuadPlaced(t, xlong, cols, j, i) && QuadPlaced(u, xlong, cols, j, i);
  }

  /** Two tables with the same n fan triangles in place agree on their slots. */
  lemma TriangleSlotAgrees(t: seq<int>, u: seq<int>, base: nat, n: nat, apex: int, k: nat)
    requires TrianglesBefore(t, base, n, apex) && TrianglesBefore(u, base, n, apex)
    requires base <= k < base + n * 3
    ensures k < |t| && k < |u| && t[k] == u[k]
  {
    var i: nat := (k - base) / 3;
    assert TrianglePlaced(t, base, i, apex) && TrianglePlaced(u, base, i, apex);
  }

  /** Two different corners never share a slot ... */
  lemma QuadSlotsDistinct(cols: nat, j: nat, i: nat, c: nat, j': nat, i': nat, c': nat)
    requires i < cols && c < 6 && i' < cols && c' < 6
    requires QuadSlot(cols, j, i, c) == QuadSlot(cols, j', i', c')
    ensures j == j' && i == i' && c == c'
  {
    var w := cols * 6;
    RowStart(cols, j);
    RowStart(cols, j');
    MulSucc(j, w);
    MulSucc(j', w);
    if j < j' {
      MulMonotone(j + 1, j', w);
    } else if j' < j {
      MulMonotone(j' + 1, j, w);
    }
  }

  /** ... and every slot of the quad region belongs to a corner: each of
      the first rows*cols*6 slots is written exactly once. */
  lemma {:induction false} QuadSlotsCover(cols: nat, rows: nat, k: nat)
    requires k < rows * (cols * 6)
    ensures exists j: nat, i: nat, c: nat :: j < rows && i < cols && c < 6 && QuadSlot(cols, j, i, c) == k
  {
    var w := cols * 6;
    MulSucc(rows - 1, w);
    if k < (rows - 1) * w {
      QuadSlotsCover(cols, rows - 1, k);
      var j: nat, i: nat, c: nat :| j < rows - 1 && i < cols && c < 6 && QuadSlot(cols, j, i, c) == k;
      assert j < rows;
    } else {
      var r := k - (rows - 1) * w;
      var i, c := r / 6, r % 6;
      RowStart(cols, rows - 1);
      assert QuadSlot(cols, rows - 1, i, c) == k;
    }
  }

  /** The vertex numbers of row j, n quads long, lie between j*xlong and
      (j+1)*xlong + n. */
  lemma QuadRowBounded(xlong: nat, j: nat, n: nat, k: nat)
    requires k < |QuadRow(xlong, j, n)|
    ensures j * xlong <= QuadRow(xlong, j, n)[k] <= j * xlong + xlong + n
  {
    assert k / 6 < n;
  }

  /** A grid of `rows` rows and `cols` columns names no vertex below 0 or
      past rows*xlong + cols. */
  lemma {:induction false} GridValuesBounded(xlong: nat, cols: nat, rows: nat, k: nat)
    requires k < |QuadGrid(xlong, cols, rows)|
    ensures 0 <= QuadGrid(xlong, cols, rows)[k] <= rows * xlong + cols
  {
    var front := QuadGrid(xlong, cols, rows - 1);
    MulSucc(rows - 1, xlong);
    if k < |front| {
      GridValuesBounded(xlong, cols, rows - 1, k);
    } else {
      MulMonotone(0, rows - 1, xlong);
      QuadRowBounded(xlong, rows - 1, cols, k - |front|);
    }
  }
}

/** shapes/FrustumCone.java: a 30 x 4 grid, three rows of quads, then one
    fan of triangles closing the bottom. */
module FrustumConeMesh {
  import opened MeshIndices

  const XLong := 30
  const YLat := 4
  /** `vertices.length`: eight floats for each of the XLONG*YLAT vertices. */
  const VertexFloats := XLong * YLat * 8
  /** The length `(XLONG-1)*YLAT*6` of the index array. */
  const IndexCount := (XLong - 1) * YLat * 6

  /** The index table: the quads, the bottom fan with apex
      `vertices.length - 15`, then the slots no loop reaches, still 0. */
  function Indices(): seq<int> {
    var quads := QuadGrid(XLong, XLong - 1, YLat - 1);
    var fan := Fan(VertexFloats - 15, XLong - 1);
    quads + fan + seq(IndexCount - |quads| - |fan|, _ => 0)
  }

  /** The layout of a 696-int table: quad (j, i) of the 30-wide grid, for
      j < 3 and i < 29, in the six slots from j*174 + i*6; fan triangle
      (i, i+1, 945), for i < 29, in the three slots from 522 + i*3; 0 in
      slots 609 to 695.  The sizes are written as numbers (XLONG = 30,
      XLONG - 1 = 29, YLAT - 1 = 3) so that the solver sees linear
      arithmetic. */
  ghost predicate Placed(t: seq<int>) {
    |t| == 696 && QuadsBefore(t, 30, 29, 3, 0) && TrianglesBefore(t, 522, 29, 945) &&
    forall k :: 609 <= k < 696 ==> t[k] == 0
  }

  /** Quad (j, i) sits in its slots of the table ... */
  lemma QuadInTable(j: nat, i: nat)
    requires j < 3 && i < 29
    ensures QuadPlaced(Indices(), 30, 29, j, i)
  {
    var quads := QuadGrid(XLong, XLong - 1, YLat - 1);
    var fan := Fan(VertexFloats - 15, XLong - 1);
    var zeros := seq(IndexCount - |quads| - |fan|, _ => 0);
    QuadCorners(XLong, XLong - 1, YLat - 1, j, i);
    InPrefix(quads, fan, QuadSlot(29, j, i, 0), 30, j, i, 0);
    InPrefix(quads + fan, zeros, QuadSlot(29, j, i, 0), 30, j, i, 0);
  }

  /** ... and so does fan triangle i. */
  lemma TriangleInTable(i: nat)
    requires i < 29
    ensures TrianglePlaced(Indices(), 522, i, 945)
  {
    var quads := QuadGrid(XLong, XLong - 1, YLat - 1);
    var fan := Fan(VertexFloats - 15, XLong - 1);
    var zeros := seq(IndexCount - |quads| - |fan|, _ => 0);
    assert |quads| == 522 && VertexFloats - 15 == 945;
    FanCorners(VertexFloats - 15, XLong - 1, i);
    InSuffix(quads, fan, FanSlot(0, i, 0), 30, 0, i, 945);
    InPrefix(quads + fan, zeros, FanSlot(522, i, 0), 30, 0, i, 945);
  }

  /** The table has that layout: 696 is IndexCount and 945 is
      `vertices.length - 15`. */
  lemma IndicesArePlaced()
    ensures IndexCount == 696 && VertexFloats - 15 == 945
    ensures Placed(Indices())
  {
    forall j: nat, i: nat | j < 3 && i < 29
      ensures QuadPlaced(Indices(), 30, 29, j, i)
    {
      QuadInTable(j, i);
    }
    forall i: nat | i < 29
      ensures TrianglePlaced(Indices(), 522, i, 945)
    {
      TriangleInTable(i);
    }
  }

  /** The layout leaves nothing open: a table with it is this table, so
      every slot is written by exactly one quad corner or fan corner, or
      by none and then holds 0. */
  lemma PlacedIsUnique(t: seq<int>)
    requires Placed(t)
    ensures t == Indices()
  {
    IndicesArePlaced();
    forall k | 0 <= k < |t|
      ensures t[k] == Indices()[k]
    {
      if k < 522 {
        QuadSlotAgrees(t, Indices(), 30, 29, 3, k);
      } else if k < 609 {
        TriangleSlotAgrees(t, Indices(), 522, 29, 945, k);
      }
    }
  }

  /** `createIndices()`: a new zeroed array of IndexCount ints, filled by
      the quad loops and then the fan loop.  Each loop keeps what it has
      written in place and the slots ahead of it at 0. */
  method CreateIndices() returns (indices: array<int>)
    ensures fresh(indices)
    ensures indices[..] == Indices()
  {
    indices := new int[(XLong - 1) * YLat * 6](_ => 0);
    var j := 0;
    while j < YLat - 1
      invariant 0 <= j <= 3 && indices.Length == 696
      invariant QuadsBefore(indices[..], 30, 29, j, 0) && ZeroFrom(indices[..], QuadSlot(29, j, 0, 0))
    {
      FillQuadRow(indices, j);
      j := j + 1;
    }
    FillBottomFan(indices);
    PlacedIsUnique(indices[..]);
  }

  /** The inner quad loop of `createIndices()` for row j: quads (j, 0) to
      (j, XLONG-2), from slot `base = j*(XLONG-1)*6` on. */
  method FillQuadRow(indices: array<int>, j: nat)
    requires j < 3 && indices.Length == 696
    requires QuadsBefore(indices[..], 30, 29, j, 0) && ZeroFrom(indices[..], QuadSlot(29, j, 0, 0))
    modifies indices
    ensures QuadsBefore(indices[..], 30, 29, j + 1, 0) && ZeroFrom(indices[..], QuadSlot(29, j + 1, 0, 0))
  {
    var i := 0;
    while i < XLong - 1
      invariant 0 <= i <= 29
      invariant QuadsBefore(indices[..], 30, 29, j, i) && ZeroFrom(indices[..], QuadSlot(29, j, i, 0))
    {
      var base := j * (XLong - 1) * 6;
      PlaceQuad(indices, XLong, XLong - 1, j, i, base + i * 6, j * XLong + i, (j + 1) * XLong + i);
      i := i + 1;
    }
  }

  /** The fan loop of `createIndices()`: triangles (i, i+1,
      `vertices.length - 15`) from slot `base = (XLONG-1)*(YLAT-1)*6` on,
      after the quads, which it leaves in place. */
  method FillBottomFan(indices: array<int>)
    requires indices.Length == 696
    requires QuadsBefore(indices[..], 30, 29, 3, 0) && ZeroFrom(indices[..], 522)
    modifies indices
    ensures QuadsBefore(indices[..], 30, 29, 3, 0)
    ensures TrianglesBefore(indices[..], 522, 29, 945) && ZeroFrom(indices[..], 609)
  {
    var i := 0;
    while i < XLong - 1
      invariant 0 <= i <= 29
      invariant QuadsBefore(indices[..], 30, 29, 3, 0)
      invariant TrianglesBefore(indices[..], 522, i, 945) && ZeroFrom(indices[..], FanSlot(522, i, 0))
    {
      ghost var before := indices[..];
      var base := (XLong - 1) * (YLat - 1) * 6;
      PlaceTriangle(indices, base, i, VertexFloats - 15, base + i * 3);
      QuadsKept(before, indices[..], 30, 29, 3, 0, FanSlot(522, i, 0));
      i := i + 1;
    }
  }

  /** The quads name only the 120 vertices of the table, but the fan apex
      945 is a float offset into `vertices`, far past its last vertex. */
  lemma FanApexPastLastVertex()
    ensures |Indices()| == 696
    ensures forall k :: 0 <= k < 522 ==> 0 <= Indices()[k] < VertexFloats / 8
    ensures VertexFloats / 8 == 120 && Indices()[524] == 945
  {
    TriangleInTable(0);
    forall k | 0 <= k < 522
      ensures 0 <= Indices()[k] < VertexFloats / 8
    {
      QuadsFirst(k);
      GridValuesBounded(30, 29, 3, k);
    }
  }

  /** The table is 696 ints long and starts with the 522 ints of the grid. */
  lemma QuadsFirst(k: nat)
    requires k < 522
    ensures |Indices()| == 696 && Indices()[k] == QuadGrid(30, 29, 3)[k]
  {
    var quads := QuadGrid(XLong, XLong - 1, YLat - 1);
    var fan := Fan(VertexFloats - 15, XLong - 1);
    assert |quads| == 522 && |fan| == 87;
    assert Indices() == quads + fan + seq(IndexCount - |quads| - |fan|, _ => 0);
  }
}

/** shapes/Cylinder.java: a 30 x 4 grid whose loops run over all YLAT rows
    and all XLONG columns, so every slot of the table is a quad corner. */
module CylinderMesh {
  import opened MeshIndices

  const XLong := 30
  const YLat := 4
  /** `vertices.length`: XLONG*YLAT vertices plus two, eight floats each. */
  const VertexFloats := XLong * YLat * 8 + 2 * 8
  /** The length `XLONG*YLAT*6` of the index array. */
  const IndexCount := XLong * YLat * 6

  /** The index table: quads (j, i) for every j < YLAT and i < XLONG. */
  function Indices(): seq<int> {
    QuadGrid(XLong, XLong, YLat)
  }

  /** The layout of a 720-int table: quad (j, i) of the 30-wide grid, for
      j < 4 and i < 30, in the six slots from j*180 + i*6.  The sizes are
      written as numbers (XLONG = 30, YLAT = 4) so that the solver sees
      linear arithmetic. */
  ghost predicate Placed(t: seq<int>) {
    |t| == 720 && QuadsBefore(t, 30, 30, 4, 0)
  }

  /** The table has that layout: 720 is IndexCount. */
  lemma IndicesArePlaced()
    ensures IndexCount == 720
    ensures Placed(Indices())
  {
    forall j: nat, i: nat | j < 4 && i < 30
      ensures QuadPlaced(Indices(), 30, 30, j, i)
    {
      QuadCorners(XLong, XLong, YLat, j, i);
    }
  }

  /** The quads cover the table: a table with that layout is this table,
      so all 720 slots are written, each by exactly one quad corner. */
  lemma PlacedIsUnique(t: seq<int>)
    requires Placed(t)
    ensures t == Indices()
  {
    IndicesArePlaced();
    forall k | 0 <= k < |t|
      ensures t[k] == Indices()[k]
    {
      QuadSlotAgrees(t, Indices(), 30, 30, 4, k);
    }
  }

  /** `createIndices()`: a new array of IndexCount ints, filled by the quad
      loops.  The loops keep what they have written in place and the slots
      ahead of them at 0. */
  method CreateIndices() returns (indices: array<int>)
    ensures fresh(indices)
    ensures indices[..] == Indices()
  {
    indices := new int[XLong * YLat * 6](_ => 0);
    var j := 0;
    while j < YLat
      invariant 0 <= j <= 4 && indices.Length == 720
      invariant QuadsBefore(indices[..], 30, 30, j, 0) && ZeroFrom(indices[..], QuadSlot(30, j, 0, 0))
    {
      FillQuadRow(indices, j);
      j := j + 1;
    }
    PlacedIsUnique(indices[..]);
  }

  /** The inner loop of `createIndices()` for row j: quads (j, 0) to
      (j, XLONG-1), from slot `base = j*XLONG*6` on. */
  method FillQuadRow(indices: array<int>, j: nat)
    requires j < 4 && indices.Length == 720
    requires QuadsBefore(indices[..], 30, 30, j, 0) && ZeroFrom(indices[..], QuadSlot(30, j, 0, 0))
    modifies indices
    ensures QuadsBefore(indices[..], 30, 30, j + 1, 0) && ZeroFrom(indices[..], QuadSlot(30, j + 1, 0, 0))
  {
    var i := 0;
    while i < XLong
      invariant 0 <= i <= 30
      invariant QuadsBefore(indices[..], 30, 30, j, i) && ZeroFrom(indices[..], QuadSlot(30, j, i, 0))
    {
      var base := j * XLong * 6;
      PlaceQuad(indices, XLong, XLong, j, i, base + i * 6, j * XLong + i, (j + 1) * XLong + i);
      i := i + 1;
    }
  }

  /** Each of the 120 groups of six slots is two triangles sharing a
      diagonal: slot 0 equals slot 3, and slot 2 equals slot 4. */
  lemma EveryGroupSharesADiagonal()
    ensures |Indices()| == 720
    ensures forall g :: 0 <= g < 120 ==>
      Indices()[g * 6] == Indices()[g * 6 + 3] && Indices()[g * 6 + 2] == Indices()[g * 6 + 4]
  {
    IndicesArePlaced();
    forall g | 0 <= g < 120
      ensures Indices()[g * 6] == Indices()[g * 6 + 3] && Indices()[g * 6 + 2] == Indices()[g * 6 + 4]
    {
      var j: nat, i: nat := g / 30, g % 30;
      assert QuadPlaced(Indices(), 30, 30, j, i);
    }
  }

  /** Every index lies in [0, 150] and 150 is reached, by quad (3, 29);
      the table holds only 122 vertices, so the top row of quads names
      vertices past its end. */
  lemma IndicesUpTo150()
    ensures |Indices()| == 720
    ensures forall k :: 0 <= k < 720 ==> 0 <= Indices()[k] <= 150
    ensures Indices()[3 * 180 + 29 * 6 + 2] == 150
    ensures VertexFloats / 8 == 122
  {
    QuadCorners(XLong, XLong, YLat, 3, 29);
    assert YLat * XLong + XLong == 150;
    forall k | 0 <= k < 720
      ensures 0 <= Indices()[k] <= 150
    {
      GridValuesBounded(XLong, XLong, YLat, k);
    }
  }
}

/** shapes/SolidCone.java: a 30 x 3 grid, two rows of quads, then two fan
    passes that close the bottom and the top. */
module SolidConeMesh {
  import opened MeshIndices

  const XLong := 30
  const YLat := 3
  /** `vertices.length`: XLONG*YLAT vertices plus two, eight floats each. */
  const VertexFloats := XLong * YLat * 8 + 2 * 8
  /** The length `(XLONG-1)*YLAT*6` of the index array. */
  const IndexCount := (XLong - 1) * YLat * 6

  /** The index table: the quads, then the same fan written twice. */
  function Indices(): seq<int> {
    var fan := Fan(VertexFloats - 15, XLong - 1);
    QuadGrid(XLong, XLong - 1, YLat - 1) + fan + fan
  }

  /** The layout of a 522-int table: quad (j, i) of the 30-wide grid, for
      j < 2 and i < 29, in the six slots from j*174 + i*6; triangle
      (i, i+1, 721) of fan pass p, for p < 2 and i < 29, in the three
      slots from 348 + p*87 + i*3.  The sizes are written as numbers
      (XLONG = 30, XLONG - 1 = 29, YLAT - 1 = 2) so that the solver sees
      linear arithmetic. */
  ghost predicate Placed(t: seq<int>) {
    |t| == 522 && QuadsBefore(t, 30, 29, 2, 0) &&
    TrianglesBefore(t, 348, 29, 721) && TrianglesBefore(t, 435, 29, 721)
  }

  /** Quad (j, i) sits in its slots of the table ... */
  lemma QuadInTable(j: nat, i: nat)
    requires j < 2 && i < 29
    ensures QuadPlaced(Indices(), 30, 29, j, i)
  {
    var quads := QuadGrid(XLong, XLong - 1, YLat - 1);
    var fan := Fan(VertexFloats - 15, XLong - 1);
    QuadCorners(XLong, XLong - 1, YLat - 1, j, i);
    InPrefix(quads, fan, QuadSlot(29, j, i, 0), 30, j, i, 0);
    InPrefix(quads + fan, fan, QuadSlot(29, j, i, 0), 30, j, i, 0);
  }

  /** ... and so does triangle i of both fan passes. */
  lemma TriangleInTable(i: nat)
    requires i < 29
    ensures TrianglePlaced(Indices(), 348, i, 721)
    ensures TrianglePlaced(Indices(), 435, i, 721)
  {
    var quads := QuadGrid(XLong, XLong - 1, YLat - 1);
    var fan := Fan(VertexFloats - 15, XLong - 1);
    assert |quads| == 348 && |fan| == 87 && VertexFloats - 15 == 721;
    FanCorners(VertexFloats - 15, XLong - 1, i);
    InSuffix(quads, fan, FanSlot(0, i, 0), 30, 0, i, 721);
    InPrefix(quads + fan, fan, FanSlot(348, i, 0), 30, 0, i, 721);
    InSuffix(quads + fan, fan, FanSlot(0, i, 0), 30, 0, i, 721);
  }

  /** The table has that layout: 522 is IndexCount and 721 is
      `vertices.length - 15`. */
  lemma IndicesArePlaced()
    ensures IndexCount == 522 && VertexFloats - 15 == 721
    ensures Placed(Indices())
  {
    forall j: nat, i: nat | j < 2 && i < 29
      ensures QuadPlaced(Indices(), 30, 29, j, i)
    {
      QuadInTable(j, i);
    }
    forall i: nat | i < 29
      ensures TrianglePlaced(Indices(), 348, i, 721)
      ensures TrianglePlaced(Indices(), 435, i, 721)
    {
      TriangleInTable(i);
    }
  }

  /** The layout leaves nothing open: a table with it is this table, so
      the quads and the two fan passes write every slot exactly once. */
  lemma PlacedIsUnique(t: seq<int>)
    requires Placed(t)
    ensures t == Indices()
  {
    IndicesArePlaced();
    forall k | 0 <= k < |t|
      ensures t[k] == Indices()[k]
    {
      if k < 348 {
        QuadSlotAgrees(t, Indices(), 30, 29, 2, k);
      } else if k < 435 {
        TriangleSlotAgrees(t, Indices(), 348, 29, 721, k);
      } else {
        TriangleSlotAgrees(t, Indices(), 435, 29, 721, k);
      }
    }
  }

  /** The two fan passes write identical triples, because nothing in them
      depends on the pass number. */
  lemma FanPassesAreIdentical()
    ensures |Indices()| == 522
    ensures Indices()[348..435] == Indices()[435..522]
  {
    var fan := Fan(VertexFloats - 15, XLong - 1);
    assert Indices()[348..435] == fan;
    assert Indices()[435..522] == fan;
  }

  /** `createIndices()`: a new zeroed array of IndexCount ints, filled by
      the quad loops and then by the two fan passes.  Each loop keeps what
      it has written in place and the slots ahead of it at 0. */
  method CreateIndices() returns (indices: array<int>)
    ensures fresh(indices)
    ensures indices[..] == Indices()
  {
    indices := new int[(XLong - 1) * YLat * 6](_ => 0);
    var j := 0;
    while j < YLat - 1
      invariant 0 <= j <= 2 && indices.Length == 522
      invariant QuadsBefore(indices[..], 30, 29, j, 0) && ZeroFrom(indices[..], QuadSlot(29, j, 0, 0))
    {
      FillQuadRow(indices, j);
      j := j + 1;
    }
    j := 0;
    while j < 2
      invariant 0 <= j <= 2
      invariant QuadsBefore(indices[..], 30, 29, 2, 0)
      invariant j == 1 ==> TrianglesBefore(indices[..], 348, 29, 721)
      invariant j == 2 ==> TrianglesBefore(indices[..], 348, 29, 721) && TrianglesBefore(indices[..], 435, 29, 721)
      invariant ZeroFrom(indices[..], 348 + j * 87)
    {
      FillFanPass(indices, j);
      j := j + 1;
    }
    PlacedIsUnique(indices[..]);
  }

  /** The inner quad loop of `createIndices()` for row j: quads (j, 0) to
      (j, XLONG-2), from slot `base = j*(XLONG-1)*6` on. */
  method FillQuadRow(indices: array<int>, j: nat)
    requires j < 2 && indices.Length == 522
    requires QuadsBefore(indices[..], 30, 29, j, 0) && ZeroFrom(indices[..], QuadSlot(29, j, 0, 0))
    modifies indices
    ensures QuadsBefore(indices[..], 30, 29, j + 1, 0) && ZeroFrom(indices[..], QuadSlot(29, j + 1, 0, 0))
  {
    var i := 0;
    while i < XLong - 1
      invariant 0 <= i <= 29
      invariant QuadsBefore(indices[..], 30, 29, j, i) && ZeroFrom(indices[..], QuadSlot(29, j, i, 0))
    {
      var base := j * (XLong - 1) * 6;
      PlaceQuad(indices, XLong, XLong - 1, j, i, base + i * 6, j * XLong + i, (j + 1) * XLong + i);
      i := i + 1;
    }
  }

  /** Pass j of the fan loop of `createIndices()`: triangles (i, i+1,
      `vertices.length - 15`) from slot
      `base = (XLONG-1)*(YLAT-1)*6 + j*(XLONG-1)*3` on, leaving the quads
      and the earlier pass in place. */
  method FillFanPass(indices: array<int>, j: nat)
    requires j < 2 && indices.Length == 522
    requires QuadsBefore(indices[..], 30, 29, 2, 0)
    requires j == 1 ==> TrianglesBefore(indices[..], 348, 29, 721)
    requires ZeroFrom(indices[..], 348 + j * 87)
    modifies indices
    ensures QuadsBefore(indices[..], 30, 29, 2, 0)
    ensures j == 1 ==> TrianglesBefore(indices[..], 348, 29, 721)
    ensures TrianglesBefore(indices[..], 348 + j * 87, 29, 721)
    ensures ZeroFrom(indices[..], 348 + j * 87 + 87)
  {
    var i := 0;
    while i < XLong - 1
      invariant 0 <= i <= 29
      invariant QuadsBefore(indices[..], 30, 29, 2, 0)
      invariant j == 1 ==> TrianglesBefore(indices[..], 348, 29, 721)
      invariant TrianglesBefore(indices[..], 348 + j * 87, i, 721)
      invariant ZeroFrom(indices[..], FanSlot(348 + j * 87, i, 0))
    {
      ghost var before := indices[..];
      var base := (XLong - 1) * (YLat - 1) * 6 + j * (XLong - 1) * 3;
      PlaceTriangle(indices, base, i, VertexFloats - 15, base + i * 3);
      QuadsKept(before, indices[..], 30, 29, 2, 0, FanSlot(base, i, 0));
      if j == 1 {
        TrianglesKept(before, indices[..], 348, 29, 721, FanSlot(base, i, 0));
      }
      i := i + 1;
    }
  }

  /** The quads name only the 92 vertices of the table, but the fan apex
      721 is a float offset into `vertices`, far past its last vertex. */
  lemma FanApexPastLastVertex()
    ensures |Indices()| == 522
    ensures forall k :: 0 <= k < 348 ==> 0 <= Indices()[k] < VertexFloats / 8
    ensures VertexFloats / 8 == 92 && Indices()[350] == 721
  {
    TriangleInTable(0);
    forall k | 0 <= k < 348
      ensures 0 <= Indices()[k] < VertexFloats / 8
    {
      QuadsFirst(k);
      GridValuesBounded(30, 29, 2, k);
    }
  }

  /** The table is 522 ints long and starts with the 348 ints of the grid. */
  lemma QuadsFirst(k: nat)
    requires k < 348
    ensures |Indices()| == 522 && Indices()[k] == QuadGrid(30, 29, 2)[k]
  {
    var quads := QuadGrid(XLong, XLong - 1, YLat - 1);
    var fan := Fan(VertexFloats - 15, XLong - 1);
    assert |quads| == 348 && |fan| == 87;
    assert Indices() == quads + fan + fan;
  }
}
