/** The textured unit quad of the three TwoTriangles classes.  Every vertex
    takes eight floats (position, normal, texture coordinates), so the
    texture coordinates of vertex i sit in slots i*8+6 and i*8+7.  This
    module holds the data tables, the reference definition of a patch, and
    the static patcher of shapes/TwoTriangles.java. */
module TexturedQuad {

  /** The 32-float vertex table: four vertices, top left, bottom left,
      bottom right, top right, each with its normal (0, 1, 0). */
  const QuadVertices: seq<real> := [
    -0.5, 0.0, -0.5, 0.0, 1.0, 0.0, 0.0, 1.0,
    -0.5, 0.0, 0.5, 0.0, 1.0, 0.0, 0.0, 0.0,
    0.5, 0.0, 0.5, 0.0, 1.0, 0.0, 1.0, 0.0,
    0.5, 0.0, -0.5, 0.0, 1.0, 0.0, 1.0, 1.0
  ]

  /** Two anticlockwise triangles sharing the diagonal from vertex 0 to 2. */
  const QuadIndices: seq<int> := [0, 1, 2, 0, 2, 3]

  /** How a Java call ends: it returns a value or throws
      ArrayIndexOutOfBoundsException. */
  datatype Outcome<T> = Returned(value: T) | IndexOutOfBounds

  /** The array `orig` after the first `n` (u, v) pairs of `tex` have been
      copied in, one pair after the other, the i-th pair into slots i*8+6
      and i*8+7. */
  function CopyPairs(orig: seq<real>, tex: seq<real>, n: nat): (r: seq<real>)
    requires n <= |tex| / 2 && n <= |orig| / 8
    ensures |r| == |orig|
  {
    if n == 0 then orig
    else
      var i := n - 1;
      CopyPairs(orig, tex, i)[i * 8 + 6 := tex[i * 2]][i * 8 + 7 := tex[i * 2 + 1]]
  }

  /** Slot by slot: a texture slot (k % 8 is 6 or 7) of one of the first `n`
      vertices holds the matching float of `tex`; every other slot keeps its
      value. */
  lemma {:induction false} CopyPairsSlots(orig: seq<real>, tex: seq<real>, n: nat)
    requires n <= |tex| / 2 && n <= |orig| / 8
    ensures forall k :: 0 <= k < |orig| ==>
      CopyPairs(orig, tex, n)[k] ==
        if k % 8 >= 6 && k / 8 < n then tex[(k / 8) * 2 + k % 8 - 6] else orig[k]
  {
    if n > 0 {
      CopyPairsSlots(orig, tex, n - 1);
    }
  }

  /** The i-th pair lands in slots i*8+6 and i*8+7. */
  lemma PairWritten(orig: seq<real>, tex: seq<real>, n: nat, i: nat)
    requires n <= |tex| / 2 && n <= |orig| / 8 && i < n
    ensures CopyPairs(orig, tex, n)[i * 8 + 6] == tex[i * 2]
    ensures CopyPairs(orig, tex, n)[i * 8 + 7] == tex[i * 2 + 1]
  {
    CopyPairsSlots(orig, tex, n);
    assert (i * 8 + 6) / 8 == i && (i * 8 + 6) % 8 == 6;
    assert (i * 8 + 7) / 8 == i && (i * 8 + 7) % 8 == 7;
  }

  /** Only the first 2n floats of `tex` are read. */
  lemma {:induction false} OnlyLeadingPairsRead(orig: seq<real>, a: seq<real>, b: seq<real>, n: nat)
    requires n <= |a| / 2 && n <= |b| / 2 && n <= |orig| / 8
    requires a[..n * 2] == b[..n * 2]
    ensures CopyPairs(orig, a, n) == CopyPairs(orig, b, n)
  {
    if n > 0 {
      var i := n - 1;
      assert a[..i * 2] == a[..n * 2][..i * 2];
      assert b[..i * 2] == b[..n * 2][..i * 2];
      OnlyLeadingPairsRead(orig, a, b, i);
      assert a[i * 2] == a[..n * 2][i * 2];
      assert a[i * 2 + 1] == a[..n * 2][i * 2 + 1];
      assert b[i * 2] == b[..n * 2][i * 2];
      assert b[i * 2 + 1] == b[..n * 2][i * 2 + 1];
    }
  }

  /** A trailing odd element of `texCoords` is never copied: patching with
      `tex + [x]` (|tex| even) is patching with `tex`. */
  lemma OddTrailingIgnored(orig: seq<real>, tex: seq<real>, x: real)
    requires |tex| % 2 == 0 && |tex| / 2 <= |orig| / 8
    ensures |tex + [x]| / 2 == |tex| / 2
    ensures CopyPairs(orig, tex + [x], |tex + [x]| / 2) == CopyPairs(orig, tex, |tex| / 2)
  {
    var n := |tex| / 2;
    assert (tex + [x])[..n * 2] == tex[..n * 2];
    OnlyLeadingPairsRead(orig, tex + [x], tex, n);
  }

  /** Patching the same array again overwrites the earlier coordinates: a
      later patch of at least as many pairs leaves no trace of an earlier one. */
  lemma LaterPatchOverwrites(orig: seq<real>, a: seq<real>, b: seq<real>, m: nat, n: nat)
    requires m <= n && m <= |a| / 2 && n <= |b| / 2 && n <= |orig| / 8
    ensures CopyPairs(CopyPairs(orig, a, m), b, n) == CopyPairs(orig, b, n)
  {
    var mid := CopyPairs(orig, a, m);
    CopyPairsSlots(orig, a, m);
    CopyPairsSlots(mid, b, n);
    CopyPairsSlots(orig, b, n);
  }

  /** Patching is idempotent. */
  lemma PatchIsIdempotent(orig: seq<real>, tex: seq<real>, n: nat)
    requires n <= |tex| / 2 && n <= |orig| / 8
    ensures CopyPairs(CopyPairs(orig, tex, n), tex, n) == CopyPairs(orig, tex, n)
  {
    LaterPatchOverwrites(orig, tex, tex, n, n);
  }

  /** The quad has room for exactly four pairs: a patch of it stays in bounds
      exactly when `texCoords` has fewer than ten floats. */
  lemma QuadHoldsFourPairs(tex: seq<real>)
    ensures |QuadVertices| / 8 == 4
    ensures |tex| / 2 <= |QuadVertices| / 8 <==> |tex| < 10
  {
  }

  /** Every index of the quad's triangles names one of its four vertices. */
  lemma QuadIndicesInRange()
    ensures forall k :: 0 <= k < |QuadIndices| ==> 0 <= QuadIndices[k] < |QuadVertices| / 8
  {
  }

  /** Static `setTexCoords(original, texCoords)`: copies pair i of
      `texCoords` into slots i*8+6 and i*8+7 of `original`, for every
      i < |texCoords| / 2, and returns `original` itself.  A pair whose
      slots lie past the end throws before anything of it is copied, so the
      pairs before it stay written. */
  method SetTexCoords(original: array<real>, texCoords: seq<real>) returns (o: Outcome<array<real>>)
    modifies original
    ensures o == if |texCoords| / 2 <= original.Length / 8 then Returned(original) else IndexOutOfBounds
    ensures var n := if |texCoords| / 2 <= original.Length / 8 then |texCoords| / 2 else original.Length / 8;
      original[..] == CopyPairs(old(original[..]), texCoords, n)
  {
    var i := 0;
    while i < |texCoords| / 2
      invariant 0 <= i <= |texCoords| / 2 && i <= original.Length / 8
      invariant original[..] == CopyPairs(old(original[..]), texCoords, i)
    {
      if i * 8 + 6 + 2 > original.Length {
        assert i == original.Length / 8;
        return IndexOutOfBounds;
      }
      original[i * 8 + 6] := texCoords[i * 2];
      original[i * 8 + 7] := texCoords[i * 2 + 1];
      i := i + 1;
    }
    return Returned(original);
  }
}

/** lib/TwoTriangles.java: each instance owns a copy of the quad and patches
    its texture coordinates once, in the constructor. */
module PerInstanceQuad {
  import opened TexturedQuad

  class TwoTriangles {
    /** Never reassigned after construction: only its entries change. */
    const vertices: array<real>
    const indices: seq<int>

    /** `new TwoTriangles(texCoords)`: a fresh copy of the quad whose first
        |texCoords| / 2 vertices carry the given coordinates. */
    constructor (texCoords: seq<real>)
      requires |texCoords| < 10
      ensures fresh(vertices)
      ensures vertices[..] == CopyPairs(QuadVertices, texCoords, |texCoords| / 2)
      ensures indices == QuadIndices
    {
      vertices := new real[32](k requires 0 <= k < 32 => QuadVertices[k]);
      indices := QuadIndices;
      new;
      assert vertices[..] == QuadVertices;
      SetTexCoords(texCoords);
    }

    /** `new TwoTriangles(texCoords)` with its failure: when `texCoords`
        holds more pairs than the quad has vertices, the first pair with no
        vertex would be copied past the end of the array, so the constructor
        throws instead of returning.  That happens from ten floats on. */
    static method Create(texCoords: seq<real>) returns (o: Outcome<TwoTriangles>)
      ensures o.IndexOutOfBounds? <==> |texCoords| / 2 > |QuadVertices| / 8
      ensures o.IndexOutOfBounds? <==> |texCoords| >= 10
      ensures o.Returned? ==> fresh(o.value) && fresh(o.value.vertices)
      ensures o.Returned? ==> o.value.vertices[..] == CopyPairs(QuadVertices, texCoords, |texCoords| / 2)
    {
      QuadHoldsFourPairs(texCoords);
      if |texCoords| / 2 > |QuadVertices| / 8 {
        return IndexOutOfBounds;
      }
      var t := new TwoTriangles(texCoords);
      return Returned(t);
    }

    /** Private `setTexCoords`: the same pair-by-pair copy as the static
        patcher, into this instance's own vertices. */
    method SetTexCoords(texCoords: seq<real>)
      requires vertices.Length == 32 && |texCoords| < 10
      modifies vertices
      ensures vertices[..] == CopyPairs(old(vertices[..]), texCoords, |texCoords| / 2)
    {
      ghost var orig := vertices[..];
      var i := 0;
      while i < |texCoords| / 2
        invariant 0 <= i <= |texCoords| / 2
        invariant vertices[..] == CopyPairs(orig, texCoords, i)
      {
        vertices[i * 8 + 6] := texCoords[i * 2];
        vertices[i * 8 + 7] := texCoords[i * 2 + 1];
        i := i + 1;
      }
    }
  }
}

/** codeprovided/TwoTriangles.java: the same quad, patched by a fixed loop
    over exactly four vertices and two coordinates each. */
module FixedQuad {
  import opened TexturedQuad

  class TwoTriangles {
    /** Never reassigned after construction: only its entries change. */
    const vertices: array<real>
    const indices: seq<int>

    /** `new TwoTriangles(texCoords)`: a fresh copy of the quad carrying the
        first eight floats of `texCoords`. */
    constructor (texCoords: seq<real>)
      requires |texCoords| >= 8
      ensures fresh(vertices)
      ensures vertices[..] == CopyPairs(QuadVertices, texCoords, 4)
      ensures indices == QuadIndices
    {
      vertices := new real[32](k requires 0 <= k < 32 => QuadVertices[k]);
      indices := QuadIndices;
      new;
      assert vertices[..] == QuadVertices;
      SetTexCoords(texCoords);
    }

    /** `new TwoTriangles(texCoords)` with its failure: the fixed loop reads
        one pair for each of the quad's vertices, so when `texCoords` holds
        fewer pairs than that it reads past its end and the constructor
        throws instead of returning.  That happens below eight floats. */
    static method Create(texCoords: seq<real>) returns (o: Outcome<TwoTriangles>)
      ensures o.IndexOutOfBounds? <==> |texCoords| / 2 < |QuadVertices| / 8
      ensures o.IndexOutOfBounds? <==> |texCoords| < 8
      ensures o.Returned? ==> fresh(o.value) && fresh(o.value.vertices)
      ensures o.Returned? ==> o.value.vertices[..] == CopyPairs(QuadVertices, texCoords, 4)
    {
      QuadHoldsFourPairs(texCoords);
      if |texCoords| / 2 < |QuadVertices| / 8 {
        return IndexOutOfBounds;
      }
      var t := new TwoTriangles(texCoords);
      return Returned(t);
    }

    /** Private `setTexCoords`: eight writes, vertices[i*8+6+j] gets
        texCoords[i*2+j] for i < 4 and j < 2. */
    method SetTexCoords(texCoords: seq<real>)
      requires vertices.Length == 32 && |texCoords| >= 8
      modifies vertices
      ensures vertices[..] == CopyPairs(old(vertices[..]), texCoords, 4)
    {
      ghost var orig := vertices[..];
      for i := 0 to 4
        invariant vertices[..] == CopyPairs(orig, texCoords, i)
      {
        ghost var done := vertices[..];
        for j := 0 to 2
          invariant vertices[..] ==
            if j == 0 then done
            else if j == 1 then done[i * 8 + 6 := texCoords[i * 2]]
            else done[i * 8 + 6 := texCoords[i * 2]][i * 8 + 7 := texCoords[i * 2 + 1]]
        {
          vertices[(i * 8) + 6 + j] := texCoords[(i * 2) + j];
        }
      }
    }
  }

  /** Floats past the eighth are never read. */
  lemma ElementsPastEighthIgnored(orig: seq<real>, tex: seq<real>)
    requires |tex| >= 8 && |orig| >= 32
    ensures CopyPairs(orig, tex, 4) == CopyPairs(orig, tex[..8], 4)
  {
    assert tex[..8][..4 * 2] == tex[..4 * 2];
    OnlyLeadingPairsRead(orig, tex, tex[..8], 4);
  }

  /** On eight or nine floats the fixed loop and the per-instance patcher of
      lib/TwoTriangles.java build the same vertices; on more floats the fixed
      loop still uses only the first four pairs where the other throws. */
  lemma AgreesWithPerInstanceQuad(tex: seq<real>)
    requires |tex| >= 8
    ensures |tex| < 10 <==> |tex| / 2 <= |QuadVertices| / 8
    ensures |tex| < 10 ==> CopyPairs(QuadVertices, tex, 4) == CopyPairs(QuadVertices, tex, |tex| / 2)
  {
    QuadHoldsFourPairs(tex);
    if |tex| < 10 {
      assert |tex| / 2 == 4;
    }
  }
}
