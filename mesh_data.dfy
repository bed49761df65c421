/** The mesh buffers of MeshData.cs. Vertex coordinates are kept in half-block units (twice the Unity position), so
    the corners at +-0.5 around a block are integers. A UV is kept as the atlas tile and the corner number. */
module MeshBuffers {
  import opened Vectors

  /** One UV coordinate: the atlas tile of the face and which of its four corners (0..3). */
  datatype Uv = Uv(tile: Vec2, corner: int)

  /** The contents of the five lists of a MeshData. */
  datatype Buffers = Buffers(
    vertices: seq<Vec3>, triangles: seq<int>, uvs: seq<Uv>,
    colliderVertices: seq<Vec3>, colliderTriangles: seq<int>)

  const Empty := Buffers([], [], [], [], [])

  /** The six indices AddQuadTriangles appends for a list of n vertices: the quad of the last four, as two triangles. */
  function QuadIndices(n: int): (r: seq<int>)
    ensures |r| == 6
    ensures forall k :: 0 <= k < 6 ==> n - 4 <= r[k] < n
  {
    [n - 4, n - 3, n - 2, n - 4, n - 2, n - 1]
  }

  /** Every index of a triangle list points into the vertex list that goes with it. */
  ghost predicate IndicesBelow(triangles: seq<int>, n: int) {
    forall k :: 0 <= k < |triangles| ==> 0 <= triangles[k] < n
  }

  /** The shape of buffers built one whole face at a time: quads of vertices, six indices per quad, all in range,
      one UV per vertex; the same for the collider lists. */
  ghost predicate WellFormed(b: Buffers) {
    && |b.vertices| % 4 == 0 && |b.triangles| == 6 * (|b.vertices| / 4)
    && IndicesBelow(b.triangles, |b.vertices|)
    && |b.uvs| == |b.vertices|
    && |b.colliderVertices| % 4 == 0 && |b.colliderTriangles| == 6 * (|b.colliderVertices| / 4)
    && IndicesBelow(b.colliderTriangles, |b.colliderVertices|)
  }

  /** A face as SetBlockMeshData appends it: four corners, four UVs and the collider flag of its block. */
  datatype Face = Face(corners: seq<Vec3>, uvs: seq<Uv>, isCollider: bool)
  {
    predicate Valid() { |corners| == 4 && |uvs| == 4 }
  }

  /** The buffers after SetBlockMeshData: the corners go to the vertex list (and the collider vertex list when the
      block is collidable), a quad's indices over the new lengths to the triangle lists, the UVs to the UV list. */
  function PushFace(b: Buffers, f: Face): (r: Buffers)
    ensures r.vertices == b.vertices + f.corners
    ensures r.triangles == b.triangles + QuadIndices(|b.vertices| + |f.corners|)
    ensures r.uvs == b.uvs + f.uvs
    ensures r.colliderVertices == if f.isCollider then b.colliderVertices + f.corners else b.colliderVertices
    ensures r.colliderTriangles ==
      if f.isCollider then b.colliderTriangles + QuadIndices(|b.colliderVertices| + |f.corners|)
      else b.colliderTriangles
  {
    Buffers(
      b.vertices + f.corners,
      b.triangles + QuadIndices(|b.vertices| + |f.corners|),
      b.uvs + f.uvs,
      if f.isCollider then b.colliderVertices + f.corners else b.colliderVertices,
      if f.isCollider then b.colliderTriangles + QuadIndices(|b.colliderVertices| + |f.corners|)
      else b.colliderTriangles)
  }

  /** The buffers after a sequence of faces. */
  function PushFaces(b: Buffers, fs: seq<Face>): Buffers
    decreases |fs|
  {
    if fs == [] then b else PushFaces(PushFace(b, fs[0]), fs[1..])
  }

  lemma IndicesBelowAppend(t: seq<int>, n: int)
    requires n >= 4 && IndicesBelow(t, n - 4)
    ensures IndicesBelow(t + QuadIndices(n), n)
  {
    var u := t + QuadIndices(n);
    forall k | 0 <= k < |u| ensures 0 <= u[k] < n {
      if k >= |t| {
        assert u[k] == QuadIndices(n)[k - |t|];
      }
    }
  }

  /** Appending a whole face keeps the buffers well formed. */
  lemma PushFaceWellFormed(b: Buffers, f: Face)
    requires WellFormed(b) && f.Valid()
    ensures WellFormed(PushFace(b, f))
  {
    IndicesBelowAppend(b.triangles, |b.vertices| + 4);
    QuadCount(|b.vertices|);
    if f.isCollider {
      IndicesBelowAppend(b.colliderTriangles, |b.colliderVertices| + 4);
      QuadCount(|b.colliderVertices|);
    }
  }

  /** One more quad of four vertices. */
  lemma QuadCount(n: int)
    requires n >= 0 && n % 4 == 0
    ensures (n + 4) % 4 == 0 && (n + 4) / 4 == n / 4 + 1
  {
  }

  /** Any sequence of whole faces keeps the buffers well formed; the lists grow by 4, 6 and 4 entries per face. */
  lemma {:induction false} PushFacesWellFormed(b: Buffers, fs: seq<Face>)
    requires WellFormed(b)
    requires forall k :: 0 <= k < |fs| ==> fs[k].Valid()
    ensures WellFormed(PushFaces(b, fs))
    ensures |PushFaces(b, fs).vertices| == |b.vertices| + 4 * |fs|
    ensures |PushFaces(b, fs).triangles| == |b.triangles| + 6 * |fs|
    decreases |fs|
  {
    if fs != [] {
      PushFaceWellFormed(b, fs[0]);
      PushFacesWellFormed(PushFace(b, fs[0]), fs[1..]);
    }
  }

  /** Pushing two runs of faces is pushing their concatenation. */
  lemma {:induction false} PushFacesAppend(b: Buffers, fs: seq<Face>, gs: seq<Face>)
    ensures PushFaces(PushFaces(b, fs), gs) == PushFaces(b, fs + gs)
    decreases |fs|
  {
    if fs != [] {
      assert (fs + gs)[1..] == fs[1..] + gs;
      PushFacesAppend(PushFace(b, fs[0]), fs[1..], gs);
    } else {
      assert fs + gs == gs;
    }
  }

  /** A MeshData: the five lists, and for the chunk's main mesh data the nested transparent one. */
  class MeshData {
    const isTransparentMesh: bool
    var vertices: seq<Vec3>
    var triangles: seq<int>
    var uvs: seq<Uv>
    var colliderVertices: seq<Vec3>
    var colliderTriangles: seq<int>
    var transparentMeshData: MeshData?

    function Contents(): Buffers
      reads this
    {
      Buffers(vertices, triangles, uvs, colliderVertices, colliderTriangles)
    }

    /** The public constructor: empty lists and a fresh nested transparent mesh data. The field it tests is still
        false while the constructor runs, so the nested one is always created. */
    constructor ()
      ensures !isTransparentMesh && Contents() == Empty
      ensures transparentMeshData != null && fresh(transparentMeshData)
      ensures transparentMeshData.isTransparentMesh && transparentMeshData.Contents() == Empty
      ensures transparentMeshData.transparentMeshData == null
    {
      isTransparentMesh := false;
      vertices, triangles, uvs, colliderVertices, colliderTriangles := [], [], [], [], [];
      new;
      var nested := new MeshData.Nested(true);
      transparentMeshData := nested;
    }

    /** The private constructor: empty lists and no nested mesh data. */
    constructor Nested(isTransparentMesh: bool)
      ensures this.isTransparentMesh == isTransparentMesh && Contents() == Empty
      ensures transparentMeshData == null
    {
      this.isTransparentMesh := isTransparentMesh;
      vertices, triangles, uvs, colliderVertices, colliderTriangles := [], [], [], [], [];
      transparentMeshData := null;
    }

    /** AddVertex: append to the vertices, and to the collider vertices when asked. */
    method AddVertex(vertex: Vec3, isCollider: bool)
      modifies this
      ensures vertices == old(vertices) + [vertex]
      ensures colliderVertices == if isCollider then old(colliderVertices) + [vertex] else old(colliderVertices)
      ensures triangles == old(triangles) && uvs == old(uvs) && colliderTriangles == old(colliderTriangles)
      ensures transparentMeshData == old(transparentMeshData)
    {
      vertices := vertices + [vertex];
      if isCollider {
        colliderVertices := colliderVertices + [vertex];
      }
    }

    /** AddQuadTriangles: the two triangles of the last four vertices, and of the last four collider vertices
        when asked. */
    method AddQuadTriangles(isCollider: bool)
      modifies this
      ensures triangles == old(triangles) + QuadIndices(|vertices|)
      ensures colliderTriangles ==
        if isCollider then old(colliderTriangles) + QuadIndices(|colliderVertices|) else old(colliderTriangles)
      ensures vertices == old(vertices) && uvs == old(uvs) && colliderVertices == old(colliderVertices)
      ensures transparentMeshData == old(transparentMeshData)
    {
      var n := |vertices|;
      triangles := triangles + [n - 4, n - 3, n - 2];
      triangles := triangles + [n - 4, n - 2, n - 1];
      if !isCollider {
        return;
      }
      var c := |colliderVertices|;
      colliderTriangles := colliderTriangles + [c - 4, c - 3, c - 2];
      colliderTriangles := colliderTriangles + [c - 4, c - 2, c - 1];
    }

    /** UVs.AddRange. */
    method AddUvs(range: seq<Uv>)
      modifies this
      ensures uvs == old(uvs) + range
      ensures vertices == old(vertices) && triangles == old(triangles)
      ensures colliderVertices == old(colliderVertices) && colliderTriangles == old(colliderTriangles)
      ensures transparentMeshData == old(transparentMeshData)
    {
      uvs := uvs + range;
    }

    /** The foreach over the four corners, AddQuadTriangles and the UVs of SetBlockMeshData. */
    method AddFace(f: Face)
      requires f.Valid()
      modifies this
      ensures Contents() == PushFace(old(Contents()), f)
      ensures transparentMeshData == old(transparentMeshData)
    {
      var i := 0;
      while i < 4
        invariant 0 <= i <= 4
        invariant vertices == old(vertices) + f.corners[..i]
        invariant colliderVertices == if f.isCollider then old(colliderVertices) + f.corners[..i] else old(colliderVertices)
        invariant triangles == old(triangles) && uvs == old(uvs) && colliderTriangles == old(colliderTriangles)
        invariant transparentMeshData == old(transparentMeshData)
      {
        AddVertex(f.corners[i], f.isCollider);
        assert f.corners[..i + 1] == f.corners[..i] + [f.corners[i]];
        i := i + 1;
      }
      assert f.corners[..4] == f.corners;
      AddQuadTriangles(f.isCollider);
      AddUvs(f.uvs);
    }
  }

  /** An empty buffer set is well formed. */
  lemma EmptyWellFormed()
    ensures WellFormed(Empty)
  {
  }
}
