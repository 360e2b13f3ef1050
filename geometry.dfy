/** The geometry arena (GeometryManager): one GL buffer split into a 32 MiB
    vertex region followed by a 32 MiB index region, each filled by a bump
    cursor that only moves forward. */
module Geometry {
  import opened Gl

  /** sizeof(Vertex): position and normal (3 floats each) and texture coordinates (2 floats). */
  const VERTEX_SIZE: nat := 32
  /** sizeof(unsigned int). */
  const INDEX_SIZE: nat := 4
  const MAX_VERTEX_MEMORY: nat := 32 * 1024 * 1024
  const MAX_INDEX_MEMORY: nat := 32 * 1024 * 1024
  /** The index region starts right after the vertex region. */
  const INDICES_START_OFFSET: nat := MAX_VERTEX_MEMORY
  /** Values below this survive static_cast<unsigned int>. */
  const UINT_LIMIT: nat := 0x1_0000_0000

  datatype Vertex = Vertex(position: Vec3, normal: Vec3, texCoords: Vec2)

  /** Where an uploaded mesh lives: its first vertex (in vertices), the byte offset
      of its first index in the global buffer, and its number of indices. */
  datatype MeshRange = MeshRange(vertexOffset: nat, indexOffset: nat, indexCount: nat)

  /** What `upload` returns when a region would overflow (`return {};`). */
  const ZERO_RANGE: MeshRange := MeshRange(0, 0, 0)

  /** The two cursors, in bytes from the start of their own region. */
  datatype Heads = Heads(vertices: nat, indices: nat)

  /** The sizes of one `upload` call. */
  datatype Request = Request(vertexCount: nat, indexCount: nat)

  function VertexBytes(r: Request): nat { r.vertexCount * VERTEX_SIZE }
  function IndexBytes(r: Request): nat { r.indexCount * INDEX_SIZE }

  /** Both regions have room for the request. */
  predicate Fits(h: Heads, r: Request)
  {
    h.vertices + VertexBytes(r) <= MAX_VERTEX_MEMORY && h.indices + IndexBytes(r) <= MAX_INDEX_MEMORY
  }

  /** The cursors lie within their regions, on element boundaries. */
  predicate WithinCapacity(h: Heads)
  {
    && h.vertices <= MAX_VERTEX_MEMORY && h.indices <= MAX_INDEX_MEMORY
    && h.vertices % VERTEX_SIZE == 0 && h.indices % INDEX_SIZE == 0
  }

  /** The range one upload returns and the cursors it leaves behind. */
  datatype Step = Step(range: MeshRange, heads: Heads)

  /** One `upload`: both capacity checks come before anything is written or moved. */
  function UploadStep(h: Heads, r: Request): Step
  {
    if h.vertices + VertexBytes(r) > MAX_VERTEX_MEMORY then Step(ZERO_RANGE, h)
    else if h.indices + IndexBytes(r) > MAX_INDEX_MEMORY then Step(ZERO_RANGE, h)
    else
      Step(MeshRange(h.vertices / VERTEX_SIZE, INDICES_START_OFFSET + h.indices, r.indexCount),
           Heads(h.vertices + VertexBytes(r), h.indices + IndexBytes(r)))
  }

  /** An overflow in either region returns the zeroed range and leaves both cursors alone. */
  lemma OverflowChangesNothing(h: Heads, r: Request)
    requires !Fits(h, r)
    ensures UploadStep(h, r) == Step(ZERO_RANGE, h)
  {
  }

  /** A successful upload: offsets come from the old cursors, the cursors advance by
      exactly the bytes written, the division by sizeof(Vertex) is exact, the
      casts to unsigned int lose nothing, and the result is never the zeroed range. */
  lemma UploadSucceeds(h: Heads, r: Request)
    requires WithinCapacity(h) && Fits(h, r)
    ensures var s := UploadStep(h, r);
      && s.range.vertexOffset * VERTEX_SIZE == h.vertices
      && s.range.indexOffset == MAX_VERTEX_MEMORY + h.indices
      && s.range.indexCount == r.indexCount
      && s.heads == Heads(h.vertices + VertexBytes(r), h.indices + IndexBytes(r))
      && WithinCapacity(s.heads)
      && s.range.vertexOffset < UINT_LIMIT && s.range.indexOffset < UINT_LIMIT && s.range.indexCount < UINT_LIMIT
      && s.range != ZERO_RANGE
  {
    var s := UploadStep(h, r);
    assert s.range.vertexOffset * VERTEX_SIZE == h.vertices by {
      assert h.vertices == (h.vertices / VERTEX_SIZE) * VERTEX_SIZE + h.vertices % VERTEX_SIZE;
    }
  }

  /** The caller can tell failure apart: the zeroed range comes back exactly when the
      request does not fit, and a request that fills a region to the last byte fits,
      because the source compares with a strict `>`. */
  lemma ZeroRangeIffOverflow(h: Heads, r: Request)
    ensures UploadStep(h, r).range == ZERO_RANGE <==> !Fits(h, r)
  {
  }

  /** The boundary case: a fresh arena takes a mesh that fills both regions exactly,
      and then refuses a single further vertex. */
  lemma ExactFillSucceeds()
    ensures var full := Request(MAX_VERTEX_MEMORY / VERTEX_SIZE, MAX_INDEX_MEMORY / INDEX_SIZE);
      var s := UploadStep(Heads(0, 0), full);
      && s.range == MeshRange(0, MAX_VERTEX_MEMORY, MAX_INDEX_MEMORY / INDEX_SIZE)
      && s.heads == Heads(MAX_VERTEX_MEMORY, MAX_INDEX_MEMORY)
      && UploadStep(s.heads, Request(1, 0)) == Step(ZERO_RANGE, s.heads)
  {
  }

  /** A unit quad (4 vertices, 6 indices) uploaded twice into a fresh arena lands at
      base vertex 0 and then 4, with its indices right after the first quad's. */
  lemma QuadUploadedTwice()
    ensures var first := UploadStep(Heads(0, 0), Request(4, 6));
      var second := UploadStep(first.heads, Request(4, 6));
      && first.range == MeshRange(0, MAX_VERTEX_MEMORY, 6)
      && second.range == MeshRange(4, MAX_VERTEX_MEMORY + 24, 6)
      && second.heads == Heads(256, 48)
  {
  }

  /** The cursors after a sequence of uploads. */
  function Replay(h: Heads, rs: seq<Request>): Heads
    decreases |rs|
  {
    if rs == [] then h else UploadStep(Replay(h, rs[..|rs| - 1]), rs[|rs| - 1]).heads
  }

  /** The byte intervals one successful upload writes, as absolute half-open offsets
      in the global buffer. */
  datatype Allocation = Allocation(vertexStart: nat, vertexEnd: nat, indexStart: nat, indexEnd: nat)

  /** The intervals written by the successful uploads of a sequence, in order. */
  function Allocations(h: Heads, rs: seq<Request>): seq<Allocation>
    decreases |rs|
  {
    if rs == [] then []
    else
      var before := Replay(h, rs[..|rs| - 1]);
      var r := rs[|rs| - 1];
      Allocations(h, rs[..|rs| - 1])
        + if Fits(before, r)
          then [Allocation(before.vertices, before.vertices + VertexBytes(r),
                           INDICES_START_OFFSET + before.indices, INDICES_START_OFFSET + before.indices + IndexBytes(r))]
          else []
  }

  /** Cursors never move backwards and never leave their regions. */
  lemma {:induction false} ReplayWithinCapacity(h: Heads, rs: seq<Request>)
    requires WithinCapacity(h)
    ensures var e := Replay(h, rs);
      WithinCapacity(e) && h.vertices <= e.vertices && h.indices <= e.indices
    decreases |rs|
  {
    if rs != [] {
      var before := Replay(h, rs[..|rs| - 1]);
      ReplayWithinCapacity(h, rs[..|rs| - 1]);
      if Fits(before, rs[|rs| - 1]) {
        UploadSucceeds(before, rs[|rs| - 1]);
      }
    }
  }

  /** Everything a sequence of uploads writes lies between the starting and final
      cursors; vertex data stays below MAX_VERTEX_MEMORY, where the index region
      begins; and later uploads write strictly after earlier ones, so no two
      uploads ever overlap. */
  lemma {:induction false} AllocationsAscendAndDisjoint(h: Heads, rs: seq<Request>)
    requires WithinCapacity(h)
    ensures forall i :: 0 <= i < |Allocations(h, rs)| ==>
      var a := Allocations(h, rs)[i];
      && h.vertices <= a.vertexStart <= a.vertexEnd <= Replay(h, rs).vertices <= MAX_VERTEX_MEMORY
      && INDICES_START_OFFSET + h.indices <= a.indexStart <= a.indexEnd
      && a.indexEnd <= INDICES_START_OFFSET + Replay(h, rs).indices <= INDICES_START_OFFSET + MAX_INDEX_MEMORY
    ensures forall i, j :: 0 <= i < j < |Allocations(h, rs)| ==>
      && Allocations(h, rs)[i].vertexEnd <= Allocations(h, rs)[j].vertexStart
      && Allocations(h, rs)[i].indexEnd <= Allocations(h, rs)[j].indexStart
    decreases |rs|
  {
    ReplayWithinCapacity(h, rs);
    if rs != [] {
      var init := rs[..|rs| - 1];
      var r := rs[|rs| - 1];
      var before := Replay(h, init);
      var a0 := Allocations(h, init);
      AllocationsAscendAndDisjoint(h, init);
      ReplayWithinCapacity(h, init);
      var a := Allocations(h, rs);
      var e := Replay(h, rs);
      assert e == UploadStep(before, r).heads;
      if Fits(before, r) {
        UploadSucceeds(before, r);
        assert a == a0 + [Allocation(before.vertices, before.vertices + VertexBytes(r),
          INDICES_START_OFFSET + before.indices, INDICES_START_OFFSET + before.indices + IndexBytes(r))];
        forall i | 0 <= i < |a|
          ensures h.vertices <= a[i].vertexStart <= a[i].vertexEnd <= e.vertices
          ensures INDICES_START_OFFSET + h.indices <= a[i].indexStart <= a[i].indexEnd <= INDICES_START_OFFSET + e.indices
        {
          if i < |a0| { assert a[i] == a0[i]; }
        }
        forall i, j | 0 <= i < j < |a|
          ensures a[i].vertexEnd <= a[j].vertexStart && a[i].indexEnd <= a[j].indexStart
        {
          assert a[i] == a0[i];
          if j < |a0| { assert a[j] == a0[j]; }
        }
      } else {
        assert a == a0;
        assert e == before;
      }
    }
  }

  /** The arena object: the two cursors, the GL names of the buffer and vertex array,
      and (as history) the sizes of every upload made so far. */
  class GeometryManager {
    var globalBuffer: nat
    var globalVao: nat
    var verticesHead: nat
    var indicesHead: nat
    ghost var requests: seq<Request>

    /** The cursors are those of a fresh arena after replaying every upload. */
    ghost predicate Valid()
      reads this
    {
      Heads(verticesHead, indicesHead) == Replay(Heads(0, 0), requests)
    }

    ghost function CurrentHeads(): Heads
      reads this
    {
      Heads(verticesHead, indicesHead)
    }

    constructor ()
      ensures Valid() && requests == []
      ensures globalBuffer == 0 && globalVao == 0 && verticesHead == 0 && indicesHead == 0
    {
      globalBuffer, globalVao := 0, 0;
      verticesHead, indicesHead := 0, 0;
      requests := [];
    }

    /** Create the buffer, sized for both regions, and the vertex array that reads the
        `Vertex` layout from it; `buffer` and `vao` are the names GL hands out. */
    method Init(gl: Context, buffer: nat, vao: nat)
      modifies this, gl
      ensures globalBuffer == buffer && globalVao == vao
      ensures verticesHead == old(verticesHead) && indicesHead == old(indicesHead) && requests == old(requests)
      ensures gl.trace == old(gl.trace) + [
        CreateBuffer(buffer),
        NamedBufferStorage(buffer, MAX_VERTEX_MEMORY + MAX_INDEX_MEMORY),
        CreateVertexArray(vao),
        VertexArrayVertexBuffer(vao, buffer, 0, VERTEX_SIZE),
        VertexArrayElementBuffer(vao, buffer),
        VertexArrayAttrib(vao, 0, 3, 0),
        VertexArrayAttrib(vao, 1, 3, 12),
        VertexArrayAttrib(vao, 2, 2, 24)]
    {
      globalBuffer := buffer;
      gl.Issue(CreateBuffer(buffer));
      gl.Issue(NamedBufferStorage(buffer, MAX_VERTEX_MEMORY + MAX_INDEX_MEMORY));
      globalVao := vao;
      gl.Issue(CreateVertexArray(vao));
      gl.Issue(VertexArrayVertexBuffer(vao, buffer, 0, VERTEX_SIZE));
      gl.Issue(VertexArrayElementBuffer(vao, buffer));
      gl.Issue(VertexArrayAttrib(vao, 0, 3, 0));
      gl.Issue(VertexArrayAttrib(vao, 1, 3, 12));
      gl.Issue(VertexArrayAttrib(vao, 2, 2, 24));
    }

    /** Copy a mesh into the arena. On overflow nothing is written and neither cursor
        moves; otherwise both regions receive the data at their cursors, which then
        advance past it. */
    method Upload(gl: Context, vertices: seq<Vertex>, indices: seq<nat>) returns (range: MeshRange)
      requires Valid()
      modifies this, gl
      ensures Valid()
      ensures requests == old(requests) + [Request(|vertices|, |indices|)]
      ensures globalBuffer == old(globalBuffer) && globalVao == old(globalVao)
      ensures Step(range, CurrentHeads()) == UploadStep(old(CurrentHeads()), Request(|vertices|, |indices|))
      ensures gl.trace == old(gl.trace) +
        if Fits(old(CurrentHeads()), Request(|vertices|, |indices|))
        then [NamedBufferSubData(globalBuffer, old(verticesHead), |vertices| * VERTEX_SIZE),
              NamedBufferSubData(globalBuffer, INDICES_START_OFFSET + old(indicesHead), |indices| * INDEX_SIZE)]
        else []
    {
      var vertSize := |vertices| * VERTEX_SIZE;
      var idxSize := |indices| * INDEX_SIZE;
      ghost var r := Request(|vertices|, |indices|);
      assert (requests + [r])[..|requests|] == requests;
      requests := requests + [r];

      if verticesHead + vertSize > MAX_VERTEX_MEMORY {
        return ZERO_RANGE;
      }
      if indicesHead + idxSize > MAX_INDEX_MEMORY {
        return ZERO_RANGE;
      }

      range := MeshRange(verticesHead / VERTEX_SIZE, INDICES_START_OFFSET + indicesHead, |indices|);
      gl.Issue(NamedBufferSubData(globalBuffer, verticesHead, vertSize));
      gl.Issue(NamedBufferSubData(globalBuffer, INDICES_START_OFFSET + indicesHead, idxSize));
      verticesHead := verticesHead + vertSize;
      indicesHead := indicesHead + idxSize;
    }

    /** Release the buffer and the vertex array. */
    method Shutdown(gl: Context)
      modifies gl
      ensures gl.trace == old(gl.trace) + [DeleteBuffer(globalBuffer), DeleteVertexArray(globalVao)]
    {
      gl.Issue(DeleteBuffer(globalBuffer));
      gl.Issue(DeleteVertexArray(globalVao));
    }
  }

  /** What a caller of the arena can rely on from the method contracts alone: a fresh
      arena places two unit quads at base vertices 0 and 4. */
  method QuadScenario()
  {
    var gl := new Context();
    var arena := new GeometryManager();
    arena.Init(gl, 1, 1);
    var quad := seq(4, _ => Vertex(Vec3(0.0, 0.0, 0.0), Vec3(0.0, 0.0, 1.0), Vec2(0.0, 0.0)));
    var quadIndices := [0, 1, 2, 2, 3, 0];
    assert arena.CurrentHeads() == Heads(0, 0);
    var first := arena.Upload(gl, quad, quadIndices);
    assert arena.CurrentHeads() == Heads(128, 24);
    var second := arena.Upload(gl, quad, quadIndices);
    assert first == MeshRange(0, MAX_VERTEX_MEMORY, 6);
    assert second == MeshRange(4, MAX_VERTEX_MEMORY + 24, 6);
  }
}
