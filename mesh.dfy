/** A drawable mesh (Mesh in Graphics/Mesh.cpp): its own vertex array and two
    buffers, the textures it samples, how drawing names each texture's sampler
    uniform, and the move operations that hand the GL objects over. */
module Meshes {
  import opened Gl
  import opened Geometry
  import opened Textures
  import opened Shaders
  import opened Seqs

  /** The decimal digit for d (0 <= d < 10). */
  function Digit(d: nat): char
    requires d < 10
  {
    ('0' as int + d) as char
  }

  /** std::to_string of an unsigned number: its decimal digits, most significant first. */
  function Decimal(n: nat): (s: string)
    ensures |s| >= 1
    ensures forall i | 0 <= i < |s| :: '0' <= s[i] <= '9'
  {
    if n < 10 then [Digit(n)] else Decimal(n / 10) + [Digit(n % 10)]
  }

  /** The number a string of decimal digits spells. */
  function DecimalValue(s: string): nat
    requires forall i | 0 <= i < |s| :: '0' <= s[i] <= '9'
  {
    if s == [] then 0
    else DecimalValue(s[..|s| - 1]) * 10 + (s[|s| - 1] as int - '0' as int)
  }

  /** Reading back what to_string wrote gives the number. */
  lemma {:induction false} DecimalRoundTrip(n: nat)
    ensures DecimalValue(Decimal(n)) == n
  {
    if n >= 10 {
      DecimalRoundTrip(n / 10);
      var s := Decimal(n);
      assert s[..|s| - 1] == Decimal(n / 10);
    }
  }

  /** Different numbers get different strings. */
  lemma DecimalInjective(a: nat, b: nat)
    ensures Decimal(a) == Decimal(b) ==> a == b
  {
    DecimalRoundTrip(a);
    DecimalRoundTrip(b);
  }

  /** The sampler name a texture type starts from; a texture of type None gets the
      empty name. */
  function TypePrefix(t: TextureType): string
  {
    match t
    case None => ""
    case Diffuse => "texture_diffuse"
    case Specular => "texture_specular"
    case Normal => "texture_normal"
    case Height => "texture_height"
  }

  /** How many of the first n textures have type t. */
  function CountIn(types: seq<TextureType>, t: TextureType, n: nat): nat
    requires n <= |types|
  {
    if n == 0 then 0 else CountIn(types, t, n - 1) + if types[n - 1] == t then 1 else 0
  }

  /** A later texture of the same type has counted strictly more of that type. */
  lemma {:induction false} CountGrows(types: seq<TextureType>, i: nat, j: nat)
    requires i < j < |types| && types[i] == types[j]
    ensures CountIn(types, types[i], i + 1) < CountIn(types, types[j], j + 1)
  {
    CountMonotone(types, types[i], i + 1, j);
  }

  lemma {:induction false} CountMonotone(types: seq<TextureType>, t: TextureType, a: nat, b: nat)
    requires a <= b <= |types|
    ensures CountIn(types, t, a) <= CountIn(types, t, b)
  {
    if a < b {
      CountMonotone(types, t, a, b - 1);
    }
  }

  /** The draw loop's four counters after the first n textures: for each type, one
      past the number of textures of that type seen so far. */
  function NextNumbers(types: seq<TextureType>, n: nat): (nat, nat, nat, nat)
    requires n <= |types|
  {
    (CountIn(types, Diffuse, n) + 1, CountIn(types, Specular, n) + 1, CountIn(types, Normal, n) + 1, CountIn(types, Height, n) + 1)
  }

  /** The sampler uniform texture i is bound through: its type's prefix and, unless
      the type is None, the 1-based count of textures of that type up to and
      including it. */
  function SamplerName(types: seq<TextureType>, i: nat): string
    requires i < |types|
  {
    TypePrefix(types[i]) + if types[i] == None then "" else Decimal(CountIn(types, types[i], i + 1))
  }

  /** Two textures that both have a type are bound through different sampler names:
      different types differ in the prefix, and two textures of one type get
      different numbers. */
  lemma SamplerNamesDistinct(types: seq<TextureType>, i: nat, j: nat)
    requires i < j < |types|
    requires types[i] != None && types[j] != None
    ensures SamplerName(types, i) != SamplerName(types, j)
  {
    if types[i] != types[j] {
      assert SamplerName(types, i)[8] == TypePrefix(types[i])[8];
      assert SamplerName(types, j)[8] == TypePrefix(types[j])[8];
    } else {
      var p := TypePrefix(types[i]);
      var a := Decimal(CountIn(types, types[i], i + 1));
      var b := Decimal(CountIn(types, types[j], j + 1));
      CountGrows(types, i, j);
      DecimalInjective(CountIn(types, types[i], i + 1), CountIn(types, types[j], j + 1));
      assert (p + a)[|p|..] == a && (p + b)[|p|..] == b;
    }
  }

  /** The sampler names of all textures, by position. */
  function SamplerNames(types: seq<TextureType>): (names: seq<string>)
    ensures |names| == |types|
  {
    seq(|types|, i requires 0 <= i < |types| => SamplerName(types, i))
  }

  /** What the draw loop computes for texture i, with its type's counter one past the
      number of textures of that type before it, is texture i's sampler name. */
  lemma CounterGivesSamplerName(types: seq<TextureType>, i: nat, counter: nat)
    requires i < |types|
    requires types[i] != None ==> counter == CountIn(types, types[i], i) + 1
    ensures TypePrefix(types[i]) + (if types[i] == None then "" else Decimal(counter)) == SamplerNames(types)[i]
  {
  }

  /** The calls Mesh::draw makes for texture i, given its sampler name and GL name:
      set the sampler uniform to i, select unit TEXTURE0 + i and bind the texture there. */
  function TextureStep(program: nat, activeUniforms: map<string, nat>, name: string, i: nat, texture: nat): seq<Call>
  {
    [Uniform(program, name, GlLocation(activeUniforms, name), Uniform1i(i)), ActiveTexture(TEXTURE0 + i), BindTexture2D(texture)]
  }

  /** The GL calls of the texture loop of Mesh::draw for the first n textures. */
  function DrawTextureCalls(program: nat, activeUniforms: map<string, nat>, names: seq<string>, ids: seq<nat>, n: nat): seq<Call>
    requires n <= |names| && n <= |ids|
  {
    if n == 0 then []
    else DrawTextureCalls(program, activeUniforms, names, ids, n - 1) + TextureStep(program, activeUniforms, names[n - 1], n - 1, ids[n - 1])
  }

  /** The loop handles the textures one at a time, in order: calls 3i to 3i+2 are
      those for texture i, and nothing else is issued. */
  lemma {:induction false} DrawBindsTextureIToUnitI(program: nat, activeUniforms: map<string, nat>, names: seq<string>, ids: seq<nat>, n: nat)
    requires n <= |names| && n <= |ids|
    ensures |DrawTextureCalls(program, activeUniforms, names, ids, n)| == 3 * n
    ensures forall i | 0 <= i < n ::
      DrawTextureCalls(program, activeUniforms, names, ids, n)[3 * i..3 * i + 3] == TextureStep(program, activeUniforms, names[i], i, ids[i])
  {
    if n > 0 {
      DrawBindsTextureIToUnitI(program, activeUniforms, names, ids, n - 1);
      var prev := DrawTextureCalls(program, activeUniforms, names, ids, n - 1);
      var step := TextureStep(program, activeUniforms, names[n - 1], n - 1, ids[n - 1]);
      forall i | 0 <= i < n
        ensures DrawTextureCalls(program, activeUniforms, names, ids, n)[3 * i..3 * i + 3] == TextureStep(program, activeUniforms, names[i], i, ids[i])
      {
        if i < n - 1 {
          assert (prev + step)[3 * i..3 * i + 3] == prev[3 * i..3 * i + 3];
        } else {
          assert (prev + step)[3 * i..3 * i + 3] == step;
        }
      }
    }
  }

  /** The types of a sequence of textures, in order. */
  function TypesOf(textures: seq<Texture>): (types: seq<TextureType>)
    reads set t | t in textures
    ensures |types| == |textures|
    ensures forall i | 0 <= i < |textures| :: types[i] == textures[i].textureType
  {
    if textures == [] then [] else TypesOf(textures[..|textures| - 1]) + [textures[|textures| - 1].textureType]
  }

  /** The GL names of a sequence of textures, in order. */
  function IdsOf(textures: seq<Texture>): (ids: seq<nat>)
    reads set t | t in textures
    ensures |ids| == |textures|
    ensures forall i | 0 <= i < |textures| :: ids[i] == textures[i].id
  {
    if textures == [] then [] else IdsOf(textures[..|textures| - 1]) + [textures[|textures| - 1].id]
  }

  /** Mesh::setupMesh, first part: create the vertex array and both buffers and bind them. */
  function CreateCalls(vao: nat, vbo: nat, ebo: nat): seq<Call>
  {
    [GenVertexArray(vao), GenBuffer(vbo), GenBuffer(ebo),
     BindVertexArray(vao), BindBuffer(ArrayBuffer, vbo), BindBuffer(ElementArrayBuffer, ebo)]
  }

  /** Upload the vertices (sizeof(Vertex) bytes each) and the indices (4 bytes each). */
  function UploadCalls(vertexCount: nat, indexCount: nat): seq<Call>
  {
    [BufferData(ArrayBuffer, vertexCount * VERTEX_SIZE), BufferData(ElementArrayBuffer, indexCount * INDEX_SIZE)]
  }

  /** Describe the three attributes of the 32-byte vertex (position, normal, texture
      coordinates) and enable them. */
  function LayoutCalls(): seq<Call>
  {
    [VertexAttribPointer(0, 3, VERTEX_SIZE, 0), VertexAttribPointer(1, 3, VERTEX_SIZE, 12), VertexAttribPointer(2, 2, VERTEX_SIZE, 24),
     EnableVertexAttribArray(0), EnableVertexAttribArray(1), EnableVertexAttribArray(2)]
  }

  /** Unbind the array buffer, then the vertex array, then the element buffer. */
  function UnbindCalls(): seq<Call>
  {
    [BindBuffer(ArrayBuffer, 0), BindVertexArray(0), BindBuffer(ElementArrayBuffer, 0)]
  }

  function SetupCalls(vertexCount: nat, indexCount: nat, vao: nat, vbo: nat, ebo: nat): seq<Call>
  {
    CreateCalls(vao, vbo, ebo) + UploadCalls(vertexCount, indexCount) + LayoutCalls() + UnbindCalls()
  }

  class Mesh {
    /** m_vertices, m_indices, m_textures */
    var vertices: seq<Vertex>
    var indices: seq<nat>
    var textures: seq<Texture>
    /** VAO, VBO, EBO */
    var vao: nat
    var vbo: nat
    var ebo: nat

    /** Mesh::Mesh: keep the data and set up the GL objects, named vao, vbo and ebo
        by GL. */
    constructor (gl: Context, vertices: seq<Vertex>, indices: seq<nat>, textures: seq<Texture>, vao: nat, vbo: nat, ebo: nat)
      modifies gl
      ensures this.vertices == vertices && this.indices == indices && this.textures == textures
      ensures this.vao == vao && this.vbo == vbo && this.ebo == ebo
      ensures gl.trace == old(gl.trace) + SetupCalls(|vertices|, |indices|, vao, vbo, ebo)
    {
      this.vertices, this.indices, this.textures := vertices, indices, textures;
      this.vao, this.vbo, this.ebo := vao, vbo, ebo;
      new;
      SetupMesh(gl);
    }

    /** Mesh::setupMesh. */
    method SetupMesh(gl: Context)
      modifies gl
      ensures gl.trace == old(gl.trace) + SetupCalls(|vertices|, |indices|, vao, vbo, ebo)
    {
      ghost var t0 := gl.trace;
      CreateObjects(gl);
      ghost var t1 := gl.trace;
      Upload(gl);
      ghost var t2 := gl.trace;
      DescribeLayout(gl);
      ghost var t3 := gl.trace;
      Unbind(gl);
      assert gl.trace == t0 + (CreateCalls(vao, vbo, ebo) + UploadCalls(|vertices|, |indices|) + LayoutCalls() + UnbindCalls());
    }

    method CreateObjects(gl: Context)
      modifies gl
      ensures gl.trace == old(gl.trace) + CreateCalls(vao, vbo, ebo)
    {
      gl.Issue(GenVertexArray(vao));
      gl.Issue(GenBuffer(vbo));
      gl.Issue(GenBuffer(ebo));
      gl.Issue(BindVertexArray(vao));
      gl.Issue(BindBuffer(ArrayBuffer, vbo));
      gl.Issue(BindBuffer(ElementArrayBuffer, ebo));
    }

    method Upload(gl: Context)
      modifies gl
      ensures gl.trace == old(gl.trace) + UploadCalls(|vertices|, |indices|)
    {
      gl.Issue(BufferData(ArrayBuffer, |vertices| * VERTEX_SIZE));
      gl.Issue(BufferData(ElementArrayBuffer, |indices| * INDEX_SIZE));
    }

    method DescribeLayout(gl: Context)
      modifies gl
      ensures gl.trace == old(gl.trace) + LayoutCalls()
    {
      gl.Issue(VertexAttribPointer(0, 3, VERTEX_SIZE, 0));
      gl.Issue(VertexAttribPointer(1, 3, VERTEX_SIZE, 12));
      gl.Issue(VertexAttribPointer(2, 2, VERTEX_SIZE, 24));
      gl.Issue(EnableVertexAttribArray(0));
      gl.Issue(EnableVertexAttribArray(1));
      gl.Issue(EnableVertexAttribArray(2));
    }

    method Unbind(gl: Context)
      modifies gl
      ensures gl.trace == old(gl.trace) + UnbindCalls()
    {
      gl.Issue(BindBuffer(ArrayBuffer, 0));
      gl.Issue(BindVertexArray(0));
      gl.Issue(BindBuffer(ElementArrayBuffer, 0));
    }

    /** Mesh::~Mesh: delete both buffers, then the vertex array. */
    method Destroy(gl: Context)
      modifies gl
      ensures gl.trace == old(gl.trace) + [DeleteBuffer(vbo), DeleteBuffer(ebo), DeleteVertexArray(vao)]
    {
      gl.Issue(DeleteBuffer(vbo));
      gl.Issue(DeleteBuffer(ebo));
      gl.Issue(DeleteVertexArray(vao));
    }

    /** The move constructor: takes the data and the GL names; the source keeps no
        GL names and (as a moved-from vector in practice is) no data. */
    constructor MoveFrom(other: Mesh)
      modifies other
      ensures vertices == old(other.vertices) && indices == old(other.indices) && textures == old(other.textures)
      ensures vao == old(other.vao) && vbo == old(other.vbo) && ebo == old(other.ebo)
      ensures other.vao == 0 && other.vbo == 0 && other.ebo == 0
      ensures other.vertices == [] && other.indices == [] && other.textures == []
    {
      vertices, indices, textures := other.vertices, other.indices, other.textures;
      vao, vbo, ebo := other.vao, other.vbo, other.ebo;
      new;
      other.vertices, other.indices, other.textures := [], [], [];
      other.vao, other.vbo, other.ebo := 0, 0, 0;
    }

    /** Move assignment: a self-move does nothing; otherwise the mesh deletes its own
        vertex array and buffers first, then takes the source's data and names, and
        the source is left with none. */
    method MoveAssign(gl: Context, other: Mesh)
      modifies this, other, gl
      ensures other == this ==> unchanged(this) && gl.trace == old(gl.trace)
      ensures other != this ==>
        && vertices == old(other.vertices) && indices == old(other.indices) && textures == old(other.textures)
        && vao == old(other.vao) && vbo == old(other.vbo) && ebo == old(other.ebo)
        && other.vao == 0 && other.vbo == 0 && other.ebo == 0
        && other.vertices == [] && other.indices == [] && other.textures == []
        && gl.trace == old(gl.trace) + [DeleteVertexArray(old(vao)), DeleteBuffer(old(vbo)), DeleteBuffer(old(ebo))]
    {
      if other != this {
        gl.Issue(DeleteVertexArray(vao));
        gl.Issue(DeleteBuffer(vbo));
        gl.Issue(DeleteBuffer(ebo));
        vertices, indices, textures := other.vertices, other.indices, other.textures;
        vao, vbo, ebo := other.vao, other.vbo, other.ebo;
        other.vertices, other.indices, other.textures := [], [], [];
        other.vao, other.vbo, other.ebo := 0, 0, 0;
      }
    }

    /** Mesh::draw: make the shader current, bind texture i to unit i through its
        sampler name, then draw all indices from the mesh's vertex array. */
    method Draw(gl: Context, shader: Shader)
      requires shader.Valid()
      modifies gl, shader
      ensures shader.Valid()
      ensures shader.locationCache.Keys == old(shader.locationCache.Keys)
        + set i | 0 <= i < |textures| :: SamplerNames(old(TypesOf(textures)))[i]
      ensures gl.trace == old(gl.trace) + [UseProgram(shader.program)]
        + DrawTextureCalls(shader.program, shader.activeUniforms, SamplerNames(old(TypesOf(textures))), old(IdsOf(textures)), |textures|)
        + [BindVertexArray(vao), DrawElements(|indices|)]
    {
      ghost var types := TypesOf(textures);
      ghost var ids := IdsOf(textures);
      shader.UseShader(gl);
      DrawTextures(gl, shader, types, ids);
      ghost var drawn := gl.trace;
      gl.Issue(BindVertexArray(vao));
      gl.Issue(DrawElements(|indices|));
      assert gl.trace == drawn + [BindVertexArray(vao), DrawElements(|indices|)];
    }

    /** The texture loop of Mesh::draw, with four per-type counters starting at 1. */
    method DrawTextures(gl: Context, shader: Shader, ghost types: seq<TextureType>, ghost ids: seq<nat>)
      requires shader.Valid()
      requires types == TypesOf(textures) && ids == IdsOf(textures)
      modifies gl, shader
      ensures shader.Valid()
      ensures shader.locationCache.Keys == old(shader.locationCache.Keys) + set i | 0 <= i < |textures| :: SamplerNames(types)[i]
      ensures gl.trace == old(gl.trace) + DrawTextureCalls(shader.program, shader.activeUniforms, SamplerNames(types), ids, |textures|)
    {
      ghost var start := gl.trace;
      ghost var cached := shader.locationCache.Keys;
      ghost var names := SamplerNames(types);
      ghost var named: set<string> := {};
      var diffuseNr: nat, specularNr: nat, normalNr: nat, heightNr: nat := 1, 1, 1, 1;
      for i := 0 to |textures|
        invariant shader.Valid() && types == TypesOf(textures) && ids == IdsOf(textures)
        invariant named == set j | 0 <= j < i :: names[j]
        invariant shader.locationCache.Keys == cached + named
        invariant (diffuseNr, specularNr, normalNr, heightNr) == NextNumbers(types, i)
        invariant gl.trace == start + DrawTextureCalls(shader.program, shader.activeUniforms, names, ids, i)
      {
        diffuseNr, specularNr, normalNr, heightNr := DrawTexture(gl, shader, i, diffuseNr, specularNr, normalNr, heightNr, types, ids, start);
        PrefixElementsSnoc(names, i);
        named := named + {names[i]};
      }
    }

    /** One iteration of the texture loop of Mesh::draw: name texture i's sampler from
        its type's counter, point the sampler at unit i, and bind the texture there. */
    method DrawTexture(gl: Context, shader: Shader, i: nat, diffuseNr: nat, specularNr: nat, normalNr: nat, heightNr: nat,
                       ghost types: seq<TextureType>, ghost ids: seq<nat>, ghost start: seq<Call>)
      returns (diffuseNext: nat, specularNext: nat, normalNext: nat, heightNext: nat)
      requires shader.Valid()
      requires i < |textures| && types == TypesOf(textures) && ids == IdsOf(textures)
      requires (diffuseNr, specularNr, normalNr, heightNr) == NextNumbers(types, i)
      requires gl.trace == start + DrawTextureCalls(shader.program, shader.activeUniforms, SamplerNames(types), ids, i)
      modifies gl, shader
      ensures shader.Valid()
      ensures types == TypesOf(textures) && ids == IdsOf(textures)
      ensures shader.locationCache.Keys == old(shader.locationCache.Keys) + {SamplerNames(types)[i]}
      ensures (diffuseNext, specularNext, normalNext, heightNext) == NextNumbers(types, i + 1)
      ensures gl.trace == start + DrawTextureCalls(shader.program, shader.activeUniforms, SamplerNames(types), ids, i + 1)
    {
      var sampler;
      sampler, diffuseNext, specularNext, normalNext, heightNext :=
        NameSampler(textures[i].textureType, i, diffuseNr, specularNr, normalNr, heightNr, types);
      ghost var done := DrawTextureCalls(shader.program, shader.activeUniforms, SamplerNames(types), ids, i);
      ghost var step := TextureStep(shader.program, shader.activeUniforms, sampler, i, ids[i]);
      BindSampler(gl, shader, sampler, i);
      AppendAssoc(start, done, step);
      assert done + step == DrawTextureCalls(shader.program, shader.activeUniforms, SamplerNames(types), ids, i + 1);
    }

    /** Point the sampler uniform at unit i and bind texture i there. */
    method BindSampler(gl: Context, shader: Shader, sampler: string, i: nat)
      requires shader.Valid() && i < |textures|
      modifies gl, shader
      ensures shader.Valid()
      ensures shader.locationCache.Keys == old(shader.locationCache.Keys) + {sampler}
      ensures gl.trace == old(gl.trace) + TextureStep(shader.program, shader.activeUniforms, sampler, i, textures[i].id)
    {
      shader.SetUniformInt(gl, sampler, i);
      textures[i].Bind(gl, i);
    }
  }

  /** The sampler name Mesh::draw builds for texture i of type t from the four
      counters, and the counters it leaves for the next texture. */
  method NameSampler(t: TextureType, i: nat, diffuseNr: nat, specularNr: nat, normalNr: nat, heightNr: nat,
                     ghost types: seq<TextureType>)
    returns (sampler: string, diffuseNext: nat, specularNext: nat, normalNext: nat, heightNext: nat)
    requires i < |types| && types[i] == t
    requires (diffuseNr, specularNr, normalNr, heightNr) == NextNumbers(types, i)
    ensures sampler == SamplerNames(types)[i]
    ensures (diffuseNext, specularNext, normalNext, heightNext) == NextNumbers(types, i + 1)
  {
    var name, number;
    name, number, diffuseNext, specularNext, normalNext, heightNext :=
      NextSampler(t, diffuseNr, specularNr, normalNr, heightNr);
    ghost var counter := if t == Diffuse then diffuseNr else if t == Specular then specularNr
      else if t == Normal then normalNr else heightNr;
    CounterGivesSamplerName(types, i, counter);
    sampler := name + number;
  }

  /** The if-chain of Mesh::draw: the sampler prefix for a texture of type t and, from
      the counter of its type, its number; that counter advances. A texture of type
      None gets an empty name and number and advances no counter. */
  method NextSampler(t: TextureType, diffuseNr: nat, specularNr: nat, normalNr: nat, heightNr: nat)
    returns (name: string, number: string, diffuseNext: nat, specularNext: nat, normalNext: nat, heightNext: nat)
    ensures name == TypePrefix(t)
    ensures t == None ==> number == ""
    ensures t == Diffuse ==> number == Decimal(diffuseNr)
    ensures t == Specular ==> number == Decimal(specularNr)
    ensures t == Normal ==> number == Decimal(normalNr)
    ensures t == Height ==> number == Decimal(heightNr)
    ensures diffuseNext == diffuseNr + (if t == Diffuse then 1 else 0)
    ensures specularNext == specularNr + (if t == Specular then 1 else 0)
    ensures normalNext == normalNr + (if t == Normal then 1 else 0)
    ensures heightNext == heightNr + (if t == Height then 1 else 0)
  {
    name, number := "", "";
    diffuseNext, specularNext, normalNext, heightNext := diffuseNr, specularNr, normalNr, heightNr;
    if t == Diffuse {
      name := "texture_diffuse";
      number := Decimal(diffuseNr);
      diffuseNext := diffuseNr + 1;
    } else if t == Specular {
      name := "texture_specular";
      number := Decimal(specularNr);
      specularNext := specularNr + 1;
    } else if t == Normal {
      name := "texture_normal";
      number := Decimal(normalNr);
      normalNext := normalNr + 1;
    } else if t == Height {
      name := "texture_height";
      number := Decimal(heightNr);
      heightNext := heightNr + 1;
    }
  }
}
