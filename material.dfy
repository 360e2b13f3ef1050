/** A material (Material): a shader plus the uniform values and named textures
    to hand it. Binding makes the shader current, sends every stored value once,
    and gives the non-null textures the texture units 0, 1, 2, ... in the order
    the texture map is visited. */
module Materials {
  import opened Gl
  import opened Seqs
  import opened Textures
  import opened Shaders

  /** The uniform calls for sending `args` to a program in the order `order`. */
  function UniformCalls(program: nat, activeUniforms: map<string, nat>, order: seq<string>, args: map<string, UniformArg>): seq<Call>
    requires forall n | n in order :: n in args
  {
    if order == [] then []
    else
      var name := order[|order| - 1];
      UniformCalls(program, activeUniforms, order[..|order| - 1], args)
        + [Uniform(program, name, GlLocation(activeUniforms, name), args[name])]
  }

  /** Call i sends the stored value of the i-th visited name to that name's location. */
  lemma {:induction false} UniformCallsSendEachValue(program: nat, activeUniforms: map<string, nat>, order: seq<string>, args: map<string, UniformArg>)
    requires forall n | n in order :: n in args
    ensures |UniformCalls(program, activeUniforms, order, args)| == |order|
    ensures forall i | 0 <= i < |order| ::
      UniformCalls(program, activeUniforms, order, args)[i] == Uniform(program, order[i], GlLocation(activeUniforms, order[i]), args[order[i]])
  {
    if order != [] {
      UniformCallsSendEachValue(program, activeUniforms, order[..|order| - 1], args);
    }
  }

  /** The names in `order` that hold a non-null texture (those with an entry in
      `ids`), in the same order: the names that receive a texture unit. */
  function Bound(order: seq<string>, ids: map<string, nat>): seq<string>
  {
    if order == [] then []
    else
      var name := order[|order| - 1];
      Bound(order[..|order| - 1], ids) + if name in ids then [name] else []
  }

  /** Visiting every texture name once visits every non-null texture once: the
      texture units go one-to-one to the non-null textures, and null entries get none. */
  lemma {:induction false} BoundEnumeratesTextures(order: seq<string>, names: set<string>, ids: map<string, nat>)
    requires Enumerates(order, names)
    requires ids.Keys <= names
    ensures Enumerates(Bound(order, ids), ids.Keys)
    ensures |Bound(order, ids)| == |ids|
  {
    BoundEnumeratesPrefix(order, names, ids);
    assert ids.Keys * names == ids.Keys;
    EnumerationLength(Bound(order, ids), ids.Keys);
  }

  lemma {:induction false} BoundEnumeratesPrefix(order: seq<string>, names: set<string>, ids: map<string, nat>)
    requires Enumerates(order, names)
    ensures Enumerates(Bound(order, ids), ids.Keys * names)
  {
    if order == [] {
      assert names == {};
    } else {
      var last := order[|order| - 1];
      var init := order[..|order| - 1];
      assert Enumerates(init, names - {last}) by {
        forall i, j | 0 <= i < j < |init| ensures init[i] != init[j] {
          assert init[i] == order[i] && init[j] == order[j];
        }
        forall x | x in names - {last} ensures x in set i | 0 <= i < |init| :: init[i] {
          var i :| 0 <= i < |order| && order[i] == x;
          assert init[i] == x;
        }
      }
      BoundEnumeratesPrefix(init, names - {last}, ids);
      assert order == init + [last];
      BoundSnoc(init, ids, last);
      if last in ids {
        EnumeratesSnoc(Bound(init, ids), ids.Keys * (names - {last}), last);
        assert ids.Keys * (names - {last}) + {last} == ids.Keys * names;
      } else {
        assert ids.Keys * (names - {last}) == ids.Keys * names;
        assert Bound(order, ids) == Bound(init, ids);
      }
    }
  }

  lemma BoundSnoc(order: seq<string>, ids: map<string, nat>, name: string)
    ensures Bound(order + [name], ids) == Bound(order, ids) + if name in ids then [name] else []
  {
  }

  /** The calls that bind one texture (GL name `texture`) to `unit` and point the
      sampler uniform `name` at that unit. */
  function UnitCalls(program: nat, activeUniforms: map<string, nat>, name: string, unit: nat, texture: nat): seq<Call>
  {
    [ActiveTexture(TEXTURE0 + unit), BindTexture2D(texture), Uniform(program, name, GlLocation(activeUniforms, name), Uniform1i(unit))]
  }

  /** The calls of the texture loop when it visits the names in `order`: a name with
      a non-null texture gets the next unit, counting from 0; the others are skipped. */
  function TextureCalls(program: nat, activeUniforms: map<string, nat>, order: seq<string>, ids: map<string, nat>): seq<Call>
  {
    if order == [] then []
    else
      var init := order[..|order| - 1];
      var name := order[|order| - 1];
      TextureCalls(program, activeUniforms, init, ids)
        + if name in ids then UnitCalls(program, activeUniforms, name, |Bound(init, ids)|, ids[name]) else []
  }

  lemma TextureCallsSnoc(program: nat, activeUniforms: map<string, nat>, order: seq<string>, ids: map<string, nat>, name: string)
    ensures TextureCalls(program, activeUniforms, order + [name], ids)
      == TextureCalls(program, activeUniforms, order, ids)
         + if name in ids then UnitCalls(program, activeUniforms, name, |Bound(order, ids)|, ids[name]) else []
  {
  }

  /** The j-th texture that gets a unit is bound to unit TEXTURE0 + j, and its sampler
      uniform is set to j. */
  lemma {:induction false} TextureUnitsCountUp(program: nat, activeUniforms: map<string, nat>, order: seq<string>, ids: map<string, nat>)
    ensures |TextureCalls(program, activeUniforms, order, ids)| == 3 * |Bound(order, ids)|
    ensures forall j | 0 <= j < |Bound(order, ids)| ::
      && Bound(order, ids)[j] in ids
      && TextureCalls(program, activeUniforms, order, ids)[3 * j] == ActiveTexture(TEXTURE0 + j)
      && TextureCalls(program, activeUniforms, order, ids)[3 * j + 1] == BindTexture2D(ids[Bound(order, ids)[j]])
      && TextureCalls(program, activeUniforms, order, ids)[3 * j + 2]
         == Uniform(program, Bound(order, ids)[j], GlLocation(activeUniforms, Bound(order, ids)[j]), Uniform1i(j))
  {
    if order != [] {
      var init := order[..|order| - 1];
      var name := order[|order| - 1];
      TextureUnitsCountUp(program, activeUniforms, init, ids);
      assert order == init + [name];
      BoundSnoc(init, ids, name);
      TextureCallsSnoc(program, activeUniforms, init, ids, name);
    }
  }

  function FloatArgs(m: map<string, real>): (args: map<string, UniformArg>)
    ensures args.Keys == m.Keys && forall n | n in m :: args[n] == Uniform1f(m[n])
  {
    map n | n in m :: Uniform1f(m[n])
  }

  function IntArgs(m: map<string, int>): (args: map<string, UniformArg>)
    ensures args.Keys == m.Keys && forall n | n in m :: args[n] == Uniform1i(m[n])
  {
    map n | n in m :: Uniform1i(m[n])
  }

  /** Booleans go to GL as the integers 1 and 0. */
  function BoolArgs(m: map<string, bool>): (args: map<string, UniformArg>)
    ensures args.Keys == m.Keys && forall n | n in m :: args[n] == BoolArg(m[n])
  {
    map n | n in m :: BoolArg(m[n])
  }

  function Vec3Args(m: map<string, Vec3>): (args: map<string, UniformArg>)
    ensures args.Keys == m.Keys && forall n | n in m :: args[n] == Uniform3fv(m[n])
  {
    map n | n in m :: Uniform3fv(m[n])
  }

  function Vec4Args(m: map<string, Vec4>): (args: map<string, UniformArg>)
    ensures args.Keys == m.Keys && forall n | n in m :: args[n] == Uniform4fv(m[n])
  {
    map n | n in m :: Uniform4fv(m[n])
  }

  function Mat4Args(m: map<string, Mat4>): (args: map<string, UniformArg>)
    ensures args.Keys == m.Keys && forall n | n in m :: args[n] == UniformMatrix4fv(m[n])
  {
    map n | n in m :: UniformMatrix4fv(m[n])
  }

  /** The GL names of the non-null textures, by the name they are stored under. */
  function TextureIds(textures: map<string, Texture?>): (ids: map<string, nat>)
    reads textures.Values
    ensures forall n :: n in ids <==> n in textures && textures[n] != null
  {
    map n | n in textures && textures[n] != null :: textures[n].id
  }

  /** Send every entry of `args` once, visiting the keys in an unspecified order. */
  method SendUniforms(gl: Context, shader: Shader, args: map<string, UniformArg>)
    returns (ghost order: seq<string>)
    requires shader.Valid()
    modifies gl, shader
    ensures shader.Valid()
    ensures shader.locationCache.Keys == old(shader.locationCache.Keys) + args.Keys
    ensures Enumerates(order, args.Keys)
    ensures gl.trace == old(gl.trace) + UniformCalls(shader.program, shader.activeUniforms, order, args)
  {
    ghost var start := gl.trace;
    ghost var cached := shader.locationCache.Keys;
    order := [];
    var remaining := args.Keys;
    while remaining != {}
      invariant shader.Valid()
      invariant shader.locationCache.Keys == cached + (args.Keys - remaining)
      invariant remaining <= args.Keys
      invariant Enumerates(order, args.Keys - remaining)
      invariant forall n | n in order :: n in args
      invariant gl.trace == start + UniformCalls(shader.program, shader.activeUniforms, order, args)
      decreases remaining
    {
      var name :| name in remaining;
      EnumeratesSnoc(order, args.Keys - remaining, name);
      SendUniform(gl, shader, args, name, order, start);
      order := order + [name];
      remaining := remaining - {name};
      assert args.Keys - remaining == (args.Keys - (remaining + {name})) + {name};
    }
  }

  /** One step of a uniform loop: send the stored value of `name`, after the calls
      for the names already visited. */
  method SendUniform(gl: Context, shader: Shader, args: map<string, UniformArg>, name: string,
                     ghost order: seq<string>, ghost start: seq<Call>)
    requires shader.Valid()
    requires name in args && forall n | n in order :: n in args
    requires gl.trace == start + UniformCalls(shader.program, shader.activeUniforms, order, args)
    modifies gl, shader
    ensures shader.Valid()
    ensures shader.locationCache.Keys == old(shader.locationCache.Keys) + {name}
    ensures gl.trace == start + UniformCalls(shader.program, shader.activeUniforms, order + [name], args)
  {
    ghost var done := UniformCalls(shader.program, shader.activeUniforms, order, args);
    ghost var step := [Uniform(shader.program, name, GlLocation(shader.activeUniforms, name), args[name])];
    shader.SetUniform(gl, name, args[name]);
    AppendAssoc(start, done, step);
    assert (order + [name])[..|order|] == order;
  }

  class Material {
    /** m_shader; also what getShader returns. */
    const shader: Shader?
    /** m_uniformsFloat, m_uniformsInt, m_uniformsBool, m_uniformsVec3, m_uniformsVec4, m_uniformsMat4 */
    var floats: map<string, real>
    var ints: map<string, int>
    var bools: map<string, bool>
    var vec3s: map<string, Vec3>
    var vec4s: map<string, Vec4>
    var mat4s: map<string, Mat4>
    /** m_textures: an entry may hold null. */
    var textures: map<string, Texture?>

    constructor (shader: Shader?)
      ensures this.shader == shader
      ensures floats == map[] && ints == map[] && bools == map[]
      ensures vec3s == map[] && vec4s == map[] && mat4s == map[] && textures == map[]
    {
      this.shader := shader;
      floats, ints, bools := map[], map[], map[];
      vec3s, vec4s, mat4s := map[], map[], map[];
      textures := map[];
    }

    /** Material::getShader: the shader given to the constructor, which no operation
        replaces. */
    function GetShader(): (s: Shader?)
      ensures s == shader
    {
      shader
    }

    /** Material::bind. With no shader it does nothing. Otherwise it makes the shader
        current, sends the floats, ints, bools, vec3s, vec4s and mat4s (each map in
        its own visiting order), then binds the non-null textures to units 0, 1, ...
        in the visiting order of the texture map and sets each one's sampler to its unit. */
    method Bind(gl: Context)
      returns (ghost floatOrder: seq<string>, ghost intOrder: seq<string>, ghost boolOrder: seq<string>,
               ghost vec3Order: seq<string>, ghost vec4Order: seq<string>, ghost mat4Order: seq<string>,
               ghost textureOrder: seq<string>)
      requires shader != null ==> shader.Valid()
      modifies gl, shader
      ensures shader == null ==> gl.trace == old(gl.trace)
      ensures shader != null ==>
        && shader.Valid()
        && shader.locationCache.Keys == old(shader.locationCache.Keys) + floats.Keys + ints.Keys + bools.Keys
             + vec3s.Keys + vec4s.Keys + mat4s.Keys + TextureIds(textures).Keys
        && Enumerates(floatOrder, floats.Keys) && Enumerates(intOrder, ints.Keys)
        && Enumerates(boolOrder, bools.Keys) && Enumerates(vec3Order, vec3s.Keys)
        && Enumerates(vec4Order, vec4s.Keys) && Enumerates(mat4Order, mat4s.Keys)
        && Enumerates(textureOrder, textures.Keys)
        && Enumerates(Bound(textureOrder, TextureIds(textures)), TextureIds(textures).Keys)
        && gl.trace == old(gl.trace) + [UseProgram(shader.program)]
             + UniformCalls(shader.program, shader.activeUniforms, floatOrder, FloatArgs(floats))
             + UniformCalls(shader.program, shader.activeUniforms, intOrder, IntArgs(ints))
             + UniformCalls(shader.program, shader.activeUniforms, boolOrder, BoolArgs(bools))
             + UniformCalls(shader.program, shader.activeUniforms, vec3Order, Vec3Args(vec3s))
             + UniformCalls(shader.program, shader.activeUniforms, vec4Order, Vec4Args(vec4s))
             + UniformCalls(shader.program, shader.activeUniforms, mat4Order, Mat4Args(mat4s))
             + TextureCalls(shader.program, shader.activeUniforms, textureOrder, TextureIds(textures))
    {
      floatOrder, intOrder, boolOrder, vec3Order, vec4Order, mat4Order, textureOrder := [], [], [], [], [], [], [];
      if shader == null {
        return;
      }
      shader.UseShader(gl);
      floatOrder, intOrder, boolOrder := SendScalars(gl);
      vec3Order, vec4Order, mat4Order := SendVectors(gl);
      textureOrder := BindTextures(gl);
      BoundEnumeratesTextures(textureOrder, textures.Keys, TextureIds(textures));
    }

    /** The float, int and bool loops of Material::bind, one map after the other. */
    method SendScalars(gl: Context)
      returns (ghost floatOrder: seq<string>, ghost intOrder: seq<string>, ghost boolOrder: seq<string>)
      requires shader != null && shader.Valid()
      modifies gl, shader
      ensures shader.Valid()
      ensures shader.locationCache.Keys == old(shader.locationCache.Keys) + floats.Keys + ints.Keys + bools.Keys
      ensures Enumerates(floatOrder, floats.Keys) && Enumerates(intOrder, ints.Keys) && Enumerates(boolOrder, bools.Keys)
      ensures gl.trace == old(gl.trace)
        + UniformCalls(shader.program, shader.activeUniforms, floatOrder, FloatArgs(floats))
        + UniformCalls(shader.program, shader.activeUniforms, intOrder, IntArgs(ints))
        + UniformCalls(shader.program, shader.activeUniforms, boolOrder, BoolArgs(bools))
    {
      floatOrder := SendUniforms(gl, shader, FloatArgs(floats));
      intOrder := SendUniforms(gl, shader, IntArgs(ints));
      boolOrder := SendUniforms(gl, shader, BoolArgs(bools));
    }

    /** The vec3, vec4 and mat4 loops of Material::bind, one map after the other. */
    method SendVectors(gl: Context)
      returns (ghost vec3Order: seq<string>, ghost vec4Order: seq<string>, ghost mat4Order: seq<string>)
      requires shader != null && shader.Valid()
      modifies gl, shader
      ensures shader.Valid()
      ensures shader.locationCache.Keys == old(shader.locationCache.Keys) + vec3s.Keys + vec4s.Keys + mat4s.Keys
      ensures Enumerates(vec3Order, vec3s.Keys) && Enumerates(vec4Order, vec4s.Keys) && Enumerates(mat4Order, mat4s.Keys)
      ensures gl.trace == old(gl.trace)
        + UniformCalls(shader.program, shader.activeUniforms, vec3Order, Vec3Args(vec3s))
        + UniformCalls(shader.program, shader.activeUniforms, vec4Order, Vec4Args(vec4s))
        + UniformCalls(shader.program, shader.activeUniforms, mat4Order, Mat4Args(mat4s))
    {
      vec3Order := SendUniforms(gl, shader, Vec3Args(vec3s));
      vec4Order := SendUniforms(gl, shader, Vec4Args(vec4s));
      mat4Order := SendUniforms(gl, shader, Mat4Args(mat4s));
    }

    /** The texture loop of Material::bind: a slot counter that advances only past
        non-null textures. */
    method BindTextures(gl: Context) returns (ghost order: seq<string>)
      requires shader != null && shader.Valid()
      modifies gl, shader
      ensures shader.Valid()
      ensures shader.locationCache.Keys == old(shader.locationCache.Keys) + TextureIds(textures).Keys
      ensures Enumerates(order, textures.Keys)
      ensures gl.trace == old(gl.trace)
        + TextureCalls(shader.program, shader.activeUniforms, order, TextureIds(textures))
    {
      ghost var ids := TextureIds(textures);
      ghost var start := gl.trace;
      ghost var cached := shader.locationCache.Keys;
      ghost var visited: set<string> := {};
      order := [];
      var slot: nat := 0;
      var remaining := textures.Keys;
      while remaining != {}
        invariant shader.Valid()
        invariant ids == TextureIds(textures)
        invariant visited !! remaining && visited + remaining == textures.Keys
        invariant shader.locationCache.Keys == cached + ids.Keys * visited
        invariant Enumerates(order, visited)
        invariant slot == |Bound(order, ids)|
        invariant gl.trace == start + TextureCalls(shader.program, shader.activeUniforms, order, ids)
        decreases remaining
      {
        var name :| name in remaining;
        slot := BindNext(gl, name, slot, order, visited, ids, start, cached);
        order := order + [name];
        visited := visited + {name};
        remaining := remaining - {name};
      }
    }

    /** One step of the texture loop, after the names in `order` were visited: the
        slot stays the number of textures bound so far, the calls grow by this
        name's, and a non-null texture's sampler name joins the cache. */
    method BindNext(gl: Context, name: string, slot: nat, ghost order: seq<string>, ghost visited: set<string>,
                    ghost ids: map<string, nat>, ghost start: seq<Call>, ghost cached: set<string>)
      returns (next: nat)
      requires shader != null && shader.Valid()
      requires name in textures && name !in visited
      requires ids == TextureIds(textures)
      requires Enumerates(order, visited)
      requires slot == |Bound(order, ids)|
      requires shader.locationCache.Keys == cached + ids.Keys * visited
      requires gl.trace == start + TextureCalls(shader.program, shader.activeUniforms, order, ids)
      modifies gl, shader
      ensures shader.Valid() && ids == TextureIds(textures)
      ensures Enumerates(order + [name], visited + {name})
      ensures shader.locationCache.Keys == cached + ids.Keys * (visited + {name})
      ensures next == |Bound(order + [name], ids)|
      ensures gl.trace == start + TextureCalls(shader.program, shader.activeUniforms, order + [name], ids)
    {
      EnumeratesSnoc(order, visited, name);
      BoundSnoc(order, ids, name);
      TextureCallsSnoc(shader.program, shader.activeUniforms, order, ids, name);
      next := BindSlot(gl, name, slot);
      assert ids.Keys * (visited + {name}) == ids.Keys * visited + if name in ids then {name} else {};
    }

    /** One step of the texture loop: a non-null texture is bound to unit `slot` and
        its sampler set to `slot`, and the slot advances; a null one is skipped. */
    method BindSlot(gl: Context, name: string, slot: nat) returns (next: nat)
      requires shader != null && shader.Valid()
      requires name in textures
      modifies gl, shader
      ensures shader.Valid()
      ensures shader.locationCache.Keys == old(shader.locationCache.Keys) + if textures[name] != null then {name} else {}
      ensures textures[name] == null ==> next == slot && gl.trace == old(gl.trace)
      ensures textures[name] != null ==>
        && next == slot + 1
        && gl.trace == old(gl.trace) + UnitCalls(shader.program, shader.activeUniforms, name, slot, textures[name].id)
    {
      var texture := textures[name];
      next := slot;
      if texture != null {
        texture.Bind(gl, slot);
        shader.SetUniform(gl, name, Uniform1i(slot));
        next := slot + 1;
      }
    }

    /** Material::unbind issues no GL call. */
    method Unbind(gl: Context)
      ensures gl.trace == old(gl.trace)
    {
    }

    method SetFloat(name: string, value: real)
      modifies this
      ensures floats == old(floats)[name := value]
      ensures ints == old(ints) && bools == old(bools) && vec3s == old(vec3s) && vec4s == old(vec4s)
      ensures mat4s == old(mat4s) && textures == old(textures)
    {
      floats := floats[name := value];
    }

    method SetInt(name: string, value: int)
      modifies this
      ensures ints == old(ints)[name := value]
      ensures floats == old(floats) && bools == old(bools) && vec3s == old(vec3s) && vec4s == old(vec4s)
      ensures mat4s == old(mat4s) && textures == old(textures)
    {
      ints := ints[name := value];
    }

    method SetBool(name: string, value: bool)
      modifies this
      ensures bools == old(bools)[name := value]
      ensures floats == old(floats) && ints == old(ints) && vec3s == old(vec3s) && vec4s == old(vec4s)
      ensures mat4s == old(mat4s) && textures == old(textures)
    {
      bools := bools[name := value];
    }

    method SetVec3(name: string, value: Vec3)
      modifies this
      ensures vec3s == old(vec3s)[name := value]
      ensures floats == old(floats) && ints == old(ints) && bools == old(bools) && vec4s == old(vec4s)
      ensures mat4s == old(mat4s) && textures == old(textures)
    {
      vec3s := vec3s[name := value];
    }

    method SetVec4(name: string, value: Vec4)
      modifies this
      ensures vec4s == old(vec4s)[name := value]
      ensures floats == old(floats) && ints == old(ints) && bools == old(bools) && vec3s == old(vec3s)
      ensures mat4s == old(mat4s) && textures == old(textures)
    {
      vec4s := vec4s[name := value];
    }

    method SetMat4(name: string, value: Mat4)
      modifies this
      ensures mat4s == old(mat4s)[name := value]
      ensures floats == old(floats) && ints == old(ints) && bools == old(bools) && vec3s == old(vec3s)
      ensures vec4s == old(vec4s) && textures == old(textures)
    {
      mat4s := mat4s[name := value];
    }

    /** Store a texture (possibly null) under a sampler name, replacing any earlier one. */
    method SetTexture(name: string, texture: Texture?)
      modifies this
      ensures textures == old(textures)[name := texture]
      ensures floats == old(floats) && ints == old(ints) && bools == old(bools) && vec3s == old(vec3s)
      ensures vec4s == old(vec4s) && mat4s == old(mat4s)
    {
      textures := textures[name := texture];
    }
  }
}
