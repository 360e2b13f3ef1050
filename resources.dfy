/** The resource cache (ResourceManager): textures keyed by file path and shaders
    keyed by name, each loaded at most once while it stays in the cache. The
    source keeps both maps in static members; here one ResourceManager object
    stands for that static state. */
module Resources {
  import opened Gl
  import opened Wrappers
  import opened Textures
  import opened Shaders

  class ResourceManager {
    /** s_shaders */
    var shaders: map<string, Shader>
    /** s_textures */
    var textures: map<string, Texture>

    /** Every cached texture was loaded from the path it is cached under. */
    ghost predicate Valid()
      reads this, textures.Values
    {
      forall p :: p in textures ==> textures[p].path == p
    }

    constructor ()
      ensures Valid()
      ensures shaders == map[] && textures == map[]
    {
      shaders := map[];
      textures := map[];
    }

    /** ResourceManager::loadTexture: a cached path gives back the cached texture,
        whatever type is asked for; otherwise the texture is constructed (generating
        GL name `name`, with `image` as stbi_load's outcome), given the type, cached
        and returned. A constructor that throws leaves the cache as it was. */
    method LoadTexture(gl: Context, path: string, image: Image, name: nat, typeName: TextureType := Diffuse)
      returns (r: Result<Texture, TextureError>)
      requires Valid()
      modifies this, gl
      ensures Valid()
      ensures shaders == old(shaders)
      ensures path in old(textures) ==>
        && r == Ok(old(textures)[path])
        && textures == old(textures)
        && gl.trace == old(gl.trace)
      ensures path !in old(textures) ==>
        && (r.Err? <==> LoadOutcome(image).Err?)
        && (r.Err? ==> r.error == LoadOutcome(image).error && textures == old(textures))
        && (r.Ok? ==>
              && fresh(r.value)
              && textures == old(textures)[path := r.value]
              && r.value.id == name && r.value.path == path && r.value.textureType == typeName)
        && gl.trace == old(gl.trace) + [GenTexture(name), BindTexture2D(name), TexParameters(name)]
             + (if LoadOutcome(image).Ok?
                then [TexImage2D(LoadOutcome(image).value, image.width, image.height), GenerateMipmap]
                else [])
    {
      if path in textures {
        return Ok(textures[path]);
      }
      r := Texture.Load(gl, path, image, name);
      if r.Ok? {
        r.value.SetType(typeName);
        textures := textures[path := r.value];
      }
    }

    /** ResourceManager::getTexture: the cached texture, or null. */
    function GetTexture(path: string): (t: Texture?)
      reads this
      ensures t != null <==> path in textures
      ensures t != null ==> t == textures[path]
    {
      if path in textures then textures[path] else null
    }

    /** ResourceManager::loadShader: a cached name gives back the cached shader, whatever
        paths are passed; otherwise the shader is built from the two files (the
        toolchain `tc` answers for the file system and the GL compiler), cached under
        `name` and returned. A build that throws leaves the cache as it was. */
    method LoadShader(gl: Context, name: string, vertexPath: string, fragmentPath: string, tc: Toolchain)
      returns (r: Result<Shader, ShaderError>)
      modifies this, gl
      ensures textures == old(textures)
      ensures name in old(shaders) ==>
        && r == Ok(old(shaders)[name])
        && shaders == old(shaders)
        && gl.trace == old(gl.trace)
      ensures name !in old(shaders) ==>
        && (r.Err? <==> BuildFailure(tc, vertexPath, fragmentPath).Some?)
        && (r.Err? ==> r.error == BuildFailure(tc, vertexPath, fragmentPath).value && shaders == old(shaders))
        && (r.Ok? ==>
              && fresh(r.value) && r.value.Valid()
              && shaders == old(shaders)[name := r.value]
              && r.value.program == tc.program && r.value.activeUniforms == tc.activeUniforms)
        && gl.trace == old(gl.trace) + BuildCalls(tc, vertexPath, fragmentPath)
    {
      if name in shaders {
        return Ok(shaders[name]);
      }
      r := Shader.Build(gl, vertexPath, fragmentPath, tc);
      if r.Ok? {
        shaders := shaders[name := r.value];
      }
    }

    /** ResourceManager::getShader: the cached shader, or null. */
    function GetShader(name: string): (s: Shader?)
      reads this
      ensures s != null <==> name in shaders
      ensures s != null ==> s == shaders[name]
    {
      if name in shaders then shaders[name] else null
    }

    /** ResourceManager::clear: forget every cached shader and texture. */
    method Clear()
      modifies this
      ensures Valid()
      ensures shaders == map[] && textures == map[]
    {
      shaders := map[];
      textures := map[];
    }
  }

  /** Loading the same path twice hands back the same texture object, with one GL
      upload between them, and a later lookup finds it. */
  method SharedTextureScenario(gl: Context, image: Image)
    requires image.loaded && image.channels == 3
    modifies gl
  {
    var cache := new ResourceManager();
    var first := cache.LoadTexture(gl, "albedo.png", image, 7);
    var traceAfterFirst := gl.trace;
    var second := cache.LoadTexture(gl, "albedo.png", image, 8, Specular);
    assert first.Ok? && second == first;
    assert gl.trace == traceAfterFirst;
    assert first.value.textureType == Diffuse && first.value.id == 7;
    assert cache.GetTexture("albedo.png") == first.value;
    cache.Clear();
    assert cache.GetTexture("albedo.png") == null;
  }
}
