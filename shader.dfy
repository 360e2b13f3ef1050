/** A linked GL program (Shader): how the constructor builds it and gives up at the
    first failing step, and the lazily filled uniform-location cache through which
    every uniform upload resolves its location. */
module Shaders {
  import opened Gl
  import opened Wrappers
  import opened Seqs

  /** The runtime_error messages the constructor throws, in the order of its checks. */
  datatype ShaderError =
    | FailedToOpenVertexShaderSource
    | FailedToOpenFragmentShaderSource
    | FailedToCompileVertexShader
    | FailedToCompileFragmentShader
    | FailedToLinkProgram

  /** What the file system and the GL driver answer while a program is built. */
  datatype Toolchain = Toolchain(
    readable: set<string>,               // paths an ifstream can open
    vertexCompiles: bool,                // GL_COMPILE_STATUS of the vertex stage
    fragmentCompiles: bool,              // GL_COMPILE_STATUS of the fragment stage
    links: bool,                         // GL_LINK_STATUS of the program
    program: nat,                        // the name glCreateProgram returns
    cameraBlock: Option<nat>,            // index of the "CameraData" block; None is GL_INVALID_INDEX
    activeUniforms: map<string, nat>)    // what glGetUniformLocation reports for the linked program

  /** The binding point the camera uniform block is attached to. */
  const CAMERA_DATA_BINDING: nat := 0

  /** The location GL reports for a uniform name: -1 when the program has no such uniform. */
  function GlLocation(activeUniforms: map<string, nat>, name: string): int
  {
    if name in activeUniforms then activeUniforms[name] else -1
  }

  /** Whether the check that raises `e` passes. */
  predicate StepPasses(tc: Toolchain, vertexPath: string, fragmentPath: string, e: ShaderError)
  {
    match e
    case FailedToOpenVertexShaderSource => vertexPath in tc.readable
    case FailedToOpenFragmentShaderSource => fragmentPath in tc.readable
    case FailedToCompileVertexShader => tc.vertexCompiles
    case FailedToCompileFragmentShader => tc.fragmentCompiles
    case FailedToLinkProgram => tc.links
  }

  /** Where a check stands in the constructor: open, open, compile, compile, link. */
  function StepIndex(e: ShaderError): nat
  {
    match e
    case FailedToOpenVertexShaderSource => 0
    case FailedToOpenFragmentShaderSource => 1
    case FailedToCompileVertexShader => 2
    case FailedToCompileFragmentShader => 3
    case FailedToLinkProgram => 4
  }

  /** The error the constructor throws, if any. */
  function BuildFailure(tc: Toolchain, vertexPath: string, fragmentPath: string): Option<ShaderError>
  {
    if vertexPath !in tc.readable then Some(FailedToOpenVertexShaderSource)
    else if fragmentPath !in tc.readable then Some(FailedToOpenFragmentShaderSource)
    else if !tc.vertexCompiles then Some(FailedToCompileVertexShader)
    else if !tc.fragmentCompiles then Some(FailedToCompileFragmentShader)
    else if !tc.links then Some(FailedToLinkProgram)
    else None
  }

  /** The constructor succeeds exactly when every check passes, and otherwise throws
      the error of the earliest check that fails. */
  lemma BuildFailsAtFirstFailingStep(tc: Toolchain, vertexPath: string, fragmentPath: string)
    ensures BuildFailure(tc, vertexPath, fragmentPath) == None
        <==> forall e :: StepPasses(tc, vertexPath, fragmentPath, e)
    ensures forall e :: (BuildFailure(tc, vertexPath, fragmentPath) == Some(e)
        <==> (!StepPasses(tc, vertexPath, fragmentPath, e)
              && forall e' :: StepIndex(e') < StepIndex(e) ==> StepPasses(tc, vertexPath, fragmentPath, e')))
  {
    if BuildFailure(tc, vertexPath, fragmentPath) == None {
      forall e ensures StepPasses(tc, vertexPath, fragmentPath, e) {
        match e
        case FailedToOpenVertexShaderSource =>
        case FailedToOpenFragmentShaderSource =>
        case FailedToCompileVertexShader =>
        case FailedToCompileFragmentShader =>
        case FailedToLinkProgram =>
      }
    }
    forall e ensures BuildFailure(tc, vertexPath, fragmentPath) == Some(e)
        <==> (!StepPasses(tc, vertexPath, fragmentPath, e)
              && forall e' :: StepIndex(e') < StepIndex(e) ==> StepPasses(tc, vertexPath, fragmentPath, e'))
    {
      forall e' | StepIndex(e') < StepIndex(e) && BuildFailure(tc, vertexPath, fragmentPath) == Some(e)
        ensures StepPasses(tc, vertexPath, fragmentPath, e')
      {
        match e'
        case FailedToOpenVertexShaderSource =>
        case FailedToOpenFragmentShaderSource =>
        case FailedToCompileVertexShader =>
        case FailedToCompileFragmentShader =>
        case FailedToLinkProgram =>
      }
      if !StepPasses(tc, vertexPath, fragmentPath, e)
        && forall e' :: StepIndex(e') < StepIndex(e) ==> StepPasses(tc, vertexPath, fragmentPath, e')
      {
        assert StepIndex(FailedToOpenVertexShaderSource) == 0;
        assert StepIndex(FailedToOpenFragmentShaderSource) == 1;
        assert StepIndex(FailedToCompileVertexShader) == 2;
        assert StepIndex(FailedToCompileFragmentShader) == 3;
      }
    }
  }

  /** The GL calls the constructor issues before it returns or throws. */
  function BuildCalls(tc: Toolchain, vertexPath: string, fragmentPath: string): seq<Call>
  {
    if vertexPath !in tc.readable || fragmentPath !in tc.readable then []
    else if !tc.vertexCompiles then [CompileShader(VertexStage)]
    else if !tc.fragmentCompiles then [CompileShader(VertexStage), CompileShader(FragmentStage)]
    else if !tc.links then [CompileShader(VertexStage), CompileShader(FragmentStage), LinkProgram(tc.program)]
    else
      [CompileShader(VertexStage), CompileShader(FragmentStage), LinkProgram(tc.program)]
      + (match tc.cameraBlock
         case Some(index) => [UniformBlockBinding(tc.program, index, CAMERA_DATA_BINDING)]
         case None => [])
      + [DeleteShader(VertexStage), DeleteShader(FragmentStage)]
  }

  /** The camera block is attached to binding point 0 exactly when the build succeeds
      and the program declares the block; nothing else is ever bound. */
  lemma CameraBlockBoundOnlyWhenDeclared(tc: Toolchain, vertexPath: string, fragmentPath: string)
    ensures forall c :: c in BuildCalls(tc, vertexPath, fragmentPath) && c.UniformBlockBinding? ==>
      && BuildFailure(tc, vertexPath, fragmentPath) == None
      && c == UniformBlockBinding(tc.program, tc.cameraBlock.value, CAMERA_DATA_BINDING)
    ensures BuildFailure(tc, vertexPath, fragmentPath) == None && tc.cameraBlock.Some? ==>
      UniformBlockBinding(tc.program, tc.cameraBlock.value, CAMERA_DATA_BINDING) in BuildCalls(tc, vertexPath, fragmentPath)
  {
  }

  /** The names, in query order, whose lookup GL answered with -1. */
  function Missing(activeUniforms: map<string, nat>, queried: seq<string>): seq<string>
    decreases |queried|
  {
    if queried == [] then []
    else
      var last := queried[|queried| - 1];
      Missing(activeUniforms, queried[..|queried| - 1]) + if last in activeUniforms then [] else [last]
  }

  /** Every name GL was asked about at most once is warned about at most once, and a
      name is warned about exactly when it was asked about and the program lacks it. */
  lemma {:induction false} MissingWarnsOnce(activeUniforms: map<string, nat>, queried: seq<string>)
    requires NoDuplicates(queried)
    ensures NoDuplicates(Missing(activeUniforms, queried))
    ensures forall n :: n in Missing(activeUniforms, queried) <==> n in queried && n !in activeUniforms
    decreases |queried|
  {
    if queried != [] {
      var init := queried[..|queried| - 1];
      var last := queried[|queried| - 1];
      assert NoDuplicates(init);
      MissingWarnsOnce(activeUniforms, init);
      forall i | 0 <= i < |init| ensures init[i] != last {
        assert init[i] == queried[i];
      }
      forall n ensures n in queried <==> n in init || n == last {
        assert queried == init + [last];
      }
    }
  }

  /** The wire form of a bool uniform: setUniformBool sends glUniform1i((int)value). */
  function BoolArg(b: bool): (arg: UniformArg)
    ensures arg.Uniform1i? && (arg.i == 1 <==> b) && (arg.i == 0 <==> !b)
  {
    Uniform1i(if b then 1 else 0)
  }

  class Shader {
    /** m_programID */
    const program: nat
    /** What glGetUniformLocation answers for this program. */
    const activeUniforms: map<string, nat>
    /** m_uniformLocationCache */
    var locationCache: map<string, int>
    /** Every name GL was asked for a location, in order. */
    ghost var queries: seq<string>
    /** Every "Uniform ... doesn't exist" warning written to stderr, in order. */
    ghost var warnings: seq<string>

    /** The cache agrees with GL; GL was asked once for each cached name and for
        nothing else; the warnings are exactly the names GL answered with -1. */
    ghost predicate Valid()
      reads this
    {
      && (forall n :: n in locationCache ==> locationCache[n] == GlLocation(activeUniforms, n))
      && Enumerates(queries, locationCache.Keys)
      && warnings == Missing(activeUniforms, queries)
    }

    /** A freshly linked program with an empty cache. */
    constructor Linked(program: nat, activeUniforms: map<string, nat>)
      ensures Valid()
      ensures this.program == program && this.activeUniforms == activeUniforms
      ensures locationCache == map[] && queries == [] && warnings == []
    {
      this.program := program;
      this.activeUniforms := activeUniforms;
      locationCache := map[];
      queries := [];
      warnings := [];
    }

    /** Shader::Shader: open both sources, compile each stage, link, then attach the
        camera block (when declared) to binding point 0. Throws at the first failure. */
    static method Build(gl: Context, vertexPath: string, fragmentPath: string, tc: Toolchain)
      returns (r: Result<Shader, ShaderError>)
      modifies gl
      ensures BuildFailure(tc, vertexPath, fragmentPath).Some? ==>
        r == Err(BuildFailure(tc, vertexPath, fragmentPath).value)
      ensures BuildFailure(tc, vertexPath, fragmentPath).None? ==>
        && r.Ok? && fresh(r.value) && r.value.Valid()
        && r.value.program == tc.program && r.value.activeUniforms == tc.activeUniforms
        && r.value.locationCache == map[] && r.value.warnings == []
      ensures gl.trace == old(gl.trace) + BuildCalls(tc, vertexPath, fragmentPath)
    {
      if vertexPath !in tc.readable {
        return Err(FailedToOpenVertexShaderSource);
      }
      if fragmentPath !in tc.readable {
        return Err(FailedToOpenFragmentShaderSource);
      }
      gl.Issue(CompileShader(VertexStage));
      if !tc.vertexCompiles {
        return Err(FailedToCompileVertexShader);
      }
      gl.Issue(CompileShader(FragmentStage));
      if !tc.fragmentCompiles {
        return Err(FailedToCompileFragmentShader);
      }
      gl.Issue(LinkProgram(tc.program));
      if !tc.links {
        return Err(FailedToLinkProgram);
      }
      if tc.cameraBlock.Some? {
        gl.Issue(UniformBlockBinding(tc.program, tc.cameraBlock.value, CAMERA_DATA_BINDING));
      }
      gl.Issue(DeleteShader(VertexStage));
      gl.Issue(DeleteShader(FragmentStage));
      var shader := new Shader.Linked(tc.program, tc.activeUniforms);
      r := Ok(shader);
    }

    /** Make this program current. */
    method UseShader(gl: Context)
      modifies gl
      ensures gl.trace == old(gl.trace) + [UseProgram(program)]
    {
      gl.Issue(UseProgram(program));
    }

    /** The effect of resolving `name`: a cached name changes nothing; otherwise GL is
        asked once, its answer (even -1) is cached, and a -1 answer is warned about. */
    twostate predicate Resolved(name: string)
      reads this
    {
      if name in old(locationCache) then
        && locationCache == old(locationCache)
        && queries == old(queries) && warnings == old(warnings)
      else
        && locationCache == old(locationCache)[name := GlLocation(activeUniforms, name)]
        && queries == old(queries) + [name]
        && warnings == old(warnings) + if name in activeUniforms then [] else [name]
    }

    /** getUniformLocation: the location GL reports for `name`, asked at most once per name. */
    method GetUniformLocation(name: string) returns (location: int)
      requires Valid()
      modifies this
      ensures Valid() && Resolved(name)
      ensures location == GlLocation(activeUniforms, name)
      ensures forall n :: n in old(locationCache) ==> n in locationCache && locationCache[n] == old(locationCache)[n]
    {
      if name in locationCache {
        return locationCache[name];
      }
      location := GlLocation(activeUniforms, name);
      queries := queries + [name];
      if location == -1 {
        warnings := warnings + [name];
      }
      locationCache := locationCache[name := location];
      assert queries[..|queries| - 1] == old(queries);
      forall n | n in locationCache ensures n in set i | 0 <= i < |queries| :: queries[i] {
        if n != name {
          var i :| 0 <= i < |old(queries)| && old(queries)[i] == n;
          assert queries[i] == n;
        } else {
          assert queries[|queries| - 1] == n;
        }
      }
    }

    /** Resolve `name` and upload one value to it. */
    method SetUniform(gl: Context, name: string, arg: UniformArg)
      requires Valid()
      modifies this, gl
      ensures Valid() && Resolved(name)
      ensures gl.trace == old(gl.trace) + [Uniform(program, name, GlLocation(activeUniforms, name), arg)]
    {
      var location := GetUniformLocation(name);
      gl.Issue(Uniform(program, name, location, arg));
    }

    method SetUniformFloat(gl: Context, name: string, value: real)
      requires Valid()
      modifies this, gl
      ensures Valid() && Resolved(name)
      ensures gl.trace == old(gl.trace) + [Uniform(program, name, GlLocation(activeUniforms, name), Uniform1f(value))]
    {
      SetUniform(gl, name, Uniform1f(value));
    }

    method SetUniformInt(gl: Context, name: string, value: int)
      requires Valid()
      modifies this, gl
      ensures Valid() && Resolved(name)
      ensures gl.trace == old(gl.trace) + [Uniform(program, name, GlLocation(activeUniforms, name), Uniform1i(value))]
    {
      SetUniform(gl, name, Uniform1i(value));
    }

    method SetUniformBool(gl: Context, name: string, value: bool)
      requires Valid()
      modifies this, gl
      ensures Valid() && Resolved(name)
      ensures gl.trace == old(gl.trace) + [Uniform(program, name, GlLocation(activeUniforms, name), BoolArg(value))]
    {
      SetUniform(gl, name, BoolArg(value));
    }

    method SetUniformVec3(gl: Context, name: string, value: Vec3)
      requires Valid()
      modifies this, gl
      ensures Valid() && Resolved(name)
      ensures gl.trace == old(gl.trace) + [Uniform(program, name, GlLocation(activeUniforms, name), Uniform3fv(value))]
    {
      SetUniform(gl, name, Uniform3fv(value));
    }

    method SetUniformVec4(gl: Context, name: string, value: Vec4)
      requires Valid()
      modifies this, gl
      ensures Valid() && Resolved(name)
      ensures gl.trace == old(gl.trace) + [Uniform(program, name, GlLocation(activeUniforms, name), Uniform4fv(value))]
    {
      SetUniform(gl, name, Uniform4fv(value));
    }

    method SetUniformMat4(gl: Context, name: string, value: Mat4)
      requires Valid()
      modifies this, gl
      ensures Valid() && Resolved(name)
      ensures gl.trace == old(gl.trace) + [Uniform(program, name, GlLocation(activeUniforms, name), UniformMatrix4fv(value))]
    {
      SetUniform(gl, name, UniformMatrix4fv(value));
    }
  }

  /** The warning for a missing uniform appears at most once per name, however often
      the name is set. */
  lemma WarnedAtMostOnce(s: Shader)
    requires s.Valid()
    ensures NoDuplicates(s.warnings)
    ensures forall n :: n in s.warnings <==> n in s.locationCache && s.locationCache[n] == -1
  {
    MissingWarnsOnce(s.activeUniforms, s.queries);
    forall n ensures n in s.queries <==> n in s.locationCache {
      if n in s.queries {
        var i :| 0 <= i < |s.queries| && s.queries[i] == n;
        assert n in set i | 0 <= i < |s.queries| :: s.queries[i];
      }
    }
  }
}
