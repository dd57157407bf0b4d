/**
  GLCommander: the thin command layer between the application and its WebGL
  context. It builds shader programs (compile, compile, link, validate, with
  the sentinel -1 at the first failing stage), creates buffers, lays out
  vertex attributes, uploads uniforms through a location cache, and draws.
*/
module GLC {

  import opened Wrappers
  import opened WebGL

  /** The sentinel createShaderProgram and setAttribLayout return on failure. */
  const FAILURE: int := -1

  /** The canvas element: only its size is modelled. */
  class Canvas {
    var width: int
    var height: int

    constructor (width: int, height: int)
      ensures this.width == width && this.height == height
    {
      this.width := width;
      this.height := height;
    }
  }

  /**
    The key object `{ program, name }` of the location cache. setUniform
    builds a new one on every call, and a Map compares object keys by
    identity, so every key is a distinct object here too.
  */
  class UniformKey {
    const program: Handle
    const name: string

    constructor (program: Handle, name: string)
      ensures this.program == program && this.name == name
    {
      this.program := program;
      this.name := name;
    }
  }

  // ---------------------------------------------------------------------------
  // What createShaderProgram does, as a function of the driver's verdicts
  // ---------------------------------------------------------------------------

  datatype Stage = VertexCompile | FragmentCompile | Link | Validate

  /** The shaders a program holds once both stages compiled, in attachment order. */
  function Attached(vertexSource: string, fragmentSource: string): seq<Shader>
  {
    [Shader(VERTEX_SHADER, vertexSource, true), Shader(FRAGMENT_SHADER, fragmentSource, true)]
  }

  /** The first of the four checks that fails, or None when the program builds. */
  function FirstFailure(driver: Driver, vertexSource: string, fragmentSource: string): (failure: Option<Stage>)
    ensures failure == None <==>
      && driver.compiles(VERTEX_SHADER, vertexSource)
      && driver.compiles(FRAGMENT_SHADER, fragmentSource)
      && driver.links(Attached(vertexSource, fragmentSource))
      && driver.validates(Attached(vertexSource, fragmentSource))
    ensures failure == Some(FragmentCompile) ==> driver.compiles(VERTEX_SHADER, vertexSource)
    ensures failure == Some(Link) ==>
      driver.compiles(VERTEX_SHADER, vertexSource) && driver.compiles(FRAGMENT_SHADER, fragmentSource)
    ensures failure == Some(Validate) ==>
      && driver.compiles(VERTEX_SHADER, vertexSource) && driver.compiles(FRAGMENT_SHADER, fragmentSource)
      && driver.links(Attached(vertexSource, fragmentSource))
  {
    if !driver.compiles(VERTEX_SHADER, vertexSource) then Some(VertexCompile)
    else if !driver.compiles(FRAGMENT_SHADER, fragmentSource) then Some(FragmentCompile)
    else if !driver.links(Attached(vertexSource, fragmentSource)) then Some(Link)
    else if !driver.validates(Attached(vertexSource, fragmentSource)) then Some(Validate)
    else None
  }

  /** Compiling one shader and reading its status; the info log is read when it failed. */
  function CompileCalls(shader: Handle, ok: bool): seq<Call>
  {
    [Call.CompileShader(shader), Call.GetShaderParameter(shader, COMPILE_STATUS)] +
    (if ok then [] else [Call.GetShaderInfoLog(shader)])
  }

  /** Creating, assembling and linking the program and reading its link status. */
  function LinkCalls(program: Handle, vs: Handle, fs: Handle, ok: bool): seq<Call>
  {
    [Call.CreateProgram(program), Call.AttachShader(program, vs), Call.AttachShader(program, fs),
     Call.LinkProgram(program), Call.GetProgramParameter(program, LINK_STATUS)] +
    (if ok then [] else [Call.GetProgramInfoLog(program)])
  }

  /** Validating the program and reading its validate status. */
  function ValidateCalls(program: Handle, ok: bool): seq<Call>
  {
    [Call.ValidateProgram(program), Call.GetProgramParameter(program, VALIDATE_STATUS)] +
    (if ok then [] else [Call.GetProgramInfoLog(program)])
  }

  /** Creating both shaders and handing them their sources. */
  function SetupCalls(first: Handle, vertexSource: string, fragmentSource: string): seq<Call>
  {
    [Call.CreateShader(VERTEX_SHADER, first), Call.CreateShader(FRAGMENT_SHADER, first + 1),
     Call.ShaderSource(first, vertexSource), Call.ShaderSource(first + 1, fragmentSource)]
  }

  /**
    The calls createShaderProgram issues, stage by stage, stopping after the
    first failing check. The vertex shader, fragment shader and program get
    the handles first, first + 1 and first + 2.
  */
  function ProgramBuildCalls(driver: Driver, vertexSource: string, fragmentSource: string, first: Handle): (calls: seq<Call>)
    ensures |calls| == match FirstFailure(driver, vertexSource, fragmentSource)
      case Some(VertexCompile) => 7
      case Some(FragmentCompile) => 9
      case Some(Link) => 14
      case Some(Validate) => 16
      case None => 15
    ensures var last := calls[|calls| - 1];
      FirstFailure(driver, vertexSource, fragmentSource) != None <==> last.GetShaderInfoLog? || last.GetProgramInfoLog?
  {
    SetupCalls(first, vertexSource, fragmentSource) + StageCalls(driver, vertexSource, fragmentSource, first)
  }

  /** The checked stages of a build, after its shaders were created and given their sources. */
  function StageCalls(driver: Driver, vertexSource: string, fragmentSource: string, first: Handle): seq<Call>
  {
    var vs, fs, program := first, first + 1, first + 2;
    var vertexOk := driver.compiles(VERTEX_SHADER, vertexSource);
    var fragmentOk := driver.compiles(FRAGMENT_SHADER, fragmentSource);
    var linked := driver.links(Attached(vertexSource, fragmentSource));
    var validated := driver.validates(Attached(vertexSource, fragmentSource));
    CompileCalls(vs, vertexOk) +
    if !vertexOk then [] else
    CompileCalls(fs, fragmentOk) +
    if !fragmentOk then [] else
    LinkCalls(program, vs, fs, linked) +
    if !linked then [] else
    ValidateCalls(program, validated)
  }

  /*
    The four ways the checked stages end: the calls StageCalls appends are
    the stages that ran, in order. Each is stated after an arbitrary log
    `prefix`, in the left-nested shape BuildStages builds its log in, so
    that proof needs no reasoning about regrouping concatenations.
  */

  /** The stages stop right after the vertex shader failed to compile. */
  lemma StagesStopAtVertexCompile(driver: Driver, vertexSource: string, fragmentSource: string, first: Handle, prefix: seq<Call>)
    requires !driver.compiles(VERTEX_SHADER, vertexSource)
    ensures prefix + StageCalls(driver, vertexSource, fragmentSource, first) == prefix + CompileCalls(first, false)
  {
    assert CompileCalls(first, false) + [] == CompileCalls(first, false);
  }

  /** The stages stop right after the fragment shader failed to compile. */
  lemma StagesStopAtFragmentCompile(driver: Driver, vertexSource: string, fragmentSource: string, first: Handle, prefix: seq<Call>)
    requires driver.compiles(VERTEX_SHADER, vertexSource)
    requires !driver.compiles(FRAGMENT_SHADER, fragmentSource)
    ensures prefix + StageCalls(driver, vertexSource, fragmentSource, first) ==
      prefix + CompileCalls(first, true) + CompileCalls(first + 1, false)
  {
    var c1, c2 := CompileCalls(first, true), CompileCalls(first + 1, false);
    assert prefix + (c1 + (c2 + [])) == prefix + c1 + c2;
  }

  /** The stages stop right after the program failed to link. */
  lemma StagesStopAtLink(driver: Driver, vertexSource: string, fragmentSource: string, first: Handle, prefix: seq<Call>)
    requires driver.compiles(VERTEX_SHADER, vertexSource)
    requires driver.compiles(FRAGMENT_SHADER, fragmentSource)
    requires !driver.links(Attached(vertexSource, fragmentSource))
    ensures prefix + StageCalls(driver, vertexSource, fragmentSource, first) ==
      prefix + CompileCalls(first, true) + CompileCalls(first + 1, true) + LinkCalls(first + 2, first, first + 1, false)
  {
    var c1, c2 := CompileCalls(first, true), CompileCalls(first + 1, true);
    var l := LinkCalls(first + 2, first, first + 1, false);
    assert prefix + (c1 + (c2 + (l + []))) == prefix + c1 + c2 + l;
  }

  /** Once the program links, the stages run to the validate stage whatever its verdict. */
  lemma StagesReachValidate(driver: Driver, vertexSource: string, fragmentSource: string, first: Handle, prefix: seq<Call>)
    requires driver.compiles(VERTEX_SHADER, vertexSource)
    requires driver.compiles(FRAGMENT_SHADER, fragmentSource)
    requires driver.links(Attached(vertexSource, fragmentSource))
    ensures prefix + StageCalls(driver, vertexSource, fragmentSource, first) ==
      prefix + CompileCalls(first, true) + CompileCalls(first + 1, true) + LinkCalls(first + 2, first, first + 1, true) +
      ValidateCalls(first + 2, driver.validates(Attached(vertexSource, fragmentSource)))
  {
    var c1, c2 := CompileCalls(first, true), CompileCalls(first + 1, true);
    var l := LinkCalls(first + 2, first, first + 1, true);
    var v := ValidateCalls(first + 2, driver.validates(Attached(vertexSource, fragmentSource)));
    assert prefix + (c1 + (c2 + (l + v))) == prefix + c1 + c2 + l + v;
  }

  /** `a` is issued at some point before `b`. */
  predicate Precedes(calls: seq<Call>, a: Call, b: Call)
  {
    exists i, j :: 0 <= i < j < |calls| && calls[i] == a && calls[j] == b
  }

  /**
    Each stage runs only when every earlier check passed: the fragment shader
    is compiled only after the vertex shader compiled, a program is created
    and linked only after both compiled, and it is validated only after it
    linked.
  */
  lemma StagesStopAtFirstFailure(driver: Driver, vertexSource: string, fragmentSource: string, first: Handle)
    ensures var calls := ProgramBuildCalls(driver, vertexSource, fragmentSource, first);
      var vertexOk := driver.compiles(VERTEX_SHADER, vertexSource);
      var fragmentOk := driver.compiles(FRAGMENT_SHADER, fragmentSource);
      && (Call.CompileShader(first + 1) in calls <==> vertexOk)
      && ((exists c :: c in calls && c.CreateProgram?) <==> vertexOk && fragmentOk)
      && ((exists c :: c in calls && c.LinkProgram?) <==> vertexOk && fragmentOk)
      && ((exists c :: c in calls && c.ValidateProgram?) <==>
            vertexOk && fragmentOk && driver.links(Attached(vertexSource, fragmentSource)))
  {
    var failure := FirstFailure(driver, vertexSource, fragmentSource);
    var calls := ProgramBuildCalls(driver, vertexSource, fragmentSource, first);
    var vs, fs, program := first, first + 1, first + 2;
    match failure
    case None =>
      assert calls[6] == Call.CompileShader(fs) && calls[8].CreateProgram?;
      assert calls[11].LinkProgram? && calls[13].ValidateProgram?;
    case Some(VertexCompile) =>
      assert calls == [
        Call.CreateShader(VERTEX_SHADER, vs), Call.CreateShader(FRAGMENT_SHADER, fs),
        Call.ShaderSource(vs, vertexSource), Call.ShaderSource(fs, fragmentSource),
        Call.CompileShader(vs), Call.GetShaderParameter(vs, COMPILE_STATUS), Call.GetShaderInfoLog(vs)];
    case Some(FragmentCompile) =>
      assert calls[6] == Call.CompileShader(fs);
    case Some(Link) =>
      assert calls[6] == Call.CompileShader(fs) && calls[8].CreateProgram? && calls[11].LinkProgram?;
    case Some(Validate) =>
      assert calls[6] == Call.CompileShader(fs) && calls[8].CreateProgram?;
      assert calls[11].LinkProgram? && calls[13].ValidateProgram?;
  }

  /**
    On success the stages ran in order, both shaders were attached before the
    program was linked, and the last call read the validate status.
  */
  lemma SuccessfulBuildOrder(driver: Driver, vertexSource: string, fragmentSource: string, first: Handle)
    requires FirstFailure(driver, vertexSource, fragmentSource) == None
    ensures var calls := ProgramBuildCalls(driver, vertexSource, fragmentSource, first);
      var vs, fs, program := first, first + 1, first + 2;
      && Precedes(calls, Call.CompileShader(vs), Call.CompileShader(fs))
      && Precedes(calls, Call.CompileShader(fs), Call.CreateProgram(program))
      && Precedes(calls, Call.AttachShader(program, vs), Call.LinkProgram(program))
      && Precedes(calls, Call.AttachShader(program, fs), Call.LinkProgram(program))
      && Precedes(calls, Call.LinkProgram(program), Call.ValidateProgram(program))
      && calls[|calls| - 1] == Call.GetProgramParameter(program, VALIDATE_STATUS)
  {
    var calls := ProgramBuildCalls(driver, vertexSource, fragmentSource, first);
    var vs, fs, program := first, first + 1, first + 2;
    var setup, c1, c2 := SetupCalls(first, vertexSource, fragmentSource), CompileCalls(vs, true), CompileCalls(fs, true);
    var l, v := LinkCalls(program, vs, fs, true), ValidateCalls(program, true);
    assert StageCalls(driver, vertexSource, fragmentSource, first) == c1 + (c2 + (l + v));
    assert calls == setup + (c1 + (c2 + (l + v)));
    assert |setup| == 4 && |c1| == 2 && |c2| == 2 && |l| == 5 && |v| == 2;
    assert calls[4] == c1[0] && calls[6] == c2[0];
    assert calls[8] == l[0] && calls[9] == l[1] && calls[10] == l[2] && calls[11] == l[3];
    assert calls[13] == v[0] && calls[14] == v[1];
  }

  // ---------------------------------------------------------------------------
  // Counting uniform-location lookups
  // ---------------------------------------------------------------------------

  /** How many times `calls` asks the context where uniform `name` of `program` lives. */
  function Lookups(calls: seq<Call>, program: Handle, name: string): (n: nat)
    ensures n <= |calls|
  {
    if calls == [] then 0
    else (if calls[0] == Call.GetUniformLocation(program, name) then 1 else 0) + Lookups(calls[1..], program, name)
  }

  lemma {:induction false} LookupsConcat(a: seq<Call>, b: seq<Call>, program: Handle, name: string)
    ensures Lookups(a + b, program, name) == Lookups(a, program, name) + Lookups(b, program, name)
  {
    if a == [] {
      assert a + b == b;
    } else {
      assert (a + b)[1..] == a[1..] + b;
      LookupsConcat(a[1..], b, program, name);
    }
  }

  // ---------------------------------------------------------------------------
  // The command object
  // ---------------------------------------------------------------------------

  /** Map.prototype.get: the entry under `key`, or None (undefined) when there is none. */
  function Get<K, V>(m: map<K, V>, key: K): Option<V>
  {
    if key in m then Some(m[key]) else None
  }

  class GLCommander {
    var initialized: bool
    var canvas: Canvas?
    var gl: Context?
    /** {program, uniformName} => uniform location */
    var uniformLocations: map<UniformKey, UniformLocation>

    constructor ()
      ensures !IsInitialized() && uniformLocations == map[]
      ensures canvas == null && gl == null
      ensures Valid()
    {
      initialized := false;
      uniformLocations := map[];
      canvas := null;
      gl := null;
    }

    predicate IsInitialized()
      reads this
    {
      initialized
    }

    /** The flag isInitialized() reports is set exactly when a canvas and a context are bound. */
    ghost predicate Valid()
      reads this
    {
      initialized <==> canvas != null && gl != null
    }

    function GetGL(): Context?
      reads this
    {
      gl
    }

    /** Binds a canvas and its context. There is no guard: a second call rebinds both. */
    method Init(canvas: Canvas, gl: Context)
      modifies this
      ensures IsInitialized() && this.canvas == canvas && GetGL() == gl
      ensures Valid()
      ensures uniformLocations == old(uniformLocations)
    {
      this.canvas := canvas;
      this.gl := gl;
      initialized := true;
    }

    method SetViewport(width: int, height: int)
      requires canvas != null && gl != null
      modifies canvas, gl`log
      ensures canvas.width == width && canvas.height == height
      ensures gl.log == old(gl.log) + [Call.Viewport(0, 0, width, height)]
    {
      canvas.width := width;
      canvas.height := height;
      gl.Viewport(0, 0, width, height);
    }

    /** The inner validateShader: reads the compile status and, when it is false, the info log. */
    method ValidateShader(shader: Handle) returns (ok: bool)
      requires gl != null
      modifies gl`log
      ensures ok == (shader in gl.shaders && gl.shaders[shader].compiled)
      ensures gl.log == old(gl.log) + [Call.GetShaderParameter(shader, COMPILE_STATUS)] +
        (if ok then [] else [Call.GetShaderInfoLog(shader)])
    {
      ok := gl.GetShaderParameter(shader, COMPILE_STATUS);
      if !ok {
        gl.GetShaderInfoLog(shader);
      }
    }

    /** Creates the vertex and fragment shaders and hands each its source. */
    method CreateShaders(vertexSource: string, fragmentSource: string) returns (vs: Handle, fs: Handle)
      requires gl != null
      modifies gl`log, gl`nextHandle, gl`shaders
      ensures vs == old(gl.nextHandle) && fs == vs + 1 && gl.nextHandle == vs + 2
      ensures gl.shaders == old(gl.shaders)[vs := Shader(VERTEX_SHADER, vertexSource, false)]
                                           [fs := Shader(FRAGMENT_SHADER, fragmentSource, false)]
      ensures gl.log == old(gl.log) + SetupCalls(vs, vertexSource, fragmentSource)
    {
      vs := gl.CreateShader(VERTEX_SHADER);
      fs := gl.CreateShader(FRAGMENT_SHADER);
      gl.ShaderSource(vs, vertexSource);
      gl.ShaderSource(fs, fragmentSource);
    }

    /** Compiles one shader and checks it: ok is the driver's verdict on its type and source. */
    method CompileStage(shader: Handle) returns (ok: bool)
      requires gl != null && shader in gl.shaders
      modifies gl`log, gl`shaders
      ensures var s := old(gl.shaders)[shader];
        && ok == gl.driver.compiles(s.shaderType, s.source)
        && gl.shaders == old(gl.shaders)[shader := s.(compiled := ok)]
      ensures gl.log == old(gl.log) + CompileCalls(shader, ok)
    {
      gl.CompileShader(shader);
      ok := ValidateShader(shader);
    }

    /**
      Compiles the vertex shader and, only when it compiled, the fragment
      shader; ok says that both compiled.
    */
    method CompileStages(vs: Handle, fs: Handle, vertexSource: string, fragmentSource: string) returns (ok: bool)
      requires gl != null && vs != fs
      requires vs in gl.shaders && gl.shaders[vs] == Shader(VERTEX_SHADER, vertexSource, false)
      requires fs in gl.shaders && gl.shaders[fs] == Shader(FRAGMENT_SHADER, fragmentSource, false)
      modifies gl`log, gl`shaders
      ensures var vertexOk := gl.driver.compiles(VERTEX_SHADER, vertexSource);
        var fragmentOk := gl.driver.compiles(FRAGMENT_SHADER, fragmentSource);
        && ok == (vertexOk && fragmentOk)
        && (!vertexOk ==> gl.log == old(gl.log) + CompileCalls(vs, false))
        && (vertexOk ==> gl.log == old(gl.log) + CompileCalls(vs, true) + CompileCalls(fs, fragmentOk))
      ensures var vertexOk := gl.driver.compiles(VERTEX_SHADER, vertexSource);
        gl.shaders == old(gl.shaders)[vs := Shader(VERTEX_SHADER, vertexSource, vertexOk)]
          [fs := Shader(FRAGMENT_SHADER, fragmentSource, vertexOk && gl.driver.compiles(FRAGMENT_SHADER, fragmentSource))]
    {
      ok := CompileStage(vs);
      if !ok {
        return;
      }
      ok := CompileStage(fs);
    }

    /** Creates a program and attaches the vertex shader, then the fragment shader. */
    method AssembleProgram(vs: Handle, fs: Handle) returns (program: Handle)
      requires gl != null && vs in gl.shaders && fs in gl.shaders
      modifies gl`log, gl`nextHandle, gl`programs
      ensures program == old(gl.nextHandle) && gl.nextHandle == program + 1
      ensures gl.programs == old(gl.programs)[program := Program([gl.shaders[vs], gl.shaders[fs]], false, false)]
      ensures gl.log == old(gl.log) + [Call.CreateProgram(program), Call.AttachShader(program, vs), Call.AttachShader(program, fs)]
    {
      program := gl.CreateProgram();
      gl.AttachShader(program, vs);
      gl.AttachShader(program, fs);
      assert [] + [gl.shaders[vs]] + [gl.shaders[fs]] == [gl.shaders[vs], gl.shaders[fs]];
    }

    /** Creates a program, attaches both shaders, links it and reads the link status. */
    method LinkStage(vs: Handle, fs: Handle) returns (program: Handle, ok: bool)
      requires gl != null && vs in gl.shaders && fs in gl.shaders
      modifies gl`log, gl`nextHandle, gl`programs
      ensures program == old(gl.nextHandle) && gl.nextHandle == program + 1
      ensures var attached := [gl.shaders[vs], gl.shaders[fs]];
        && ok == gl.driver.links(attached)
        && gl.programs == old(gl.programs)[program := Program(attached, ok, false)]
      ensures gl.log == old(gl.log) + LinkCalls(program, vs, fs, ok)
    {
      program := AssembleProgram(vs, fs);
      gl.LinkProgram(program);
      ok := gl.GetProgramParameter(program, LINK_STATUS);
      if !ok {
        gl.GetProgramInfoLog(program);
      }
    }

    /** Validates a linked program and reads the validate status. */
    method ValidateStage(program: Handle) returns (ok: bool)
      requires gl != null && program in gl.programs
      modifies gl`log, gl`programs
      ensures ok == gl.driver.validates(old(gl.programs)[program].attached)
      ensures gl.programs == old(gl.programs)[program := old(gl.programs)[program].(validated := ok)]
      ensures gl.log == old(gl.log) + ValidateCalls(program, ok)
    {
      gl.ValidateProgram(program);
      ok := gl.GetProgramParameter(program, VALIDATE_STATUS);
      if !ok {
        gl.GetProgramInfoLog(program);
      }
    }

    /**
      Runs the checked stages on two fresh shaders: compiles both, then
      links and validates a new program, stopping at the first failing check.
    */
    method BuildStages(vs: Handle, fs: Handle, vertexSource: string, fragmentSource: string) returns (r: int)
      requires gl != null && fs == vs + 1 && gl.nextHandle == vs + 2
      requires vs in gl.shaders && gl.shaders[vs] == Shader(VERTEX_SHADER, vertexSource, false)
      requires fs in gl.shaders && gl.shaders[fs] == Shader(FRAGMENT_SHADER, fragmentSource, false)
      modifies gl`log, gl`nextHandle, gl`shaders, gl`programs
      ensures gl.log == old(gl.log) + StageCalls(gl.driver, vertexSource, fragmentSource, vs)
      ensures r == if FirstFailure(gl.driver, vertexSource, fragmentSource) == None then vs + 2 else FAILURE
      ensures var vertexOk := gl.driver.compiles(VERTEX_SHADER, vertexSource);
        var compiled := vertexOk && gl.driver.compiles(FRAGMENT_SHADER, fragmentSource);
        var linked := compiled && gl.driver.links(Attached(vertexSource, fragmentSource));
        var validated := linked && gl.driver.validates(Attached(vertexSource, fragmentSource));
        && gl.nextHandle == vs + (if compiled then 3 else 2)
        && gl.shaders == old(gl.shaders)[vs := Shader(VERTEX_SHADER, vertexSource, vertexOk)]
                                        [fs := Shader(FRAGMENT_SHADER, fragmentSource, compiled)]
        && gl.programs == if compiled
             then old(gl.programs)[vs + 2 := Program(Attached(vertexSource, fragmentSource), linked, validated)]
             else old(gl.programs)
    {
      ghost var driver, before := gl.driver, gl.log;
      var ok := CompileStages(vs, fs, vertexSource, fragmentSource);
      if !ok {
        if driver.compiles(VERTEX_SHADER, vertexSource) {
          StagesStopAtFragmentCompile(driver, vertexSource, fragmentSource, vs, before);
        } else {
          StagesStopAtVertexCompile(driver, vertexSource, fragmentSource, vs, before);
        }
        return FAILURE;
      }

      var program;
      program, ok := LinkStage(vs, fs);
      assert gl.programs[program].attached == Attached(vertexSource, fragmentSource);
      if !ok {
        StagesStopAtLink(driver, vertexSource, fragmentSource, vs, before);
        return FAILURE;
      }

      ok := ValidateStage(program);
      StagesReachValidate(driver, vertexSource, fragmentSource, vs, before);
      if !ok {
        return FAILURE;
      }
      return program;
    }

    /**
      Returns the new program exactly when both shaders compile and the
      program links and validates; otherwise -1, issuing nothing after the
      failed check but the info-log read. A failed build leaves its shaders,
      and a program that failed to link or validate, in the context.
    */
    method CreateShaderProgram(vertexSource: string, fragmentSource: string) returns (r: int)
      requires gl != null
      modifies gl`log, gl`nextHandle, gl`shaders, gl`programs
      ensures gl.log == old(gl.log) + ProgramBuildCalls(gl.driver, vertexSource, fragmentSource, old(gl.nextHandle))
      ensures r == if FirstFailure(gl.driver, vertexSource, fragmentSource) == None
                   then old(gl.nextHandle) + 2 else FAILURE
      ensures var first := old(gl.nextHandle);
        var vertexOk := gl.driver.compiles(VERTEX_SHADER, vertexSource);
        var compiled := vertexOk && gl.driver.compiles(FRAGMENT_SHADER, fragmentSource);
        var linked := compiled && gl.driver.links(Attached(vertexSource, fragmentSource));
        var validated := linked && gl.driver.validates(Attached(vertexSource, fragmentSource));
        && gl.nextHandle == first + (if compiled then 3 else 2)
        && gl.shaders == old(gl.shaders)[first := Shader(VERTEX_SHADER, vertexSource, vertexOk)]
                                        [first + 1 := Shader(FRAGMENT_SHADER, fragmentSource, compiled)]
        && gl.programs == if compiled
             then old(gl.programs)[first + 2 := Program(Attached(vertexSource, fragmentSource), linked, validated)]
             else old(gl.programs)
      ensures r != FAILURE ==> r in gl.programs && gl.programs[r] == Program(Attached(vertexSource, fragmentSource), true, true)
    {
      ghost var before := gl.log;
      var vs, fs := CreateShaders(vertexSource, fragmentSource);
      ghost var setup := SetupCalls(vs, vertexSource, fragmentSource);
      r := BuildStages(vs, fs, vertexSource, fragmentSource);
      assert before + setup + StageCalls(gl.driver, vertexSource, fragmentSource, vs) ==
        before + (setup + StageCalls(gl.driver, vertexSource, fragmentSource, vs));
    }

    /** Creates a buffer, binds it and uploads `data`; the new handle is not returned. */
    method CreateBuffer(bufferType: int, data: seq<real>, drawMode: int)
      requires gl != null
      modifies gl`log, gl`nextHandle
      ensures gl.nextHandle == old(gl.nextHandle) + 1
      ensures var buffer := old(gl.nextHandle);
        gl.log == old(gl.log) + [Call.CreateBuffer(buffer), Call.BindBuffer(bufferType, buffer),
                                 Call.BufferData(bufferType, data, drawMode)]
    {
      var buffer := gl.CreateBuffer();
      BindBuffer(bufferType, buffer);
      gl.BufferData(bufferType, data, drawMode);
    }

    method BindBuffer(bufferType: int, buffer: Handle)
      requires gl != null
      modifies gl`log
      ensures gl.log == old(gl.log) + [Call.BindBuffer(bufferType, buffer)]
    {
      gl.BindBuffer(bufferType, buffer);
    }

    /**
      Fails soft with -1, issuing nothing more, when the program has no such
      attribute; otherwise configures and then enables that location and
      returns nothing (None).
    */
    method SetAttribLayout(program: Handle, name: string, numberOfElements: int, componentType: int,
                           vertexSize: int, offset: int) returns (r: Option<int>)
      requires gl != null
      modifies gl`log
      ensures var location := gl.driver.attribLocation(program, name);
        if location == -1 then
          r == Some(FAILURE) && gl.log == old(gl.log) + [Call.GetAttribLocation(program, name)]
        else
          && r == None
          && gl.log == old(gl.log) + [
               Call.GetAttribLocation(program, name),
               Call.VertexAttribPointer(location, numberOfElements, componentType, false, vertexSize, offset),
               Call.EnableVertexAttribArray(location)]
    {
      var location := gl.GetAttribLocation(program, name);
      if location == -1 {
        return Some(FAILURE);
      }
      gl.VertexAttribPointer(location, numberOfElements, componentType, false, vertexSize, offset);
      gl.EnableVertexAttribArray(location);
      return None;
    }

    method SetShaderProgram(program: Handle)
      requires gl != null
      modifies gl`log
      ensures gl.log == old(gl.log) + [Call.UseProgram(program)]
    {
      gl.UseProgram(program);
    }

    /**
      Looks the location up in the cache under a new key object, so the
      lookup always misses: every call asks the context for the location,
      adds one entry to the cache, and then calls the setter "uniform" + type.
    */
    method SetUniform(program: Handle, name: string, uniformType: string, value: UniformValue)
      requires gl != null
      modifies this, gl`log
      ensures gl == old(gl) && canvas == old(canvas) && initialized == old(initialized)
      ensures old(Valid()) ==> Valid()
      ensures var location := gl.driver.uniformLocation(program, name);
        gl.log == old(gl.log) + [Call.GetUniformLocation(program, name),
                                 Call.Uniform("uniform" + uniformType, location, value)]
      ensures Lookups(gl.log, program, name) == Lookups(old(gl.log), program, name) + 1
      ensures |uniformLocations| == |old(uniformLocations)| + 1
      ensures forall key :: key in old(uniformLocations) ==>
        key in uniformLocations && uniformLocations[key] == old(uniformLocations)[key]
      ensures forall key :: key in uniformLocations && key !in old(uniformLocations) ==>
        && fresh(key) && key.program == program && key.name == name
        && uniformLocations[key] == gl.driver.uniformLocation(program, name)
    {
      var key := new UniformKey(program, name);
      var cached := Get(uniformLocations, key);
      assert cached == None;
      var location: UniformLocation;
      match cached {
        case Some(l) =>
          location := l;
        case None =>
          location := gl.GetUniformLocation(program, name);
          uniformLocations := uniformLocations[key := location];
      }
      gl.Uniform("uniform" + uniformType, location, value);
      ghost var issued := [Call.GetUniformLocation(program, name), Call.Uniform("uniform" + uniformType, location, value)];
      assert Lookups(issued, program, name) == 1 by {
        assert issued[1..][1..] == [];
      }
      LookupsConcat(old(gl.log), issued, program, name);
    }

    /** Draws `numberOfVertices` vertices as triangles; no field of the commander changes. */
    method Draw(numberOfVertices: int)
      requires gl != null
      modifies gl`log
      ensures gl.log == old(gl.log) + [Call.DrawArrays(TRIANGLES, 0, numberOfVertices)]
    {
      gl.DrawArrays(TRIANGLES, 0, numberOfVertices);
    }
  }

  /** Two setUniform calls for one (program, name) pair: two lookups and two new cache entries. */
  method SetUniformTwiceAsWritten(glc: GLCommander, program: Handle, name: string, uniformType: string,
                                  first: UniformValue, second: UniformValue)
    requires glc.gl != null
    modifies glc, glc.gl`log
    ensures glc.gl == old(glc.gl)
    ensures Lookups(glc.gl.log, program, name) == Lookups(old(glc.gl.log), program, name) + 2
    ensures |glc.uniformLocations| == |old(glc.uniformLocations)| + 2
  {
    glc.SetUniform(program, name, uniformType, first);
    glc.SetUniform(program, name, uniformType, second);
  }

  // ---------------------------------------------------------------------------
  // The cache setUniform intends: keyed by the (program, name) value
  // ---------------------------------------------------------------------------

  /**
    A location cache whose key is the (program, name) pair itself, so equal
    pairs share one entry. Every cached location is the one the context
    reports for that pair.
  */
  class ValueKeyedUniforms {
    const gl: Context
    var locations: map<(Handle, string), UniformLocation>

    ghost predicate Valid()
      reads this
    {
      forall key :: key in locations ==> locations[key] == gl.driver.uniformLocation(key.0, key.1)
    }

    constructor (gl: Context)
      ensures Valid() && this.gl == gl && locations == map[]
    {
      this.gl := gl;
      locations := map[];
    }

    /** Asks the context only when the pair is not cached yet; the setter gets the same location either way. */
    method SetUniform(program: Handle, name: string, uniformType: string, value: UniformValue)
      requires Valid()
      modifies this, gl`log
      ensures Valid()
      ensures var location := gl.driver.uniformLocation(program, name);
        && locations == old(locations)[(program, name) := location]
        && gl.log == old(gl.log)
             + (if (program, name) in old(locations) then [] else [Call.GetUniformLocation(program, name)])
             + [Call.Uniform("uniform" + uniformType, location, value)]
      ensures Lookups(gl.log, program, name) ==
        Lookups(old(gl.log), program, name) + (if (program, name) in old(locations) then 0 else 1)
    {
      var location: UniformLocation;
      ghost var lookup: seq<Call> := [];
      if (program, name) in locations {
        location := locations[(program, name)];
      } else {
        location := gl.GetUniformLocation(program, name);
        locations := locations[(program, name) := location];
        lookup := [Call.GetUniformLocation(program, name)];
      }
      gl.Uniform("uniform" + uniformType, location, value);
      ghost var setter := [Call.Uniform("uniform" + uniformType, location, value)];
      assert gl.log == old(gl.log) + (lookup + setter);
      assert Lookups(setter, program, name) == 0 by {
        assert setter[1..] == [];
      }
      LookupsConcat(lookup, setter, program, name);
      LookupsConcat(old(gl.log), lookup + setter, program, name);
    }
  }

  /** Two calls for one (program, name) pair resolve the location at most once. */
  method SetUniformTwiceIntended(cache: ValueKeyedUniforms, program: Handle, name: string, uniformType: string,
                                 first: UniformValue, second: UniformValue)
    requires cache.Valid()
    modifies cache, cache.gl`log
    ensures cache.Valid()
    ensures Lookups(cache.gl.log, program, name) ==
      Lookups(old(cache.gl.log), program, name) + (if (program, name) in old(cache.locations) then 0 else 1)
  {
    cache.SetUniform(program, name, uniformType, first);
    cache.SetUniform(program, name, uniformType, second);
  }
}
