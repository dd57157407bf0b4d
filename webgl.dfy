/**
  The WebGL rendering context, kept abstract. Whether a shader compiles, a
  program links or validates, and where an attribute or uniform lives are
  the driver's verdicts, given by a Driver of functions the model does not
  compute. The context keeps the objects it has handed out and a log of
  every call it has received, in order.
*/
module WebGL {

  /** An opaque object handle (shader, program or buffer). */
  type Handle = nat

  datatype ShaderType = VERTEX_SHADER | FRAGMENT_SHADER
  datatype Parameter = COMPILE_STATUS | LINK_STATUS | VALIDATE_STATUS
  datatype Mode = TRIANGLES

  /** What getUniformLocation returns: null for a name the program does not use. */
  datatype UniformLocation = NullLocation | Location(id: nat)

  /** A value handed to a uniform setter: a number or an array of numbers. */
  datatype UniformValue = Scalar(x: real) | Vector(xs: seq<real>)

  datatype Shader = Shader(shaderType: ShaderType, source: string, compiled: bool)

  /** A program: the shaders attached to it, as attached, and its two status flags. */
  datatype Program = Program(attached: seq<Shader>, linked: bool, validated: bool) {
    function Status(pname: Parameter): bool
    {
      match pname
      case LINK_STATUS => linked
      case VALIDATE_STATUS => validated
      case COMPILE_STATUS => false
    }
  }

  datatype Driver = Driver(
    compiles: (ShaderType, string) -> bool,
    links: seq<Shader> -> bool,
    validates: seq<Shader> -> bool,
    attribLocation: (Handle, string) -> int,
    uniformLocation: (Handle, string) -> UniformLocation)

  /** One call issued to the context, with the handle it returned where it created an object. */
  datatype Call =
    | CreateShader(shaderType: ShaderType, shader: Handle)
    | ShaderSource(shader: Handle, source: string)
    | CompileShader(shader: Handle)
    | GetShaderParameter(shader: Handle, pname: Parameter)
    | GetShaderInfoLog(shader: Handle)
    | CreateProgram(program: Handle)
    | AttachShader(program: Handle, shader: Handle)
    | LinkProgram(program: Handle)
    | ValidateProgram(program: Handle)
    | GetProgramParameter(program: Handle, pname: Parameter)
    | GetProgramInfoLog(program: Handle)
    | CreateBuffer(buffer: Handle)
    | BindBuffer(target: int, buffer: Handle)
    | BufferData(target: int, data: seq<real>, usage: int)
    | GetAttribLocation(program: Handle, name: string)
    | VertexAttribPointer(index: int, size: int, componentType: int, normalized: bool, stride: int, offset: int)
    | EnableVertexAttribArray(index: int)
    | UseProgram(program: Handle)
    | GetUniformLocation(program: Handle, name: string)
    | Uniform(setter: string, location: UniformLocation, value: UniformValue)
    | Viewport(x: int, y: int, width: int, height: int)
    | DrawArrays(mode: Mode, first: int, count: int)

  class Context {
    const driver: Driver
    var log: seq<Call>
    var nextHandle: Handle
    var shaders: map<Handle, Shader>
    var programs: map<Handle, Program>

    constructor (driver: Driver)
      ensures this.driver == driver && log == [] && nextHandle == 0 && shaders == map[] && programs == map[]
    {
      this.driver := driver;
      log := [];
      nextHandle := 0;
      shaders := map[];
      programs := map[];
    }

    method CreateShader(shaderType: ShaderType) returns (shader: Handle)
      modifies this`log, this`nextHandle, this`shaders
      ensures shader == old(nextHandle) && nextHandle == shader + 1
      ensures shaders == old(shaders)[shader := Shader(shaderType, "", false)]
      ensures log == old(log) + [Call.CreateShader(shaderType, shader)]
    {
      shader := nextHandle;
      nextHandle := nextHandle + 1;
      shaders := shaders[shader := Shader(shaderType, "", false)];
      log := log + [Call.CreateShader(shaderType, shader)];
    }

    method ShaderSource(shader: Handle, source: string)
      modifies this`log, this`shaders
      ensures shaders == if shader in old(shaders)
        then old(shaders)[shader := old(shaders)[shader].(source := source)] else old(shaders)
      ensures log == old(log) + [Call.ShaderSource(shader, source)]
    {
      if shader in shaders {
        shaders := shaders[shader := shaders[shader].(source := source)];
      }
      log := log + [Call.ShaderSource(shader, source)];
    }

    method CompileShader(shader: Handle)
      modifies this`log, this`shaders
      ensures shaders == if shader in old(shaders)
        then var s := old(shaders)[shader]; old(shaders)[shader := s.(compiled := driver.compiles(s.shaderType, s.source))]
        else old(shaders)
      ensures log == old(log) + [Call.CompileShader(shader)]
    {
      if shader in shaders {
        var s := shaders[shader];
        shaders := shaders[shader := s.(compiled := driver.compiles(s.shaderType, s.source))];
      }
      log := log + [Call.CompileShader(shader)];
    }

    method GetShaderParameter(shader: Handle, pname: Parameter) returns (status: bool)
      modifies this`log
      ensures status == (pname == COMPILE_STATUS && shader in shaders && shaders[shader].compiled)
      ensures log == old(log) + [Call.GetShaderParameter(shader, pname)]
    {
      status := pname == COMPILE_STATUS && shader in shaders && shaders[shader].compiled;
      log := log + [Call.GetShaderParameter(shader, pname)];
    }

    method GetShaderInfoLog(shader: Handle)
      modifies this`log
      ensures log == old(log) + [Call.GetShaderInfoLog(shader)]
    {
      log := log + [Call.GetShaderInfoLog(shader)];
    }

    method CreateProgram() returns (program: Handle)
      modifies this`log, this`nextHandle, this`programs
      ensures program == old(nextHandle) && nextHandle == program + 1
      ensures programs == old(programs)[program := Program([], false, false)]
      ensures log == old(log) + [Call.CreateProgram(program)]
    {
      program := nextHandle;
      nextHandle := nextHandle + 1;
      programs := programs[program := Program([], false, false)];
      log := log + [Call.CreateProgram(program)];
    }

    method AttachShader(program: Handle, shader: Handle)
      modifies this`log, this`programs
      ensures programs == if program in old(programs) && shader in shaders
        then old(programs)[program := old(programs)[program].(attached := old(programs)[program].attached + [shaders[shader]])]
        else old(programs)
      ensures log == old(log) + [Call.AttachShader(program, shader)]
    {
      if program in programs && shader in shaders {
        programs := programs[program := programs[program].(attached := programs[program].attached + [shaders[shader]])];
      }
      log := log + [Call.AttachShader(program, shader)];
    }

    method LinkProgram(program: Handle)
      modifies this`log, this`programs
      ensures programs == if program in old(programs)
        then var p := old(programs)[program]; old(programs)[program := p.(linked := driver.links(p.attached))]
        else old(programs)
      ensures log == old(log) + [Call.LinkProgram(program)]
    {
      if program in programs {
        var p := programs[program];
        programs := programs[program := p.(linked := driver.links(p.attached))];
      }
      log := log + [Call.LinkProgram(program)];
    }

    method ValidateProgram(program: Handle)
      modifies this`log, this`programs
      ensures programs == if program in old(programs)
        then var p := old(programs)[program]; old(programs)[program := p.(validated := driver.validates(p.attached))]
        else old(programs)
      ensures log == old(log) + [Call.ValidateProgram(program)]
    {
      if program in programs {
        var p := programs[program];
        programs := programs[program := p.(validated := driver.validates(p.attached))];
      }
      log := log + [Call.ValidateProgram(program)];
    }

    method GetProgramParameter(program: Handle, pname: Parameter) returns (status: bool)
      modifies this`log
      ensures status == (program in programs && programs[program].Status(pname))
      ensures log == old(log) + [Call.GetProgramParameter(program, pname)]
    {
      status := program in programs && programs[program].Status(pname);
      log := log + [Call.GetProgramParameter(program, pname)];
    }

    method GetProgramInfoLog(program: Handle)
      modifies this`log
      ensures log == old(log) + [Call.GetProgramInfoLog(program)]
    {
      log := log + [Call.GetProgramInfoLog(program)];
    }

    method CreateBuffer() returns (buffer: Handle)
      modifies this`log, this`nextHandle
      ensures buffer == old(nextHandle) && nextHandle == buffer + 1
      ensures log == old(log) + [Call.CreateBuffer(buffer)]
    {
      buffer := nextHandle;
      nextHandle := nextHandle + 1;
      log := log + [Call.CreateBuffer(buffer)];
    }

    method BindBuffer(target: int, buffer: Handle)
      modifies this`log
      ensures log == old(log) + [Call.BindBuffer(target, buffer)]
    {
      log := log + [Call.BindBuffer(target, buffer)];
    }

    method BufferData(target: int, data: seq<real>, usage: int)
      modifies this`log
      ensures log == old(log) + [Call.BufferData(target, data, usage)]
    {
      log := log + [Call.BufferData(target, data, usage)];
    }

    method GetAttribLocation(program: Handle, name: string) returns (location: int)
      modifies this`log
      ensures location == driver.attribLocation(program, name)
      ensures log == old(log) + [Call.GetAttribLocation(program, name)]
    {
      location := driver.attribLocation(program, name);
      log := log + [Call.GetAttribLocation(program, name)];
    }

    method VertexAttribPointer(index: int, size: int, componentType: int, normalized: bool, stride: int, offset: int)
      modifies this`log
      ensures log == old(log) + [Call.VertexAttribPointer(index, size, componentType, normalized, stride, offset)]
    {
      log := log + [Call.VertexAttribPointer(index, size, componentType, normalized, stride, offset)];
    }

    method EnableVertexAttribArray(index: int)
      modifies this`log
      ensures log == old(log) + [Call.EnableVertexAttribArray(index)]
    {
      log := log + [Call.EnableVertexAttribArray(index)];
    }

    method UseProgram(program: Handle)
      modifies this`log
      ensures log == old(log) + [Call.UseProgram(program)]
    {
      log := log + [Call.UseProgram(program)];
    }

    method GetUniformLocation(program: Handle, name: string) returns (location: UniformLocation)
      modifies this`log
      ensures location == driver.uniformLocation(program, name)
      ensures log == old(log) + [Call.GetUniformLocation(program, name)]
    {
      location := driver.uniformLocation(program, name);
      log := log + [Call.GetUniformLocation(program, name)];
    }

    /** The setter gl["uniform" + type]: `setter` is the full method name, such as "uniform1f". */
    method Uniform(setter: string, location: UniformLocation, value: UniformValue)
      modifies this`log
      ensures log == old(log) + [Call.Uniform(setter, location, value)]
    {
      log := log + [Call.Uniform(setter, location, value)];
    }

    method Viewport(x: int, y: int, width: int, height: int)
      modifies this`log
      ensures log == old(log) + [Call.Viewport(x, y, width, height)]
    {
      log := log + [Call.Viewport(x, y, width, height)];
    }

    method DrawArrays(mode: Mode, first: int, count: int)
      modifies this`log
      ensures log == old(log) + [Call.DrawArrays(mode, first, count)]
    {
      log := log + [Call.DrawArrays(mode, first, count)];
    }
  }
}
