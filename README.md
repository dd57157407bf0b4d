# Warp-noise defaults and the WebGL command layer, in Dafny

This project models two parts of a WebGL "domain warping" noise renderer.

- **The default attribute tree** (`ControllerAttributes`, `attributes.dfy`).
  - `getDefaultAttributes` builds a nested tree of tunable parameters.
  - Each leaf has a default value, inclusive bounds, and optional metadata: the uniform setter tag "1f"/"1i", a step, slider marks and an `isUniform` flag.
  - `noiseSettings` builds one noise layer and `timeSettings` one animation-speed leaf.
  - The tree is a recursive datatype `Node` (a `Group` of named children or a `Leaf`). The factories are pure functions.
  - `Math.random()` is the parameter `r`, with 0 <= r < 1, one draw per noise layer.
- **GLCommander** (`GLC`, `glc.dfy`), the object through which the renderer talks to WebGL.
  - It is a class with the fields `initialized`, `canvas`, `gl` and the `uniformLocations` cache.
  - The WebGL context is the class `WebGL.Context` (`webgl.dfy`). Its compile, link and validate verdicts and its attribute and uniform locations come from an abstract `Driver`, a record of total functions.
  - The context records every call it receives in a `log`. Each GLCommander method is specified by the exact calls it appends to that log and by the fields it changes.
  - `createShaderProgram` is specified against the function `ProgramBuildCalls`, the calls of the four-stage pipeline for a given driver, and by the shaders and program it leaves in the context. Ordering and early-exit lemmas are proved about that function.

`wrappers.dfy` holds the shared `Option` type.

Modelling choices:
- The tree's numbers are `real`s.
- A JS object literal's children are a `map<string, Node>`, so sibling names are unique by construction.
- `init` (src/context/GLC.js:11-15) has no guard: a second call rebinds `canvas` and `gl` instead of being a no-op. GLC.GLCommander.Init models the rebinding.
- A WebGL object handle is a natural number handed out in creation order. The first object a context creates gets `nextHandle`, the next one `nextHandle + 1`, and so on.

## Model

| member | source | states |
|---|---|---|
| ControllerAttributes.NoiseSettings | src/context/ControllerAttributes.js:1-55 | noiseSettings() for draw r is the constant layer with frequency r * 0.01. It is well-formed: bounds ordered, marks in bounds, stepped values on the step grid, "1i" leaves integral, and uniform leaves exactly the typed ones. Its frequency is always below the maximum 0.035. All its values are in bounds iff r >= 0.00001. |
| ControllerAttributes.NoiseLayer | src/context/ControllerAttributes.js:2-54 | A layer is a group marked isUniform: true. It has exactly the keys frequency, octaves, lacunarity, persistence, amplitude, modifications, and its frequency leaf holds the given frequency. |
| ControllerAttributes.OctavesOnStepGrid | src/context/ControllerAttributes.js:10-17 | octaves has step 2 and marks [1, 3, 5]. Value and marks lie in [1, 5] and on the grid from min in whole steps, and the leaf is integral. |
| ControllerAttributes.GridIndex | src/context/ControllerAttributes.js:13-16 | A value on the step grid equals min + k * step for a natural k. |
| ControllerAttributes.NoiseLayerWellFormed | src/context/ControllerAttributes.js:1-55 | Every leaf of a layer is sound. The unflagged modifications subgroup sits under the layer's isUniform: true, and its leaves are exactly the typed ones. |
| ControllerAttributes.NoiseLayerInBounds | src/context/ControllerAttributes.js:4-50 | Every value of a layer is within its bounds iff 0.0000001 <= frequency <= 0.035. |
| ControllerAttributes.TimeSettings | src/context/ControllerAttributes.js:57-63 | timeSettings(v) is a leaf with value v, no setter tag and no isUniform. It is sound, and in bounds iff 0 <= v <= 3. |
| ControllerAttributes.AnimationSpeed | src/context/ControllerAttributes.js:100-108 | animationSpeed is a group marked isUniform: false with exactly the keys general, source, angleControl, amountControl. |
| ControllerAttributes.AnimationSpeedUntyped | src/context/ControllerAttributes.js:57-63 | Every animationSpeed child is an untyped leaf in [0, 3] whose value is in bounds. |
| ControllerAttributes.TopLevelLeavesSound | src/context/ControllerAttributes.js:68-99 | scale 1 in [0.01, 10], iterations 2 in [0, 4], warpAmount 100 in [0, 1000] and multisampling 0 in [0, 1] are sound and in bounds. The "1i" ones are integral. |
| ControllerAttributes.TopLevelEveryLeaf | src/context/ControllerAttributes.js:67-113 | A leaf property holds throughout the top-level object iff it holds in each of its eight children. |
| ControllerAttributes.TopLevelUniform | src/context/ControllerAttributes.js:67-113 | The top-level object has no isUniform key, so its uniform leaves are exactly its typed leaves iff that holds in each of its eight children. |
| ControllerAttributes.FixedPartWellFormed | src/context/ControllerAttributes.js:67-109 | The four scalars and animationSpeed make the tree well-formed whenever the three noise layers are. |
| ControllerAttributes.FixedPartInBounds | src/context/ControllerAttributes.js:67-109 | The tree is in bounds iff its three noise layers are. |
| ControllerAttributes.Attributes | src/context/ControllerAttributes.js:66-114 | The tree has no isUniform key and exactly the top-level keys scale, iterations, warpAmount, multisampling, animationSpeed, source, angleControl, amountControl. Its three layers are the layers of the given frequencies. |
| ControllerAttributes.AttributesWellFormed | src/context/ControllerAttributes.js:66-114 | The default tree is well-formed for any frequencies. |
| ControllerAttributes.AttributesInBounds | src/context/ControllerAttributes.js:66-114 | Every default value is in bounds iff all three frequencies are in [0.0000001, 0.035]. |
| ControllerAttributes.DefaultAttributes | src/context/ControllerAttributes.js:66-114 | getDefaultAttributes() has the eight top-level keys and is well-formed. source, angleControl and amountControl are three separate noiseSettings() results. Every value is in bounds iff each of the three draws is >= 0.00001. |
| ControllerAttributes.NoiseLayersDifferOnlyInFrequency | src/context/ControllerAttributes.js:110-112 | Two noise layers agree on every child but frequency. They are equal iff their frequencies are. |
| ControllerAttributes.DefaultBoundsOrdered | src/context/ControllerAttributes.js:1-114 | Whatever the three draws, every leaf of getDefaultAttributes() has min <= max (derived from the tree's soundness through EveryLeafWeakens). |
| ControllerAttributes.FrequencyBelowMinimum | src/context/ControllerAttributes.js:5-6 | With the draw 0 the frequency is below its minimum, so the default tree is not in bounds. |
| ControllerAttributes.ClampedFrequency | src/context/ControllerAttributes.js:5-7 | The clamped frequency lies in [0.0000001, 0.035]. It equals r * 0.01 whenever r >= 0.00001. |
| ControllerAttributes.IntendedDefaultAttributes | src/context/ControllerAttributes.js:66-114 | With the frequency clamped, the tree is well-formed and every value is in bounds. It equals getDefaultAttributes() whenever every draw is >= 0.00001. |
| GLC.GLCommander.constructor | src/context/GLC.js:2-8 | A new commander is not initialized, has an empty location cache, and has no canvas or context. Valid() holds from the start. |
| GLC.GLCommander.Init | src/context/GLC.js:11-19 | Afterwards isInitialized() holds and canvas and gl are the arguments. The cache is untouched. Valid() holds: the flag is set exactly when a canvas and a context are bound, so a caller holding isInitialized() may use the context. There is no guard, so a second call rebinds. |
| GLC.GLCommander.SetViewport | src/context/GLC.js:28-32 | The canvas gets the given width and height, and exactly viewport(0, 0, width, height) is issued. |
| GLC.GLCommander.ValidateShader | src/context/GLC.js:36-42 | The result is the shader's compile status. The info log is read exactly when that status is false. |
| GLC.GLCommander.CreateShaders | src/context/GLC.js:44-48 | Two shaders are created with consecutive handles and given their sources, in the source's call order. |
| GLC.GLCommander.CompileStage | src/context/GLC.js:50-52 | Compiling stores the driver's verdict for the shader's type and source, and the check returns that verdict. |
| GLC.GLCommander.CompileStages | src/context/GLC.js:50-56 | The fragment shader is compiled only when the vertex shader compiled. The result says that both compiled. Afterwards the vertex shader's status is its verdict, and the fragment shader's is its verdict when it was compiled and false otherwise. |
| GLC.GLCommander.AssembleProgram | src/context/GLC.js:58-60 | A new program holds the vertex shader and then the fragment shader. |
| GLC.GLCommander.LinkStage | src/context/GLC.js:58-67 | The program is linked with the driver's verdict on its two shaders. The info log is read only on failure. |
| GLC.GLCommander.ValidateStage | src/context/GLC.js:69-73 | The result is the driver's validate verdict on the program's shaders, and the program's validate status becomes that verdict. The info log is read only on failure. |
| GLC.GLCommander.BuildStages | src/context/GLC.js:50-75 | On two fresh shaders, the calls issued are exactly StageCalls. The result is the program iff every check passes, else -1. Both shaders keep their verdicts, and a program is created, with its link and validate status, iff both compiled. |
| GLC.GLCommander.CreateShaderProgram | src/context/GLC.js:35-76 | The calls issued are exactly ProgramBuildCalls for this driver and these sources. The result is the new program (handle first + 2) iff both shaders compile and the program links and validates; otherwise it is -1. Two shaders are added with their compile status. A program is added iff both compiled, carrying its link and validate status, so a returned handle names a linked, validated program. nextHandle grows by 3, or by 2 when a compile failed. |
| GLC.ProgramBuildCalls | src/context/GLC.js:44-75 | The build issues 7, 9, 14 or 16 calls when the vertex compile, fragment compile, link or validate check fails first, and 15 when all pass. It ends with an info-log read iff some check failed. |
| GLC.FirstFailure | src/context/GLC.js:50-73 | The first failing check is None iff all four checks pass. Each later stage is reached only after the earlier checks passed: a validate failure implies both compiles and the link succeeded. |
| GLC.StagesStopAtVertexCompile | src/context/GLC.js:50-52 | When the vertex shader does not compile, the build ends after its compile check and info-log read. |
| GLC.StagesStopAtFragmentCompile | src/context/GLC.js:54-56 | When only the fragment shader fails, the build ends after its compile check. |
| GLC.StagesStopAtLink | src/context/GLC.js:62-67 | When linking fails, the build ends after the link check and info-log read. |
| GLC.StagesReachValidate | src/context/GLC.js:69-75 | Once the program links, validation always runs. |
| GLC.StagesStopAtFirstFailure | src/context/GLC.js:50-73 | The fragment shader is compiled iff the vertex shader compiled. A program is created and linked iff both compiled. It is validated iff it also linked. |
| GLC.SuccessfulBuildOrder | src/context/GLC.js:58-75 | On success: the vertex compile precedes the fragment compile, which precedes program creation. Both attaches precede the link, and the link precedes validation. The last call reads the validate status. |
| GLC.GLCommander.CreateBuffer | src/context/GLC.js:79-83 | One new buffer is created, bound and filled with data, in that order. |
| GLC.GLCommander.BindBuffer | src/context/GLC.js:86-88 | Exactly one bindBuffer call is issued. |
| GLC.GLCommander.SetAttribLayout | src/context/GLC.js:91-107 | Location -1 yields -1 with nothing issued after the lookup. Otherwise vertexAttribPointer and then enableVertexAttribArray are issued for exactly that location, and nothing is returned. |
| GLC.GLCommander.SetShaderProgram | src/context/GLC.js:110-112 | Exactly useProgram(program) is issued. |
| GLC.UniformKey.constructor | src/context/GLC.js:120 | Each key is a new object holding the given program and name; keys are compared by identity. |
| GLC.GLCommander.SetUniform | src/context/GLC.js:118-129 | The key is a new object, so the lookup always misses. Every call issues one getUniformLocation and then the setter "uniform" + type with that location. Each call adds exactly one cache entry, under the new key, and keeps every old entry. |
| GLC.Lookups | src/context/GLC.js:123 | The counting measure for uniform-location lookups of one (program, name) pair in a log, which the setUniform contracts are stated in. |
| GLC.LookupsConcat | src/context/GLC.js:123 | Lookup counts add up over concatenated logs. |
| GLC.SetUniformTwiceAsWritten | src/context/GLC.js:120-124 | Two calls for the same (program, name) perform two lookups and add two cache entries. |
| GLC.ValueKeyedUniforms.SetUniform | src/context/GLC.js:119-128 | With a value-keyed cache, the location is looked up only on a miss and then cached. The setter always gets the driver's location, and the cache stays consistent with the driver. |
| GLC.SetUniformTwiceIntended | src/context/GLC.js:119-124 | With a value-keyed cache, two calls for one pair perform at most one lookup, and none when the pair was already cached. |
| GLC.GLCommander.Draw | src/context/GLC.js:132-134 | Exactly drawArrays(TRIANGLES, 0, n) is issued, and no commander field changes. |

## Left out

- `clear` (src/context/GLC.js:22-25) is not modelled. It only forwards colour components to `clearColor` and `clear`.
- The `Float32Array` conversion in `createBuffer` is not modelled. The data is a sequence of reals, uploaded as given.
- `console.error` diagnostics are not modelled. Only the info-log reads they trigger appear in the call log.
- The exported singleton (src/context/GLC.js:143-144) is not modelled. The model works with any one commander.
- Floating-point arithmetic is not modelled. Values and bounds are exact reals, so `Math.random() * 0.01` is the real product.
- `isInitialized` and `getGL` are plain getters without their own rows. `Init` states what they return afterwards.
- Calls before `init` are not modelled. Every commander method that uses the context requires one to be bound; the original throws a TypeError there.
- GLC.GLCommander.SetUniform does not model an unknown setter name. `this.gl["uniform" + type]` throws when no such setter exists; the model records the setter name as given.
- WebGL.Context models only what this layer observes. That is object handles in creation order, shader sources and compile status, a program's attached shaders and its link and validate status, and the call log. Real WebGL also raises errors for invalid handles, which the model treats as no-ops.
- SetShaderProgram, SetAttribLayout and SetUniform take a `program` handle, a natural number, so the -1 a failed createShaderProgram returns cannot be passed on. The original hands it straight to WebGL (src/context/GLC.js:92, 111, 123), where it raises a TypeError.
- WebGL.Context.AttachShader stores a snapshot of the shader. Recompiling a shader after attaching it does not update the program. createShaderProgram never does this.
- A failed createShaderProgram leaves its two shaders, and a program that failed to link or validate, in the context: src/context/GLC.js:44-75 never deletes them. GLC.GLCommander.CreateShaderProgram states exactly what stays.
- The default tree's key order is not modelled: a Dafny map has none.
- src/App.js, the UI that reads the tree and drives the commander, is not part of this model.

## Findings

| source | as written | input that shows it | evidently intended | confidence | as-written member | corrected member |
|---|---|---|---|---|---|---|
| src/context/ControllerAttributes.js:5-6 | The frequency default is `Math.random() * 0.01`, with min 0.0000001 | `Math.random()` returns 0 (any draw below 0.00001) | The default lies within [min, max], like every other default | not executed | ControllerAttributes.FrequencyBelowMinimum | ControllerAttributes.IntendedDefaultAttributes |
| src/context/GLC.js:120-124 | The cache key is a new `{ program, name }` object, and a Map compares object keys by identity | Two setUniform calls with the same program and name | The comment at line 119: look the location up once per (program, name) and reuse it | not executed | GLC.SetUniformTwiceAsWritten | GLC.SetUniformTwiceIntended |
