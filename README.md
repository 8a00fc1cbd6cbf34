# Compute shader binding bookkeeping

A `ComputeShader` (main.js) runs a fragment shader over a full-screen
triangle. Its inputs are float textures. Each input is bound under a name
to a texture unit. This project models the bookkeeping that decides which
input sits on which unit and which uniform gets which value. The GL
itself is not modelled: its objects become opaque handles, and the calls
the shader makes become a returned trace of commands.

The model covers:

- **The texture-slot allocator** (`Slots`): a counter `textureId` and a
  free-list `ids` used as a stack. A slot id is a number or `null`,
  because removeInput pushes whatever the buffer record holds.
- **The input registry as a value** (`Registry`):
  - the `inputs` object: a map plus its key order, because `for..in`
    visits keys in insertion order;
  - its hand-kept `length`;
  - `inputInfo`, the per-name slot id and uniform locations.
  - The functions `Attach`, `Detach`, `Release` and `Reset` compute the
    state addInput, removeInput, the corrected remove and clearInputs
    leave; `DetachIfBound` and `DetachPrefix` compute the state after one
    and after the first n steps of clearInputs' loop. A lemma beside each
    states what it does to the bound names, slot ids and allocator.
  - Three invariants are stated over that value: `WellFormed`,
    `CountTracksLive` and `ConsistentSlots`. Lemmas say which operation
    keeps or breaks each one.
- **The shader** (`ComputeShaders.ComputeShader`): a class whose fields
  are the source's fields.
  - Its methods update those fields in place.
  - Each method's contract ties the new state to the matching registry
    function through `Snapshot()`.
  - `run` and `initializeInputs` return their command traces. Lemmas
    relate those traces to the bound inputs.
  - Buffer and uniform records are classes, because swapTextures and
    updateUniform change records the shader's maps still refer to. This
    sharing is how ping-pong works.
- **Scenarios** (`Scenarios`): small programs that build a shader and
  drive it, one behaviour each.

## Model

| member | source | states |
|---|---|---|
| ComputeShaders.ConstructorGuard | main.js:9-11 | The shader is built exactly when a context exists and the width and height are positive. The three errors are checked in source order. |
| ComputeShaders.ComputeShader.constructor | main.js:37-42 | A new shader has a zero counter, an empty free-list, no inputs, `length` 0, no slot info and no uniforms. This state satisfies all three registry invariants. |
| ComputeShaders.ComputeShader.Create | main.js:8-42 | Fails exactly as the guard says, with the guard's error. Otherwise it returns a fresh shader in the constructor's state. |
| Slots.Allocate | main.js:96 | Pops the top of a non-empty free-list and leaves the counter alone. With an empty free-list, it hands out the counter and increments it. |
| Slots.AllocateUndoesRelease | main.js:96 | Pushing a value and then allocating hands that value straight back and restores the allocator. |
| Slots.FreshAllocationsAreSequential | main.js:96 | With an empty free-list, n allocations hand out counter, counter+1, ..., counter+n-1 in order. They leave the free-list empty and the counter n higher. |
| Slots.ReleasedIdsComeBackReversed | main.js:96 | Values pushed onto the free-list come back last-in first-out. The free-list underneath is restored and the counter is untouched. |
| Registry.AttachBindsOnlyItsName | main.js:90-102 | `Attach` binds the buffer under its name and counts it. The slot id is the top of the free-list when there is one, and otherwise the counter, which then moves on. The given locations are recorded, and no other name's binding or slot id changes. |
| Registry.DetachUnbindsOnlyItsName | main.js:103-110 | `Detach` keeps the name's key but makes it hold null. It nulls the slot info and decrements the count. The next allocation returns the pushed id and restores the allocator. No other name's binding or slot id changes. |
| Registry.ReleaseHandsBackItsSlot | main.js:103-110 | With the corrected push, `Release` unbinds the name, and the next allocation returns exactly the slot id that name held. |
| Registry.ResetClearsEverything | main.js:125-127 | `Reset` leaves nothing bound, `length` 0, an empty key order and an allocator that hands out 0 next. Every name that had slot info keeps it, all null. |
| Registry.PoppedIdIsUnused | main.js:96 | When slot ids are consistent, the id on top of the free-list is held by no bound name. |
| Registry.AttachKeepsWellFormed | main.js:90-102 | Binding a name that is not bound keeps every invariant of `WellFormed`: each key listed once in order, a bound name holding its own buffer and slot info, and unbound slot info all null. The bound set grows by exactly that name. |
| Registry.AttachKeepsCount | main.js:100-101 | Binding a name that is not bound keeps `length` equal to the number of bound names. |
| Registry.AttachKeepsSlotsConsistent | main.js:94-96 | Binding to the allocated id keeps slot ids distinct, below the counter and disjoint from the free-list. Bound ids plus free-list still account for every id handed out. |
| Registry.DetachKeepsWellFormed | main.js:106-108 | Detaching a name that has slot info keeps `WellFormed`, whatever is pushed. The bound set loses exactly that name. |
| Registry.DetachBoundKeepsCount | main.js:108-109 | Detaching a bound name keeps `length` equal to the number of bound names. |
| Registry.DetachUnboundBreaksCount | main.js:104-109 | Detaching a name that is not bound (it only warns) still decrements `length`, leaving it one below the number of bound names. |
| Registry.DetachPushingNullBreaksSlots | main.js:106 | Pushing the record's own id, which is null, breaks slot consistency from any state. The next allocation hands out null. |
| Registry.ReleaseKeepsSlotsConsistent | main.js:103-110 | Giving back the id recorded for a bound name keeps slot ids consistent. |
| Registry.ReleaseThenAttachReusesSlot | main.js:90-110 | After a release, the next addInput gets the released name's slot id, and the allocator is back where it was before the release. |
| Registry.DetachIfBoundKeepsWellFormed | main.js:121-124 | One step of clearInputs (`DetachIfBound`) keeps `WellFormed`, the key order and the names with slot info. It unbinds the visited name and binds nothing new. |
| Registry.DetachPrefixKeepsWellFormed | main.js:121-124 | After the loop has visited the first n keys (`DetachPrefix`), the registry is well formed with the same key order and slot-info names, and every visited name is unbound. |
| Registry.UnboundOrderMeansAllCleared | main.js:121-125 | Once no key in the key order is bound, no name is bound and every name's slot info is all null. |
| Registry.DetachAllThenResetIsReset | main.js:120-128 | Walking every key through removeInput, then emptying `inputs`, the count and the allocator, gives exactly `Reset`. The slot info left behind is all null for every name ever added. |
| Registry.ResetRestoresInvariants | main.js:125-127 | The state clearInputs leaves satisfies all three invariants. |
| Registry.LiveKeys | main.js:71-73 | The bound names among a key list, in order. Every entry is bound, and there are no more entries than keys. |
| Registry.LiveKeysMembers | main.js:71-73 | A name is among `LiveKeys` exactly when it is listed and bound. |
| Registry.LiveKeysOfOrder | main.js:71-73 | In a well-formed registry the key order visits every bound name exactly once. |
| ComputeShaders.ComputeShader.AddInput | main.js:90-102 | A bound name throws "already taken" and changes nothing. Otherwise the new state is `Attach` of the old one, and the registry stays well formed. |
| ComputeShaders.ComputeShader.RemoveInput | main.js:103-110 | As written: warns exactly when the name is not bound, then pushes the record's own id. A name with no slot info throws a TypeError after the push. Otherwise the new state is `Detach` with that id. |
| ComputeShaders.ComputeShader.ReleaseInput | main.js:103-110 | As evidently intended: a name that is not bound only warns and changes nothing. Otherwise the new state is `Release`, which gives back the recorded id. |
| ComputeShaders.ComputeShader.RemoveEach | main.js:121-124 | clearInputs' loop: after passing every bound entry, in key order, to removeInput, the state is the old one with every key detached, and still well formed. The loop invariant is that the state equals the old state with the first i keys detached. |
| ComputeShaders.ComputeShader.ClearInputs | main.js:120-128 | After removing every bound name and resetting, the state is `Reset` of the old one, and all three invariants hold. |
| ComputeShaders.ComputeShader.Run | main.js:70-80 | The trace is, for each bound name in key order, select TEXTURE0 + its slot id and bind its current texture; then one draw of three vertices. |
| ComputeShaders.ComputeShader.BindCommandsPerInput | main.js:71-77 | The binding trace holds two commands per bound name, in key order: the unit from its slot id, then its buffer's texture. |
| ComputeShaders.ComputeShader.DistinctUnits | main.js:75 | When slot ids are consistent, `run` never selects the same texture unit for two bound inputs. |
| ComputeShaders.ComputeShader.InitializeInputs | main.js:111-119 | The trace is, for each bound name in key order, its slot id sent to its sampler location and its buffer's width and height sent to its dimensions location. |
| ComputeShaders.ComputeShader.InitCommandsPerInput | main.js:112-118 | The initialisation trace holds two commands per bound name, in key order, with that name's locations, slot id and shape. |
| ComputeShaders.ComputeShader.EmittersCoverCount | main.js:70-119 | When `length` tracks the bound names, `run` and `initializeInputs` each issue two commands per counted input, and every bound name is visited. |
| ComputeShaders.ComputeShader.AddUniform | main.js:130-133 | The uniform is stored under its name, replacing any earlier one, and its location is recorded. A new name is appended to the key order. |
| ComputeShaders.ComputeShader.ClearUniforms | main.js:139-141 | Only the number 0 is written under the key `length`. Nothing is removed, and afterwards not every key holds a uniform. |
| ComputeShaders.ComputeShader.UniformCommandsPerUniform | main.js:135-137 | When every key holds a uniform, the uniform trace has one command per key, in key order: the setter its suffix names, with that key's location and the uniform's current data. |
| ComputeShaders.ComputeShader.InitializeUniforms | main.js:134-138 | Sets each uniform in key order with its suffix, location and data. It throws a TypeError exactly when some key holds the number 0, after setting the keys before it. Every suffix is taken to name a setter (see "Left out"). |
| ComputeShaders.ComputeShader.CreateInput | main.js:183-211 | `length` is refused as a name. Without a context the call throws. Otherwise it returns a fresh record with the given name, shape, format and handles, and null id and locations. |
| ComputeShaders.ComputeShader.UpdateInput | main.js:212-215 | Binds the record's current texture and uploads at the record's format and shape. After a swap this is the partner's old texture; `Scenarios.UploadAfterSwap` shows the upload lands in the texture `run` binds at the record's unit. |
| ComputeShaders.ComputeShader.UpdateUniform | main.js:225-227 | The uniform's data becomes the new value. |
| ComputeShaders.ComputeShader.SwapTextures | main.js:233-242 | A missing operand throws and changes neither record. Otherwise the two records exchange texture and framebuffer and nothing else. |
| Records.Buffer.constructor | main.js:195-205 | The record literal of createInput, with null id and locations. |
| Records.Uniform.constructor | main.js:216-224 | createUniform's record: name, setter suffix and data as given. |
| Scenarios.FreshIdsInOrder | main.js:96 | Three inputs added to a new shader get slot ids 0, 1 and 2. |
| Scenarios.RemovedIdComesBackNull | main.js:90-110 | As written, the input added after a removal gets a null slot id. `run` then selects TEXTURE0 for it and for the input holding slot 0. |
| Scenarios.ReleasedIdIsReused | main.js:90-110 | With the corrected remove, the input added after removing the one on slot 1 gets slot 1. |
| Scenarios.DoubleRemoveDrifts | main.js:104-109 | Removing the same input twice warns the second time and leaves `length` at -1. |
| Scenarios.ClearRestartsSlots | main.js:120-128 | After clearInputs the next input gets slot 0 and `length` is 1. |
| Scenarios.DuplicateNameRefused | main.js:91 | A second buffer under a bound name throws "already taken", and the first stays bound. |
| Scenarios.ClearedUniformsThrow | main.js:134-141 | After clearUniforms, initializeUniforms sets the uniform before `length`, then throws. |
| Scenarios.PingPong | main.js:233-242 | Swapping two bound buffers makes `run` bind each unit to the other buffer's texture. |
| Scenarios.UploadAfterSwap | main.js:212-215 | After swapping a and b, updateInput on a binds and uploads into b's old texture. `run` now binds that texture at a's unit, TEXTURE0. |
| Scenarios.SwapTwiceRestores | main.js:233-242 | Swapping the same two records twice restores the texture and framebuffer of both. |

## Left out

- `use`, `read`, `clear`, `readInput`, `testInformation`, the output texture, `createShader`, `createProgram`, `createContext` and `useContext`: these are GL and DOM calls with no bookkeeping. Program compilation and linking are assumed to succeed, and the program is an opaque handle.
- The GL work of the constructor (vertex buffer, attribute pointer, output texture) and of createInput (texture parameters, framebuffer attachment, viewport) is not traced. Only the handles the records keep are modelled.
- Texture contents, `Float32Array` data and the `type` lookup `gl[type]`: formats are kept as strings, and uniform data as reals or sequences of reals, never interpreted.
- Uniform locations come from `getUniformLocation` in the GL. They are parameters of AddInput and AddUniform (`None` for a name the program lacks).
- The second check in addInput (line 92) reads `.shader` on a truthy entry, which the first check has already refused. It can never fire, so it is not modelled. Likewise `input.shader`, which is only ever written null.
- `inputInfo.length`: set to 0 and never read or updated, so it is not modelled.
- JavaScript key order puts integer-like keys (such as "0") before other keys. The model keeps plain insertion order.
- The `length` key of `inputs` is kept as the separate field `inputCount`, and the name `length` is excluded by type: createInput refuses it, so no record can carry it.
- Records.Buffer.constructor: `id`, `location` and `dimensionsLocation` are constant. The library never writes them, and a caller that does is outside the model.
- Run, InitializeInputs: `TEXTURE0 + null` and `uniform1i(loc, null)` are modelled as 0, JavaScript's numeric conversion of null. A buffer whose slot info is missing is outside `WellFormed`.
- The bound on slot ids by the device's number of texture units: the source never checks it, so it is not modelled.
- A buffer attached to two shaders at once: the ownership marker that would refuse this is never set (see line 92 above), so each shader's registry is modelled on its own.
- ComputeShaders.ComputeShader.InitializeUniforms: every registered suffix is taken to name a `gl.uniform*` setter. A suffix that names none (a uniform created with type `bogus`) makes line 136 throw a TypeError in the source, but here it yields `Pass` and a `SetUniform` command.
- ComputeShaders.ComputeShader.AddInput: names that every JavaScript object inherits (`toString`, `constructor`, `__proto__`, ...) are truthy at line 91 even on an empty `inputs`, so the source refuses them as "already taken". The model sees only own keys and binds them.
- ComputeShaders.ConstructorGuard: width and height are integers. The source's `+width <= 0` and `+height <= 0` (lines 10-11) also let through NaN and fractional sizes, which are outside the model.
- ComputeShaders.ComputeShader.CreateInput: the default format `'RGBA'` (line 183) is not modelled. The format is a required argument.
- Uniform names are not excluded from `length`. As in the source, a uniform called `length` is overwritten by clearUniforms.

## Findings

The source itself shows what these two lines are for:

- addInput pops the free-list before it touches the counter (line 96), so
  removeInput's push (line 106) is meant to hand a detached input's slot
  id to the next input.
- The warning at line 104 treats removing an unbound name as a caller's
  mistake.
- The hand-kept `inputs.length` (lines 39, 101, 109) is only of use if it
  counts the bound entries.

The code as written breaks both. The model follows the code in
`RemoveInput` and `Detach`, and proves both properties for the corrected
`ReleaseInput` and `Release`.

| source | as written | input that shows it | evidently intended | confidence | as-written member | corrected member |
|---|---|---|---|---|---|---|
| main.js:106 | removeInput pushes `input.id`. This field is set to null by createInput and never written: addInput records ids in `inputInfo`. | Add a and b, remove b, add c. c gets slot id null, and `run` selects TEXTURE0 for both a (slot 0) and c. | Push `this.inputInfo[name].id`, the id recorded for the name. | not executed | Registry.DetachPushingNullBreaksSlots, Scenarios.RemovedIdComesBackNull | ComputeShaders.ComputeShader.ReleaseInput, Registry.ReleaseKeepsSlotsConsistent, Scenarios.ReleasedIdIsReused |
| main.js:104-109 | When the name is not bound, removeInput only warns, then still pushes and decrements `length`. | Add a, remove a twice. `length` becomes -1 while no input is bound. | Return after the warning and change nothing. | not executed | Registry.DetachUnboundBreaksCount, Scenarios.DoubleRemoveDrifts | ComputeShaders.ComputeShader.ReleaseInput, Registry.DetachBoundKeepsCount |
