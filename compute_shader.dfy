/**
 * The binding bookkeeping of a `ComputeShader`: the texture-slot allocator,
 * the name registry of input buffers, the uniform registry, the record
 * operations on buffers and uniforms, and the commands the binding
 * emitters issue.
 */
module ComputeShaders {
  import opened Wrappers
  import opened Slots
  import opened WebGl
  import opened Records
  import opened Registry

  /** The checks the constructor makes before touching the GL, in their order. */
  function ConstructorGuard(contextPresent: bool, width: int, height: int): (r: Outcome<Exception>)
    ensures r == Pass <==> contextPresent && width > 0 && height > 0
    ensures !contextPresent ==> r == Fail(NoContext)
    ensures contextPresent && width <= 0 ==> r == Fail(NoWidth)
    ensures contextPresent && width > 0 && height <= 0 ==> r == Fail(NoHeight)
  {
    if !contextPresent then Fail(NoContext)
    else if width <= 0 then Fail(NoWidth)
    else if height <= 0 then Fail(NoHeight)
    else Pass
  }

  class ComputeShader {
    const width: int
    const height: int
    const program: nat

    /** The slot counter and the free-list of released slot values. */
    var textureId: nat
    var ids: seq<SlotId>

    /** The `inputs` object: name to buffer, `null` once detached; its keys in insertion order. */
    var inputs: map<InputName, Buffer?>
    var inputOrder: seq<InputName>
    /** `inputs.length`, maintained by hand. */
    var inputCount: int
    var inputInfo: map<InputName, SlotInfo>

    /** The `uniforms` object, its key order, and `uniformsInfo` (name to location). */
    var uniforms: map<string, UniformEntry>
    var uniformOrder: seq<string>
    var uniformsInfo: map<string, Option<nat>>

    /** The input registry's fields, as one value. */
    function Snapshot(): InputRegistry
      reads this`textureId, this`ids, this`inputs, this`inputOrder, this`inputCount, this`inputInfo
    {
      InputRegistry(textureId, ids, inputs, inputOrder, inputCount, inputInfo)
    }

    /** The shape every input method keeps. */
    ghost predicate Valid()
      reads this`textureId, this`ids, this`inputs, this`inputOrder, this`inputCount, this`inputInfo
    {
      WellFormed(Snapshot())
    }

    /** The shape every uniform method keeps. */
    ghost predicate UniformsValid()
      reads this`uniforms, this`uniformOrder, this`uniformsInfo
    {
      UniformsWellFormed(uniforms, uniformOrder, uniformsInfo)
    }

    /** The fields the constructor initialises once its guards pass. */
    constructor (width: int, height: int, program: nat)
      requires width > 0 && height > 0
      ensures Valid() && UniformsValid() && CountTracksLive(Snapshot()) && ConsistentSlots(Snapshot())
      ensures this.width == width && this.height == height && this.program == program
      ensures textureId == 0 && ids == []
      ensures inputs == map[] && inputOrder == [] && inputCount == 0 && inputInfo == map[]
      ensures uniforms == map[] && uniformOrder == [] && uniformsInfo == map[]
    {
      this.width := width;
      this.height := height;
      this.program := program;
      textureId := 0;
      ids := [];
      inputs := map[];
      inputOrder := [];
      inputCount := 0;
      inputInfo := map[];
      uniforms := map[];
      uniformOrder := [];
      uniformsInfo := map[];
      new;
      assert LiveSet(inputs) == {};
    }

    /** `new ComputeShader(source, width, height)`: the guards, then a fresh shader. */
    static method Create(contextPresent: bool, width: int, height: int, program: nat)
      returns (r: Result<ComputeShader, Exception>)
      ensures r.Failure? <==> ConstructorGuard(contextPresent, width, height).Fail?
      ensures r.Failure? ==> r.error == ConstructorGuard(contextPresent, width, height).error
      ensures r.Success? ==>
        && fresh(r.value) && r.value.Valid() && r.value.UniformsValid()
        && CountTracksLive(r.value.Snapshot()) && ConsistentSlots(r.value.Snapshot())
        && r.value.width == width && r.value.height == height && r.value.program == program
        && r.value.textureId == 0 && r.value.ids == []
        && r.value.inputs == map[] && r.value.inputOrder == [] && r.value.inputCount == 0 && r.value.inputInfo == map[]
        && r.value.uniforms == map[] && r.value.uniformOrder == [] && r.value.uniformsInfo == map[]
    {
      var guard := ConstructorGuard(contextPresent, width, height);
      if guard.Fail? {
        return Failure(guard.error);
      }
      var shader := new ComputeShader(width, height, program);
      r := Success(shader);
    }

    /**
     * addInput: refuse a name that is bound; otherwise take a slot id from
     * the allocator, record the uniform locations looked up for the name,
     * bind the buffer and count it.
     */
    method AddInput(input: Buffer, location: Option<nat>, dimensionsLocation: Option<nat>)
      returns (r: Outcome<Exception>)
      requires Valid()
      modifies this`textureId, this`ids, this`inputs, this`inputOrder, this`inputCount, this`inputInfo
      ensures Valid()
      ensures old(Live(inputs, input.name)) ==> r == Fail(NameTaken(input.name)) && Snapshot() == old(Snapshot())
      ensures !old(Live(inputs, input.name)) ==>
        r == Pass && Snapshot() == Attach(old(Snapshot()), input, location, dimensionsLocation)
    {
      if Live(inputs, input.name) {
        return Fail(NameTaken(input.name));
      }
      AttachKeepsWellFormed(Snapshot(), input, location, dimensionsLocation);
      var a := Allocate(ids, textureId);
      ids, textureId, inputInfo, inputOrder, inputs, inputCount :=
        a.free, a.counter, inputInfo[input.name := SlotInfo(a.id, location, dimensionsLocation)],
        OrderAfterWrite(inputOrder, inputs, input.name), inputs[input.name := input], inputCount + 1;
      r := Pass;
    }

    /**
     * removeInput, as written: warn when the name is not bound, push the
     * record's own `id` field, then null the name's slot info and entry
     * and decrement the count. When the name never had slot info, the
     * push happens and the write to its slot info throws.
     */
    method RemoveInput(input: Buffer) returns (r: Outcome<Exception>, warned: bool)
      requires Valid()
      modifies this`ids, this`inputs, this`inputOrder, this`inputCount, this`inputInfo
      ensures Valid()
      ensures warned == !old(Live(inputs, input.name))
      ensures input.name !in old(inputInfo) ==>
        r == Fail(TypeError) && Snapshot() == old(Snapshot()).(ids := old(ids) + [input.id])
      ensures input.name in old(inputInfo) ==>
        r == Pass && Snapshot() == Detach(old(Snapshot()), input.name, input.id)
    {
      warned := !(Live(inputs, input.name));
      ids := ids + [input.id];
      if input.name !in inputInfo {
        return Fail(TypeError), warned;
      }
      DetachKeepsWellFormed(old(Snapshot()), input.name, input.id);
      inputInfo := inputInfo[input.name := Cleared];
      inputOrder := OrderAfterWrite(inputOrder, inputs, input.name);
      inputs := inputs[input.name := null];
      inputCount := inputCount - 1;
      r := Pass;
    }

    /**
     * removeInput as evidently intended: give back the slot id the shader
     * recorded for the name, and change nothing when the name is not bound.
     */
    method ReleaseInput(input: Buffer) returns (warned: bool)
      requires Valid()
      modifies this`ids, this`inputs, this`inputCount, this`inputInfo
      ensures Valid()
      ensures warned == !old(Live(inputs, input.name))
      ensures warned ==> Snapshot() == old(Snapshot())
      ensures !warned ==> Snapshot() == Release(old(Snapshot()), input.name)
    {
      if !(Live(inputs, input.name)) {
        return true;
      }
      warned := false;
      DetachKeepsWellFormed(Snapshot(), input.name, SlotOf(inputInfo, input.name));
      ids := ids + [inputInfo[input.name].id];
      inputInfo := inputInfo[input.name := Cleared];
      inputs := inputs[input.name := null];
      inputCount := inputCount - 1;
    }

    /**
     * The loop of clearInputs: walk the key order and pass every bound
     * buffer to removeInput.
     */
    method RemoveEach()
      requires Valid()
      modifies this`ids, this`inputs, this`inputOrder, this`inputCount, this`inputInfo
      ensures Valid() && textureId == old(textureId)
      ensures Snapshot() == DetachPrefix(old(Snapshot()), |old(inputOrder)|)
    {
      var i := 0;
      while i < |inputOrder|
        invariant i <= |old(inputOrder)|
        invariant Snapshot() == DetachPrefix(old(Snapshot()), i)
        decreases |old(inputOrder)| - i
      {
        DetachPrefixKeepsWellFormed(old(Snapshot()), i);
        var input := inputs[inputOrder[i]];
        if input != null {
          var _, _ := RemoveInput(input);
        }
        i := i + 1;
      }
      DetachPrefixKeepsWellFormed(old(Snapshot()), i);
      assert i == |old(inputOrder)|;
    }

    /**
     * clearInputs: detach every bound name (through removeInput), then
     * replace `inputs` by an empty object and reset the allocator. The slot
     * info of every name ever added stays behind, all null.
     */
    method ClearInputs()
      requires Valid()
      modifies this`textureId, this`ids, this`inputs, this`inputOrder, this`inputCount, this`inputInfo
      ensures Valid()
      ensures Snapshot() == Reset(old(Snapshot()))
    {
      ghost var before := Snapshot();
      RemoveEach();
      DetachAllThenResetIsReset(before);
      ResetRestoresInvariants(before);
      inputs, inputOrder, inputCount, textureId, ids := map[], [], 0, 0, [];
    }

    /** What `run` issues for one key of `inputs`. */
    function BindStep(name: InputName): seq<Command>
      reads this, inputs.Values
    {
      if Live(inputs, name) then
        assert inputs[name] in inputs.Values;
        [ActiveTexture(TEXTURE0 + NumberValue(SlotOf(inputInfo, name))), BindTexture(inputs[name].texture)]
      else []
    }

    /** What `run` issues for the keys `keys`, before its draw call. */
    function BindCommands(keys: seq<InputName>): seq<Command>
      reads this, inputs.Values
    {
      if keys == [] then [] else BindCommands(keys[..|keys| - 1]) + BindStep(keys[|keys| - 1])
    }

    /**
     * run: for every bound name, in key order, select texture unit
     * TEXTURE0 + its slot id and bind its buffer's current texture; then
     * draw the full-screen triangle once.
     */
    method Run() returns (cmds: seq<Command>)
      requires Valid()
      ensures cmds == BindCommands(inputOrder) + [DrawArrays(TRIANGLES, 0, 3)]
    {
      cmds := [];
      var i := 0;
      while i < |inputOrder|
        invariant 0 <= i <= |inputOrder|
        invariant cmds == BindCommands(inputOrder[..i])
      {
        var input := inputs[inputOrder[i]];
        if input != null {
          var info := inputInfo[input.name];
          cmds := cmds + [ActiveTexture(TEXTURE0 + NumberValue(info.id)), BindTexture(input.texture)];
        }
        assert inputOrder[..i + 1][..i] == inputOrder[..i];
        i := i + 1;
      }
      assert inputOrder[..i] == inputOrder;
      cmds := cmds + [DrawArrays(TRIANGLES, 0, 3)];
    }

    /**
     * The binding trace holds two commands per bound name, in key order:
     * the unit TEXTURE0 + its slot id, then its buffer's current texture.
     */
    lemma {:induction false} BindCommandsPerInput(keys: seq<InputName>)
      ensures |BindCommands(keys)| == 2 * |LiveKeys(inputs, keys)|
      ensures forall j | 0 <= j < |LiveKeys(inputs, keys)| ::
        && BindCommands(keys)[2 * j] ==
             ActiveTexture(TEXTURE0 + NumberValue(SlotOf(inputInfo, LiveKeys(inputs, keys)[j])))
        && BindCommands(keys)[2 * j + 1] == BindTexture(inputs[LiveKeys(inputs, keys)[j]].texture)
    {
      if keys != [] {
        var init, last := keys[..|keys| - 1], keys[|keys| - 1];
        BindCommandsPerInput(init);
        var live, cmds := LiveKeys(inputs, init), BindCommands(init);
        var all, full := LiveKeys(inputs, keys), BindCommands(keys);
        assert all == live + (if Live(inputs, last) then [last] else []);
        assert full == cmds + BindStep(last);
        forall j | 0 <= j < |all|
          ensures full[2 * j] == ActiveTexture(TEXTURE0 + NumberValue(SlotOf(inputInfo, all[j])))
          ensures full[2 * j + 1] == BindTexture(inputs[all[j]].texture)
        {
          if j < |live| {
            assert all[j] == live[j] && full[2 * j] == cmds[2 * j] && full[2 * j + 1] == cmds[2 * j + 1];
          } else {
            assert all[j] == last;
          }
        }
      }
    }

    /**
     * When slot ids are consistent, `run` binds no two bound buffers to the
     * same texture unit.
     */
    lemma DistinctUnits()
      requires Valid() && ConsistentSlots(Snapshot())
      ensures |BindCommands(inputOrder)| == 2 * |LiveKeys(inputs, inputOrder)|
      ensures forall i, j | 0 <= i < j < |LiveKeys(inputs, inputOrder)| ::
        BindCommands(inputOrder)[2 * i] != BindCommands(inputOrder)[2 * j]
    {
      BindCommandsPerInput(inputOrder);
      DistinctLiveKeys(inputs, inputOrder);
      var live := LiveKeys(inputs, inputOrder);
      forall i, j | 0 <= i < j < |live|
        ensures BindCommands(inputOrder)[2 * i] != BindCommands(inputOrder)[2 * j]
      {
        assert Live(inputs, live[i]) && Live(inputs, live[j]);
        assert SlotOf(inputInfo, live[i]) != SlotOf(inputInfo, live[j]);
      }
    }

    /** What `initializeInputs` issues for one key of `inputs`. */
    function InitStep(name: InputName): seq<Command>
      reads this, inputs.Values
    {
      if Live(inputs, name) then
        var info := InfoOf(inputInfo, name);
        [Uniform1i(info.location, NumberValue(info.id)),
         Uniform2fv(info.dimensionsLocation, inputs[name].width, inputs[name].height)]
      else []
    }

    /** What `initializeInputs` issues for the keys `keys`. */
    function InitCommands(keys: seq<InputName>): seq<Command>
      reads this, inputs.Values
    {
      if keys == [] then [] else InitCommands(keys[..|keys| - 1]) + InitStep(keys[|keys| - 1])
    }

    /**
     * initializeInputs: for every bound name, in key order, write its slot
     * id into its sampler uniform and its buffer's (width, height) into its
     * dimensions uniform.
     */
    method InitializeInputs() returns (cmds: seq<Command>)
      requires Valid()
      ensures cmds == InitCommands(inputOrder)
    {
      cmds := [];
      var i := 0;
      while i < |inputOrder|
        invariant 0 <= i <= |inputOrder|
        invariant cmds == InitCommands(inputOrder[..i])
      {
        var name := inputOrder[i];
        if inputs[name] != null {
          var info := inputInfo[inputs[name].name];
          cmds := cmds + [Uniform1i(info.location, NumberValue(info.id)),
                          Uniform2fv(info.dimensionsLocation, inputs[name].width, inputs[name].height)];
        }
        assert inputOrder[..i + 1][..i] == inputOrder[..i];
        i := i + 1;
      }
      assert inputOrder[..i] == inputOrder;
    }

    /**
     * The initialisation trace holds two commands per bound name, in key
     * order: its slot id for its sampler location, then its buffer's shape
     * for its dimensions location.
     */
    lemma {:induction false} InitCommandsPerInput(keys: seq<InputName>)
      ensures |InitCommands(keys)| == 2 * |LiveKeys(inputs, keys)|
      ensures forall j | 0 <= j < |LiveKeys(inputs, keys)| ::
        && InitCommands(keys)[2 * j] ==
             Uniform1i(InfoOf(inputInfo, LiveKeys(inputs, keys)[j]).location,
                       NumberValue(InfoOf(inputInfo, LiveKeys(inputs, keys)[j]).id))
        && InitCommands(keys)[2 * j + 1] ==
             Uniform2fv(InfoOf(inputInfo, LiveKeys(inputs, keys)[j]).dimensionsLocation,
                        inputs[LiveKeys(inputs, keys)[j]].width, inputs[LiveKeys(inputs, keys)[j]].height)
    {
      if keys != [] {
        var init, last := keys[..|keys| - 1], keys[|keys| - 1];
        InitCommandsPerInput(init);
        var live, cmds := LiveKeys(inputs, init), InitCommands(init);
        assert LiveKeys(inputs, keys) == live + (if Live(inputs, last) then [last] else []);
        assert InitCommands(keys) == cmds + InitStep(last);
        forall j | 0 <= j < |live|
          ensures InitCommands(keys)[2 * j] == cmds[2 * j] && InitCommands(keys)[2 * j + 1] == cmds[2 * j + 1]
          ensures LiveKeys(inputs, keys)[j] == live[j]
        {
        }
      }
    }

    /**
     * The key order visits every bound name exactly once, so each emitter
     * acts on exactly as many buffers as `inputs.length` counts.
     */
    lemma EmittersCoverCount()
      requires Valid() && CountTracksLive(Snapshot())
      ensures forall k :: k in LiveKeys(inputs, inputOrder) <==> Live(inputs, k)
      ensures |BindCommands(inputOrder)| == 2 * inputCount
      ensures |InitCommands(inputOrder)| == 2 * inputCount
    {
      LiveKeysOfOrder(Snapshot());
      BindCommandsPerInput(inputOrder);
      InitCommandsPerInput(inputOrder);
    }

    /** addUniform: register the uniform under its name (replacing any), with its looked-up location. */
    method AddUniform(uniform: Uniform, location: Option<nat>)
      requires UniformsValid()
      modifies this`uniforms, this`uniformOrder, this`uniformsInfo
      ensures UniformsValid()
      ensures uniforms == old(uniforms)[uniform.name := Registered(uniform)]
      ensures uniformsInfo == old(uniformsInfo)[uniform.name := location]
      ensures uniformOrder == (if uniform.name in old(uniforms) then old(uniformOrder) else old(uniformOrder) + [uniform.name])
    {
      if uniform.name !in uniforms {
        uniformOrder := uniformOrder + [uniform.name];
      }
      uniforms := uniforms[uniform.name := Registered(uniform)];
      uniformsInfo := uniformsInfo[uniform.name := location];
    }

    /** clearUniforms: store the number 0 under the key `length`; nothing is removed. */
    method ClearUniforms()
      requires UniformsValid()
      modifies this`uniforms, this`uniformOrder
      ensures UniformsValid()
      ensures uniforms == old(uniforms)["length" := Zero]
      ensures uniformOrder == (if "length" in old(uniforms) then old(uniformOrder) else old(uniformOrder) + ["length"])
      ensures !AllRegistered(uniformOrder)
    {
      if "length" !in uniforms {
        uniformOrder := uniformOrder + ["length"];
      }
      uniforms := uniforms["length" := Zero];
      assert "length" in uniformOrder;
    }

    /** The uniform objects the registry refers to. */
    function UniformObjects(): set<Uniform>
      reads this
    {
      set k | k in uniforms && uniforms[k].Registered? :: uniforms[k].uniform
    }

    /** True when every key among `keys` holds a uniform (none holds the number 0). */
    predicate AllRegistered(keys: seq<string>)
      reads this
    {
      forall i | 0 <= i < |keys| :: keys[i] in uniforms && uniforms[keys[i]].Registered?
    }

    /** What `initializeUniforms` issues for `keys`, up to the first key that holds no uniform. */
    function UniformCommands(keys: seq<string>): seq<Command>
      reads this, UniformObjects()
    {
      if keys == [] || keys[0] !in uniforms || uniforms[keys[0]].Zero? then []
      else
        var u := uniforms[keys[0]].uniform;
        assert u in UniformObjects();
        [SetUniform(u.suffix, if keys[0] in uniformsInfo then uniformsInfo[keys[0]] else None, u.data)]
        + UniformCommands(keys[1..])
    }

    /**
     * When every key holds a uniform, the uniform trace holds one command
     * per key, in key order: the setter its suffix names, with its
     * location and its current data.
     */
    lemma {:induction false} UniformCommandsPerUniform(keys: seq<string>)
      requires UniformsValid() && AllRegistered(keys)
      ensures |UniformCommands(keys)| == |keys|
      ensures forall j | 0 <= j < |keys| ::
        UniformCommands(keys)[j] ==
          SetUniform(uniforms[keys[j]].uniform.suffix, uniformsInfo[keys[j]], uniforms[keys[j]].uniform.data)
    {
      if keys != [] {
        assert forall j | 0 <= j < |keys| - 1 :: keys[1..][j] == keys[j + 1];
        UniformCommandsPerUniform(keys[1..]);
      }
    }

    /**
     * initializeUniforms: for every key of `uniforms`, in order, call the
     * setter its suffix names with its location and current data. The
     * number 0 stored by clearUniforms has no suffix, so reaching it calls
     * `gl.uniformundefined`, which does not exist, and throws.
     */
    method InitializeUniforms() returns (cmds: seq<Command>, r: Outcome<Exception>)
      requires UniformsValid()
      ensures r == Pass <==> AllRegistered(uniformOrder)
      ensures r != Pass ==> r == Fail(TypeError)
      ensures cmds == UniformCommands(uniformOrder)
    {
      cmds := [];
      var i := 0;
      while i < |uniformOrder|
        invariant 0 <= i <= |uniformOrder|
        invariant forall j | 0 <= j < i :: uniformOrder[j] in uniforms && uniforms[uniformOrder[j]].Registered?
        invariant cmds + UniformCommands(uniformOrder[i..]) == UniformCommands(uniformOrder)
      {
        var entry := uniforms[uniformOrder[i]];
        if entry.Zero? {
          assert UniformCommands(uniformOrder[i..]) == [];
          return cmds, Fail(TypeError);
        }
        var setter := SetUniform(entry.uniform.suffix, uniformsInfo[uniformOrder[i]], entry.uniform.data);
        assert uniformOrder[i..][1..] == uniformOrder[i + 1..];
        assert UniformCommands(uniformOrder[i..]) == [setter] + UniformCommands(uniformOrder[i + 1..]);
        cmds := cmds + [setter];
        i := i + 1;
      }
      r := Pass;
    }

    /** createInput: refuse the reserved name, then build the record around new GL handles. */
    static method CreateInput(contextPresent: bool, name: string, width: int, height: int, format: string,
                              texture: nat, frameBuffer: nat)
      returns (r: Result<Buffer, Exception>)
      ensures name == "length" ==> r == Failure(ReservedName)
      ensures name != "length" && !contextPresent ==> r == Failure(TypeError)
      ensures r.Success? <==> name != "length" && contextPresent
      ensures r.Success? ==>
        && fresh(r.value)
        && r.value.name == name && r.value.width == width && r.value.height == height && r.value.format == format
        && r.value.texture == texture && r.value.frameBuffer == frameBuffer
        && r.value.id == None && r.value.location == None && r.value.dimensionsLocation == None
    {
      if name == "length" {
        return Failure(ReservedName);
      }
      if !contextPresent {
        return Failure(TypeError);
      }
      var input := new Buffer(name, width, height, format, texture, frameBuffer);
      r := Success(input);
    }

    /** updateInput: upload new contents into the buffer's current texture, at its fixed shape. */
    static method UpdateInput(input: Buffer) returns (cmds: seq<Command>)
      ensures cmds == [BindTexture(input.texture), TexImage2D(input.format, input.width, input.height)]
    {
      cmds := [BindTexture(input.texture), TexImage2D(input.format, input.width, input.height)];
    }

    /** updateUniform: replace the uniform's data; the next initializeUniforms sends it. */
    static method UpdateUniform(uniform: Uniform, data: UniformValue)
      modifies uniform
      ensures uniform.data == data
    {
      uniform.data := data;
    }

    /**
     * swapTextures: throw when either record is missing; otherwise exchange
     * the texture and framebuffer handles of the two records and nothing else.
     */
    static method SwapTextures(a: Buffer?, b: Buffer?) returns (r: Outcome<Exception>)
      modifies a, b
      ensures a == null || b == null ==>
        && r == Fail(MissingOperand)
        && (a != null ==> unchanged(a))
        && (b != null ==> unchanged(b))
      ensures a != null && b != null ==>
        && r == Pass
        && a.texture == old(b.texture) && a.frameBuffer == old(b.frameBuffer)
        && b.texture == old(a.texture) && b.frameBuffer == old(a.frameBuffer)
    {
      if a == null || b == null {
        return Fail(MissingOperand);
      }
      var tempTex, tempFB := b.texture, b.frameBuffer;
      b.texture := a.texture;
      b.frameBuffer := a.frameBuffer;
      a.texture := tempTex;
      a.frameBuffer := tempFB;
      r := Pass;
    }
  }
}
