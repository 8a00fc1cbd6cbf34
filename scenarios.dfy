/**
 * Scenarios on a freshly built shader, one behaviour each: slot ids
 * handed out in order, the slot-id reuse that removeInput breaks and its
 * corrected form restores, the drifting `length`, the restart after
 * clearInputs, the duplicate-name refusal, the uniform registry after
 * clearUniforms, and the ping-pong swap seen through `run` and through
 * updateInput.
 */
module Scenarios {
  import opened Wrappers
  import opened Slots
  import opened WebGl
  import opened Records
  import opened Registry
  import opened ComputeShaders

  /** A shader that passed its guards, and three buffers named a, b and c. */
  method Setup() returns (s: ComputeShader, a: Buffer, b: Buffer, c: Buffer)
    ensures fresh(s) && fresh(a) && fresh(b) && fresh(c)
    ensures s.Valid() && s.UniformsValid() && s.Snapshot() == InputRegistry(0, [], map[], [], 0, map[])
    ensures s.uniforms == map[] && s.uniformOrder == [] && s.uniformsInfo == map[]
    ensures a.name == "a" && b.name == "b" && c.name == "c" && b.id == None
    ensures a.texture == 10 && b.texture == 20 && c.texture == 30
    ensures a.format == "RGBA" && a.width == 4 && a.height == 4
  {
    s := new ComputeShader(4, 4, 1);
    a := new Buffer("a", 4, 4, "RGBA", 10, 11);
    b := new Buffer("b", 4, 4, "RGBA", 20, 21);
    c := new Buffer("c", 4, 4, "RGBA", 30, 31);
  }

  /** A new shader with input a added, holding slot id 0. */
  method OneAdded() returns (s: ComputeShader, a: Buffer, b: Buffer, c: Buffer)
    ensures fresh(s) && fresh(a) && fresh(b) && fresh(c)
    ensures s.Valid() && s.UniformsValid()
    ensures s.textureId == 1 && s.ids == [] && s.inputOrder == ["a"] && s.inputCount == 1
    ensures "a" in s.inputs && s.inputs["a"] == a && "b" !in s.inputs && "c" !in s.inputs
    ensures "a" in s.inputInfo && s.inputInfo["a"] == SlotInfo(Some(0), None, None)
    ensures "b" !in s.inputInfo && "c" !in s.inputInfo
    ensures a.name == "a" && b.name == "b" && c.name == "c" && b.id == None
    ensures a.texture == 10 && b.texture == 20 && c.texture == 30
    ensures a.format == "RGBA" && a.width == 4 && a.height == 4
  {
    s, a, b, c := Setup();
    var _ := s.AddInput(a, None, None);
  }

  /** A new shader with inputs a and b added, holding slot ids 0 and 1. */
  method TwoAdded() returns (s: ComputeShader, a: Buffer, b: Buffer, c: Buffer)
    ensures fresh(s) && fresh(a) && fresh(b) && fresh(c)
    ensures s.Valid() && s.UniformsValid()
    ensures s.textureId == 2 && s.ids == [] && s.inputOrder == ["a", "b"] && s.inputCount == 2
    ensures "a" in s.inputs && s.inputs["a"] == a && "b" in s.inputs && s.inputs["b"] == b
    ensures "a" in s.inputInfo && s.inputInfo["a"] == SlotInfo(Some(0), None, None)
    ensures "b" in s.inputInfo && s.inputInfo["b"] == SlotInfo(Some(1), None, None)
    ensures "c" !in s.inputs && "c" !in s.inputInfo
    ensures a.name == "a" && b.name == "b" && c.name == "c" && b.id == None
    ensures a.texture == 10 && b.texture == 20 && c.texture == 30
    ensures a.format == "RGBA" && a.width == 4 && a.height == 4
  {
    s, a, b, c := OneAdded();
    var _ := s.AddInput(b, None, None);
  }

  /** The binding trace over two keys is the two keys' steps in order. */
  lemma BindTwo(s: ComputeShader, k1: InputName, k2: InputName)
    ensures s.BindCommands([k1, k2]) == s.BindStep(k1) + s.BindStep(k2)
  {
    assert [k1, k2][..1] == [k1] && [k1][..0] == [];
    assert s.BindCommands([k1]) == s.BindStep(k1);
  }

  /** The binding trace over three keys is the three keys' steps in order. */
  lemma BindThree(s: ComputeShader, k1: InputName, k2: InputName, k3: InputName)
    ensures s.BindCommands([k1, k2, k3]) == s.BindStep(k1) + s.BindStep(k2) + s.BindStep(k3)
  {
    assert [k1, k2, k3][..2] == [k1, k2];
    BindTwo(s, k1, k2);
  }

  /** Three inputs added to a new shader get slot ids 0, 1 and 2, in that order. */
  method FreshIdsInOrder() returns (ids: seq<SlotId>)
    ensures ids == [Some(0), Some(1), Some(2)]
  {
    var s, a, b, c := TwoAdded();
    var _ := s.AddInput(c, None, None);
    ids := [s.inputInfo["a"].id, s.inputInfo["b"].id, s.inputInfo["c"].id];
  }

  /** Inputs a and b added, then b removed as written: its own null `id` goes onto the free-list. */
  method BRemoved() returns (s: ComputeShader, a: Buffer, c: Buffer)
    ensures fresh(s) && fresh(a) && fresh(c)
    ensures s.Valid()
    ensures s.textureId == 2 && s.ids == [None] && s.inputOrder == ["a", "b"]
    ensures "a" in s.inputs && s.inputs["a"] == a && "b" in s.inputs && s.inputs["b"] == null
    ensures "c" !in s.inputs && SlotOf(s.inputInfo, "a") == Some(0)
    ensures a.name == "a" && c.name == "c" && a.texture == 10 && c.texture == 30
  {
    var b;
    s, a, b, c := TwoAdded();
    var _, _ := s.RemoveInput(b);
  }

  /** Inputs a and b added, b removed as written, then c added. */
  method RemovedThenAdded() returns (s: ComputeShader, a: Buffer, c: Buffer)
    ensures fresh(s) && fresh(a) && fresh(c)
    ensures s.Valid()
    ensures s.inputOrder == ["a", "b", "c"]
    ensures "a" in s.inputs && s.inputs["a"] == a && "b" in s.inputs && s.inputs["b"] == null
    ensures "c" in s.inputs && s.inputs["c"] == c
    ensures SlotOf(s.inputInfo, "a") == Some(0) && SlotOf(s.inputInfo, "c") == None
    ensures a.texture == 10 && c.texture == 30
  {
    s, a, c := BRemoved();
    var _ := s.AddInput(c, None, None);
  }

  /**
   * removeInput as written: the buffer record's own `id` is null, so the
   * next addInput takes null as its slot id, and `run` binds that buffer to
   * TEXTURE0, the unit input a already holds.
   */
  method RemovedIdComesBackNull() returns (reused: SlotId, trace: seq<Command>)
    ensures reused == None
    ensures trace == [ActiveTexture(TEXTURE0), BindTexture(10), ActiveTexture(TEXTURE0), BindTexture(30),
                      DrawArrays(TRIANGLES, 0, 3)]
  {
    var s, a, c := RemovedThenAdded();
    reused := s.inputInfo["c"].id;
    trace := s.Run();
    BindThree(s, "a", "b", "c");
  }

  /** With the recorded slot id given back, the next input reuses slot 1. */
  method ReleasedIdIsReused() returns (reused: SlotId)
    ensures reused == Some(1)
  {
    var s, a, b, c := TwoAdded();
    var _ := s.ReleaseInput(b);
    assert s.ids == [Some(1)];
    var _ := s.AddInput(c, None, None);
    reused := s.inputInfo["c"].id;
  }

  /** Removing the same input twice warns the second time and still decrements `length`, to -1. */
  method DoubleRemoveDrifts() returns (warned: bool, count: int)
    ensures warned && count == -1
  {
    var s, a, _, _ := Setup();
    var _ := s.AddInput(a, None, None);
    var _, _ := s.RemoveInput(a);
    var _, w := s.RemoveInput(a);
    warned, count := w, s.inputCount;
  }

  /** After clearInputs the allocator starts over: the next input gets slot 0. */
  method ClearRestartsSlots() returns (id: SlotId, count: int)
    ensures id == Some(0) && count == 1
  {
    var s, a, b, c := TwoAdded();
    s.ClearInputs();
    var _ := s.AddInput(c, None, None);
    id, count := s.inputInfo["c"].id, s.inputCount;
  }

  /** Adding a second buffer under a bound name throws and leaves the first bound. */
  method DuplicateNameRefused() returns (r: Outcome<Exception>, bound: Buffer?)
    ensures r == Fail(NameTaken("a"))
    ensures bound != null && bound.texture == 10
  {
    var s, a, _, _ := Setup();
    var other := new Buffer("a", 4, 4, "RGBA", 40, 41);
    var _ := s.AddInput(a, None, None);
    r := s.AddInput(other, None, None);
    bound := s.inputs["a"];
  }

  /** A new shader with uniform `scale` registered at location 7, then clearUniforms. */
  method UniformsCleared() returns (s: ComputeShader)
    ensures fresh(s) && s.UniformsValid()
    ensures s.uniformOrder == ["scale", "length"]
    ensures "scale" in s.uniforms && s.uniforms["scale"].Registered?
    ensures s.uniforms["scale"].uniform.suffix == "1f" && s.uniforms["scale"].uniform.data == Number(0.5)
    ensures "scale" in s.uniformsInfo && s.uniformsInfo["scale"] == Some(7)
    ensures "length" in s.uniforms && s.uniforms["length"] == Zero
  {
    var a, b, c;
    s, a, b, c := Setup();
    var u := new Uniform("scale", "1f", Number(0.5));
    s.AddUniform(u, Some(7));
    s.ClearUniforms();
  }

  /**
   * After clearUniforms the registry holds the number 0 under `length`:
   * initializeUniforms sets the uniform registered before it, then throws.
   */
  method ClearedUniformsThrow() returns (cmds: seq<Command>, r: Outcome<Exception>)
    ensures r == Fail(TypeError)
    ensures cmds == [SetUniform("1f", Some(7), Number(0.5))]
  {
    var s := UniformsCleared();
    assert ["scale", "length"][1..] == ["length"];
    assert !s.AllRegistered(["scale", "length"]);
    cmds, r := s.InitializeUniforms();
  }

  /** `run` on a shader whose bound inputs are a and b, holding slot ids 0 and 1. */
  method RunTwo(s: ComputeShader, a: Buffer, b: Buffer) returns (trace: seq<Command>)
    requires s.Valid() && s.inputOrder == ["a", "b"]
    requires "a" in s.inputs && s.inputs["a"] == a && "b" in s.inputs && s.inputs["b"] == b
    requires SlotOf(s.inputInfo, "a") == Some(0) && SlotOf(s.inputInfo, "b") == Some(1)
    ensures trace == [ActiveTexture(TEXTURE0), BindTexture(a.texture), ActiveTexture(TEXTURE0 + 1), BindTexture(b.texture),
                      DrawArrays(TRIANGLES, 0, 3)]
  {
    trace := s.Run();
    BindTwo(s, "a", "b");
  }

  /** Swapping two bound buffers changes which textures `run` binds, unit for unit. */
  method PingPong() returns (before: seq<Command>, after: seq<Command>)
    ensures before == [ActiveTexture(TEXTURE0), BindTexture(10), ActiveTexture(TEXTURE0 + 1), BindTexture(20),
                       DrawArrays(TRIANGLES, 0, 3)]
    ensures after == [ActiveTexture(TEXTURE0), BindTexture(20), ActiveTexture(TEXTURE0 + 1), BindTexture(10),
                      DrawArrays(TRIANGLES, 0, 3)]
  {
    var s, a, b, _ := TwoAdded();
    before := RunTwo(s, a, b);
    var _ := ComputeShader.SwapTextures(a, b);
    after := RunTwo(s, a, b);
  }

  /**
   * After a swap, updateInput on a record uploads into the texture it took
   * from its partner, which is the texture `run` now binds at its unit.
   */
  method UploadAfterSwap() returns (upload: seq<Command>, trace: seq<Command>)
    ensures upload == [BindTexture(20), TexImage2D("RGBA", 4, 4)]
    ensures trace == [ActiveTexture(TEXTURE0), BindTexture(20), ActiveTexture(TEXTURE0 + 1), BindTexture(10),
                      DrawArrays(TRIANGLES, 0, 3)]
  {
    var s, a, b, _ := TwoAdded();
    var _ := ComputeShader.SwapTextures(a, b);
    upload := ComputeShader.UpdateInput(a);
    trace := RunTwo(s, a, b);
  }

  /** Swapping the same two records twice puts both back as they were. */
  method SwapTwiceRestores(a: Buffer, b: Buffer)
    modifies a, b
    ensures a.texture == old(a.texture) && a.frameBuffer == old(a.frameBuffer)
    ensures b.texture == old(b.texture) && b.frameBuffer == old(b.frameBuffer)
  {
    var _ := ComputeShader.SwapTextures(a, b);
    var _ := ComputeShader.SwapTextures(a, b);
  }
}
