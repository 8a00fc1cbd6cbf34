/**
 * The input registry of a compute shader as a value: the slot allocator
 * (`textureId`, `ids`), the `inputs` object with its key order and its
 * hand-kept `length`, and `inputInfo`. The functions here compute the
 * state each registry operation leaves; the lemmas say which invariants
 * those operations keep and which they break. The shader class applies
 * these to its fields.
 */
module Registry {
  import opened Wrappers
  import opened Slots
  import opened Records

  /** True when `order` lists each element of `keys` exactly once. */
  ghost predicate ListsKeys<K>(order: seq<K>, keys: set<K>)
  {
    && (forall i, j | 0 <= i < j < |order| :: order[i] != order[j])
    && (forall k | k in order :: k in keys)
    && (forall k | k in keys :: k in order)
  }

  /** True when `name` is bound: its entry in `inputs` is a buffer, not null and not absent. */
  predicate Live(inputs: map<InputName, Buffer?>, name: InputName)
  {
    name in inputs && inputs[name] != null
  }

  /** The bound names. */
  ghost function LiveSet(inputs: map<InputName, Buffer?>): set<InputName>
  {
    set k | k in inputs && inputs[k] != null
  }

  /** The slot info recorded for `name`, or all null. */
  function InfoOf(info: map<InputName, SlotInfo>, name: InputName): SlotInfo
  {
    if name in info then info[name] else Cleared
  }

  /** The slot id recorded for `name`, or null. */
  function SlotOf(info: map<InputName, SlotInfo>, name: InputName): SlotId
  {
    InfoOf(info, name).id
  }

  /** The key order of an object after a write to `name`: a new key goes last, an existing one stays. */
  function OrderAfterWrite<V>(order: seq<InputName>, m: map<InputName, V>, name: InputName): seq<InputName>
  {
    if name in m then order else order + [name]
  }

  /** The input half of a shader's state. `count` is `inputs.length`. */
  datatype InputRegistry = InputRegistry(
    textureId: nat,
    ids: seq<SlotId>,
    inputs: map<InputName, Buffer?>,
    order: seq<InputName>,
    count: int,
    info: map<InputName, SlotInfo>)

  /**
   * The shape of the registry: the key order lists the keys of `inputs`
   * once each; a bound name holds a buffer of that name and has slot info;
   * every other name with slot info has it all null.
   */
  ghost predicate WellFormed(r: InputRegistry)
  {
    && ListsKeys(r.order, r.inputs.Keys)
    && (forall k | Live(r.inputs, k) :: r.inputs[k].name == k && k in r.info)
    && (forall k | k in r.info && !Live(r.inputs, k) :: r.info[k] == Cleared)
  }

  /** The shape of the uniform registry: a registered uniform sits under its own name and has a location. */
  ghost predicate UniformsWellFormed(uniforms: map<string, UniformEntry>, order: seq<string>,
                                     locations: map<string, Option<nat>>)
  {
    && ListsKeys(order, uniforms.Keys)
    && (forall k | k in uniforms && uniforms[k].Registered? :: uniforms[k].uniform.name == k && k in locations)
  }

  /** `inputs.length` equals the number of bound names. */
  ghost predicate CountTracksLive(r: InputRegistry)
  {
    r.count == |LiveSet(r.inputs)|
  }

  /**
   * Slot ids neither collide nor leak: every bound name holds a distinct
   * number below the counter, the free-list holds distinct numbers below
   * the counter that no bound name holds, and bound names and free-list
   * together account for every number the counter has handed out.
   */
  ghost predicate ConsistentSlots(r: InputRegistry)
  {
    && (forall k | Live(r.inputs, k) :: SlotOf(r.info, k).Some? && SlotOf(r.info, k).value < r.textureId)
    && (forall j | 0 <= j < |r.ids| :: r.ids[j].Some? && r.ids[j].value < r.textureId)
    && (forall k1, k2 | Live(r.inputs, k1) && Live(r.inputs, k2) && k1 != k2 ::
          SlotOf(r.info, k1) != SlotOf(r.info, k2))
    && (forall j1, j2 | 0 <= j1 < j2 < |r.ids| :: r.ids[j1] != r.ids[j2])
    && (forall k, j | Live(r.inputs, k) && 0 <= j < |r.ids| :: SlotOf(r.info, k) != r.ids[j])
    && |LiveSet(r.inputs)| + |r.ids| == r.textureId
  }

  /**
   * The state addInput leaves once its name check has passed: the buffer
   * gets the next slot id, its uniform locations are recorded, it is bound
   * under its name, and the count goes up.
   */
  function Attach(r: InputRegistry, b: Buffer, location: Option<nat>, dimensionsLocation: Option<nat>): InputRegistry
  {
    var a := Allocate(r.ids, r.textureId);
    InputRegistry(
      a.counter, a.free,
      r.inputs[b.name := b], OrderAfterWrite(r.order, r.inputs, b.name), r.count + 1,
      r.info[b.name := SlotInfo(a.id, location, dimensionsLocation)])
  }

  /**
   * The state removeInput leaves for a name that has slot info, when it
   * pushes `pushed` onto the free-list: the slot info is nulled, the entry
   * set to null (a new key if the name had none), and the count goes down.
   */
  function Detach(r: InputRegistry, name: InputName, pushed: SlotId): InputRegistry
  {
    InputRegistry(
      r.textureId, r.ids + [pushed],
      r.inputs[name := null], OrderAfterWrite(r.order, r.inputs, name), r.count - 1,
      r.info[name := Cleared])
  }

  /** Detaching a bound name and giving back the slot id recorded for it. */
  function Release(r: InputRegistry, name: InputName): InputRegistry
  {
    Detach(r, name, SlotOf(r.info, name))
  }

  /**
   * The state clearInputs leaves: no inputs, a zero count, a reset
   * allocator, and slot info that is all null for every name ever added.
   */
  function Reset(r: InputRegistry): InputRegistry
  {
    InputRegistry(0, [], map[], [], 0, map k | k in r.info :: Cleared)
  }

  /**
   * addInput binds the buffer under its name with the id the allocator
   * hands out (the top of the free-list, else the counter, which then
   * moves on) and the given uniform locations, and counts it; no other
   * name's binding or slot id changes.
   */
  lemma AttachBindsOnlyItsName(r: InputRegistry, b: Buffer, location: Option<nat>, dimensionsLocation: Option<nat>)
    ensures var r' := Attach(r, b, location, dimensionsLocation);
      && Live(r'.inputs, b.name) && r'.inputs[b.name] == b && r'.count == r.count + 1
      && InfoOf(r'.info, b.name) == SlotInfo(SlotOf(r'.info, b.name), location, dimensionsLocation)
      && (r.ids != [] ==> r'.ids + [SlotOf(r'.info, b.name)] == r.ids && r'.textureId == r.textureId)
      && (r.ids == [] ==> SlotOf(r'.info, b.name) == Some(r.textureId) && r'.ids == [] && r'.textureId == r.textureId + 1)
      && (forall k | k != b.name :: Live(r'.inputs, k) == Live(r.inputs, k) && SlotOf(r'.info, k) == SlotOf(r.info, k))
  {
  }

  /**
   * removeInput unbinds the name (its key stays, holding null), nulls its
   * slot info and decrements the count; the id it pushes is the one the
   * next addInput gets; no other name's binding or slot id changes.
   */
  lemma DetachUnbindsOnlyItsName(r: InputRegistry, name: InputName, pushed: SlotId)
    ensures var r' := Detach(r, name, pushed);
      && name in r'.inputs && !Live(r'.inputs, name) && r'.count == r.count - 1
      && name in r'.info && r'.info[name] == Cleared
      && Allocate(r'.ids, r'.textureId) == Allocation(pushed, r.ids, r.textureId)
      && (forall k | k != name :: Live(r'.inputs, k) == Live(r.inputs, k) && SlotOf(r'.info, k) == SlotOf(r.info, k))
  {
    AllocateUndoesRelease(r.ids, r.textureId, pushed);
  }

  /**
   * The corrected removeInput unbinds the name, and the next addInput gets
   * exactly the slot id the name held.
   */
  lemma ReleaseHandsBackItsSlot(r: InputRegistry, name: InputName)
    ensures var r' := Release(r, name);
      && !Live(r'.inputs, name) && SlotOf(r'.info, name) == None
      && Allocate(r'.ids, r'.textureId).id == SlotOf(r.info, name)
  {
    DetachUnbindsOnlyItsName(r, name, SlotOf(r.info, name));
  }

  /**
   * clearInputs leaves nothing bound, a zero count, an empty key order and
   * an allocator that starts over at 0, and keeps a null slot info for
   * every name that had one.
   */
  lemma ResetClearsEverything(r: InputRegistry)
    ensures var r' := Reset(r);
      && LiveSet(r'.inputs) == {} && r'.count == 0 && r'.order == []
      && r'.info.Keys == r.info.Keys && (forall k | k in r'.info :: r'.info[k] == Cleared)
      && Allocate(r'.ids, r'.textureId).id == Some(0)
  {
    assert LiveSet(map[]) == {};
  }

  /** Writing a key keeps the key order listing every key once. */
  lemma WriteKeepsKeyOrder<V>(order: seq<InputName>, m: map<InputName, V>, name: InputName, v: V)
    requires ListsKeys(order, m.Keys)
    ensures ListsKeys(OrderAfterWrite(order, m, name), m[name := v].Keys)
  {
    var order' := OrderAfterWrite(order, m, name);
    assert name !in m ==> name !in order;
    assert forall i | 0 <= i < |order| :: order'[i] == order[i];
  }

  /** Binding a name that is not bound keeps the registry's shape and adds exactly that name. */
  lemma AttachKeepsWellFormed(r: InputRegistry, b: Buffer, location: Option<nat>, dimensionsLocation: Option<nat>)
    requires WellFormed(r) && !Live(r.inputs, b.name)
    ensures WellFormed(Attach(r, b, location, dimensionsLocation))
    ensures LiveSet(Attach(r, b, location, dimensionsLocation).inputs) == LiveSet(r.inputs) + {b.name}
  {
    WriteKeepsKeyOrder(r.order, r.inputs, b.name, b);
    assert LiveSet(r.inputs[b.name := b]) == LiveSet(r.inputs) + {b.name};
  }

  /** Binding a name that is not bound keeps `length` equal to the number of bound names. */
  lemma AttachKeepsCount(r: InputRegistry, b: Buffer, location: Option<nat>, dimensionsLocation: Option<nat>)
    requires CountTracksLive(r) && !Live(r.inputs, b.name)
    ensures CountTracksLive(Attach(r, b, location, dimensionsLocation))
  {
    assert LiveSet(r.inputs[b.name := b]) == LiveSet(r.inputs) + {b.name};
  }

  /** Binding a name that is not bound to the id the allocator hands out keeps slot ids consistent. */
  lemma AttachKeepsSlotsConsistent(r: InputRegistry, b: Buffer, location: Option<nat>, dimensionsLocation: Option<nat>)
    requires ConsistentSlots(r) && !Live(r.inputs, b.name)
    ensures ConsistentSlots(Attach(r, b, location, dimensionsLocation))
  {
    var r' := Attach(r, b, location, dimensionsLocation);
    AttachBindsOnlyItsName(r, b, location, dimensionsLocation);
    assert LiveSet(r'.inputs) == LiveSet(r.inputs) + {b.name};
    assert b.name !in LiveSet(r.inputs);
    if |r.ids| > 0 {
      PoppedIdIsUnused(r);
    }
  }

  /** The id on top of a consistent free-list is held by no bound name. */
  lemma PoppedIdIsUnused(r: InputRegistry)
    requires ConsistentSlots(r) && |r.ids| > 0
    ensures forall k | Live(r.inputs, k) :: SlotOf(r.info, k) != Allocate(r.ids, r.textureId).id
  {
    forall k | Live(r.inputs, k)
      ensures SlotOf(r.info, k) != Allocate(r.ids, r.textureId).id
    {
      assert SlotOf(r.info, k) != r.ids[|r.ids| - 1];
    }
  }

  /**
   * Detaching a name that has slot info keeps the registry's shape and
   * removes exactly that name from the bound ones, whatever is pushed.
   */
  lemma DetachKeepsWellFormed(r: InputRegistry, name: InputName, pushed: SlotId)
    requires WellFormed(r) && name in r.info
    ensures WellFormed(Detach(r, name, pushed))
    ensures LiveSet(Detach(r, name, pushed).inputs) == LiveSet(r.inputs) - {name}
  {
    WriteKeepsKeyOrder(r.order, r.inputs, name, null);
    assert LiveSet(r.inputs[name := null]) == LiveSet(r.inputs) - {name};
  }

  /** Detaching a bound name keeps `length` equal to the number of bound names. */
  lemma DetachBoundKeepsCount(r: InputRegistry, name: InputName, pushed: SlotId)
    requires CountTracksLive(r) && Live(r.inputs, name)
    ensures CountTracksLive(Detach(r, name, pushed))
  {
    assert LiveSet(r.inputs[name := null]) == LiveSet(r.inputs) - {name};
  }

  /**
   * Detaching a name that is not bound still decrements `length`: the
   * count falls one below the number of bound names.
   */
  lemma DetachUnboundBreaksCount(r: InputRegistry, name: InputName, pushed: SlotId)
    requires CountTracksLive(r) && !Live(r.inputs, name)
    ensures Detach(r, name, pushed).count == |LiveSet(Detach(r, name, pushed).inputs)| - 1
    ensures !CountTracksLive(Detach(r, name, pushed))
  {
    assert LiveSet(r.inputs[name := null]) == LiveSet(r.inputs);
  }

  /**
   * Pushing null onto the free-list breaks slot consistency, whatever the
   * state before: the next allocation hands out null.
   */
  lemma DetachPushingNullBreaksSlots(r: InputRegistry, name: InputName)
    ensures !ConsistentSlots(Detach(r, name, None))
    ensures Allocate(Detach(r, name, None).ids, r.textureId).id == None
  {
    var ids' := Detach(r, name, None).ids;
    assert ids'[|ids'| - 1] == None;
  }

  /** Releasing a bound name keeps slot ids consistent. */
  lemma ReleaseKeepsSlotsConsistent(r: InputRegistry, name: InputName)
    requires ConsistentSlots(r) && Live(r.inputs, name)
    ensures ConsistentSlots(Release(r, name))
  {
    var r' := Release(r, name);
    assert LiveSet(r'.inputs) == LiveSet(r.inputs) - {name};
    assert name in LiveSet(r.inputs);
    forall k | Live(r'.inputs, k)
      ensures Live(r.inputs, k) && k != name && SlotOf(r'.info, k) == SlotOf(r.info, k)
    {
    }
  }

  /**
   * The slot a released name gave back is the one the next addInput hands
   * out, and the allocator is back where it was before the release.
   */
  lemma ReleaseThenAttachReusesSlot(r: InputRegistry, name: InputName, b: Buffer,
                                    location: Option<nat>, dimensionsLocation: Option<nat>)
    ensures var r' := Attach(Release(r, name), b, location, dimensionsLocation);
      && SlotOf(r'.info, b.name) == SlotOf(r.info, name)
      && r'.ids == r.ids && r'.textureId == r.textureId
  {
    AllocateUndoesRelease(r.ids, r.textureId, SlotOf(r.info, name));
  }

  /** One step of clearInputs: detach `name` through removeInput when it is bound. */
  function DetachIfBound(r: InputRegistry, name: InputName): InputRegistry
  {
    if Live(r.inputs, name) then Detach(r, name, r.inputs[name].id) else r
  }

  /**
   * The state after clearInputs has walked the first `n` keys of the key
   * order.
   */
  function DetachPrefix(r: InputRegistry, n: nat): InputRegistry
    requires n <= |r.order|
    decreases n
  {
    if n == 0 then r else DetachIfBound(DetachPrefix(r, n - 1), r.order[n - 1])
  }

  /**
   * One step of clearInputs keeps the registry's shape, its key order and
   * the names with slot info, unbinds the name, and binds nothing new.
   */
  lemma DetachIfBoundKeepsWellFormed(r: InputRegistry, name: InputName)
    requires WellFormed(r)
    ensures WellFormed(DetachIfBound(r, name))
    ensures DetachIfBound(r, name).order == r.order
    ensures DetachIfBound(r, name).info.Keys == r.info.Keys
    ensures !Live(DetachIfBound(r, name).inputs, name)
    ensures forall k | !Live(r.inputs, k) :: !Live(DetachIfBound(r, name).inputs, k)
  {
    if Live(r.inputs, name) {
      DetachKeepsWellFormed(r, name, r.inputs[name].id);
    }
  }

  /**
   * Walking a prefix of the key order keeps the registry's shape, its key
   * order and the names with slot info, and leaves every walked name unbound.
   */
  lemma {:induction false} DetachPrefixKeepsWellFormed(r: InputRegistry, n: nat)
    requires WellFormed(r) && n <= |r.order|
    ensures WellFormed(DetachPrefix(r, n))
    ensures DetachPrefix(r, n).order == r.order
    ensures DetachPrefix(r, n).info.Keys == r.info.Keys
    ensures forall j | 0 <= j < n :: !Live(DetachPrefix(r, n).inputs, r.order[j])
    decreases n
  {
    if n > 0 {
      DetachPrefixKeepsWellFormed(r, n - 1);
      DetachIfBoundKeepsWellFormed(DetachPrefix(r, n - 1), r.order[n - 1]);
    }
  }

  /**
   * Once no name in the key order is bound, no name is bound at all and
   * every name's slot info is all null.
   */
  lemma UnboundOrderMeansAllCleared(r: InputRegistry)
    requires WellFormed(r)
    requires forall j | 0 <= j < |r.order| :: !Live(r.inputs, r.order[j])
    ensures LiveSet(r.inputs) == {}
    ensures r.info == map k | k in r.info :: Cleared
  {
    forall k | k in r.inputs
      ensures !Live(r.inputs, k)
    {
      assert k in r.order;
    }
  }

  /**
   * Walking every key through removeInput and then emptying the inputs,
   * the count and the allocator gives the reset registry: the slot info
   * left behind is all null for every name ever added.
   */
  lemma DetachAllThenResetIsReset(r: InputRegistry)
    requires WellFormed(r)
    ensures Reset(r) == InputRegistry(0, [], map[], [], 0, DetachPrefix(r, |r.order|).info)
  {
    DetachPrefixKeepsWellFormed(r, |r.order|);
    UnboundOrderMeansAllCleared(DetachPrefix(r, |r.order|));
  }

  /** clearInputs leaves a registry that is well formed, correctly counted and consistent in its slots. */
  lemma ResetRestoresInvariants(r: InputRegistry)
    ensures WellFormed(Reset(r)) && CountTracksLive(Reset(r)) && ConsistentSlots(Reset(r))
  {
    assert LiveSet(map[]) == {};
  }

  /** The bound names among `keys`, in order. */
  function LiveKeys(inputs: map<InputName, Buffer?>, keys: seq<InputName>): (live: seq<InputName>)
    ensures forall j | 0 <= j < |live| :: Live(inputs, live[j])
    ensures |live| <= |keys|
  {
    if keys == [] then []
    else
      var last := keys[|keys| - 1];
      LiveKeys(inputs, keys[..|keys| - 1]) + (if Live(inputs, last) then [last] else [])
  }

  /** The bound names among `keys` are exactly the names of `keys` that are bound. */
  lemma {:induction false} LiveKeysMembers(inputs: map<InputName, Buffer?>, keys: seq<InputName>)
    ensures forall k :: k in LiveKeys(inputs, keys) <==> k in keys && Live(inputs, k)
  {
    if keys != [] {
      var init := keys[..|keys| - 1];
      LiveKeysMembers(inputs, init);
      assert keys == init + [keys[|keys| - 1]];
    }
  }

  /** Picking the bound names out of a list without repeats leaves a list without repeats. */
  lemma {:induction false} DistinctLiveKeys(inputs: map<InputName, Buffer?>, keys: seq<InputName>)
    requires forall i, j | 0 <= i < j < |keys| :: keys[i] != keys[j]
    ensures forall i, j | 0 <= i < j < |LiveKeys(inputs, keys)| :: LiveKeys(inputs, keys)[i] != LiveKeys(inputs, keys)[j]
  {
    if keys != [] {
      var init := keys[..|keys| - 1];
      DistinctLiveKeys(inputs, init);
      LiveKeysMembers(inputs, init);
      assert keys[|keys| - 1] !in init;
    }
  }

  /**
   * In a well-formed registry the key order visits every bound name
   * exactly once: the bound names in key order are the bound names,
   * without repeats, as many as there are.
   */
  lemma LiveKeysOfOrder(r: InputRegistry)
    requires WellFormed(r)
    ensures forall k :: k in LiveKeys(r.inputs, r.order) <==> Live(r.inputs, k)
    ensures forall i, j | 0 <= i < j < |LiveKeys(r.inputs, r.order)| ::
      LiveKeys(r.inputs, r.order)[i] != LiveKeys(r.inputs, r.order)[j]
    ensures |LiveKeys(r.inputs, r.order)| == |LiveSet(r.inputs)|
  {
    DistinctLiveKeys(r.inputs, r.order);
    LiveKeysMembers(r.inputs, r.order);
    var live := LiveKeys(r.inputs, r.order);
    assert (set k | k in live) == LiveSet(r.inputs);
    DistinctCardinality(live);
  }

  /** A list without repeats has as many distinct elements as entries. */
  lemma {:induction false} DistinctCardinality<T>(s: seq<T>)
    requires forall i, j | 0 <= i < j < |s| :: s[i] != s[j]
    ensures |set x | x in s| == |s|
  {
    if s != [] {
      var init := s[..|s| - 1];
      DistinctCardinality(init);
      assert (set x | x in s) == (set x | x in init) + {s[|s| - 1]};
    }
  }
}
