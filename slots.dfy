/**
 * The texture-slot allocator of a compute shader, as values: a counter
 * (`textureId`) and a free-list (`ids`) used as a stack. A slot id is a
 * number or `null`, because the source's detach pushes whatever the
 * buffer record holds in its own `id` field.
 */
module Slots {
  import opened Wrappers

  type SlotId = Option<nat>

  /** The id handed out by one allocation and the allocator state after it. */
  datatype Allocation = Allocation(id: SlotId, free: seq<SlotId>, counter: nat)

  /** The ids handed out by several allocations, in call order, and the state after them. */
  datatype Allocations = Allocations(ids: seq<SlotId>, free: seq<SlotId>, counter: nat)

  /**
   * One allocation: pop the free-list when it is non-empty, else take the
   * counter and increment it.
   */
  function Allocate(free: seq<SlotId>, counter: nat): (a: Allocation)
    ensures |free| > 0 ==> free == a.free + [a.id] && a.counter == counter
    ensures |free| == 0 ==> a.id == Some(counter) && a.free == [] && a.counter == counter + 1
  {
    if |free| > 0 then Allocation(free[|free| - 1], free[..|free| - 1], counter)
    else Allocation(Some(counter), [], counter + 1)
  }

  /** Pushing a value and allocating again hands that value straight back (LIFO). */
  lemma AllocateUndoesRelease(free: seq<SlotId>, counter: nat, x: SlotId)
    ensures Allocate(free + [x], counter) == Allocation(x, free, counter)
  {
    assert (free + [x])[..|free|] == free;
  }

  /** `n` allocations in a row. */
  function AllocateMany(free: seq<SlotId>, counter: nat, n: nat): (r: Allocations)
    ensures |r.ids| == n
    ensures r.counter >= counter
    decreases n
  {
    if n == 0 then Allocations([], free, counter)
    else
      var a := Allocate(free, counter);
      var rest := AllocateMany(a.free, a.counter, n - 1);
      Allocations([a.id] + rest.ids, rest.free, rest.counter)
  }

  /** The ids counter, counter + 1, ..., counter + n - 1. */
  function Sequential(counter: nat, n: nat): (ids: seq<SlotId>)
  {
    seq(n, i requires 0 <= i < n => Some(counter + i))
  }

  /** The elements of `s` in the opposite order. */
  function Reversed(s: seq<SlotId>): (r: seq<SlotId>)
    ensures |r| == |s|
  {
    if s == [] then [] else [s[|s| - 1]] + Reversed(s[..|s| - 1])
  }

  /**
   * With nothing on the free-list, `n` allocations hand out the counter's
   * next `n` values in call order and leave the free-list empty; from a
   * fresh or cleared shader (counter 0) these are 0, 1, ..., n - 1.
   */
  lemma {:induction false} FreshAllocationsAreSequential(counter: nat, n: nat)
    ensures AllocateMany([], counter, n) == Allocations(Sequential(counter, n), [], counter + n)
    decreases n
  {
    if n > 0 {
      FreshAllocationsAreSequential(counter + 1, n - 1);
      assert Sequential(counter, n) == [Some(counter)] + Sequential(counter + 1, n - 1);
    }
  }

  /**
   * Values pushed onto the free-list come back last-in first-out: after
   * pushing `xs`, `|xs|` allocations return `xs` reversed, restore the
   * free-list underneath and never touch the counter.
   */
  lemma {:induction false} ReleasedIdsComeBackReversed(free: seq<SlotId>, xs: seq<SlotId>, counter: nat)
    ensures AllocateMany(free + xs, counter, |xs|) == Allocations(Reversed(xs), free, counter)
    decreases |xs|
  {
    if xs != [] {
      var init := xs[..|xs| - 1];
      var last := xs[|xs| - 1];
      assert free + xs == (free + init) + [last];
      AllocateUndoesRelease(free + init, counter, last);
      ReleasedIdsComeBackReversed(free, init, counter);
    }
  }
}
