/** Fast-mode arrays: a vector of slots, an empty slot being a hole. */
module FastArrays {
  import opened Common
  import opened SparseObjects

  type Slots = seq<Option<Value>>

  /** The elements a vector of slots stands for. */
  function FastElements(slots: Slots): (m: Elements)
    ensures forall i :: At(m, i) == if 0 <= i < |slots| then slots[i] else None
  {
    map i | 0 <= i < |slots| && slots[i].Some? :: slots[i].value
  }

  class FastArray {
    var slots: Slots

    constructor (init: Slots)
      ensures slots == init
    {
      slots := init;
    }

    /** `setArrayLengthDirect` with `clearNewSlots` false: new slots hold whatever was in memory. */
    method SetLengthDirect(n: nat, memory: nat -> Option<Value>)
      modifies this
      ensures |slots| == n
      ensures forall i :: 0 <= i < n && i < |old(slots)| ==> slots[i] == old(slots)[i]
    {
      var was := slots;
      slots := seq(n, i requires i >= 0 => if i < |was| then was[i] else memory(i));
    }
  }
}
