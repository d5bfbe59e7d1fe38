/** Array.prototype.reverse (section 23.1.3.26 of ECMA-262), in place and hole-skipping. */
module ArrayReverse {
  import opened Common
  import opened SparseObjects

  /** The mirror image: what index `i` holds once the first `len` elements are reversed. */
  function MirrorAt(m: Elements, len: nat, i: int): Option<Value>
  {
    if 0 <= i < len then At(m, len - 1 - i) else At(m, i)
  }

  /** Where both halves have only holes, the mirror image has holes too. */
  lemma HolesMirror(m: Elements, len: nat, from: int, to: int)
    requires 0 <= from <= to && to <= len - to
    requires forall i :: from <= i < to || len - to <= i < len - from ==> i !in m
    ensures forall i :: from <= i < to || len - to <= i < len - from ==>
              At(m, i).None? && MirrorAt(m, len, i).None?
  {
  }

  method Reverse(O: JSObject)
    requires O.Valid()
    modifies O
    ensures O.Valid() && O.len == old(O.len)
    ensures forall i :: At(O.elems, i) == MirrorAt(old(O.elems), old(O.len), i)
  {
    var len := O.len;
    var middle := len / 2;
    var lower := 0;
    while middle > lower
      invariant 0 <= lower <= middle
      invariant O.Valid() && O.len == len
      invariant forall i :: At(O.elems, i) ==
                  if lower <= i < len - lower then At(old(O.elems), i) else MirrorAt(old(O.elems), len, i)
      decreases middle - lower
    {
      var upper := len - lower - 1;
      assert At(O.elems, lower) == At(old(O.elems), lower);
      assert At(O.elems, upper) == At(old(O.elems), upper);
      var lowerValue, upperValue := At(O.elems, lower), At(O.elems, upper);
      if lowerValue.Some? && upperValue.Some? {
        O.Put(lower, upperValue.value);
        O.Put(upper, lowerValue.value);
      } else if lowerValue.None? && upperValue.Some? {
        O.Put(lower, upperValue.value);
        O.Delete(upper);
      } else if lowerValue.Some? && upperValue.None? {
        O.Delete(lower);
        O.Put(upper, lowerValue.value);
      } else {
        var nextLower := O.NextIndexForward(lower, middle);
        var nextUpper := O.NextIndexBackward(upper, middle);
        var x := middle - nextLower;
        var y := nextUpper - middle;
        var lowerCandidate := if x > y then nextLower else len - nextUpper - 1;
        assert (lower < lowerCandidate <= nextLower && nextUpper < len - lowerCandidate)
            || (!O.ordinary && lower == lowerCandidate && upper == lower + 1);
        if lower == lowerCandidate {
          // reached on a proxy only, with the two middle elements missing
          break;
        }
        HolesMirror(O.elems, len, lower, lowerCandidate);
        lower := lowerCandidate;
        continue;
      }
      lower := lower + 1;
    }
  }

  /** Reversing twice gives back every element and every hole. */
  method ReverseTwice(O: JSObject)
    requires O.Valid()
    modifies O
    ensures O.elems == old(O.elems) && O.len == old(O.len)
  {
    Reverse(O);
    ghost var m, len := O.elems, O.len;
    Reverse(O);
    forall i ensures At(O.elems, i) == At(old(O.elems), i) {
      assert At(O.elems, i) == MirrorAt(m, len, i);
      assert 0 <= i < len ==> At(m, len - 1 - i) == MirrorAt(old(O.elems), len, len - 1 - i);
    }
    SameElements(O.elems, old(O.elems));
  }
}
