/** Array.prototype.copyWithin (section 23.1.3.4 of ECMA-262). */
module ArrayCopyWithin {
  import opened Common
  import opened SparseObjects

  /** How many elements are copied; not positive when there is nothing to do. */
  function CopyCount(target: ExtInt, start: ExtInt, end: Option<ExtInt>, len: nat): (r: int)
    ensures Clamp(target, len) + r <= len && Clamp(start, len) + r <= ClampEnd(end, len)
    ensures Clamp(target, len) + r == len || Clamp(start, len) + r == ClampEnd(end, len)
  {
    var a, b := ClampEnd(end, len) - Clamp(start, len), len - Clamp(target, len);
    if a < b then a else b
  }

  /** A simultaneous copy from a snapshot: holes are copied as holes. */
  function CopiedAt(m: Elements, to: int, from: int, count: int, i: int): Option<Value>
  {
    if to <= i < to + count then At(m, i - to + from) else At(m, i)
  }

  method CopyWithin(O: JSObject, target: ExtInt, start: ExtInt, end: Option<ExtInt>)
    requires O.Valid()
    modifies O
    ensures O.Valid() && O.len == old(O.len)
    ensures var len := old(O.len);
            forall i :: At(O.elems, i) ==
              CopiedAt(old(O.elems), Clamp(target, len), Clamp(start, len), CopyCount(target, start, end, len), i)
  {
    hide Clamp, ClampEnd;
    var len := O.len;
    ghost var m := O.elems;
    var to, from := Clamp(target, len), Clamp(start, len);
    var count := CopyCount(target, start, end, len);
    if from < to < from + count {
      // overlapping, source first: copy back to front
      var n := count;
      while n > 0
        invariant 0 <= n <= count && O.Valid() && O.len == len
        invariant forall i :: At(O.elems, i) == CopiedAt(m, to + n, from + n, count - n, i)
      {
        var v := At(O.elems, from + n - 1);
        assert v == CopiedAt(m, to + n, from + n, count - n, from + n - 1);
        if v.Some? {
          O.Put(to + n - 1, v.value);
        } else {
          O.Delete(to + n - 1);
        }
        n := n - 1;
      }
    } else {
      var n := 0;
      while n < count
        invariant 0 <= n && (0 <= count ==> n <= count) && (count < 0 ==> n == 0) && O.Valid() && O.len == len
        invariant forall i :: At(O.elems, i) == CopiedAt(m, to, from, n, i)
      {
        var v := At(O.elems, from + n);
        assert v == CopiedAt(m, to, from, n, from + n);
        if v.Some? {
          O.Put(to + n, v.value);
        } else {
          O.Delete(to + n);
        }
        n := n + 1;
      }
    }
  }

  /** With indices in range and nothing overhanging, exactly the given range is copied. */
  lemma CopiesRange(m: Elements, len: nat, target: nat, start: nat, end: nat, i: int)
    requires start <= end <= len && target + (end - start) <= len
    ensures CopiedAt(m, Clamp(Fin(target), len), Clamp(Fin(start), len), CopyCount(Fin(target), Fin(start), Some(Fin(end)), len), i) ==
            if target <= i < target + (end - start) then At(m, start + (i - target)) else At(m, i)
  {
  }
}
