/**
 * Array-like objects: a length and a finite map from index to value.  A missing
 * index is a hole.  `isArray` separates array objects, which keep every index
 * below their length, from plain objects that merely have a "length" property.
 * `ordinary` is false for proxies only.
 */
module SparseObjects {
  import opened Common

  datatype Value = Undefined | Null | Number(n: int) | Text(s: string) | Ref(id: nat)

  type Elements = map<int, Value>

  function At(m: Elements, i: int): Option<Value>
  {
    if i in m then Some(m[i]) else None
  }

  /** Two element maps that agree everywhere are equal. */
  lemma SameElements(m: Elements, n: Elements)
    requires forall i :: At(m, i) == At(n, i)
    ensures m == n
  {
    forall i ensures i in m <==> i in n {
      assert At(m, i) == At(n, i);
    }
    forall i | i in m ensures m[i] == n[i] {
      assert At(m, i) == At(n, i);
    }
  }

  class JSObject {
    var elems: Elements
    var len: nat
    const isArray: bool
    const ordinary: bool

    ghost predicate Valid()
      reads this
    {
      forall i :: i in elems ==> 0 <= i && (isArray ==> i < len)
    }

    /** A fresh array of holes, as `ArrayCreate` makes it. */
    constructor NewArray(n: nat)
      ensures Valid() && elems == map[] && len == n && isArray && ordinary
    {
      elems, len, isArray, ordinary := map[], n, true, true;
    }

    /** An array with the given elements. */
    constructor ArrayOf(m: Elements, n: nat)
      requires forall i :: i in m ==> 0 <= i < n
      ensures Valid() && elems == m && len == n && isArray && ordinary
    {
      elems, len, isArray, ordinary := m, n, true, true;
    }

    method Put(i: nat, v: Value)
      requires Valid()
      modifies this
      ensures Valid()
      ensures elems == old(elems)[i := v]
      ensures forall j :: At(elems, j) == if j == i then Some(v) else At(old(elems), j)
      ensures len == if isArray && i >= old(len) then i + 1 else old(len)
    {
      elems := elems[i := v];
      if isArray && i >= len {
        len := i + 1;
      }
    }

    method Delete(i: nat)
      requires Valid()
      modifies this`elems
      ensures Valid()
      ensures elems == old(elems) - {i}
      ensures forall j :: At(elems, j) == if j == i then None else At(old(elems), j)
    {
      elems := elems - {i};
    }

    /** Setting "length" truncates an array and is an ordinary write elsewhere. */
    method SetLength(n: nat)
      requires Valid()
      modifies this
      ensures Valid()
      ensures len == n
      ensures forall i :: At(elems, i) == if isArray && n <= i then None else At(old(elems), i)
    {
      if isArray {
        elems := map i | i in elems && i < n :: elems[i];
      }
      len := n;
    }

    /** `Object::nextIndexForward`: scan the keys for the least one above `cur`. */
    method NextIndexForward(cur: int, end: int) returns (next: int)
      requires Valid()
      ensures cur < end ==> cur < next <= end && forall i :: cur < i < next ==> i !in elems
      ensures cur < end && ordinary ==> next == end || next in elems
      ensures end <= cur && ordinary ==> next == cur + 1
      ensures !ordinary ==> next == if end < cur + 1 then end else cur + 1
    {
      if !ordinary {
        return if end < cur + 1 then end else cur + 1;
      }
      var ret := end;
      var todo: set<int> := elems.Keys;
      while exists i :: i in todo
        invariant todo <= elems.Keys
        invariant ret == end || (ret in elems && cur < ret < end)
        invariant forall i :: i in elems && i !in todo && cur < i ==> ret <= i
        decreases todo
      {
        var i :| i in todo;
        todo := todo - {i};
        if i > cur && ret > i {
          ret := i;
        }
      }
      next := if ret < cur + 1 then cur + 1 else ret;
    }

    /** `Object::nextIndexBackward`: scan the keys for the greatest one below `cur`. */
    method NextIndexBackward(cur: int, end: int) returns (next: int)
      requires Valid()
      ensures end < cur ==> end <= next < cur && forall i :: next < i < cur ==> i !in elems
      ensures end < cur && ordinary ==> next == end || next in elems
      ensures cur <= end && ordinary ==> next == cur - 1
      ensures !ordinary ==> next == if end < cur - 1 then cur - 1 else end
    {
      if !ordinary {
        return if end < cur - 1 then cur - 1 else end;
      }
      var ret := end;
      var todo: set<int> := elems.Keys;
      while exists i :: i in todo
        invariant todo <= elems.Keys
        invariant ret == end || (ret in elems && end < ret < cur)
        invariant forall i :: i in elems && i !in todo && i < cur ==> i <= ret
        decreases todo
      {
        var i :| i in todo;
        todo := todo - {i};
        if i < cur && ret < i {
          ret := i;
        }
      }
      next := if ret < cur - 1 then ret else cur - 1;
    }
  }
}
