/** Array.prototype.flat and flatMap (sections 23.1.3.13 and 23.1.3.14 of ECMA-262). */
module ArrayFlat {
  import opened Common
  import opened SparseObjects

  /** A value, or a nested array with holes. */
  datatype Node = Leaf(v: Value) | Arr(slots: Nodes)

  type Nodes = seq<Option<Node>>

  type Mapper = (Node, nat) -> Node

  /** 2^63 - 1: no element is written at or beyond this index. */
  const INDEX_LIMIT := 0x7FFF_FFFF_FFFF_FFFF

  predicate Deeper(depth: ExtInt)
  {
    depth.PosInf? || (depth.Fin? && depth.i > 0)
  }

  function Pred(depth: ExtInt): ExtInt
  {
    if depth.Fin? then Fin(depth.i - 1) else depth
  }

  /** The depth-bounded flattening of a list of slots; holes vanish. */
  function Flatten(slots: Nodes, depth: ExtInt): seq<Node>
    decreases slots, 1
  {
    if slots == [] then [] else Expand(slots[0], depth) + Flatten(slots[1..], depth)
  }

  function Expand(slot: Option<Node>, depth: ExtInt): seq<Node>
    decreases slot, 0
  {
    match slot
    case None => []
    case Some(x) => if Deeper(depth) && x.Arr? then Flatten(x.slots, Pred(depth)) else [x]
  }

  /** The slots after the callback of `flatMap`, applied to present elements only. */
  function Mapped(slots: Nodes, mapper: Option<Mapper>, from: nat): (r: Nodes)
    ensures |r| == |slots|
  {
    if slots == [] || mapper.None? then slots
    else
      [if slots[0].None? then None else Some(mapper.value(slots[0].value, from))]
      + Mapped(slots[1..], mapper, from + 1)
  }

  lemma {:induction false} MappedAt(slots: Nodes, mapper: Option<Mapper>, from: nat, i: nat)
    requires i < |slots|
    ensures Mapped(slots, mapper, from)[i] ==
            if mapper.None? || slots[i].None? then slots[i] else Some(mapper.value(slots[i].value, from + i))
  {
    if mapper.Some? && i > 0 {
      MappedAt(slots[1..], mapper, from + 1, i - 1);
    }
  }

  lemma {:induction false} FlattenAppend(a: Nodes, b: Nodes, depth: ExtInt)
    ensures Flatten(a + b, depth) == Flatten(a, depth) + Flatten(b, depth)
  {
    if a == [] {
      assert a + b == b;
    } else {
      assert (a + b)[1..] == a[1..] + b;
      FlattenAppend(a[1..], b, depth);
    }
  }

  class Target {
    var elems: map<nat, Node>

    constructor ()
      ensures elems == map[]
    {
      elems := map[];
    }
  }

  /** `now` is `before` with `written` stored from `start` on, and nothing else changed. */
  ghost predicate WroteExactly(before: map<nat, Node>, now: map<nat, Node>, start: nat, written: seq<Node>)
  {
    forall i: nat ::
      (start <= i < start + |written| ==> i in now && now[i] == written[i - start]) &&
      (!(start <= i < start + |written|) ==> (i in now <==> i in before) && (i in now ==> now[i] == before[i]))
  }

  lemma WroteMore(m0: map<nat, Node>, m1: map<nat, Node>, m2: map<nat, Node>, start: nat, a: seq<Node>, b: seq<Node>)
    requires WroteExactly(m0, m1, start, a) && WroteExactly(m1, m2, start + |a|, b)
    ensures WroteExactly(m0, m2, start, a + b)
  {
  }

  /** How many of `n` elements fit below the index limit from `start` on. */
  function Room(start: nat, n: nat): (r: nat)
    ensures r <= n
  {
    if start >= INDEX_LIMIT then 0 else if start + n <= INDEX_LIMIT then n else INDEX_LIMIT - start
  }

  /** What storing `written` from `start` on answers and does; on an error everything below the limit is written. */
  ghost predicate Stores(before: map<nat, Node>, now: map<nat, Node>, start: nat, written: seq<Node>, r: Result<nat>)
  {
    if written != [] && start + |written| > INDEX_LIMIT then
      r == Err(TypeError) && WroteExactly(before, now, start, written[..Room(start, |written|)])
    else r == Ok(start + |written|) && WroteExactly(before, now, start, written)
  }

  /** One element: recurse into an array, or write it. */
  method StoreElement(target: Target, slot: Option<Node>, start: nat, depth: ExtInt) returns (r: Result<nat>)
    requires slot.Some?
    modifies target
    ensures Stores(old(target.elems), target.elems, start, Expand(slot, depth), r)
    decreases 0, slot
  {
    var element := slot.value;
    if Deeper(depth) && element.Arr? {
      r := FlattenInto(target, element.slots, start, Pred(depth), None);
    } else {
      if start >= INDEX_LIMIT {
        return Err(TypeError);
      }
      target.elems := target.elems[start := element];
      r := Ok(start + 1);
    }
  }

  method FlattenInto(target: Target, slots: Nodes, start: nat, depth: ExtInt, mapper: Option<Mapper>)
      returns (r: Result<nat>)
    modifies target
    ensures Stores(old(target.elems), target.elems, start, Flatten(Mapped(slots, mapper, 0), depth), r)
    decreases if mapper.Some? then 1 else 0, slots
  {
    ghost var all := Mapped(slots, mapper, 0);
    ghost var before := target.elems;
    var targetIndex, sourceIndex := start, 0;
    while sourceIndex < |slots|
      invariant 0 <= sourceIndex <= |slots|
      invariant Stores(before, target.elems, start, Flatten(all[..sourceIndex], depth), Ok(targetIndex))
    {
      MappedAt(slots, mapper, 0, sourceIndex);
      ghost var mid := target.elems;
      var n := Ok(targetIndex);
      if slots[sourceIndex].Some? {
        var slot := slots[sourceIndex];
        if mapper.Some? {
          slot := Some(mapper.value(slot.value, sourceIndex));
        }
        n := StoreElement(target, slot, targetIndex, depth);
      }
      StoredNext(all, sourceIndex, depth, before, mid, target.elems, start, targetIndex, n);
      if n.Err? {
        return n;
      }
      targetIndex := n.value;
      sourceIndex := sourceIndex + 1;
    }
    assert all[..|slots|] == all;
    return Ok(targetIndex);
  }

  /** One more slot is stored, or the store has failed for good. */
  lemma StoredNext(all: Nodes, i: nat, depth: ExtInt, m0: map<nat, Node>, m1: map<nat, Node>, m2: map<nat, Node>,
                   start: nat, k: nat, r: Result<nat>)
    requires i < |all|
    requires Stores(m0, m1, start, Flatten(all[..i], depth), Ok(k))
    requires Stores(m1, m2, k, Expand(all[i], depth), r)
    ensures r.Ok? ==> Stores(m0, m2, start, Flatten(all[..i + 1], depth), r)
    ensures r.Err? ==> Stores(m0, m2, start, Flatten(all, depth), r)
  {
    FlattenSplit(all, i, depth);
    hide Flatten, Expand, Stores;
    StoredJoins(m0, m1, m2, start, k, Flatten(all[..i], depth), Expand(all[i], depth), Flatten(all, depth), r);
  }

  lemma StoredJoins(m0: map<nat, Node>, m1: map<nat, Node>, m2: map<nat, Node>, start: nat, k: nat,
                    done: seq<Node>, next: seq<Node>, whole: seq<Node>, r: Result<nat>)
    requires done + next <= whole && Stores(m0, m1, start, done, Ok(k)) && Stores(m1, m2, k, next, r)
    ensures r.Ok? ==> Stores(m0, m2, start, done + next, r)
    ensures r.Err? ==> Stores(m0, m2, start, whole, r)
  {
    hide WroteExactly;
    if r.Ok? {
      WroteMore(m0, m1, m2, start, done, next);
    } else {
      var part := next[..Room(k, |next|)];
      WroteMore(m0, m1, m2, start, done, part);
      assert whole[..Room(start, |whole|)] == done + part;
    }
  }

  /** Cutting the flattening at one slot. */
  lemma FlattenSplit(slots: Nodes, i: nat, depth: ExtInt)
    requires i < |slots|
    ensures Flatten(slots[..i + 1], depth) == Flatten(slots[..i], depth) + Expand(slots[i], depth)
    ensures Flatten(slots[..i + 1], depth) <= Flatten(slots, depth)
  {
    assert slots[..i + 1] == slots[..i] + [slots[i]];
    FlattenAppend(slots[..i], [slots[i]], depth);
    assert [slots[i]][1..] == [];
    assert Flatten([slots[i]], depth) == Expand(slots[i], depth) + Flatten([], depth);
    assert slots == slots[..i + 1] + slots[i + 1..];
    FlattenAppend(slots[..i + 1], slots[i + 1..], depth);
  }

  /** Flattening `a` and then `b` behind it is flattening `a + b`. */
  method FlattenInTwoParts(a: Nodes, b: Nodes, depth: ExtInt) returns (parts: map<nat, Node>, whole: map<nat, Node>)
    requires |Flatten(a + b, depth)| <= INDEX_LIMIT
    ensures parts == whole
    ensures forall i: nat :: i in whole <==> i < |Flatten(a + b, depth)|
  {
    FlattenAppend(a, b, depth);
    var t := new Target();
    var k := FlattenInto(t, a, 0, depth, None);
    ghost var mid := t.elems;
    var n := FlattenInto(t, b, k.value, depth, None);
    WroteMore(map[], mid, t.elems, 0, Flatten(a, depth), Flatten(b, depth));
    var u := new Target();
    var e := FlattenInto(u, a + b, 0, depth, None);
    parts, whole := t.elems, u.elems;
    forall i: nat ensures (i in parts <==> i in whole) && (i in parts ==> parts[i] == whole[i]) {
    }
  }

  function Present(nodes: seq<Node>): (r: Nodes)
    ensures |r| == |nodes|
  {
    if nodes == [] then [] else [Some(nodes[0])] + Present(nodes[1..])
  }

  lemma {:induction false} PresentAppend(a: seq<Node>, b: seq<Node>)
    ensures Present(a + b) == Present(a) + Present(b)
  {
    if a == [] {
      assert a + b == b;
    } else {
      assert (a + b)[1..] == a[1..] + b;
      PresentAppend(a[1..], b);
    }
  }

  /** `flat(c)` followed by `flat(d)` is `flat(c + d)`. */
  lemma {:induction false} FlattenTwice(slots: Nodes, c: nat, d: nat)
    ensures Flatten(Present(Flatten(slots, Fin(c))), Fin(d)) == Flatten(slots, Fin(c + d))
    decreases slots, 1
  {
    if slots != [] {
      var head, tail := Expand(slots[0], Fin(c)), Flatten(slots[1..], Fin(c));
      PresentAppend(head, tail);
      FlattenAppend(Present(head), Present(tail), Fin(d));
      ExpandTwice(slots[0], c, d);
      FlattenTwice(slots[1..], c, d);
    }
  }

  lemma {:induction false} ExpandTwice(slot: Option<Node>, c: nat, d: nat)
    ensures Flatten(Present(Expand(slot, Fin(c))), Fin(d)) == Expand(slot, Fin(c + d))
    decreases slot, 0
  {
    match slot
    case None =>
    case Some(x) =>
      if c > 0 && x.Arr? {
        FlattenTwice(x.slots, c - 1, d);
      } else {
        assert Present([x]) == [Some(x)];
        assert [Some(x)][1..] == [];
        assert Flatten([Some(x)], Fin(d)) == Expand(Some(x), Fin(d)) + Flatten([], Fin(d));
      }
  }

  /** With infinite depth no array is left. */
  lemma {:induction false} FlattenAll(slots: Nodes, x: Node)
    requires x in Flatten(slots, PosInf)
    ensures x.Leaf?
    decreases slots, 1
  {
    if x in Expand(slots[0], PosInf) {
      ExpandAll(slots[0], x);
    } else {
      FlattenAll(slots[1..], x);
    }
  }

  lemma {:induction false} ExpandAll(slot: Option<Node>, x: Node)
    requires x in Expand(slot, PosInf)
    ensures x.Leaf?
    decreases slot, 0
  {
    if slot.value.Arr? {
      FlattenAll(slot.value.slots, x);
    }
  }

  // ---- what determines the operation ----

  /** A nested array is opened once for every level of depth, and an infinite depth stays infinite. */
  lemma FlattenOpens(xs: Nodes, d: nat)
    ensures Flatten([Some(Arr(xs))], Fin(d + 1)) == Flatten(xs, Fin(d))
    ensures Flatten([Some(Arr(xs))], PosInf) == Flatten(xs, PosInf)
  {
    assert [Some(Arr(xs))][1..] == [];
  }

  /** A value that is no array is kept at every depth, and a hole is dropped. */
  lemma FlattenKeepsLeaf(v: Value, depth: ExtInt)
    ensures Flatten([Some(Leaf(v))], depth) == [Leaf(v)]
    ensures Flatten([None], depth) == []
  {
    assert [Some(Leaf(v))][1..] == [];
    var hole: Nodes := [None];
    assert hole[1..] == [];
  }

  /** The elements that are there, in order. */
  function PresentNodes(slots: Nodes): seq<Node>
  {
    if slots == [] then [] else (if slots[0].Some? then [slots[0].value] else []) + PresentNodes(slots[1..])
  }

  /** With nothing left to open, exactly those remain. */
  lemma {:induction false} FlattenStops(slots: Nodes, depth: ExtInt)
    requires depth.NegInf? || (depth.Fin? && depth.i <= 0)
    ensures Flatten(slots, depth) == PresentNodes(slots)
  {
    if slots != [] {
      FlattenStops(slots[1..], depth);
    }
  }

  /** One level, with a hole inside. */
  lemma FlattensOnce(a: Value, b: Value, c: Value)
    ensures Flatten([Some(Leaf(a)), Some(Arr([Some(Leaf(b)), None, Some(Leaf(c))]))], Fin(1)) == [Leaf(a), Leaf(b), Leaf(c)]
  {
    var xs := [Some(Leaf(b)), None, Some(Leaf(c))];
    assert [Some(Leaf(a)), Some(Arr(xs))] == [Some(Leaf(a))] + [Some(Arr(xs))];
    FlattenAppend([Some(Leaf(a))], [Some(Arr(xs))], Fin(1));
    FlattenOpens(xs, 0);
    FlattenKeepsLeaf(a, Fin(1));
    assert xs == [Some(Leaf(b))] + ([None] + [Some(Leaf(c))]);
    FlattenAppend([Some(Leaf(b))], [None] + [Some(Leaf(c))], Fin(0));
    FlattenAppend([None], [Some(Leaf(c))], Fin(0));
    FlattenKeepsLeaf(b, Fin(0));
    FlattenKeepsLeaf(c, Fin(0));
  }
}
