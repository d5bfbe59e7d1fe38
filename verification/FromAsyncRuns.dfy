/** What whole runs of Array.fromAsync store, and which of them end in an exception that nobody catches. */
module FromAsyncRuns {
  import opened Common
  import opened SparseObjects
  import opened FromAsyncLoops

  // ---- what is stored ----

  /** `st` agrees with `stored` below `k`, and from there on with what `feed` provides, counted from `k`. */
  ghost predicate Extends<W>(stored: map<nat, Value>, k: nat, st: map<nat, Value>, n: nat, feed: Feed<W>)
  {
    && k <= n
    && (forall i: nat :: i in st <==> i < n)
    && (forall i: nat :: i < k && i in stored ==> i in st && st[i] == stored[i])
    && (forall i: nat :: k <= i < n ==> Provided(feed, i - k) == Some(st[i]))
  }

  ghost predicate ExtendsTo<W>(stored: map<nat, Value>, k: nat, o: Outcome, feed: Feed<W>)
  {
    match o
    case Waiting(_, n, st) => Extends(stored, k, st, n, feed)
    case Settled(Resolve(st, n), _) => Extends(stored, k, st, n, feed)
    case _ => true
  }

  ghost predicate Prefix(stored: map<nat, Value>, k: nat)
  {
    forall i: nat :: i in stored <==> i < k
  }

  /** One turn stored `v`; the rest of the run counts from the next element. */
  lemma ExtendsNext<W>(stored: map<nat, Value>, k: nat, v: Value, o: Outcome, later: Feed<W>, all: Feed<W>)
    requires Prefix(stored, k) && ExtendsTo(stored[k := v], k + 1, o, later)
    requires Provided(all, 0) == Some(v) && forall i: nat :: Provided(later, i) == Provided(all, i + 1)
    ensures ExtendsTo(stored, k, o, all)
  {
    if o.Waiting? || (o.Settled? && o.s.Resolve?) {
      var st, n := if o.Waiting? then o.stored else o.s.stored, if o.Waiting? then o.k else o.s.length;
      forall i: nat | k <= i < n ensures Provided(all, i - k) == Some(st[i]) {
        if i > k {
          assert Provided(later, i - (k + 1)) == Some(st[i]);
        }
      }
    }
  }

  /** Past the first turn, element `i` is element `i + 1` of the whole. */
  lemma ProvidedLater<W>(env: Env<W>, mapping: bool, outs: seq<Delivery<W>>, i: nat)
    requires |outs| >= Period(mapping)
    ensures Provided(FromIterator(env, mapping, outs[Period(mapping)..]), i) == Provided(FromIterator(env, mapping, outs), i + 1)
  {
    AwaitedLater(outs, Period(mapping), if mapping then 3 * i + 1 else 2 * i);
  }

  lemma ElementLater<W>(mapping: bool, outs: seq<Delivery<W>>, i: nat)
    requires |outs| >= Period(mapping) - 1
    ensures Provided(FromElements(mapping, outs[Period(mapping) - 1..]), i) == Provided(FromElements(mapping, outs), i + 1)
  {
    AwaitedLater(outs, Period(mapping) - 1, if mapping then 2 * i + 1 else i);
  }

  lemma AwaitedLater<W>(outs: seq<Delivery<W>>, p: nat, j: nat)
    requires p <= |outs|
    ensures AwaitedValue(outs[p..], j) == AwaitedValue(outs, p + j)
    ensures j < |outs[p..]| ==> outs[p..][j] == outs[p + j]
  {
  }

  lemma {:induction false} IterateStores<W>(
      env: Env<W>, mapping: bool, first: bool, w: W, k: nat, stored: map<nat, Value>, outs: seq<Delivery<W>>)
    requires Prefix(stored, k)
    ensures ExtendsTo(stored, k, Iterate(env, mapping, first, w, k, stored, outs), FromIterator(env, mapping, outs))
    decreases |outs|
  {
    var o := Iterate(env, mapping, first, w, k, stored, outs);
    var p := Period(mapping);
    var turn := Turn(env, mapping, k, outs);
    TurnStores(env, mapping, k, stored, outs);
    if k < MAX_LENGTH && Ask(env, w).Normal? && turn.Some? {
      if |outs| >= p && outs[p - 1].Fulfilled? {
        IterateStores(env, mapping, false, outs[p - 1].world, k + 1, stored[k := turn.value], outs[p..]);
        var later, all := FromIterator(env, mapping, outs[p..]), FromIterator(env, mapping, outs);
        forall i: nat ensures Provided(later, i) == Provided(all, i + 1) {
          ProvidedLater(env, mapping, outs, i);
        }
        assert Provided(all, 0) == Some(turn.value);
        hide Provided;
        ExtendsNext(stored, k, turn.value, o, FromIterator(env, mapping, outs[p..]), FromIterator(env, mapping, outs));
      }
    }
  }

  /** The value that the first turn stores, when it gets that far. */
  function Turn<W>(env: Env<W>, mapping: bool, k: nat, outs: seq<Delivery<W>>): Option<Value>
  {
    if outs == [] || outs[0].Rejected? then None
    else
      match ReadResult(env, outs[0].world, outs[0].value)
      case Yielded(w, v) =>
        if !mapping then if env.define(w, k, v).1.Normal? then Some(v) else None
        else
          var (w1, mapped) := env.mapper(w, v, k);
          if mapped.Throw? || env.resolve(w1, mapped.value).1.Throw? || |outs| == 1 || outs[1].Rejected? then None
          else if env.define(outs[1].world, k, outs[1].value).1.Normal? then Some(outs[1].value)
          else None
      case _ => None
  }

  /** How the first turn goes on. */
  lemma TurnStores<W>(env: Env<W>, mapping: bool, k: nat, stored: map<nat, Value>, outs: seq<Delivery<W>>)
    ensures var p, turn := Period(mapping), Turn(env, mapping, k, outs);
            && (turn.Some? ==> |outs| >= p - 1 && Provided(FromIterator(env, mapping, outs), 0) == turn)
            && (turn.Some? && |outs| == p - 1 ==>
                  GotNext(env, mapping, k, stored, outs) == Waiting(NextTurn, k + 1, stored[k := turn.value]))
            && (turn.Some? && |outs| >= p && outs[p - 1].Fulfilled? ==>
                  GotNext(env, mapping, k, stored, outs) ==
                  Iterate(env, mapping, false, outs[p - 1].world, k + 1, stored[k := turn.value], outs[p..]))
            && (turn.Some? && |outs| >= p && outs[p - 1].Rejected? ==>
                  GotNext(env, mapping, k, stored, outs) == CloseAndReject(env, outs[p - 1].world, outs[p - 1].error))
            && (turn.None? && outs != [] ==>
                  var o := GotNext(env, mapping, k, stored, outs);
                  && (o.Waiting? ==> mapping && |outs| == 1 && o == Waiting(MappedValue, k, stored))
                  && (o.Settled? && o.s.Resolve? ==> o.s == Resolve(stored, k)))
  {
    if |outs| >= 2 {
      assert outs[1..][1..] == outs[2..];
      if mapping && outs[1].Fulfilled? {
        var (w, defined) := env.define(outs[1].world, k, outs[1].value);
        var kept := Keep(env, mapping, outs[1].world, outs[1].value, k, stored, outs[2..]);
        assert GotMapped(env, mapping, k, stored, outs[1..]) == kept;
        assert |outs| == 2 && defined.Normal? ==> kept == Waiting(NextTurn, k + 1, stored[k := outs[1].value]);
      }
    }
    if |outs| >= 3 {
      assert outs[2..][1..] == outs[3..];
    }
  }

  /** Where a run waits is decided by the number of its deliveries. */
  lemma {:induction false} WaitsAt<W>(
      env: Env<W>, mapping: bool, first: bool, w: W, k: nat, stored: map<nat, Value>, outs: seq<Delivery<W>>)
    ensures var o := Iterate(env, mapping, first, w, k, stored, outs);
            o.Waiting? ==>
              && k <= o.k
              && |outs| == Period(mapping) * (o.k - k) +
                   (match o.place case NextResult => 0 case MappedValue => 1 case NextTurn => -1 case ArrayElement => 0)
              && !o.place.ArrayElement? && (o.place.MappedValue? ==> mapping)
    decreases |outs|
  {
    var p, turn := Period(mapping), Turn(env, mapping, k, outs);
    TurnStores(env, mapping, k, stored, outs);
    if turn.Some? && |outs| >= p && outs[p - 1].Fulfilled? {
      WaitsAt(env, mapping, false, outs[p - 1].world, k + 1, stored[k := turn.value], outs[p..]);
    }
  }

  /** A whole run stores, in order, exactly what its deliveries provide. */
  lemma RunStores<W>(env: Env<W>, mapping: bool, w: W, outs: seq<Delivery<W>>)
    ensures HoldsProvided(Iterate(env, mapping, true, w, 0, map[], outs), FromIterator(env, mapping, outs))
  {
    IterateStores(env, mapping, true, w, 0, map[], outs);
  }

  /** The same for an array-like: the value the first turn stores, and the script state after that. */
  function ElementTurn<W>(env: Env<W>, mapping: bool, k: nat, outs: seq<Delivery<W>>): Option<(W, Value)>
  {
    if outs == [] || outs[0].Rejected? then None
    else if !mapping then ElementStored(env, k, outs[0])
    else
      var (w1, mapped) := env.mapper(outs[0].world, outs[0].value, k);
      if mapped.Throw? || env.resolve(w1, mapped.value).1.Throw? || |outs| == 1 || outs[1].Rejected? then None
      else ElementStored(env, k, outs[1])
  }

  function ElementStored<W>(env: Env<W>, k: nat, d: Delivery<W>): Option<(W, Value)>
    requires d.Fulfilled?
  {
    var (w, defined) := env.define(d.world, k, d.value);
    if defined.Throw? then None else Some((w, d.value))
  }

  lemma ElementTurnStores<W>(env: Env<W>, mapping: bool, len: nat, k: nat, stored: map<nat, Value>, outs: seq<Delivery<W>>)
    requires outs != []
    ensures var p, turn, o := Period(mapping) - 1, ElementTurn(env, mapping, k, outs), GotElement(env, mapping, len, k, stored, outs);
            && (turn.Some? ==>
                  && |outs| >= p && Provided(FromElements(mapping, outs), 0) == Some(turn.value.1)
                  && o == EachElement(env, mapping, len, turn.value.0, k + 1, stored[k := turn.value.1], outs[p..]))
            && (turn.None? && o.Waiting? ==> mapping && |outs| == 1 && o == Waiting(MappedValue, k, stored))
            && (turn.None? ==> !(o.Settled? && o.s.Resolve?))
  {
    var p := Period(mapping) - 1;
    if |outs| >= p && outs[p - 1].Fulfilled? {
      var d := outs[p - 1];
      assert mapping ==> outs[1..][1..] == outs[2..];
      var (w, defined) := env.define(d.world, k, d.value);
      assert KeepElement(env, mapping, len, d.world, d.value, k, stored, outs[p..]) ==
             if defined.Throw? then Lost(defined.error)
             else EachElement(env, mapping, len, w, k + 1, stored[k := d.value], outs[p..]);
      if mapping {
        assert GotMappedElement(env, mapping, len, k, stored, outs[1..]) ==
               KeepElement(env, mapping, len, d.world, d.value, k, stored, outs[2..]);
      }
    }
  }

  lemma {:induction false} EachStores<W>(
      env: Env<W>, mapping: bool, len: nat, w: W, k: nat, stored: map<nat, Value>, outs: seq<Delivery<W>>)
    requires Prefix(stored, k)
    ensures ExtendsTo(stored, k, EachElement(env, mapping, len, w, k, stored, outs), FromElements(mapping, outs))
    decreases |outs|
  {
    hide GotElement;
    var o := EachElement(env, mapping, len, w, k, stored, outs);
    if k < len && outs != [] {
      var p, turn := Period(mapping) - 1, ElementTurn(env, mapping, k, outs);
      ElementTurnStores(env, mapping, len, k, stored, outs);
      if o == GotElement(env, mapping, len, k, stored, outs) && turn.Some? {
        EachStores(env, mapping, len, turn.value.0, k + 1, stored[k := turn.value.1], outs[p..]);
        var later, all := FromElements(mapping, outs[p..]), FromElements(mapping, outs);
        forall i: nat ensures Provided(later, i) == Provided(all, i + 1) {
          ElementLater(mapping, outs, i);
        }
        assert Provided(all, 0) == Some(turn.value.1);
        hide Provided;
        ExtendsNext(stored, k, turn.value.1, o, FromElements(mapping, outs[p..]), FromElements(mapping, outs));
      }
    }
  }

  /** The deliveries after the one that only gives way. */
  function Behind<W>(outs: seq<Delivery<W>>): seq<Delivery<W>>
  {
    if outs == [] then [] else outs[1..]
  }

  /** The same over an array-like; the first delivery only gives way. */
  lemma ArrayLikeRunStores<W>(env: Env<W>, mapping: bool, len: nat, outs: seq<Delivery<W>>)
    ensures HoldsProvided(FromArrayLike(env, mapping, len, outs), FromElements(mapping, Behind(outs)))
  {
    if outs != [] && outs[0].Fulfilled? {
      EachStores(env, mapping, len, outs[0].world, 0, map[], outs[1..]);
    }
  }
}
