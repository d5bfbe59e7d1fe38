/**
 * What each delivery does to a run of Array.fromAsync, said in terms of the user code
 * alone, and that a run in which nothing throws ends with all its elements.
 */
module FromAsyncTurns {
  import opened Common
  import opened SparseObjects
  import opened FromAsyncLoops
  import opened FromAsyncRuns

  /** `next` can be called and what it returns can be awaited. */
  predicate NextWorks<W>(env: Env<W>, w: W)
  {
    var (w1, called) := env.next(w);
    called.Normal? && env.resolve(w1, called.value).1.Normal?
  }

  // ---- over an iterator ----

  /** The start of a turn. */
  lemma TurnBegins<W>(env: Env<W>, mapping: bool, first: bool, w: W, k: nat, stored: map<nat, Value>)
    ensures var o := Iterate(env, mapping, first, w, k, stored, []); var (w1, called) := env.next(w);
            && (k >= MAX_LENGTH ==> o == Settled(Reject(env.close(w, TYPE_ERROR).1), true))
            && (k < MAX_LENGTH && NextWorks(env, w) ==> o == Waiting(NextResult, k, stored))
            && (k < MAX_LENGTH && called.Throw? ==>
                  o == if first then Settled(Reject(called.error), false) else Lost(called.error))
            && (k < MAX_LENGTH && called.Normal? && env.resolve(w1, called.value).1.Throw? ==>
                  var e := env.resolve(w1, called.value).1.error;
                  o == if first then Settled(Reject(e), false) else Lost(e))
  {
  }

  /** A result that cannot be read, and one that says the iterator is done. */
  lemma ResultEnds<W>(env: Env<W>, mapping: bool, k: nat, stored: map<nat, Value>, d: Delivery<W>)
    ensures var o := GotNext(env, mapping, k, stored, [d]);
            && (d.Rejected? ==> o == Settled(Reject(env.close(d.world, d.error).1), true))
            && (d.Fulfilled? && !env.isObject(d.value) ==> o == Lost(TYPE_ERROR))
            && (d.Fulfilled? && env.isObject(d.value) ==>
                  var (w1, done) := env.done(d.world, d.value);
                  && (done.Throw? ==> o == Lost(done.error))
                  && (done == Normal(true) && env.setLength(w1, k).1.Normal? ==> o == Settled(Resolve(stored, k), false))
                  && (done == Normal(true) && env.setLength(w1, k).1.Throw? ==>
                        o == Settled(Reject(env.setLength(w1, k).1.error), false))
                  && (done == Normal(false) && env.valueOf(w1, d.value).1.Throw? ==>
                        o == Lost(env.valueOf(w1, d.value).1.error)))
  {
  }

  /** A result with a value: it is given to the mapper, or stored. */
  lemma ResultGoesOn<W>(env: Env<W>, mapping: bool, k: nat, stored: map<nat, Value>, d: Delivery<W>)
    requires d.Fulfilled? && env.isObject(d.value)
    requires var (w1, done) := env.done(d.world, d.value); done == Normal(false) && env.valueOf(w1, d.value).1.Normal?
    ensures var (w2, v) := env.valueOf(env.done(d.world, d.value).0, d.value);
            var o := GotNext(env, mapping, k, stored, [d]);
            && (!mapping ==>
                  var (w3, defined) := env.define(w2, k, v.value);
                  o == if defined.Normal? then Waiting(NextTurn, k + 1, stored[k := v.value])
                       else Settled(Reject(env.close(w3, defined.error).1), true))
            && (mapping ==>
                  var (w3, mapped) := env.mapper(w2, v.value, k);
                  o == if mapped.Throw? then Settled(Reject(env.close(w3, mapped.error).1), true)
                       else if env.resolve(w3, mapped.value).1.Throw? then Lost(env.resolve(w3, mapped.value).1.error)
                       else Waiting(MappedValue, k, stored))
  {
    var (w1, done) := env.done(d.world, d.value);
    var (w2, v) := env.valueOf(w1, d.value);
    assert ReadResult(env, d.world, d.value) == Yielded(w2, v.value);
    assert [d][1..] == [];
    if mapping {
      var (w3, mapped) := env.mapper(w2, v.value, k);
      assert mapped.Throw? ==> GotNext(env, mapping, k, stored, [d]) == CloseAndReject(env, w3, mapped.error);
    } else {
      var (w3, defined) := env.define(w2, k, v.value);
      assert Keep(env, mapping, w2, v.value, k, stored, []) ==
             if defined.Throw? then CloseAndReject(env, w3, defined.error) else Waiting(NextTurn, k + 1, stored[k := v.value]);
    }
  }

  /** The awaited mapped value is stored. */
  lemma MappedGoesOn<W>(env: Env<W>, mapping: bool, k: nat, stored: map<nat, Value>, d: Delivery<W>)
    ensures var o := GotMapped(env, mapping, k, stored, [d]);
            && (d.Rejected? ==> o == Settled(Reject(env.close(d.world, d.error).1), true))
            && (d.Fulfilled? ==>
                  var (w1, defined) := env.define(d.world, k, d.value);
                  o == if defined.Normal? then Waiting(NextTurn, k + 1, stored[k := d.value])
                       else Settled(Reject(env.close(w1, defined.error).1), true))
  {
    assert [d][1..] == [];
    if d.Fulfilled? {
      var (w1, defined) := env.define(d.world, k, d.value);
      assert Keep(env, mapping, d.world, d.value, k, stored, []) ==
             if defined.Throw? then CloseAndReject(env, w1, defined.error) else Waiting(NextTurn, k + 1, stored[k := d.value]);
    }
  }

  /** The value a result gives and the state after reading it, when it gives one. */
  function Given<W>(env: Env<W>, d: Delivery<W>): Option<(W, Value)>
  {
    if d.Rejected? || !env.isObject(d.value) then None
    else
      var (w1, done) := env.done(d.world, d.value);
      var (w2, v) := env.valueOf(w1, d.value);
      if done == Normal(false) && v.Normal? then Some((w2, v.value)) else None
  }

  /** The result says that the iterator is done, and the length `k` can be set. */
  predicate Closes<W>(env: Env<W>, d: Delivery<W>, k: nat)
  {
    d.Fulfilled? && env.isObject(d.value) &&
    var (w1, done) := env.done(d.world, d.value);
    done == Normal(true) && env.setLength(w1, k).1.Normal?
  }

  /** The first turn stores an element without anything throwing. */
  predicate SmoothTurn<W>(env: Env<W>, mapping: bool, k: nat, outs: seq<Delivery<W>>)
  {
    && |outs| >= Period(mapping) && outs[Period(mapping) - 1].Fulfilled?
    && Given(env, outs[0]).Some?
    && var (w, v) := Given(env, outs[0]).value;
       if !mapping then env.define(w, k, v).1.Normal?
       else
          && MapperWorks(env, w, v, k)
          && outs[1].Fulfilled? && env.define(outs[1].world, k, outs[1].value).1.Normal?
  }

  predicate MapperWorks<W>(env: Env<W>, w: W, v: Value, k: nat)
  {
    var (w1, mapped) := env.mapper(w, v, k);
    mapped.Normal? && env.resolve(w1, mapped.value).1.Normal?
  }

  /** `n` such turns from `k` on, and then the end of the iterator. */
  ghost predicate Smooth<W>(env: Env<W>, mapping: bool, w: W, k: nat, outs: seq<Delivery<W>>, n: nat)
    decreases n
  {
    && k < MAX_LENGTH && NextWorks(env, w) && outs != []
    && if n == 0 then Closes(env, outs[0], k)
       else
         && SmoothTurn(env, mapping, k, outs)
         && Smooth(env, mapping, outs[Period(mapping) - 1].world, k + 1, outs[Period(mapping)..], n - 1)
  }

  lemma SmoothStores<W>(env: Env<W>, mapping: bool, k: nat, outs: seq<Delivery<W>>)
    requires SmoothTurn(env, mapping, k, outs)
    ensures Turn(env, mapping, k, outs).Some?
  {
    var (w, v) := Given(env, outs[0]).value;
    assert ReadResult(env, outs[0].world, outs[0].value) == Yielded(w, v);
  }

  /** A run of `n` such turns resolves with `n` more elements, and the iterator is not closed. */
  lemma {:induction false} SmoothResolves<W>(
      env: Env<W>, mapping: bool, first: bool, w: W, k: nat, stored: map<nat, Value>, outs: seq<Delivery<W>>, n: nat)
    requires Smooth(env, mapping, w, k, outs, n)
    ensures var o := Iterate(env, mapping, first, w, k, stored, outs);
            o.Settled? && o.s.Resolve? && o.s.length == k + n && !o.closed
    decreases n
  {
    if n == 0 {
      var (w1, done) := env.done(outs[0].world, outs[0].value);
      assert ReadResult(env, outs[0].world, outs[0].value) == Exhausted(w1);
    } else {
      var p := Period(mapping);
      SmoothStores(env, mapping, k, outs);
      TurnStores(env, mapping, k, stored, outs);
      SmoothResolves(env, mapping, false, outs[p - 1].world, k + 1,
                     stored[k := Turn(env, mapping, k, outs).value], outs[p..], n - 1);
    }
  }

  /** The whole operation: it resolves with exactly the `n` values its deliveries provide. */
  lemma Completes<W>(env: Env<W>, mapping: bool, w: W, outs: seq<Delivery<W>>, n: nat)
    requires Smooth(env, mapping, w, 0, outs, n)
    ensures exists stored :: Holds(stored, n, FromIterator(env, mapping, outs)) &&
              Iterate(env, mapping, true, w, 0, map[], outs) == Settled(Resolve(stored, n), false)
  {
    SmoothResolves(env, mapping, true, w, 0, map[], outs, n);
    RunStores(env, mapping, w, outs);
    var o := Iterate(env, mapping, true, w, 0, map[], outs);
    assert Holds(o.s.stored, n, FromIterator(env, mapping, outs));
  }

  // ---- over an array-like ----

  /** The head of the loop. */
  lemma ElementBegins<W>(env: Env<W>, mapping: bool, len: nat, w: W, k: nat, stored: map<nat, Value>)
    ensures var o := EachElement(env, mapping, len, w, k, stored, []); var (w1, got) := env.get(w, k);
            && (k >= len && env.setLength(w, k).1.Normal? ==> o == Settled(Resolve(stored, k), false))
            && (k >= len && env.setLength(w, k).1.Throw? ==> o == Settled(Reject(env.setLength(w, k).1.error), false))
            && (k < len && got.Throw? ==> o == Settled(Reject(got.error), false))
            && (k < len && got.Normal? && env.resolve(w1, got.value).1.Throw? ==> o == Lost(env.resolve(w1, got.value).1.error))
            && (k < len && got.Normal? && env.resolve(w1, got.value).1.Normal? ==> o == Waiting(ArrayElement, k, stored))
  {
  }

  /** An awaited element is given to the mapper, or stored; and the next one is read at once. */
  lemma ElementGoesOn<W>(env: Env<W>, mapping: bool, len: nat, k: nat, stored: map<nat, Value>, d: Delivery<W>)
    ensures var o := GotElement(env, mapping, len, k, stored, [d]);
            && (d.Rejected? ==> o == Settled(Reject(d.error), false))
            && (d.Fulfilled? && !mapping ==> o == AfterDefine(env, mapping, len, k, stored, d))
            && (d.Fulfilled? && mapping ==>
                  var (w1, mapped) := env.mapper(d.world, d.value, k);
                  o == if mapped.Throw? then Settled(Reject(mapped.error), false)
                       else if env.resolve(w1, mapped.value).1.Throw? then Lost(env.resolve(w1, mapped.value).1.error)
                       else Waiting(MappedValue, k, stored))
  {
    assert [d][1..] == [];
    if d.Fulfilled? && mapping {
      var (w1, mapped) := env.mapper(d.world, d.value, k);
      assert mapped.Throw? ==> GotElement(env, mapping, len, k, stored, [d]) == Settled(Reject(mapped.error), false);
    }
  }

  lemma MappedElementGoesOn<W>(env: Env<W>, mapping: bool, len: nat, k: nat, stored: map<nat, Value>, d: Delivery<W>)
    ensures var o := GotMappedElement(env, mapping, len, k, stored, [d]);
            && (d.Rejected? ==> o == Settled(Reject(d.error), false))
            && (d.Fulfilled? ==> o == AfterDefine(env, mapping, len, k, stored, d))
  {
    assert [d][1..] == [];
  }

  /** Element `k` is defined; an exception is lost, and otherwise the loop begins again for `k + 1`. */
  function AfterDefine<W>(env: Env<W>, mapping: bool, len: nat, k: nat, stored: map<nat, Value>, d: Delivery<W>): Outcome
    requires d.Fulfilled?
  {
    var (w1, defined) := env.define(d.world, k, d.value);
    if defined.Throw? then Lost(defined.error) else EachElement(env, mapping, len, w1, k + 1, stored[k := d.value], [])
  }

  /** Every element from `k` on can be read, awaited, mapped and stored, and the length can be set. */
  ghost predicate SmoothElements<W>(env: Env<W>, mapping: bool, len: nat, w: W, k: nat, outs: seq<Delivery<W>>)
    decreases len - k
  {
    if k >= len then env.setLength(w, k).1.Normal?
    else
      var (w1, got) := env.get(w, k);
      var p := Period(mapping) - 1;
      && got.Normal? && env.resolve(w1, got.value).1.Normal?
      && |outs| >= p && outs[0].Fulfilled? && outs[p - 1].Fulfilled?
      && (mapping ==> MapperWorks(env, outs[0].world, outs[0].value, k))
      && var (w2, defined) := env.define(outs[p - 1].world, k, outs[p - 1].value);
         defined.Normal? && SmoothElements(env, mapping, len, w2, k + 1, outs[p..])
  }

  lemma {:induction false} ElementsResolve<W>(
      env: Env<W>, mapping: bool, len: nat, w: W, k: nat, stored: map<nat, Value>, outs: seq<Delivery<W>>)
    requires k <= len && SmoothElements(env, mapping, len, w, k, outs)
    ensures var o := EachElement(env, mapping, len, w, k, stored, outs); o.Settled? && o.s.Resolve? && o.s.length == len
    decreases len - k
  {
    if k < len {
      var p := Period(mapping) - 1;
      ElementTurnStores(env, mapping, len, k, stored, outs);
      var (w2, defined) := env.define(outs[p - 1].world, k, outs[p - 1].value);
      assert ElementTurn(env, mapping, k, outs) == Some((w2, outs[p - 1].value));
      ElementsResolve(env, mapping, len, w2, k + 1, stored[k := outs[p - 1].value], outs[p..]);
    }
  }

  /** The whole operation over an array-like resolves with exactly `len` values, those its deliveries provide. */
  lemma ArrayLikeCompletes<W>(env: Env<W>, mapping: bool, len: nat, w: W, outs: seq<Delivery<W>>)
    requires SmoothElements(env, mapping, len, w, 0, outs)
    ensures exists stored :: Holds(stored, len, FromElements(mapping, outs)) &&
              FromArrayLike(env, mapping, len, [Fulfilled(w, Undefined)] + outs) == Settled(Resolve(stored, len), false)
  {
    var all := [Fulfilled(w, Undefined)] + outs;
    assert all[1..] == outs;
    ElementsResolve(env, mapping, len, w, 0, map[], outs);
    NeverCloses(env, mapping, len, w, 0, map[], outs);
    ArrayLikeRunStores(env, mapping, len, all);
    var o := FromArrayLike(env, mapping, len, all);
    assert Holds(o.s.stored, len, FromElements(mapping, outs));
  }

  lemma {:induction false} NeverCloses<W>(
      env: Env<W>, mapping: bool, len: nat, w: W, k: nat, stored: map<nat, Value>, outs: seq<Delivery<W>>)
    ensures var o := EachElement(env, mapping, len, w, k, stored, outs); o.Settled? ==> !o.closed
    decreases |outs|
  {
    if k < len && outs != [] {
      var p, turn := Period(mapping) - 1, ElementTurn(env, mapping, k, outs);
      ElementTurnStores(env, mapping, len, k, stored, outs);
      if turn.Some? {
        NeverCloses(env, mapping, len, turn.value.0, k + 1, stored[k := turn.value.1], outs[p..]);
      } else if mapping && |outs| > 1 && outs[1].Fulfilled? {
        assert outs[1..][0] == outs[1];
        assert GotMappedElement(env, mapping, len, k, stored, outs[1..]) ==
               KeepElement(env, mapping, len, outs[1].world, outs[1].value, k, stored, outs[1..][1..]);
      }
    }
  }
}
