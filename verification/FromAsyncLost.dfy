/**
 * Which runs of Array.fromAsync end in an exception that nobody catches, so that
 * the promise stays pending for ever.
 */
module FromAsyncLost {
  import opened Common
  import opened SparseObjects
  import opened FromAsyncLoops
  import opened FromAsyncRuns

  // ---- over an iterator ----

  /** One more delivery: what becomes of an operation that has come as far as `o`. */
  function Continue<W>(env: Env<W>, mapping: bool, o: Outcome, d: Delivery<W>): Outcome
  {
    match o
    case Waiting(NextResult, k, stored) => GotNext(env, mapping, k, stored, [d])
    case Waiting(MappedValue, k, stored) => GotMapped(env, mapping, k, stored, [d])
    case Waiting(NextTurn, k, stored) =>
      if d.Rejected? then CloseAndReject(env, d.world, d.error) else Iterate(env, mapping, false, d.world, k, stored, [])
    case _ => o
  }

  /** The loop can be cut at every await: a run is its deliveries taken one at a time. */
  lemma {:induction false} IterateContinues<W>(
      env: Env<W>, mapping: bool, first: bool, w: W, k: nat, stored: map<nat, Value>, outs: seq<Delivery<W>>, d: Delivery<W>)
    ensures Iterate(env, mapping, first, w, k, stored, outs + [d]) ==
            Continue(env, mapping, Iterate(env, mapping, first, w, k, stored, outs), d)
    decreases |outs|, 2
  {
    if outs == [] {
      assert outs + [d] == [d];
    } else {
      NextContinues(env, mapping, k, stored, outs, d);
    }
  }

  lemma {:induction false} NextContinues<W>(
      env: Env<W>, mapping: bool, k: nat, stored: map<nat, Value>, outs: seq<Delivery<W>>, d: Delivery<W>)
    requires outs != []
    ensures GotNext(env, mapping, k, stored, outs + [d]) == Continue(env, mapping, GotNext(env, mapping, k, stored, outs), d)
    decreases |outs|, 1
  {
    assert (outs + [d])[1..] == outs[1..] + [d];
    if outs[0].Fulfilled? {
      var r := ReadResult(env, outs[0].world, outs[0].value);
      if r.Yielded? {
        if !mapping {
          KeepContinues(env, mapping, r.world, r.value, k, stored, outs[1..], d);
        } else if |outs| == 1 {
          assert outs[1..] + [d] == [d];
        } else {
          MappedContinues(env, mapping, k, stored, outs[1..], d);
        }
      }
    }
  }

  lemma {:induction false} MappedContinues<W>(
      env: Env<W>, mapping: bool, k: nat, stored: map<nat, Value>, outs: seq<Delivery<W>>, d: Delivery<W>)
    requires outs != []
    ensures GotMapped(env, mapping, k, stored, outs + [d]) == Continue(env, mapping, GotMapped(env, mapping, k, stored, outs), d)
    decreases |outs|, 1
  {
    assert (outs + [d])[1..] == outs[1..] + [d];
    if outs[0].Fulfilled? {
      KeepContinues(env, mapping, outs[0].world, outs[0].value, k, stored, outs[1..], d);
    }
  }

  lemma {:induction false} KeepContinues<W>(
      env: Env<W>, mapping: bool, w: W, v: Value, k: nat, stored: map<nat, Value>, outs: seq<Delivery<W>>, d: Delivery<W>)
    ensures Keep(env, mapping, w, v, k, stored, outs + [d]) == Continue(env, mapping, Keep(env, mapping, w, v, k, stored, outs), d)
    decreases |outs|, 0
  {
    if outs == [] {
      assert outs + [d] == [d] && [d][1..] == [];
    } else {
      assert (outs + [d])[1..] == outs[1..] + [d];
      if outs[0].Fulfilled? {
        IterateContinues(env, mapping, false, outs[0].world, k + 1, stored[k := v], outs[1..], d);
      }
    }
  }

  /** The mapper returns a promise that cannot be awaited. */
  predicate Unresolvable<W>(env: Env<W>, w: W, v: Value, k: nat)
  {
    var (w1, mapped) := env.mapper(w, v, k);
    mapped.Normal? && env.resolve(w1, mapped.value).1.Throw?
  }

  /**
   * The guard of the places where a resumed worker throws: the result of `next`
   * cannot be read, the mapper returns a promise that cannot be awaited, or, at the
   * start of a later turn, `next` throws or returns such a promise.
   */
  predicate Loses<W>(env: Env<W>, mapping: bool, o: Outcome, d: Delivery<W>)
  {
    o.Waiting? && d.Fulfilled? &&
    match o.place
    case NextResult =>
      var r := ReadResult(env, d.world, d.value);
      r.Unreadable? || (r.Yielded? && mapping && Unresolvable(env, r.world, r.value, o.k))
    case NextTurn => o.k < MAX_LENGTH && Ask(env, d.world).Throw?
    case _ => false
  }

  /** One delivery loses the run exactly when it meets the guard. */
  lemma DeliveryLostIff<W>(env: Env<W>, mapping: bool, o: Outcome, d: Delivery<W>)
    ensures Continue(env, mapping, o, d).Lost? <==> o.Lost? || Loses(env, mapping, o, d)
  {
    assert [d][1..] == [];
    if o.Waiting? && d.Fulfilled? {
      assert !GotMapped(env, mapping, o.k, o.stored, [d]).Lost?;
      var r := ReadResult(env, d.world, d.value);
      if r.Yielded? && mapping {
        MappingLostIff(env, o.k, o.stored, d);
      } else if r.Yielded? {
        assert !Keep(env, mapping, r.world, r.value, o.k, o.stored, []).Lost?;
      }
    }
  }

  lemma MappingLostIff<W>(env: Env<W>, k: nat, stored: map<nat, Value>, d: Delivery<W>)
    requires d.Fulfilled? && ReadResult(env, d.world, d.value).Yielded?
    ensures var r := ReadResult(env, d.world, d.value);
            GotNext(env, true, k, stored, [d]).Lost? <==> Unresolvable(env, r.world, r.value, k)
  {
    var r := ReadResult(env, d.world, d.value);
    var (w1, mapped) := env.mapper(r.world, r.value, k);
    if mapped.Normal? {
      var resolved := env.resolve(w1, mapped.value).1;
      assert GotNext(env, true, k, stored, [d]) ==
             if resolved.Throw? then Lost(resolved.error) else Waiting(MappedValue, k, stored);
    }
  }

  /** A whole run leaves the promise pending for ever exactly when one of its deliveries meets the guard. */
  lemma {:induction false} RunLostIff<W>(env: Env<W>, mapping: bool, w: W, outs: seq<Delivery<W>>)
    ensures Iterate(env, mapping, true, w, 0, map[], outs).Lost? <==>
            exists i :: 0 <= i < |outs| && Loses(env, mapping, Iterate(env, mapping, true, w, 0, map[], outs[..i]), outs[i])
  {
    if outs != [] {
      var init, d := outs[..|outs| - 1], outs[|outs| - 1];
      assert outs == init + [d];
      IterateContinues(env, mapping, true, w, 0, map[], init, d);
      DeliveryLostIff(env, mapping, Iterate(env, mapping, true, w, 0, map[], init), d);
      RunLostIff(env, mapping, w, init);
      assert forall i :: 0 <= i < |init| ==> init[..i] == outs[..i] && init[i] == outs[i];
    }
  }

  /** Every delivered result of `next` can be read. */
  ghost predicate Readable<W>(env: Env<W>, mapping: bool, outs: seq<Delivery<W>>)
  {
    forall i :: 0 <= i < |outs| && i % Period(mapping) == 0 && outs[i].Fulfilled? ==>
      !ReadResult(env, outs[i].world, outs[i].value).Unreadable?
  }

  /** `next` and the mapper never throw and never return a promise that cannot be awaited. */
  ghost predicate Tame<W(!new)>(env: Env<W>)
  {
    && (forall w :: Ask(env, w).Normal?)
    && (forall w, v, k :: !Unresolvable(env, w, v, k))
  }

  /** Then no run whose delivered results can be read is lost. */
  lemma TameNeverLost<W(!new)>(env: Env<W>, mapping: bool, w: W, outs: seq<Delivery<W>>)
    requires Tame(env) && Readable(env, mapping, outs)
    ensures !Iterate(env, mapping, true, w, 0, map[], outs).Lost?
  {
    RunLostIff(env, mapping, w, outs);
    forall i | 0 <= i < |outs|
      ensures !Loses(env, mapping, Iterate(env, mapping, true, w, 0, map[], outs[..i]), outs[i])
    {
      WaitsAt(env, mapping, true, w, 0, map[], outs[..i]);
    }
  }

  /** An iterator that throws at its second `next`: the script state counts the calls. */
  function ThrowsSecond(): Env<int>
  {
    Env(
      (w: int) => (w + 1, if w == 0 then Normal(Ref(0)) else Throw(Text("boom"))),
      (v: Value) => v.Ref?,
      (w: int, v: Value) => (w, Normal(false)),
      (w: int, v: Value) => (w, Normal(Number(7))),
      (w: int, i: nat) => (w, Normal(Undefined)),
      (w: int, v: Value, i: nat) => (w, Normal(v)),
      (w: int, i: nat, v: Value) => (w, Normal(())),
      (w: int, n: nat) => (w, Normal(())),
      (w: int, v: Value) => (w, Normal(())),
      (w: int, e: Value) => (w, e))
  }

  /** Its error never reaches the promise, although the same error in the first `next` rejects it. */
  lemma SecondThrowIsLost()
    ensures Iterate(ThrowsSecond(), false, true, 0, 0, map[], [Fulfilled(1, Ref(0)), Fulfilled(1, Undefined)]) == Lost(Text("boom"))
    ensures Iterate(ThrowsSecond(), false, true, 1, 0, map[], []) == Settled(Reject(Text("boom")), false)
  {
    var env, outs := ThrowsSecond(), [Fulfilled(1, Ref(0)), Fulfilled(1, Undefined)];
    assert outs[1..] == [Fulfilled(1, Undefined)] && outs[1..][1..] == [];
    assert Iterate(env, false, false, 1, 1, map[0 := Number(7)], []) == Lost(Text("boom"));
    assert Keep(env, false, 1, Number(7), 0, map[], outs[1..]) == Lost(Text("boom"));
    assert GotNext(env, false, 0, map[], outs) == Lost(Text("boom"));
  }

  // ---- over an array-like ----

  function ContinueElements<W>(env: Env<W>, mapping: bool, len: nat, o: Outcome, d: Delivery<W>): Outcome
  {
    match o
    case Waiting(ArrayElement, k, stored) => GotElement(env, mapping, len, k, stored, [d])
    case Waiting(MappedValue, k, stored) => GotMappedElement(env, mapping, len, k, stored, [d])
    case Waiting(NextTurn, k, stored) =>
      if d.Rejected? then Settled(Reject(d.error), false) else EachElement(env, mapping, len, d.world, k, stored, [])
    case _ => o
  }

  lemma {:induction false} ElementsContinue<W>(
      env: Env<W>, mapping: bool, len: nat, w: W, k: nat, stored: map<nat, Value>, outs: seq<Delivery<W>>, d: Delivery<W>)
    ensures EachElement(env, mapping, len, w, k, stored, outs + [d]) ==
            ContinueElements(env, mapping, len, EachElement(env, mapping, len, w, k, stored, outs), d)
    decreases |outs|, 1
  {
    if outs == [] {
      assert outs + [d] == [d];
    } else {
      ElementContinues(env, mapping, len, k, stored, outs, d);
    }
  }

  lemma {:induction false} ElementContinues<W>(
      env: Env<W>, mapping: bool, len: nat, k: nat, stored: map<nat, Value>, outs: seq<Delivery<W>>, d: Delivery<W>)
    requires outs != []
    ensures GotElement(env, mapping, len, k, stored, outs + [d]) ==
            ContinueElements(env, mapping, len, GotElement(env, mapping, len, k, stored, outs), d)
    decreases |outs|, 0
  {
    assert (outs + [d])[1..] == outs[1..] + [d];
    if outs[0].Fulfilled? {
      if !mapping {
        KeepElementContinues(env, mapping, len, outs[0].world, outs[0].value, k, stored, outs[1..], d);
      } else if |outs| == 1 {
        assert outs[1..] + [d] == [d];
      } else {
        MappedElementContinues(env, mapping, len, k, stored, outs[1..], d);
      }
    }
  }

  lemma {:induction false} MappedElementContinues<W>(
      env: Env<W>, mapping: bool, len: nat, k: nat, stored: map<nat, Value>, outs: seq<Delivery<W>>, d: Delivery<W>)
    requires outs != []
    ensures GotMappedElement(env, mapping, len, k, stored, outs + [d]) ==
            ContinueElements(env, mapping, len, GotMappedElement(env, mapping, len, k, stored, outs), d)
    decreases |outs|, 0
  {
    assert (outs + [d])[1..] == outs[1..] + [d];
    if outs[0].Fulfilled? {
      KeepElementContinues(env, mapping, len, outs[0].world, outs[0].value, k, stored, outs[1..], d);
    }
  }

  lemma {:induction false} KeepElementContinues<W>(
      env: Env<W>, mapping: bool, len: nat, w: W, v: Value, k: nat, stored: map<nat, Value>, outs: seq<Delivery<W>>, d: Delivery<W>)
    ensures KeepElement(env, mapping, len, w, v, k, stored, outs + [d]) ==
            ContinueElements(env, mapping, len, KeepElement(env, mapping, len, w, v, k, stored, outs), d)
    decreases |outs|, 2
  {
    var (w1, defined) := env.define(w, k, v);
    if defined.Normal? {
      ElementsContinue(env, mapping, len, w1, k + 1, stored[k := v], outs, d);
    }
  }

  /** The whole operation, too, is its deliveries taken one at a time. */
  lemma ArrayLikeContinues<W>(env: Env<W>, mapping: bool, len: nat, outs: seq<Delivery<W>>, d: Delivery<W>)
    ensures FromArrayLike(env, mapping, len, outs + [d]) ==
            ContinueElements(env, mapping, len, FromArrayLike(env, mapping, len, outs), d)
  {
    if outs == [] {
      assert outs + [d] == [d] && [d][1..] == [];
    } else {
      assert (outs + [d])[1..] == outs[1..] + [d];
      if outs[0].Fulfilled? {
        ElementsContinue(env, mapping, len, outs[0].world, 0, map[], outs[1..], d);
      }
    }
  }

  /** Reading the next element gives a promise that cannot be awaited. */
  predicate FetchLoses<W>(env: Env<W>, len: nat, w: W, k: nat)
  {
    var (w1, got) := env.get(w, k);
    k < len && got.Normal? && env.resolve(w1, got.value).1.Throw?
  }

  /** Storing the element throws, or what is read next cannot be awaited. */
  predicate StoreLoses<W>(env: Env<W>, len: nat, w: W, v: Value, k: nat)
  {
    var (w1, defined) := env.define(w, k, v);
    defined.Throw? || FetchLoses(env, len, w1, k + 1)
  }

  /** The guard of the places where the resumed worker throws. */
  predicate LosesElement<W>(env: Env<W>, mapping: bool, len: nat, o: Outcome, d: Delivery<W>)
  {
    o.Waiting? && d.Fulfilled? &&
    match o.place
    case NextTurn => FetchLoses(env, len, d.world, o.k)
    case ArrayElement =>
      if mapping then Unresolvable(env, d.world, d.value, o.k) else StoreLoses(env, len, d.world, d.value, o.k)
    case MappedValue => StoreLoses(env, len, d.world, d.value, o.k)
    case NextResult => false
  }

  lemma EachLostIff<W>(env: Env<W>, mapping: bool, len: nat, w: W, k: nat, stored: map<nat, Value>)
    ensures EachElement(env, mapping, len, w, k, stored, []).Lost? <==> FetchLoses(env, len, w, k)
  {
    var (w1, got) := env.get(w, k);
    if k < len && got.Normal? {
      assert EachElement(env, mapping, len, w, k, stored, []) ==
             if env.resolve(w1, got.value).1.Throw? then Lost(env.resolve(w1, got.value).1.error) else Waiting(ArrayElement, k, stored);
    }
  }

  lemma KeepElementLostIff<W>(env: Env<W>, mapping: bool, len: nat, w: W, v: Value, k: nat, stored: map<nat, Value>)
    ensures KeepElement(env, mapping, len, w, v, k, stored, []).Lost? <==> StoreLoses(env, len, w, v, k)
  {
    var (w1, defined) := env.define(w, k, v);
    EachLostIff(env, mapping, len, w1, k + 1, stored[k := v]);
  }

  /** One delivery loses the run exactly when it meets the guard. */
  lemma ElementLostIff<W>(env: Env<W>, mapping: bool, len: nat, o: Outcome, d: Delivery<W>)
    ensures ContinueElements(env, mapping, len, o, d).Lost? <==> o.Lost? || LosesElement(env, mapping, len, o, d)
  {
    assert [d][1..] == [];
    if o.Waiting? && d.Fulfilled? {
      KeepElementLostIff(env, mapping, len, d.world, d.value, o.k, o.stored);
      EachLostIff(env, mapping, len, d.world, o.k, o.stored);
      var (w1, mapped) := env.mapper(d.world, d.value, o.k);
      if mapped.Normal? && mapping {
        var resolved := env.resolve(w1, mapped.value).1;
        assert GotElement(env, mapping, len, o.k, o.stored, [d]) ==
               if resolved.Throw? then Lost(resolved.error) else Waiting(MappedValue, o.k, o.stored);
      }
    }
  }

  /** A whole run over an array-like is lost exactly when one of its deliveries meets that guard. */
  lemma {:induction false} ArrayLikeRunLostIff<W>(env: Env<W>, mapping: bool, len: nat, outs: seq<Delivery<W>>)
    ensures FromArrayLike(env, mapping, len, outs).Lost? <==>
            exists i :: 0 <= i < |outs| && LosesElement(env, mapping, len, FromArrayLike(env, mapping, len, outs[..i]), outs[i])
  {
    hide EachElement, GotElement, GotMappedElement, KeepElement;
    if outs != [] {
      var init, d := outs[..|outs| - 1], outs[|outs| - 1];
      assert outs == init + [d];
      ArrayLikeContinues(env, mapping, len, init, d);
      ElementLostIff(env, mapping, len, FromArrayLike(env, mapping, len, init), d);
      ArrayLikeRunLostIff(env, mapping, len, init);
      assert forall i :: 0 <= i < |init| ==> init[..i] == outs[..i] && init[i] == outs[i];
    }
  }
}
