/**
 * Array.fromAsync (section 23.1.2.2 of ECMA-262): two hand-made coroutines that
 * keep a resume stage in a record, proved equal to the loops they encode.
 */
module ArrayFromAsync {
  import opened Common
  import opened SparseObjects
  import opened FromAsyncLoops
  import opened FromAsyncRuns

  class IteratorRecord<!W> {
    const env: Env<W>
    const mapping: bool
    var stage: nat                      // m_awaitResumeStage
    var k: nat                          // m_k
    var awaitResult: Value              // m_awaitResult
    var world: W
    var stored: map<nat, Value>         // the elements defined on m_a
    var settlements: seq<Settlement>    // what was done to the promise
    var closed: bool                    // the iterator was closed
    var reactions: nat                  // promise reactions that will call back

    ghost predicate Valid()
      reads this
    {
      && stage in {0, 2, 4, 6}
      && (stage == 4 ==> mapping)
      && reactions + |settlements| <= 1
      && (reactions == 1 ==> stage != 0)
      && (forall i: nat :: i in stored <==> i < k)
      && (forall s :: s in settlements && s.Resolve? ==> s == Resolve(stored, k))
      && (settlements == [] ==> !closed)
    }

    constructor (env: Env<W>, mapping: bool, w: W)
      ensures Valid() && this.env == env && this.mapping == mapping && world == w
      ensures stage == 0 && k == 0 && stored == map[] && settlements == [] && reactions == 0 && !closed
    {
      this.env, this.mapping, this.world := env, mapping, w;
      stage, k, awaitResult, stored, settlements, reactions, closed := 0, 0, Undefined, map[], [], 0, false;
    }

    /** Where the record is; only meaningful between calls. */
    ghost function Now(): Outcome
      requires Valid() && reactions + |settlements| == 1
      reads this
    {
      if |settlements| == 1 then Settled(settlements[0], closed)
      else Waiting(if stage == 2 then NextResult else if stage == 4 then MappedValue else NextTurn, k, stored)
    }

    /** What the record will have come to once the deliveries `outs` have been made. */
    ghost function Later(outs: seq<Delivery<W>>): Outcome
      requires Valid() && reactions + |settlements| == 1
      reads this
    {
      if |settlements| == 1 || outs == [] then Now()
      else if stage == 2 then GotNext(env, mapping, k, stored, outs)
      else if stage == 4 then GotMapped(env, mapping, k, stored, outs)
      else if outs[0].Rejected? then CloseAndReject(env, outs[0].world, outs[0].error)
      else Iterate(env, mapping, false, outs[0].world, k, stored, outs[1..])
    }

    /** Await `v`: the stage is set first, then PromiseResolve may throw. */
    method Await(stage': nat, v: Value) returns (thrown: Option<Value>)
      requires reactions == 0
      modifies this`stage, this`reactions, this`world
      ensures stage == stage' && reactions == (if thrown.None? then 1 else 0)
      ensures var resolved := env.resolve(old(world), v).1;
              thrown == if resolved.Throw? then Some(resolved.error) else None
    {
      stage := stage';
      var (w, resolved) := env.resolve(world, v);
      world := w;
      if resolved.Throw? {
        return Some(resolved.error);
      }
      reactions := 1;
      return None;
    }

    /** Await undefined, which is no promise: nothing is read and nothing throws. */
    method GiveWay(stage': nat)
      requires reactions == 0
      modifies this`stage, this`reactions
      ensures stage == stage' && reactions == 1
    {
      stage := stage';
      reactions := 1;
    }

    method Settle(s: Settlement)
      modifies this`settlements
      ensures settlements == old(settlements) + [s]
    {
      settlements := settlements + [s];
    }

    /** Close the iterator for `error` and reject with what that throws. */
    method Fail(error: Value)
      modifies this`settlements, this`closed, this`world
      ensures settlements == old(settlements) + [Reject(env.close(old(world), error).1)] && closed
    {
      var (w, e) := env.close(world, error);
      world, closed := w, true;
      Settle(Reject(e));
    }

    /** The top of the loop: label Stage6. */
    method Top(ghost first: bool, ghost outs: seq<Delivery<W>>) returns (thrown: Option<Value>)
      requires Valid() && reactions == 0 && settlements == [] && stage == 0
      modifies this
      ensures Valid()
      ensures thrown.Some? ==> reactions == 0 && settlements == []
      ensures thrown.None? ==> reactions + |settlements| == 1
      ensures Iterate(env, mapping, first, old(world), old(k), old(stored), outs) ==
                if thrown.Some? then Uncaught(first, thrown.value) else Later(outs)
    {
      if k >= MAX_LENGTH {
        Fail(TYPE_ERROR);
        return None;
      }
      var (w, called) := env.next(world);
      world := w;
      if called.Throw? {
        return Some(called.error);
      }
      thrown := Await(2, called.value);
    }

    /** Define element `k` and give way: the common end of a turn. */
    method Store(v: Value, ghost outs: seq<Delivery<W>>)
      requires Valid() && reactions == 0 && settlements == [] && stage == 0
      modifies this
      ensures Valid() && reactions + |settlements| == 1
      ensures Keep(env, mapping, old(world), v, old(k), old(stored), outs) == Later(outs)
    {
      var (w, defined) := env.define(world, k, v);
      world := w;
      if defined.Throw? {
        Fail(defined.error);
        return;
      }
      stored := stored[k := v];
      k := k + 1;
      GiveWay(6);
    }

    /** Label Stage2: look at the awaited result of `next`. */
    method AfterNext(ghost outs: seq<Delivery<W>>) returns (thrown: Option<Value>)
      requires Valid() && reactions == 0 && settlements == [] && stage == 0
      requires outs != [] && outs[0] == Fulfilled(world, awaitResult)
      modifies this
      ensures Valid()
      ensures thrown.Some? ==> reactions == 0 && settlements == []
      ensures thrown.None? ==> reactions + |settlements| == 1
      ensures GotNext(env, mapping, old(k), old(stored), outs) ==
                if thrown.Some? then Lost(thrown.value) else Later(outs[1..])
    {
      var nextResult := awaitResult;
      if !env.isObject(nextResult) {
        return Some(TYPE_ERROR);
      }
      var (w1, done) := env.done(world, nextResult);
      world := w1;
      if done.Throw? {
        return Some(done.error);
      }
      if done.value {
        var (w2, status) := env.setLength(world, k);
        world := w2;
        Settle(if status.Throw? then Reject(status.error) else Resolve(stored, k));
        return None;
      }
      var (w2, v) := env.valueOf(world, nextResult);
      world := w2;
      if v.Throw? {
        return Some(v.error);
      }
      if mapping {
        var (w3, mapped) := env.mapper(world, v.value, k);
        world := w3;
        if mapped.Throw? {
          Fail(mapped.error);
          return None;
        }
        thrown := Await(4, mapped.value);
      } else {
        Store(v.value, outs[1..]);
        thrown := None;
      }
    }

    /** `builtinArrayFromAsyncAsyncWorker` as a promise reaction: jump to the label the stage names. */
    method Resume(ghost outs: seq<Delivery<W>>) returns (thrown: Option<Value>)
      requires Valid() && reactions == 0 && settlements == [] && stage != 0
      requires outs != [] && outs[0] == Fulfilled(world, awaitResult)
      modifies this
      ensures Valid()
      ensures thrown.Some? ==> reactions == 0 && settlements == []
      ensures thrown.None? ==> reactions + |settlements| == 1
      ensures var now := old(if stage == 2 then GotNext(env, mapping, k, stored, outs)
                             else if stage == 4 then GotMapped(env, mapping, k, stored, outs)
                             else Iterate(env, mapping, false, world, k, stored, outs[1..]));
              now == if thrown.Some? then Lost(thrown.value) else Later(outs[1..])
    {
      var label' := stage;
      stage := 0;
      if label' == 2 {
        thrown := AfterNext(outs);
      } else if label' == 4 {
        Store(awaitResult, outs[1..]);
        thrown := None;
      } else {
        thrown := Top(false, outs[1..]);
      }
    }

    /** One promise reaction: the fulfilled or the rejected function. */
    method Deliver(d: Delivery<W>, ghost outs: seq<Delivery<W>>) returns (thrown: Option<Value>)
      requires Valid() && reactions == 1 && outs != [] && outs[0] == d
      modifies this
      ensures Valid()
      ensures thrown.Some? ==> reactions == 0 && settlements == []
      ensures thrown.None? ==> reactions + |settlements| == 1
      ensures old(Later(outs)) == if thrown.Some? then Lost(thrown.value) else Later(outs[1..])
    {
      reactions := 0;
      world := d.world;
      if d.Rejected? {
        Fail(d.error);
        return None;
      }
      awaitResult := d.value;
      thrown := Resume(outs);
    }
  }

  /**
   * `Array.fromAsync` over an iterator: start the worker, then make the deliveries
   * one by one.  For every sequence of deliveries the record ends up where the
   * sequential loop does, and has stored the values the deliveries provide.
   */
  method RunIterator<W>(env: Env<W>, mapping: bool, w: W, outs: seq<Delivery<W>>) returns (r: Outcome)
    ensures r == Iterate(env, mapping, true, w, 0, map[], outs)
    ensures HoldsProvided(r, FromIterator(env, mapping, outs))
    ensures r.Waiting? ==> |outs| == Period(mapping) * r.k + (if r.place.NextResult? then 0 else if r.place.MappedValue? then 1 else -1)
    ensures r.Waiting? && r.place == MappedValue ==> mapping
  {
    RunStores(env, mapping, w, outs);
    WaitsAt(env, mapping, true, w, 0, map[], outs);
    var rec := new IteratorRecord(env, mapping, w);
    var thrown := rec.Top(true, outs);
    if thrown.Some? {
      return Settled(Reject(thrown.value), false);
    }
    var i := 0;
    while i < |outs| && rec.reactions == 1
      invariant 0 <= i <= |outs| && rec.Valid() && fresh(rec)
      invariant rec.reactions + |rec.settlements| == 1
      invariant rec.Later(outs[i..]) == Iterate(env, mapping, true, w, 0, map[], outs)
    {
      thrown := rec.Deliver(outs[i], outs[i..]);
      assert outs[i..][1..] == outs[i + 1..];
      if thrown.Some? {
        return Lost(thrown.value);
      }
      i := i + 1;
    }
    if rec.reactions == 0 {
      return Settled(rec.settlements[0], rec.closed);
    }
    return Waiting(if rec.stage == 2 then NextResult else if rec.stage == 4 then MappedValue else NextTurn,
                   rec.k, rec.stored);
  }

  class ArrayLikeRecord<!W> {
    const env: Env<W>
    const mapping: bool
    const len: nat                      // m_len
    var stage: nat                      // m_awaitResumeStage
    var k: nat                          // m_k
    var awaitResult: Value              // m_awaitResult
    var world: W
    var stored: map<nat, Value>
    var settlements: seq<Settlement>
    var reactions: nat

    ghost predicate Valid()
      reads this
    {
      && stage in {0, 1, 2}
      && (stage == 2 ==> mapping)
      && reactions + |settlements| <= 1
      && (reactions == 1 && stage == 0 ==> k == 0)
      && (forall i: nat :: i in stored <==> i < k)
      && (forall s :: s in settlements && s.Resolve? ==> s == Resolve(stored, k))
    }

    constructor (env: Env<W>, mapping: bool, len: nat, w: W)
      ensures Valid() && this.env == env && this.mapping == mapping && this.len == len
      ensures stage == 0 && k == 0 && stored == map[] && settlements == [] && reactions == 1
    {
      this.env, this.mapping, this.len, this.world := env, mapping, len, w;
      stage, k, awaitResult, stored, settlements, reactions := 0, 0, Undefined, map[], [], 1;
    }

    ghost function Now(): Outcome
      requires Valid() && reactions + |settlements| == 1
      reads this
    {
      if |settlements| == 1 then Settled(settlements[0], false)
      else Waiting(if stage == 0 then NextTurn else if stage == 1 then ArrayElement else MappedValue, k, stored)
    }

    ghost function Later(outs: seq<Delivery<W>>): Outcome
      requires Valid() && reactions + |settlements| == 1
      reads this
    {
      if |settlements| == 1 || outs == [] then Now()
      else if stage == 1 then GotElement(env, mapping, len, k, stored, outs)
      else if stage == 2 then GotMappedElement(env, mapping, len, k, stored, outs)
      else if outs[0].Rejected? then Settled(Reject(outs[0].error), false)
      else EachElement(env, mapping, len, outs[0].world, k, stored, outs[1..])
    }

    /** Await `v`: the stage is set first, then PromiseResolve may throw. */
    method Await(stage': nat, v: Value) returns (thrown: Option<Value>)
      requires reactions == 0
      modifies this`stage, this`reactions, this`world
      ensures stage == stage' && reactions == (if thrown.None? then 1 else 0)
      ensures var resolved := env.resolve(old(world), v).1;
              thrown == if resolved.Throw? then Some(resolved.error) else None
    {
      stage := stage';
      var (w, resolved) := env.resolve(world, v);
      world := w;
      if resolved.Throw? {
        return Some(resolved.error);
      }
      reactions := 1;
      return None;
    }

    /** The head of the loop: read the next element and await it, or finish. */
    method Head(ghost outs: seq<Delivery<W>>) returns (thrown: Option<Value>)
      requires Valid() && reactions == 0 && settlements == [] && stage == 0
      modifies this
      ensures Valid()
      ensures thrown.Some? ==> reactions == 0 && settlements == []
      ensures thrown.None? ==> reactions + |settlements| == 1
      ensures EachElement(env, mapping, len, old(world), old(k), old(stored), outs) ==
                if thrown.Some? then Lost(thrown.value) else Later(outs)
    {
      if k < len {
        var (w, got) := env.get(world, k);
        world := w;
        if got.Throw? {
          settlements := settlements + [Reject(got.error)];
          return None;
        }
        thrown := Await(1, got.value);
        return;
      }
      var (w, status) := env.setLength(world, k);
      world := w;
      settlements := settlements + [if status.Throw? then Reject(status.error) else Resolve(stored, k)];
      return None;
    }

    /** Define element `k` and go on to the next one without giving way. */
    method Store(v: Value, ghost outs: seq<Delivery<W>>) returns (thrown: Option<Value>)
      requires Valid() && reactions == 0 && settlements == [] && stage == 0
      modifies this
      ensures Valid()
      ensures thrown.Some? ==> reactions == 0 && settlements == []
      ensures thrown.None? ==> reactions + |settlements| == 1
      ensures KeepElement(env, mapping, len, old(world), v, old(k), old(stored), outs) ==
                if thrown.Some? then Lost(thrown.value) else Later(outs)
    {
      var (w, defined) := env.define(world, k, v);
      world := w;
      if defined.Throw? {
        return Some(defined.error);
      }
      stored := stored[k := v];
      k := k + 1;
      thrown := Head(outs);
    }

    /** `builtinArrayFromSyncAsyncWorker`: jump to the label the stage names. */
    method Resume(ghost outs: seq<Delivery<W>>) returns (thrown: Option<Value>)
      requires Valid() && reactions == 0 && settlements == []
      requires outs != [] && outs[0] == Fulfilled(world, awaitResult)
      modifies this
      ensures Valid()
      ensures thrown.Some? ==> reactions == 0 && settlements == []
      ensures thrown.None? ==> reactions + |settlements| == 1
      ensures var now := old(if stage == 1 then GotElement(env, mapping, len, k, stored, outs)
                             else if stage == 2 then GotMappedElement(env, mapping, len, k, stored, outs)
                             else EachElement(env, mapping, len, world, k, stored, outs[1..]));
              now == if thrown.Some? then Lost(thrown.value) else Later(outs[1..])
    {
      var label' := stage;
      stage := 0;
      thrown := None;
      if label' == 1 {
        if mapping {
          var (w, mapped) := env.mapper(world, awaitResult, k);
          world := w;
          if mapped.Throw? {
            settlements := settlements + [Reject(mapped.error)];
          } else {
            thrown := Await(2, mapped.value);
          }
        } else {
          thrown := Store(awaitResult, outs[1..]);
        }
      } else if label' == 2 {
        thrown := Store(awaitResult, outs[1..]);
      } else {
        thrown := Head(outs[1..]);
      }
    }

    method Deliver(d: Delivery<W>, ghost outs: seq<Delivery<W>>) returns (thrown: Option<Value>)
      requires Valid() && reactions == 1 && outs != [] && outs[0] == d
      modifies this
      ensures Valid()
      ensures thrown.Some? ==> reactions == 0 && settlements == []
      ensures thrown.None? ==> reactions + |settlements| == 1
      ensures old(Later(outs)) == if thrown.Some? then Lost(thrown.value) else Later(outs[1..])
    {
      reactions := 0;
      world := d.world;
      if d.Rejected? {
        settlements := settlements + [Reject(d.error)];
        return None;
      }
      awaitResult := d.value;
      thrown := Resume(outs);
    }
  }

  /** `Array.fromAsync` over an array-like, for every sequence of deliveries. */
  method RunArrayLike<W>(env: Env<W>, mapping: bool, len: nat, w: W, outs: seq<Delivery<W>>) returns (r: Outcome)
    ensures r == FromArrayLike(env, mapping, len, outs)
    ensures HoldsProvided(r, FromElements(mapping, Behind(outs)))
    ensures r.Waiting? && r.place == MappedValue ==> mapping
  {
    ArrayLikeRunStores(env, mapping, len, outs);
    var rec := new ArrayLikeRecord(env, mapping, len, w);
    var i := 0;
    assert outs[0..] == outs;
    while i < |outs| && rec.reactions == 1
      invariant 0 <= i <= |outs| && rec.Valid() && fresh(rec)
      invariant rec.env == env && rec.mapping == mapping && rec.len == len
      invariant rec.reactions + |rec.settlements| == 1
      invariant rec.Later(outs[i..]) == FromArrayLike(env, mapping, len, outs)
    {
      var thrown := rec.Deliver(outs[i], outs[i..]);
      assert outs[i..][1..] == outs[i + 1..];
      if thrown.Some? {
        return Lost(thrown.value);
      }
      i := i + 1;
    }
    if rec.reactions == 0 {
      return Settled(rec.settlements[0], false);
    }
    return Waiting(if rec.stage == 0 then NextTurn else if rec.stage == 1 then ArrayElement else MappedValue,
                   rec.k, rec.stored);
  }
}
