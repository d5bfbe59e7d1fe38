/**
 * What Array.fromAsync (section 23.1.2.2 of ECMA-262) does in this engine, as
 * loops over the outcomes of its awaits.
 */
module FromAsyncLoops {
  import opened Common
  import opened SparseObjects

  /** How an operation of user code ends. */
  datatype Completion<+T> = Normal(value: T) | Throw(error: Value)

  /**
   * User code, as seen by the worker.  `W` is the state of the script; every
   * operation may change it.  `resolve` is PromiseResolve, which reads the
   * "constructor" of an awaited promise and may throw there.  `close` is
   * `closeAsyncIterator` with a throw completion: it always throws, and yields the
   * error that is thrown.
   */
  datatype Env<!W> = Env(
    next: W -> (W, Completion<Value>),
    isObject: Value -> bool,
    done: (W, Value) -> (W, Completion<bool>),
    valueOf: (W, Value) -> (W, Completion<Value>),
    get: (W, nat) -> (W, Completion<Value>),
    mapper: (W, Value, nat) -> (W, Completion<Value>),
    define: (W, nat, Value) -> (W, Completion<()>),
    setLength: (W, nat) -> (W, Completion<()>),
    resolve: (W, Value) -> (W, Completion<()>),
    close: (W, Value) -> (W, Value))

  /** What an awaited promise turned out to be, and the script state at that moment. */
  datatype Delivery<W> = Fulfilled(world: W, value: Value) | Rejected(world: W, error: Value)

  datatype Settlement = Resolve(stored: map<nat, Value>, length: nat) | Reject(error: Value)

  datatype Place = NextResult | MappedValue | NextTurn | ArrayElement

  /**
   * How far the operation has got: waiting, settled (and whether the iterator was
   * closed on the way), or ended by an exception that nobody catches.
   */
  datatype Outcome =
    | Waiting(place: Place, k: nat, stored: map<nat, Value>)
    | Settled(s: Settlement, closed: bool)
    | Lost(error: Value)

  const TYPE_ERROR := Text("TypeError")

  // ---- the iterator loop ----

  /** An exception: caught by `Array.fromAsync` itself while `first`, by nobody in a promise reaction. */
  function Uncaught(first: bool, error: Value): Outcome
  {
    if first then Settled(Reject(error), false) else Lost(error)
  }

  function CloseAndReject<W>(env: Env<W>, w: W, error: Value): Outcome
  {
    Settled(Reject(env.close(w, error).1), true)
  }

  /** Call `next` and hand what it returns to the await. */
  function Ask<W>(env: Env<W>, w: W): Completion<()>
  {
    var (w1, called) := env.next(w);
    if called.Throw? then Throw(called.error) else env.resolve(w1, called.value).1
  }

  /** What an awaited iterator result says. */
  datatype Reading<W> = Unreadable(error: Value) | Exhausted(world: W) | Yielded(world: W, value: Value)

  function ReadResult<W>(env: Env<W>, w: W, result: Value): Reading<W>
  {
    if !env.isObject(result) then Unreadable(TYPE_ERROR)
    else
      var (w1, done) := env.done(w, result);
      if done.Throw? then Unreadable(done.error)
      else if done.value then Exhausted(w1)
      else
        var (w2, v) := env.valueOf(w1, result);
        if v.Throw? then Unreadable(v.error) else Yielded(w2, v.value)
  }

  /** One turn of the loop, from the call of `next` on; `outs` are the awaits still to come. */
  function Iterate<W>(env: Env<W>, mapping: bool, first: bool, w: W, k: nat, stored: map<nat, Value>, outs: seq<Delivery<W>>): Outcome
    decreases |outs|, 2
  {
    if k >= MAX_LENGTH then CloseAndReject(env, w, TYPE_ERROR)
    else
      var asked := Ask(env, w);
      if asked.Throw? then Uncaught(first, asked.error)
      else if outs == [] then Waiting(NextResult, k, stored)
      else GotNext(env, mapping, k, stored, outs)
  }

  /** `nextResult` has been awaited. */
  function GotNext<W>(env: Env<W>, mapping: bool, k: nat, stored: map<nat, Value>, outs: seq<Delivery<W>>): Outcome
    requires outs != []
    decreases |outs|, 1
  {
    if outs[0].Rejected? then CloseAndReject(env, outs[0].world, outs[0].error)
    else
      match ReadResult(env, outs[0].world, outs[0].value)
      case Unreadable(e) => Lost(e)
      case Exhausted(w) => Finish(env, w, k, stored)
      case Yielded(w, v) =>
        if mapping then
          var (w1, mapped) := env.mapper(w, v, k);
          if mapped.Throw? then CloseAndReject(env, w1, mapped.error)
          else
            var resolved := env.resolve(w1, mapped.value).1;
            if resolved.Throw? then Lost(resolved.error)
            else if |outs| == 1 then Waiting(MappedValue, k, stored)
            else GotMapped(env, mapping, k, stored, outs[1..])
        else Keep(env, mapping, w, v, k, stored, outs[1..])
  }

  /** `mappedValue` has been awaited. */
  function GotMapped<W>(env: Env<W>, mapping: bool, k: nat, stored: map<nat, Value>, outs: seq<Delivery<W>>): Outcome
    requires outs != []
    decreases |outs|, 1
  {
    if outs[0].Rejected? then CloseAndReject(env, outs[0].world, outs[0].error)
    else Keep(env, mapping, outs[0].world, outs[0].value, k, stored, outs[1..])
  }

  /** Store element `k`, let the other jobs run (undefined is awaited, which cannot throw), and go round. */
  function Keep<W>(env: Env<W>, mapping: bool, w: W, v: Value, k: nat, stored: map<nat, Value>, outs: seq<Delivery<W>>): Outcome
    decreases |outs|, 0
  {
    var (w1, defined) := env.define(w, k, v);
    if defined.Throw? then CloseAndReject(env, w1, defined.error)
    else if outs == [] then Waiting(NextTurn, k + 1, stored[k := v])
    else if outs[0].Rejected? then CloseAndReject(env, outs[0].world, outs[0].error)
    else Iterate(env, mapping, false, outs[0].world, k + 1, stored[k := v], outs[1..])
  }

  function Finish<W>(env: Env<W>, w: W, k: nat, stored: map<nat, Value>): Outcome
  {
    var status := env.setLength(w, k).1;
    Settled(if status.Throw? then Reject(status.error) else Resolve(stored, k), false)
  }

  // ---- the array-like loop ----

  function EachElement<W>(env: Env<W>, mapping: bool, len: nat, w: W, k: nat, stored: map<nat, Value>, outs: seq<Delivery<W>>): Outcome
    decreases |outs|, 1
  {
    if k >= len then Finish(env, w, k, stored)
    else
      var (w1, got) := env.get(w, k);
      if got.Throw? then Settled(Reject(got.error), false)
      else
        var resolved := env.resolve(w1, got.value).1;
        if resolved.Throw? then Lost(resolved.error)
        else if outs == [] then Waiting(ArrayElement, k, stored)
        else GotElement(env, mapping, len, k, stored, outs)
  }

  /** `kValue` has been awaited. */
  function GotElement<W>(env: Env<W>, mapping: bool, len: nat, k: nat, stored: map<nat, Value>, outs: seq<Delivery<W>>): Outcome
    requires outs != []
    decreases |outs|, 0
  {
    if outs[0].Rejected? then Settled(Reject(outs[0].error), false)
    else if mapping then
      var (w1, mapped) := env.mapper(outs[0].world, outs[0].value, k);
      if mapped.Throw? then Settled(Reject(mapped.error), false)
      else
        var resolved := env.resolve(w1, mapped.value).1;
        if resolved.Throw? then Lost(resolved.error)
        else if |outs| == 1 then Waiting(MappedValue, k, stored)
        else GotMappedElement(env, mapping, len, k, stored, outs[1..])
    else KeepElement(env, mapping, len, outs[0].world, outs[0].value, k, stored, outs[1..])
  }

  function GotMappedElement<W>(env: Env<W>, mapping: bool, len: nat, k: nat, stored: map<nat, Value>, outs: seq<Delivery<W>>): Outcome
    requires outs != []
    decreases |outs|, 0
  {
    if outs[0].Rejected? then Settled(Reject(outs[0].error), false)
    else KeepElement(env, mapping, len, outs[0].world, outs[0].value, k, stored, outs[1..])
  }

  function KeepElement<W>(env: Env<W>, mapping: bool, len: nat, w: W, v: Value, k: nat, stored: map<nat, Value>, outs: seq<Delivery<W>>): Outcome
    decreases |outs|, 2
  {
    var (w1, defined) := env.define(w, k, v);
    if defined.Throw? then Lost(defined.error)
    else EachElement(env, mapping, len, w1, k + 1, stored[k := v], outs)
  }

  /** The whole operation: the first await, of undefined, is there only to give way. */
  function FromArrayLike<W>(env: Env<W>, mapping: bool, len: nat, outs: seq<Delivery<W>>): Outcome
  {
    if outs == [] then Waiting(NextTurn, 0, map[])
    else if outs[0].Rejected? then Settled(Reject(outs[0].error), false)
    else EachElement(env, mapping, len, outs[0].world, 0, map[], outs[1..])
  }

  // ---- where a run stands ----

  /** How many deliveries one turn over an iterator takes. */
  function Period(mapping: bool): nat
  {
    if mapping then 3 else 2
  }

  /** The deliveries of a run, as far as they provide elements; the one that only gives way is left out. */
  datatype Feed<!W> = FromIterator(env: Env<W>, mapping: bool, outs: seq<Delivery<W>>) | FromElements(mapping: bool, outs: seq<Delivery<W>>)

  /** The value that the deliveries provide for element `i`. */
  function Provided<W>(feed: Feed<W>, i: nat): Option<Value>
  {
    match feed
    case FromIterator(env, mapping, outs) =>
      if mapping then AwaitedValue(outs, 3 * i + 1)
      else if AwaitedValue(outs, 2 * i).None? then None
      else
        var result := ReadResult(env, outs[2 * i].world, outs[2 * i].value);
        if result.Yielded? then Some(result.value) else None
    case FromElements(mapping, outs) => AwaitedValue(outs, if mapping then 2 * i + 1 else i)
  }

  function AwaitedValue<W>(outs: seq<Delivery<W>>, j: nat): (v: Option<Value>)
    ensures v.Some? ==> j < |outs| && outs[j].Fulfilled?
  {
    if j < |outs| && outs[j].Fulfilled? then Some(outs[j].value) else None
  }

  /** The elements before `n`, and only those, are stored, each with the value provided for it. */
  ghost predicate Holds<W>(stored: map<nat, Value>, n: nat, feed: Feed<W>)
  {
    && (forall i: nat :: i in stored <==> i < n)
    && (forall i: nat :: i < n ==> Provided(feed, i) == Some(stored[i]))
  }

  /** At every suspension, and on success up to the length. */
  ghost predicate HoldsProvided<W>(o: Outcome, feed: Feed<W>)
  {
    match o
    case Waiting(_, k, stored) => Holds(stored, k, feed)
    case Settled(Resolve(stored, length), _) => Holds(stored, length, feed)
    case _ => true
  }
}
