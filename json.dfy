/**
 * Shared vocabulary of the crawler model: JSON values as decoded from
 * `terraform show -json`, the exceptions the pipeline can raise, and
 * finite generators ("streams") that may end by raising.
 */
module Json {

  datatype Option<+T> = None | Some(value: T)

  datatype Result<+T, +E> = Success(value: T) | Failure(error: E)

  /**
   * A decoded JSON value. Numbers are integers only; an object is a map, so
   * the insertion order of a Python dict is not represented.
   */
  datatype Value =
    | Null
    | Bool(b: bool)
    | Int(n: int)
    | Str(s: string)
    | Arr(items: seq<Value>)
    | Obj(fields: map<string, Value>)

  /** A Python dict with string keys, such as one Terraform resource record. */
  type Dict = map<string, Value>

  /** The exceptions the modelled code raises, by cause. */
  datatype Fault =
    | SensitiveKey(field: string)       // SensitiveKeyError from the pattern self-check
    | MissingKey(key: string)           // KeyError
    | ShapeMismatch                     // AttributeError or TypeError on a value of another type
    | NotConfigured                     // ValueError: API key or endpoint not configured
    | Unsupported(platform: string)     // ValueError: unsupported CI platform
    | BadBatchSize                      // ValueError from islice with a negative size
    | DeliveryFailed(batchIndex: int)   // RequestException re-raised after the last attempt

  /**
   * What a Python generator produces when driven to the end: the items it
   * yielded, then either exhaustion (`error == None`) or the exception it raised.
   */
  datatype Stream<T> = Stream(items: seq<T>, error: Option<Fault>)

  /** The effect of one loop iteration of a generator over its input. */
  datatype Step<U> = Emit(value: U) | Skip | Stop(fault: Fault)

  /** `yield from a` followed by `yield from b`: `b` only runs when `a` ends normally. */
  function Then<T>(a: Stream<T>, b: Stream<T>): (r: Stream<T>)
    ensures a.error.Some? ==> r == a
    ensures a.error.None? ==> r.items == a.items + b.items && r.error == b.error
  {
    if a.error.Some? then a else Stream(a.items + b.items, b.error)
  }

  /** `yield from s` for each stream of `ss`, in order. */
  function ThenAll<T>(ss: seq<Stream<T>>): Stream<T>
  {
    if ss == [] then Stream([], None) else Then(ss[0], ThenAll(ss[1..]))
  }

  /**
   * A generator `for x in xs: ...` whose body yields, skips or raises
   * according to `f`: it stops at the first `Stop`.
   */
  function Pipe<T, U>(f: T -> Step<U>, xs: seq<T>): Stream<U>
  {
    if xs == [] then Stream([], None)
    else match f(xs[0])
      case Stop(e) => Stream([], Some(e))
      case Skip => Pipe(f, xs[1..])
      case Emit(u) => Then(Stream([u], None), Pipe(f, xs[1..]))
  }

  /** The same generator over an upstream generator, whose exception passes through. */
  function PipeStream<T, U>(f: T -> Step<U>, s: Stream<T>): Stream<U>
  {
    Then(Pipe(f, s.items), Stream([], s.error))
  }

  /** Python's `list(map(f, xs))` as a plain sequence. */
  function MapSeq<T, U>(f: T -> U, xs: seq<T>): (r: seq<U>)
    ensures |r| == |xs|
    ensures forall i :: 0 <= i < |xs| ==> r[i] == f(xs[i])
  {
    if xs == [] then [] else [f(xs[0])] + MapSeq(f, xs[1..])
  }

  /** `Then` is associative, so nested `yield from` chains can be regrouped. */
  lemma ThenAssoc<T>(a: Stream<T>, b: Stream<T>, c: Stream<T>)
    ensures Then(Then(a, b), c) == Then(a, Then(b, c))
  {
  }

  /** Piping a concatenation is piping each part in turn. */
  lemma {:induction false} PipeAppend<T, U>(f: T -> Step<U>, xs: seq<T>, ys: seq<T>)
    ensures Pipe(f, xs + ys) == Then(Pipe(f, xs), Pipe(f, ys))
    decreases |xs|
  {
    if xs == [] {
      assert xs + ys == ys;
    } else {
      assert (xs + ys)[0] == xs[0];
      assert (xs + ys)[1..] == xs[1..] + ys;
      PipeAppend(f, xs[1..], ys);
      match f(xs[0])
      case Stop(e) =>
      case Skip =>
      case Emit(u) =>
        ThenAssoc(Stream([u], None), Pipe(f, xs[1..]), Pipe(f, ys));
    }
  }

  /** Piping a chained generator is chaining the piped parts. */
  lemma PipeStreamThen<T, U>(f: T -> Step<U>, a: Stream<T>, b: Stream<T>)
    ensures PipeStream(f, Then(a, b)) == Then(PipeStream(f, a), PipeStream(f, b))
  {
    if a.error.None? {
      PipeAppend(f, a.items, b.items);
      ThenAssoc(Pipe(f, a.items), Pipe(f, b.items), Stream([], b.error));
    }
  }

  /**
   * When `f` yields for every input, the generator yields `f`'s value for
   * each input in order and ends normally.
   */
  lemma {:induction false} PipeAllEmit<T, U>(f: T -> Step<U>, xs: seq<T>)
    requires forall i :: 0 <= i < |xs| ==> f(xs[i]).Emit?
    ensures Pipe(f, xs).error == None
    ensures |Pipe(f, xs).items| == |xs|
    ensures forall i :: 0 <= i < |xs| ==> Pipe(f, xs).items[i] == f(xs[i]).value
    decreases |xs|
  {
    if xs != [] {
      PipeAllEmit(f, xs[1..]);
    }
  }

  /** Everything a piped generator yields is a value `f` emitted for some input. */
  lemma {:induction false} PipeEmitted<T, U>(f: T -> Step<U>, xs: seq<T>, k: int)
    requires 0 <= k < |Pipe(f, xs).items|
    ensures exists i :: 0 <= i < |xs| && f(xs[i]) == Emit(Pipe(f, xs).items[k])
    decreases |xs|
  {
    match f(xs[0])
    case Stop(e) =>
    case Skip =>
      PipeEmitted(f, xs[1..], k);
      var i :| 0 <= i < |xs[1..]| && f(xs[1..][i]) == Emit(Pipe(f, xs[1..]).items[k]);
      assert f(xs[i + 1]) == Emit(Pipe(f, xs).items[k]);
    case Emit(u) =>
      if k > 0 {
        PipeEmitted(f, xs[1..], k - 1);
        var i :| 0 <= i < |xs[1..]| && f(xs[1..][i]) == Emit(Pipe(f, xs[1..]).items[k - 1]);
        assert f(xs[i + 1]) == Emit(Pipe(f, xs).items[k]);
      }
  }

  /**
   * When `f` never skips, the generator's k-th value is what `f` emitted for
   * the k-th input: it yields one value per input until it stops.
   */
  lemma {:induction false} PipeNoSkipAligned<T, U>(f: T -> Step<U>, xs: seq<T>, k: int)
    requires forall i :: 0 <= i < |xs| ==> !f(xs[i]).Skip?
    requires 0 <= k < |Pipe(f, xs).items|
    ensures k < |xs| && f(xs[k]) == Emit(Pipe(f, xs).items[k])
    decreases |xs|
  {
    match f(xs[0])
    case Stop(e) =>
    case Skip =>
    case Emit(u) =>
      if k > 0 {
        assert forall i :: 0 <= i < |xs[1..]| ==> xs[1..][i] == xs[i + 1];
        PipeNoSkipAligned(f, xs[1..], k - 1);
      }
  }

  /** A piped generator raises only by reaching an input on which `f` stops. */
  lemma {:induction false} PipeStops<T, U>(f: T -> Step<U>, xs: seq<T>)
    ensures Pipe(f, xs).error.Some? <==> exists i :: 0 <= i < |xs| && f(xs[i]).Stop?
    decreases |xs|
  {
    if xs != [] {
      PipeStops(f, xs[1..]);
      if f(xs[0]).Stop? {
        assert f(xs[0]).Stop?;
      } else {
        assert forall i :: 1 <= i < |xs| ==> xs[i] == xs[1..][i - 1];
      }
    }
  }
}
