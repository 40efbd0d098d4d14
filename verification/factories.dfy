/**
 * The factories a randomizer session hands out, as the configuration their
 * closures capture once construction has validated the arguments, and the
 * arithmetic of the numeric factories.
 */
module Factories {
  import opened Js

  /** The unit of text a lorem-ipsum factory asks for. */
  datatype Units = Words | Sentences | Paragraphs

  /** A count given either as a value, used as it is, or as a factory that
      yields one. */
  datatype Count = Fixed(v: Value) | Derived(f: Factory)

  /** A template value: copied as it is, or replaced by one invocation. */
  datatype Entry = Constant(v: Value) | Produced(f: Factory)

  /** A constructed factory. `Numbers` with `step <= 0` is the continuous
      case; `Texts` stands for `phrase`, `sentence` and `paragraph`;
      `Transformed` is what `f.transform(t)` returns. */
  datatype Factory =
    | Numbers(min: real, max: real, step: real)
    | Booleans(split: Value)
    | Seeds
    | Choices(list: seq<Value>)
    | Dates(instant: Factory)
    | Alternatives(options: seq<Factory>)
    | Arrays(count: Count, item: Factory)
    | Objects(template: seq<(string, Entry)>)
    | Texts(units: Units, count: Count)
    | Permutations(count: Count, list: seq<Value>)
    | Transformed(inner: Factory, fn: Value -> Value)

  /** What construction guarantees of a factory and of every factory inside
      it: numeric ranges are non-empty, choices are over non-empty lists, and
      a date wraps a number factory. */
  predicate Built(f: Factory)
  {
    match f
    case Numbers(min, max, _) => min < max
    case Booleans(_) => true
    case Seeds => true
    case Choices(list) => |list| > 0
    case Dates(instant) => instant.Numbers? && Built(instant)
    case Alternatives(options) => |options| > 0 && forall i | 0 <= i < |options| :: Built(options[i])
    case Arrays(count, item) => (count.Derived? ==> Built(count.f)) && Built(item)
    case Objects(template) =>
      forall i | 0 <= i < |template| :: template[i].1.Produced? ==> Built(template[i].1.f)
    case Texts(_, count) => count.Derived? ==> Built(count.f)
    case Permutations(count, _) => count.Derived? ==> Built(count.f)
    case Transformed(inner, _) => Built(inner)
  }

  /** `Math.floor(range / step) + 1`: how many step-aligned values a stepped
      factory chooses among. */
  function NumSteps(min: real, max: real, step: real): (n: int)
    requires step > 0.0
    ensures min <= max ==> 1 <= n
    ensures (n - 1) as real <= (max - min) / step < n as real
  {
    assert min <= max ==> 0.0 <= (max - min) / step;
    ((max - min) / step).Floor + 1
  }

  /** `Math.floor(d * n)`: which of `n` step-aligned values the draw `d`
      selects. */
  function StepIndex(d: real, n: int): int
  {
    (d * n as real).Floor
  }

  /** `d * range`: the share of a continuous range the draw `d` selects. */
  function Share(d: real, range: real): real
  {
    d * range
  }

  /** The value a number factory returns for the draw `d`. */
  function NumberValue(d: real, min: real, max: real, step: real): real
  {
    if step > 0.0 then
      StepIndex(d, NumSteps(min, max, step)) as real * step + min
    else
      Share(d, max - min) + min
  }

  /** The time value `new Date(x)` keeps for a number `x`: `x` truncated
      toward zero. */
  function TimeClip(x: real): (t: real)
    ensures t == t.Floor as real
    ensures 0.0 <= x ==> 0.0 <= t <= x < t + 1.0
    ensures x < 0.0 ==> t - 1.0 < x <= t <= 0.0
  {
    if x >= 0.0 then x.Floor as real
    else
      var k := (-x).Floor;
      assert 0 <= k && k as real <= -x < k as real + 1.0;
      assert (-(k as real)).Floor == -k;
      -(k as real)
  }

  /** The `max` that `integer(min, max)` passes on: widened by 0.1 when the
      two bounds are equal. */
  function IntegerMax(min: real, max: real): (m: real)
    ensures min <= max ==> min < m
    ensures min != max ==> m == max
  {
    if min == max then min + 0.1 else max
  }

  /** The index `integer(0, n - 1)()` yields for the draw `d`: always a
      position of a list of length `n` (see `IndexIsInteger`). */
  function Index(d: real, n: nat): (i: int)
    requires 0.0 <= d < 1.0 && n >= 1
    ensures 0 <= i < n
  {
    ScaledFloor(d, n);
    StepIndex(d, n)
  }

  /** `Index` is the value `integer(0, n - 1)` returns for the same draw,
      also for `n == 1`, where `integer` widens its range to [0, 0.1]. */
  lemma IndexIsInteger(d: real, n: nat)
    requires 0.0 <= d < 1.0 && n >= 1
    ensures NumberValue(d, 0.0, IntegerMax(0.0, (n - 1) as real), 1.0) == Index(d, n) as real
  {
    var top := IntegerMax(0.0, (n - 1) as real);
    assert NumSteps(0.0, top, 1.0) == n by {
      if n == 1 {
        assert top == 0.1;
        assert (top / 1.0).Floor == 0;
      } else {
        assert top / 1.0 == (n - 1) as real;
      }
    }
  }

  /** `Math.floor(d * n)` is one of 0 .. n - 1 for a draw `d`. */
  lemma ScaledFloor(d: real, n: nat)
    requires 0.0 <= d < 1.0 && n >= 1
    ensures 0 <= StepIndex(d, n) < n
  {
    assert 0.0 <= d * n as real;
    assert d * n as real < n as real by {
      assert (1.0 - d) * n as real > 0.0;
    }
  }

  /** The number of passes of `for (let i = 0; i < n; i++)` when `n`
      converts to `bound` (None for NaN). */
  function Iterations(bound: Option<real>): (k: nat)
    ensures bound.Some? && bound.value > 0.0 ==> k as real >= bound.value > (k - 1) as real
    ensures bound.None? || bound.value <= 0.0 ==> k == 0
  {
    match bound
    case None => 0
    case Some(x) => if x <= 0.0 then 0 else -((-x).Floor)
  }

  /** A counter `i` stays in the loop exactly while `i < n`. */
  lemma IterationsIsLoopBound(x: real, i: nat)
    ensures i < Iterations(Some(x)) <==> (i as real) < x
  {
  }
}
