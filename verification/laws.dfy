/**
 * What the randomizer promises of the values its factories yield and of the
 * way invocations share the session's generator.
 */
module Laws {
  import opened Js
  import opened Prng
  import opened Factories
  import opened Semantics
  import opened Construction

  // ---------------------------------------------------------------------
  // number, integer, boolean, choice, alternative

  /** Without a positive step, `number(min, max)` yields a value in
      [min, max). */
  lemma ContinuousRange(env: Env, f: Factory, s: Stream)
    requires Built(f) && f.Numbers? && f.step <= 0.0
    ensures Eval(env, f, s).value.Num?
    ensures f.min <= Eval(env, f, s).value.x < f.max
  {
    ContinuousValue(Draw(env.source, s), f.min, f.max);
  }

  lemma ContinuousValue(d: real, min: real, max: real)
    requires 0.0 <= d < 1.0 && min < max
    ensures min <= NumberValue(d, min, max, 0.0) < max
  {
    Fraction(d, max - min);
  }

  /** A draw's share of a positive range is less than the range. */
  lemma Fraction(d: real, range: real)
    requires 0.0 <= d < 1.0 && range > 0.0
    ensures 0.0 <= Share(d, range) < range
  {
    NonNeg(d, range);
    Pos(1.0 - d, range);
    assert (1.0 - d) * range == range - d * range;
  }

  lemma Pos(a: real, b: real)
    requires a > 0.0 && b > 0.0
    ensures a * b > 0.0
  {
  }

  lemma NonNeg(a: real, b: real)
    requires a >= 0.0 && b >= 0.0
    ensures a * b >= 0.0
  {
  }

  /** `k * step` for `0 <= k <= q` lies between 0 and `q * step`, and
      reaches `q * step` only for `k == q`. */
  lemma Multiples(k: real, q: real, step: real)
    requires 0.0 <= k <= q && step > 0.0
    ensures 0.0 <= k * step <= q * step
    ensures k * step == q * step ==> k == q
  {
    NonNeg(k, step);
    NonNeg(q - k, step);
    assert (q - k) * step == q * step - k * step;
    if k < q {
      Pos(q - k, step);
    }
  }

  /** With a positive step, `number(min, max, step)` yields `min + k * step`
      for a whole number `k` between 0 and `floor((max - min) / step)`; so
      the value lies in [min, max] and is `max` only when `max - min` is a
      whole multiple of `step`. */
  lemma SteppedRange(env: Env, f: Factory, s: Stream)
    requires Built(f) && f.Numbers? && f.step > 0.0
    ensures Eval(env, f, s).value.Num?
    ensures var x := Eval(env, f, s).value.x;
      && var k := StepIndex(Draw(env.source, s), NumSteps(f.min, f.max, f.step));
      && 0 <= k <= ((f.max - f.min) / f.step).Floor && x == k as real * f.step + f.min
      && f.min <= x <= f.max
      && (x == f.max ==> (f.max - f.min) / f.step == ((f.max - f.min) / f.step).Floor as real)
  {
    SteppedValue(Draw(env.source, s), f.min, f.max, f.step);
  }

  lemma SteppedValue(d: real, min: real, max: real, step: real)
    requires 0.0 <= d < 1.0 && min < max && step > 0.0
    ensures 0 <= StepIndex(d, NumSteps(min, max, step)) <= ((max - min) / step).Floor
    ensures NumberValue(d, min, max, step) == StepIndex(d, NumSteps(min, max, step)) as real * step + min
    ensures min <= NumberValue(d, min, max, step) <= max
    ensures NumberValue(d, min, max, step) == max ==> (max - min) / step == ((max - min) / step).Floor as real
  {
    var q := (max - min) / step;
    assert q * step == max - min && q > 0.0;
    var n := NumSteps(min, max, step);
    ScaledFloor(d, n);
    var k := StepIndex(d, n);
    assert 0 <= k <= q.Floor;
    Multiples(k as real, q, step);
  }

  /** `integer(a, b)` for whole numbers `a <= b` yields a whole number in
      [a, b]; for `a == b` it yields `a` every time. */
  lemma IntegerRange(env: Env, a: int, b: int, s: Stream)
    requires a <= b
    ensures Integer(Num(a as real), Num(b as real)).Success?
    ensures var x := Eval(env, Integer(Num(a as real), Num(b as real)).value, s).value;
      && x.Num? && x.x == x.x.Floor as real && a as real <= x.x <= b as real
      && (a == b ==> x.x == a as real)
  {
    IntegerValue(Draw(env.source, s), a, b);
  }

  lemma IntegerValue(d: real, a: int, b: int)
    requires 0.0 <= d < 1.0 && a <= b
    ensures var x := NumberValue(d, a as real, IntegerMax(a as real, b as real), 1.0);
      && x == x.Floor as real && a as real <= x <= b as real
      && (a == b ==> x == a as real)
  {
    if a == b {
      SingleInteger(d, a as real);
    } else {
      var x := NumberValue(d, a as real, b as real, 1.0);
      WholeSteps(d, a as real, b as real);
      WholeShift(x - a as real, a);
      assert x == (x - a as real) + a as real;
    }
  }

  /** A whole number shifted by a whole number is whole. */
  lemma WholeShift(y: real, a: int)
    requires y == y.Floor as real
    ensures (y + a as real).Floor as real == y + a as real
  {
    assert y + a as real == (y.Floor + a) as real;
  }

  /** `integer(a, a)` chooses among one value: `a` itself. */
  lemma SingleInteger(d: real, a: real)
    requires 0.0 <= d < 1.0
    ensures NumberValue(d, a, IntegerMax(a, a), 1.0) == a
  {
    assert IntegerMax(a, a) - a == 0.1;
    assert NumSteps(a, IntegerMax(a, a), 1.0) == 1;
    ScaledFloor(d, 1);
  }

  /** A step of 1 from a whole number yields whole numbers. */
  lemma WholeSteps(d: real, a: real, b: real)
    requires 0.0 <= d < 1.0 && a < b
    ensures var x := NumberValue(d, a, b, 1.0);
      && x - a == (x - a).Floor as real && a <= x <= b
  {
    SteppedValue(d, a, b, 1.0);
  }

  /** `integer(a, b)` for any numbers `a <= b`, whole or not, yields a value
      in [a, b]. */
  lemma IntegerBounds(d: real, a: real, b: real)
    requires 0.0 <= d < 1.0 && a <= b
    ensures a <= NumberValue(d, a, IntegerMax(a, b), 1.0) <= b
  {
    if a == b {
      SingleInteger(d, a);
    } else {
      SteppedValue(d, a, b, 1.0);
    }
  }

  /** Truncation toward zero keeps the order of two numbers. */
  lemma TimeClipMonotone(x: real, y: real)
    requires x <= y
    ensures TimeClip(x) <= TimeClip(y)
  {
    if 0.0 <= x {
      assert x.Floor <= y.Floor;
    } else if y < 0.0 {
      assert (-y).Floor <= (-x).Floor;
    }
  }

  /** `date(min, max)` yields a time in whole milliseconds between the
      truncations of `Number(min)` and `Number(max)`: `integer` draws a value
      in that range and `new Date` truncates it. */
  lemma DateRange(env: Env, min: Value, max: Value, s: Stream)
    requires Date(min, max).Success?
    ensures var t := Eval(env, Date(min, max).value, s).value;
      && t.Timestamp? && t.ms == t.ms.Floor as real
      && TimeClip(ToNumber(min).value) <= t.ms <= TimeClip(ToNumber(max).value)
  {
    var a, b := ToNumber(min).value, ToNumber(max).value;
    var d := Draw(env.source, s);
    IntegerBounds(d, a, b);
    var x := NumberValue(d, a, IntegerMax(a, b), 1.0);
    TimeClipMonotone(a, x);
    TimeClipMonotone(x, b);
  }

  /** `boolean(split)` yields `draw < split`: with no argument the split is
      0.5, a split of 0 always yields false and a split of 1 always true. */
  lemma BooleanSplit(env: Env, args: seq<Value>, s: Stream)
    ensures var b := Eval(env, Boolean(args), s).value;
      && b.Bool?
      && (args == [] ==> b.b == (Draw(env.source, s) < 0.5))
      && (|args| > 0 && args[0].Num? ==> b.b == (Draw(env.source, s) < args[0].x))
      && (|args| > 0 && ToNumber(args[0]).None? ==> !b.b)
      && (|args| > 0 && args[0] == Num(0.0) ==> !b.b)
      && (|args| > 0 && args[0] == Num(1.0) ==> b.b)
  {
  }

  /** `choice(list)` always yields an element of `list`. */
  lemma ChoiceMember(env: Env, list: seq<Value>, s: Stream)
    requires |list| > 0
    ensures Choice(list).Success?
    ensures Eval(env, Choice(list).value, s).value in list
  {
  }

  /** `alternative(options)` yields what one of the options yields when it
      is invoked on the group's generator after the pick. */
  lemma AlternativeOneOf(env: Env, options: seq<Factory>, s: Stream)
    requires Built(Alternatives(options))
    ensures exists i | 0 <= i < |options| ::
      Eval(env, Alternatives(options), s).value == Eval(env, options[i], Enter(env, s).Next()).value
  {
    var i := Index(Draw(env.source, Enter(env, s)), |options|);
    assert Eval(env, Alternatives(options), s).value == Eval(env, options[i], Enter(env, s).Next()).value;
  }

  // ---------------------------------------------------------------------
  // array

  /** `k` invocations in a row yield `k` values, the `i`th of them from the
      generator after `i` draws. */
  lemma {:induction false} ItemsAt(env: Env, f: Factory, k: nat, s: Stream)
    requires f.Arrays? && Built(f)
    ensures |Items(env, f, k, s).values| == k
    ensures Items(env, f, k, s).after == s.Advance(k)
    ensures forall i | 0 <= i < k :: Items(env, f, k, s).values[i] == Eval(env, f.item, s.Advance(i)).value
    decreases k
  {
    if k > 0 {
      OneDraw(env, f.item, s);
      ItemsAt(env, f, k - 1, s.Next());
      var rest := Items(env, f, k - 1, s.Next()).values;
      forall i | 1 <= i < k
        ensures Items(env, f, k, s).values[i] == Eval(env, f.item, s.Advance(i)).value
      {
        assert Items(env, f, k, s).values[i] == rest[i - 1];
        assert s.Next().Advance(i - 1) == s.Advance(i);
      }
    }
  }

  /** `array(count, item)` yields exactly as many items as the loop
      `i < n` admits for the resolved count `n` (so `n` items for a whole
      number `n >= 0`), each an invocation of `item` on the group's
      generator, one draw after the other. */
  lemma ArrayLength(env: Env, f: Factory, s: Stream)
    requires f.Arrays? && Built(f)
    ensures var c := Resolve(env, f, Enter(env, s));
      && var a := Eval(env, f, s).value;
      && a.List?
      && |a.items| == Iterations(ToNumber(c.value))
      && (f.count.Fixed? ==> |a.items| == Iterations(ToNumber(f.count.v)))
      && forall i | 0 <= i < |a.items| :: a.items[i] == Eval(env, f.item, c.after.Advance(i)).value
  {
    var c := Resolve(env, f, Enter(env, s));
    ItemsAt(env, f, Iterations(ToNumber(c.value)), c.after);
  }

  /** A count of `n` for a whole number `n >= 0` runs the loop `n` times. */
  lemma WholeCount(n: nat)
    ensures Iterations(Some(n as real)) == n
  {
    if n > 0 {
      assert (-(n as real)).Floor == -(n as int);
    }
  }

  // ---------------------------------------------------------------------
  // object

  /** How many entries of `template` are factories. */
  function ProducedCount(template: seq<(string, Entry)>): nat
  {
    if template == [] then 0
    else (if template[0].1.Produced? then 1 else 0) + ProducedCount(template[1..])
  }

  /** The object loop from key `i` on: one field per remaining key, one
      draw per remaining factory, and each field as `FieldAt` says. */
  lemma FieldsAt(env: Env, f: Factory, i: nat, s: Stream)
    requires f.Objects? && Built(f) && i <= |f.template|
    ensures var r := Fields(env, f, i, s);
      && |r.fields| == |f.template| - i
      && r.after == s.Advance(ProducedCount(f.template[i..]))
      && forall j | i <= j < |f.template| ::
        && r.fields[j - i].0 == f.template[j].0
        && (f.template[j].1.Constant? ==> r.fields[j - i].1 == f.template[j].1.v)
        && (f.template[j].1.Produced? ==>
              r.fields[j - i].1 == Eval(env, f.template[j].1.f, s.Advance(ProducedCount(f.template[i..j]))).value)
  {
    FieldsCount(env, f, i, s);
    forall j | i <= j < |f.template|
      ensures Fields(env, f, i, s).fields[j - i] ==
        (f.template[j].0, EntryOutcome(env, f, j, s.Advance(ProducedCount(f.template[i..j]))).value)
    {
      FieldAt(env, f, i, j, s);
    }
  }

  /** The object loop from key `i` on yields one field per key and moves the
      stream by one draw per factory. */
  lemma {:induction false} FieldsCount(env: Env, f: Factory, i: nat, s: Stream)
    requires f.Objects? && Built(f) && i <= |f.template|
    ensures |Fields(env, f, i, s).fields| == |f.template| - i
    ensures Fields(env, f, i, s).after == s.Advance(ProducedCount(f.template[i..]))
    decreases |f.template| - i
  {
    var t := f.template;
    if i < |t| {
      FieldsHead(env, f, i, s);
      FieldsCount(env, f, i + 1, s.Advance(Draws(t[i].1)));
      ProducedCountCons(t, i, |t|);
      assert t[i..|t|] == t[i..] && t[i + 1..|t|] == t[i + 1..];
    } else {
      assert t[i..] == [];
    }
  }

  /** The field of key `j` in the object loop from key `i` on: the key with
      its entry's value on the stream after one draw per factory between. */
  lemma {:induction false} FieldAt(env: Env, f: Factory, i: nat, j: nat, s: Stream)
    requires f.Objects? && Built(f) && i <= j < |f.template|
    ensures |Fields(env, f, i, s).fields| == |f.template| - i
    ensures Fields(env, f, i, s).fields[j - i] ==
      (f.template[j].0, EntryOutcome(env, f, j, s.Advance(ProducedCount(f.template[i..j]))).value)
    decreases j - i
  {
    var t := f.template;
    FieldsCount(env, f, i, s);
    FieldsHead(env, f, i, s);
    if j > i {
      var s' := s.Advance(Draws(t[i].1));
      FieldAt(env, f, i + 1, j, s');
      ProducedCountCons(t, i, j);
      assert s'.Advance(ProducedCount(t[i + 1..j])) == s.Advance(ProducedCount(t[i..j]));
    } else {
      assert t[i..j] == [];
    }
  }

  /** The draws an object entry takes from the group's stream. */
  function Draws(e: Entry): nat
  {
    if e.Produced? then 1 else 0
  }

  lemma ProducedCountCons(t: seq<(string, Entry)>, i: nat, j: nat)
    requires i < j <= |t|
    ensures ProducedCount(t[i..j]) == Draws(t[i].1) + ProducedCount(t[i + 1..j])
  {
    assert t[i..j][0] == t[i] && t[i..j][1..] == t[i + 1..j];
  }

  /** The first entry of the object loop from `i` on, and where it leaves
      the rest of the loop. */
  lemma FieldsHead(env: Env, f: Factory, i: nat, s: Stream)
    requires f.Objects? && Built(f) && i < |f.template|
    ensures var r := Fields(env, f, i, s);
      && var rest := Fields(env, f, i + 1, s.Advance(Draws(f.template[i].1)));
      && r.fields == [(f.template[i].0, r.fields[0].1)] + rest.fields
      && r.after == rest.after
      && (f.template[i].1.Constant? ==> r.fields[0].1 == f.template[i].1.v)
      && (f.template[i].1.Produced? ==> r.fields[0].1 == Eval(env, f.template[i].1.f, s).value)
  {
    if f.template[i].1.Produced? {
      OneDraw(env, f.template[i].1.f, s);
    }
  }

  /** `object(template)` yields the template's keys in template order; a
      constant is copied as it is and a factory is replaced by one invocation
      of it, on the group's generator after one draw per factory before it. */
  lemma ObjectShape(env: Env, f: Factory, s: Stream)
    requires f.Objects? && Built(f)
    ensures var o := Eval(env, f, s).value;
      && o.Record?
      && |o.fields| == |f.template|
      && forall j | 0 <= j < |f.template| ::
        && o.fields[j].0 == f.template[j].0
        && (f.template[j].1.Constant? ==> o.fields[j].1 == f.template[j].1.v)
        && (f.template[j].1.Produced? ==>
              o.fields[j].1 == Eval(env, f.template[j].1.f, Enter(env, s).Advance(ProducedCount(f.template[..j]))).value)
  {
    FieldsAt(env, f, 0, Enter(env, s));
    assert forall j | 0 <= j <= |f.template| :: f.template[0..j] == f.template[..j];
  }

  // ---------------------------------------------------------------------
  // permutation

  function Min(a: nat, b: nat): nat
  {
    if a <= b then a else b
  }

  lemma RemoveMultiset(reserve: seq<Value>, index: nat)
    requires index < |reserve|
    ensures multiset(Remove(reserve, index)) + multiset{reserve[index]} == multiset(reserve)
  {
    assert reserve == reserve[..index] + [reserve[index]] + reserve[index + 1..];
  }

  /** The permutation loop takes as many items as the smaller of `want`
      and the reserve's length, each from its own position of the reserve,
      and all of them when `want` covers the reserve. */
  lemma PickShape(env: Env, reserve: seq<Value>, want: nat, s: Stream)
    ensures var p := Pick(env, reserve, want, s).values;
      && |p| == Min(want, |reserve|)
      && multiset(p) <= multiset(reserve)
      && (want >= |reserve| ==> multiset(p) == multiset(reserve))
  {
    PickLength(env, reserve, want, s);
    PickTakes(env, reserve, want, s);
    if want >= |reserve| {
      PickTakesAll(env, reserve, want, s);
    }
  }

  lemma {:induction false} PickLength(env: Env, reserve: seq<Value>, want: nat, s: Stream)
    ensures |Pick(env, reserve, want, s).values| == Min(want, |reserve|)
    decreases |reserve|
  {
    if want > 0 && |reserve| > 0 {
      var index := Index(Draw(env.source, s), |reserve|);
      PickLength(env, Remove(reserve, index), want - 1, s.Next());
    }
  }

  /** The permutation loop only takes items the reserve holds. */
  lemma PickTakes(env: Env, reserve: seq<Value>, want: nat, s: Stream)
    ensures multiset(Pick(env, reserve, want, s).values) <= multiset(reserve)
  {
    var left := PickSplit(env, reserve, want, s);
  }

  /** When `want` covers the reserve, the permutation loop takes all of it. */
  lemma PickTakesAll(env: Env, reserve: seq<Value>, want: nat, s: Stream)
    requires want >= |reserve|
    ensures multiset(Pick(env, reserve, want, s).values) == multiset(reserve)
  {
    var left := PickSplit(env, reserve, want, s);
    assert multiset(left) == multiset{};
  }

  /** The items the permutation loop takes and the items it leaves behind
      together make up the reserve; it leaves nothing when `want` covers
      the reserve. */
  lemma {:induction false} PickSplit(env: Env, reserve: seq<Value>, want: nat, s: Stream)
    returns (left: seq<Value>)
    ensures multiset(Pick(env, reserve, want, s).values) + multiset(left) == multiset(reserve)
    ensures want >= |reserve| ==> left == []
    decreases |reserve|
  {
    if want == 0 || |reserve| == 0 {
      left := reserve;
    } else {
      var index := Index(Draw(env.source, s), |reserve|);
      left := PickSplit(env, Remove(reserve, index), want - 1, s.Next());
      SplitStep(env, reserve, want, s, index, left);
    }
  }

  /** One pass of the permutation loop: the item at the drawn index in front
      of what the loop takes from the rest of the reserve. */
  lemma PickStep(env: Env, reserve: seq<Value>, want: nat, s: Stream, index: nat)
    returns (taken: seq<Value>, rest: seq<Value>)
    requires want > 0 && |reserve| > 0 && index == Index(Draw(env.source, s), |reserve|)
    ensures taken == Pick(env, reserve, want, s).values
    ensures rest == Pick(env, Remove(reserve, index), want - 1, s.Next()).values
    ensures taken == [reserve[index]] + rest
  {
    taken, rest := Pick(env, reserve, want, s).values, Pick(env, Remove(reserve, index), want - 1, s.Next()).values;
  }

  /** One pass of the permutation loop keeps the split: the item at the
      drawn index joins what the rest of the loop takes from the remaining
      reserve, and what it leaves behind is unchanged. */
  lemma SplitStep(env: Env, reserve: seq<Value>, want: nat, s: Stream, index: nat, left: seq<Value>)
    requires want > 0 && |reserve| > 0 && index == Index(Draw(env.source, s), |reserve|)
    requires multiset(Pick(env, Remove(reserve, index), want - 1, s.Next()).values) + multiset(left)
      == multiset(Remove(reserve, index))
    requires want - 1 >= |Remove(reserve, index)| ==> left == []
    ensures multiset(Pick(env, reserve, want, s).values) + multiset(left) == multiset(reserve)
    ensures want >= |reserve| ==> left == []
  {
    var taken, rest := PickStep(env, reserve, want, s, index);
    RemoveMultiset(reserve, index);
    assert multiset(taken) == multiset{reserve[index]} + multiset(rest);
  }

  /** `permutation(count, list)` yields `min(n, |list|)` items for the
      resolved count `n`, taken from distinct positions of `list` (every
      item of `list` exactly once when `n >= |list|`). */
  lemma PermutationShape(env: Env, f: Factory, s: Stream)
    requires f.Permutations? && Built(f)
    ensures var n := Iterations(ToNumber(Resolve(env, f, Enter(env, s)).value));
      && var p := Eval(env, f, s).value;
      && p.List?
      && |p.items| == Min(n, |f.list|)
      && multiset(p.items) <= multiset(f.list)
      && (n >= |f.list| ==> multiset(p.items) == multiset(f.list))
  {
    var c := Resolve(env, f, Enter(env, s));
    PickShape(env, f.list, Iterations(ToNumber(c.value)), c.after);
  }

  /** No two positions of `s` hold the same value. */
  ghost predicate Distinct(s: seq<Value>)
  {
    forall i, j | 0 <= i < j < |s| :: s[i] != s[j]
  }

  lemma {:induction false} DistinctCounts(s: seq<Value>, x: Value)
    requires Distinct(s)
    ensures multiset(s)[x] <= 1
  {
    if s != [] {
      assert s == [s[0]] + s[1..];
      assert Distinct(s[1..]);
      DistinctCounts(s[1..], x);
      if s[0] == x {
        assert x !in s[1..];
      }
    }
  }

  /** Two equal items at two positions count twice. */
  lemma RepeatCounts(p: seq<Value>, i: nat, j: nat)
    requires i < j < |p| && p[i] == p[j]
    ensures multiset(p)[p[i]] >= 2
  {
    var rest := p[..i] + p[i + 1..];
    assert p == p[..i] + [p[i]] + p[i + 1..];
    assert multiset(p)[p[i]] == multiset(rest)[p[i]] + 1;
    assert rest[j - 1] == p[j];
    assert p[i] in multiset(rest);
  }

  /** Items taken from distinct positions of a list without repeated items
      are themselves without repeats. */
  lemma SubMultisetDistinct(p: seq<Value>, list: seq<Value>)
    requires multiset(p) <= multiset(list) && Distinct(list)
    ensures Distinct(p)
  {
    forall i, j | 0 <= i < j < |p| ensures p[i] != p[j] {
      if p[i] == p[j] {
        RepeatCounts(p, i, j);
        DistinctCounts(list, p[i]);
        assert false;
      }
    }
  }

  /** A permutation of a list without repeated items has none either. */
  lemma PermutationDistinct(env: Env, f: Factory, s: Stream)
    requires f.Permutations? && Built(f) && Distinct(f.list)
    ensures Eval(env, f, s).value.List? && Distinct(Eval(env, f, s).value.items)
  {
    PermutationShape(env, f, s);
    SubMultisetDistinct(Eval(env, f, s).value.items, f.list);
  }

  // ---------------------------------------------------------------------
  // invocations in a row

  /** Invoking the factories `fs` one after the other from `s`. */
  function Run(env: Env, fs: seq<Factory>, s: Stream): Outcomes
    requires forall i | 0 <= i < |fs| :: Built(fs[i])
  {
    if fs == [] then Outcomes([], s)
    else
      var o := Eval(env, fs[0], s);
      var rest := Run(env, fs[1..], o.after);
      Outcomes([o.value] + rest.values, rest.after)
  }

  /** Each factory in a row, composite or not, moves the generator by one
      draw, so `k` invocations move it by `k`. */
  lemma {:induction false} RunAdvances(env: Env, fs: seq<Factory>, s: Stream)
    requires forall i | 0 <= i < |fs| :: Built(fs[i])
    ensures |Run(env, fs, s).values| == |fs|
    ensures Run(env, fs, s).after == s.Advance(|fs|)
    decreases |fs|
  {
    if fs != [] {
      OneDraw(env, fs[0], s);
      RunAdvances(env, fs[1..], s.Next());
    }
  }

  /** Running two rows one after the other is running the second row on the
      stream the first row leaves. */
  lemma {:induction false} RunAppend(env: Env, fs: seq<Factory>, gs: seq<Factory>, s: Stream)
    requires forall i | 0 <= i < |fs| :: Built(fs[i])
    requires forall i | 0 <= i < |gs| :: Built(gs[i])
    ensures forall i | 0 <= i < |fs + gs| :: Built((fs + gs)[i])
    ensures Run(env, fs + gs, s).values == Run(env, fs, s).values + Run(env, gs, s.Advance(|fs|)).values
    decreases |fs|
  {
    if fs == [] {
      assert fs + gs == gs;
    } else {
      assert (fs + gs)[0] == fs[0] && (fs + gs)[1..] == fs[1..] + gs;
      OneDraw(env, fs[0], s);
      RunAppend(env, fs[1..], gs, s.Next());
      assert s.Next().Advance(|fs| - 1) == s.Advance(|fs|);
    }
  }

  /** Isolation: swapping one invocation for any other factory, however many
      draws the new one makes inside its groups, changes no other value of
      the row. This is why `n(); obj(); n()` yields the same third value as
      `n(); n(); n()`. */
  lemma Isolation(env: Env, fs: seq<Factory>, g: Factory, h: Factory, hs: seq<Factory>, s: Stream)
    requires forall i | 0 <= i < |fs| :: Built(fs[i])
    requires forall i | 0 <= i < |hs| :: Built(hs[i])
    requires Built(g) && Built(h)
    ensures forall i | 0 <= i < |fs + [g] + hs| :: Built((fs + [g] + hs)[i])
    ensures forall i | 0 <= i < |fs + [h] + hs| :: Built((fs + [h] + hs)[i])
    ensures var a := Run(env, fs + [g] + hs, s).values;
      && var b := Run(env, fs + [h] + hs, s).values;
      && |a| == |b| == |fs| + 1 + |hs|
      && forall i | 0 <= i < |a| && i != |fs| :: a[i] == b[i]
  {
    RunSplit(env, fs, g, hs, s);
    RunSplit(env, fs, h, hs, s);
    RunAdvances(env, fs, s);
    RunAdvances(env, hs, s.Advance(|fs| + 1));
    SameOutside(Run(env, fs, s).values, Eval(env, g, s.Advance(|fs|)).value,
      Eval(env, h, s.Advance(|fs|)).value, Run(env, hs, s.Advance(|fs| + 1)).values);
  }

  /** Two sequences that differ in one middle element agree everywhere else. */
  lemma SameOutside(xs: seq<Value>, x: Value, y: Value, ys: seq<Value>)
    ensures |xs + [x] + ys| == |xs + [y] + ys|
    ensures forall i | 0 <= i < |xs + [x] + ys| && i != |xs| :: (xs + [x] + ys)[i] == (xs + [y] + ys)[i]
  {
  }

  /** A row with `g` in the middle: the values before it, the one value of
      `g` on the stream the first part leaves, and the rest one draw later. */
  lemma RunSplit(env: Env, fs: seq<Factory>, g: Factory, hs: seq<Factory>, s: Stream)
    requires forall i | 0 <= i < |fs| :: Built(fs[i])
    requires forall i | 0 <= i < |hs| :: Built(hs[i])
    requires Built(g)
    ensures forall i | 0 <= i < |fs + [g] + hs| :: Built((fs + [g] + hs)[i])
    ensures Run(env, fs + [g] + hs, s).values ==
      Run(env, fs, s).values + [Eval(env, g, s.Advance(|fs|)).value] + Run(env, hs, s.Advance(|fs| + 1)).values
  {
    RunAppend(env, fs, [g], s);
    RunAppend(env, fs + [g], hs, s);
    OneDraw(env, g, s.Advance(|fs|));
    assert Run(env, [g], s.Advance(|fs|)).values == [Eval(env, g, s.Advance(|fs|)).value];
  }
}
