/**
 * What invoking a factory yields and how far it moves the session's current
 * stream, as functions of the stream it starts from. A composite factory
 * works inside one group: it draws one value from the current stream, turns
 * it into the seed of a fresh stream, does all its work on that stream and
 * then resumes the current stream just after the one draw.
 */
module Semantics {
  import opened Js
  import opened Prng
  import opened Factories

  /** The code the randomizer calls but does not define: the generator, the
      `String(number)` conversion, and lorem-ipsum (which is handed the stream
      to draw its words from). */
  datatype Env = Env(source: Source, stringify: real -> string, lorem: (Value, Units, Stream) -> string)

  /** One invocation: the value and the stream it leaves current. */
  datatype Outcome = Outcome(value: Value, after: Stream)

  /** Several invocations in a row. */
  datatype Outcomes = Outcomes(values: seq<Value>, after: Stream)

  /** The key/value pairs of an object template, in template order. */
  datatype FieldOutcomes = FieldOutcomes(fields: seq<(string, Value)>, after: Stream)

  /** The stream `group()` switches to when `s` is current. */
  function Enter(env: Env, s: Stream): Stream
  {
    Stream(env.stringify(Draw(env.source, s)), 0)
  }

  /** Invoking `f` while `s` is the current stream. */
  function Eval(env: Env, f: Factory, s: Stream): Outcome
    requires Built(f)
    decreases f, 1
  {
    var d := Draw(env.source, s);
    match f
    case Numbers(min, max, step) => Outcome(Num(NumberValue(d, min, max, step)), s.Next())
    case Booleans(split) => Outcome(Bool(Below(d, split)), s.Next())
    case Seeds => Outcome(Str(env.stringify(d)), s.Next())
    case Choices(list) => Outcome(list[Index(d, |list|)], s.Next())
    case Dates(instant) =>
      Outcome(Timestamp(TimeClip(NumberValue(d, instant.min, instant.max, instant.step))), s.Next())
    case Alternatives(options) =>
      var inner := Enter(env, s);
      var chosen := options[Index(Draw(env.source, inner), |options|)];
      Outcome(Eval(env, chosen, inner.Next()).value, s.Next())
    case Arrays(_, _) =>
      var c := Resolve(env, f, Enter(env, s));
      Outcome(List(Items(env, f, Iterations(ToNumber(c.value)), c.after).values), s.Next())
    case Objects(_) =>
      Outcome(Record(Fields(env, f, 0, Enter(env, s)).fields), s.Next())
    case Texts(units, _) =>
      var c := Resolve(env, f, Enter(env, s));
      Outcome(Str(env.lorem(c.value, units, c.after)), s.Next())
    case Permutations(_, list) =>
      var c := Resolve(env, f, Enter(env, s));
      Outcome(List(Pick(env, list, Iterations(ToNumber(c.value)), c.after).values), s.Next())
    case Transformed(inner, fn) =>
      var o := Eval(env, inner, s);
      Outcome(fn(o.value), o.after)
  }

  /** `typeof count === 'function' ? count() : count` for the count of `f`. */
  function Resolve(env: Env, f: Factory, s: Stream): Outcome
    requires f.Arrays? || f.Texts? || f.Permutations?
    requires Built(f)
    decreases f, 0
  {
    match f.count
    case Fixed(v) => Outcome(v, s)
    case Derived(g) => Eval(env, g, s)
  }

  /** `k` invocations of the item factory of the array factory `f`. */
  function Items(env: Env, f: Factory, k: nat, s: Stream): Outcomes
    requires f.Arrays? && Built(f)
    decreases f, 0, k
  {
    if k == 0 then Outcomes([], s)
    else
      var o := Eval(env, f.item, s);
      var rest := Items(env, f, k - 1, o.after);
      Outcomes([o.value] + rest.values, rest.after)
  }

  /** The template entries of the object factory `f` from position `i` on. */
  function Fields(env: Env, f: Factory, i: nat, s: Stream): FieldOutcomes
    requires f.Objects? && Built(f) && i <= |f.template|
    decreases f, 0, |f.template| - i
  {
    if i == |f.template| then FieldOutcomes([], s)
    else
      var o := EntryOutcome(env, f, i, s);
      var rest := Fields(env, f, i + 1, o.after);
      FieldOutcomes([(f.template[i].0, o.value)] + rest.fields, rest.after)
  }

  /** `typeof template[key] === 'function' ? template[key]() : template[key]`
      for the entry at `i` of the object factory `f`. */
  function EntryOutcome(env: Env, f: Factory, i: nat, s: Stream): Outcome
    requires f.Objects? && Built(f) && i < |f.template|
    decreases f, 0, 0
  {
    match f.template[i].1
    case Constant(v) => Outcome(v, s)
    case Produced(g) => Eval(env, g, s)
  }

  /** Removes the element at `index`, as `reserve.splice(index, 1)` does. */
  function Remove(reserve: seq<Value>, index: nat): seq<Value>
    requires index < |reserve|
  {
    reserve[..index] + reserve[index + 1..]
  }

  /** The permutation loop: while fewer than `want` items are taken and the
      reserve is not empty, take the item at a drawn index out of it. */
  function Pick(env: Env, reserve: seq<Value>, want: nat, s: Stream): Outcomes
    decreases |reserve|
  {
    if want == 0 || |reserve| == 0 then Outcomes([], s)
    else
      var index := Index(Draw(env.source, s), |reserve|);
      var rest := Pick(env, Remove(reserve, index), want - 1, s.Next());
      Outcomes([reserve[index]] + rest.values, rest.after)
  }

  /** The `object` case of `Eval` on its own. */
  lemma EvalObject(env: Env, f: Factory, s: Stream)
    requires f.Objects? && Built(f)
    ensures Eval(env, f, s) == Outcome(Record(Fields(env, f, 0, Enter(env, s)).fields), s.Next())
  {
  }

  /** Whatever a factory does inside, invoking it moves the current stream
      by exactly one draw. */
  lemma {:induction false} OneDraw(env: Env, f: Factory, s: Stream)
    requires Built(f)
    ensures Eval(env, f, s).after == s.Next()
  {
    if f.Transformed? {
      OneDraw(env, f.inner, s);
    }
  }

  /** What an invocation yields depends on the current stream only through
      the one draw it takes from it. */
  lemma {:induction false} DrawDetermines(env: Env, f: Factory, s: Stream, t: Stream)
    requires Built(f)
    requires Draw(env.source, s) == Draw(env.source, t)
    ensures Eval(env, f, s).value == Eval(env, f, t).value
  {
    assert Enter(env, s) == Enter(env, t);
    if f.Transformed? {
      DrawDetermines(env, f.inner, s, t);
    }
  }
}
