/**
 * A randomizer session: the current generator `gen` and the stack `gens` of
 * generators suspended by `group()`. Invoking a factory changes these two
 * fields step by step, as the closures the session hands out do; each
 * invocation is proved to end where `Semantics.Eval` says it ends.
 */
module Randomizer {
  import opened Js
  import opened Prng
  import opened Factories
  import opened Semantics

  /** Appending one item to the taken part keeps the whole. */
  lemma Regroup<T>(taken: seq<T>, x: T, rest: seq<T>)
    ensures (taken + [x]) + rest == taken + ([x] + rest)
  {
  }

  class Session {
    const env: Env
    var gen: Stream
    var gens: seq<Stream>

    /** A session whose generator is created from `seed`. */
    constructor (env: Env, seed: string)
      requires seed != ""
      ensures this.env == env && gen == Stream(seed, 0) && gens == []
    {
      this.env := env;
      gen := Stream(seed, 0);
      gens := [];
    }

    /** `Randomizer.create(seed)`: the empty string stands for every falsy
        seed (`undefined`, `null`, `0`, `NaN`, `false`, `""`), which is a
        missing argument. */
    static method Create(env: Env, seed: string) returns (r: Result<Session>)
      ensures r.Failure? <==> seed == ""
      ensures r.Failure? ==> r.error == MissingSeed
      ensures r.Success? ==> (
        && fresh(r.value) && r.value.env == env
        && r.value.gen == Stream(seed, 0) && r.value.gens == [])
    {
      if seed == "" {
        return Failure(MissingSeed);
      }
      var session := new Session(env, seed);
      r := Success(session);
    }

    /** `this.gen.random()`. */
    method Random() returns (d: real)
      modifies this
      ensures 0.0 <= d < 1.0
      ensures d == Draw(env.source, old(gen))
      ensures gen == old(gen).Next() && gens == old(gens)
    {
      d := env.source(gen.seed, gen.pos);
      gen := gen.Next();
    }

    /** Draws a seed from the current generator (`this.seed()()`, whose
        `number(0, 1)` yields the draw itself), suspends the generator and
        switches to a fresh one created from that seed. */
    method Group()
      modifies this
      ensures gens == old(gens) + [old(gen).Next()]
      ensures gen == Enter(env, old(gen))
    {
      var d := Random();
      var seed := env.stringify(d);
      gens := gens + [gen];
      gen := Stream(seed, 0);
    }

    /** Resumes the generator suspended last. */
    method Ungroup()
      requires |gens| > 0
      modifies this
      ensures gen == old(gens)[|old(gens)| - 1]
      ensures gens == old(gens)[..|old(gens)| - 1]
    {
      gen := gens[|gens| - 1];
      gens := gens[..|gens| - 1];
    }

    /** `typeof count === 'function' ? count() : count` for the count of `f`. */
    method ResolveCount(f: Factory) returns (c: Value)
      requires f.Arrays? || f.Texts? || f.Permutations?
      requires Built(f)
      modifies this
      ensures gens == old(gens)
      ensures Resolve(env, f, old(gen)) == Outcome(c, gen)
      decreases f, 0
    {
      match f.count {
        case Fixed(given) =>
          c := given;
        case Derived(g) =>
          c := Invoke(g);
      }
    }

    /** Invokes `f`: scalar factories take one draw from the current
        generator; composite factories do their work between one `Group()`
        and one `Ungroup()`; a transformed factory invokes its inner one and
        applies its function. */
    method Invoke(f: Factory) returns (v: Value)
      requires Built(f)
      modifies this
      ensures gens == old(gens)
      ensures Eval(env, f, old(gen)) == Outcome(v, gen)
      ensures gen == old(gen).Next()
      decreases f, 2
    {
      OneDraw(env, f, gen);
      match f {
        case Numbers(min, max, step) =>
          var d := Random();
          v := Num(NumberValue(d, min, max, step));
        case Booleans(split) =>
          var d := Random();
          v := Bool(Below(d, split));
        case Seeds =>
          var d := Random();
          v := Str(env.stringify(d));
        case Choices(list) =>
          var d := Random();
          v := list[Index(d, |list|)];
        case Dates(instant) =>
          var d := Random();
          v := Timestamp(TimeClip(NumberValue(d, instant.min, instant.max, instant.step)));
        case Alternatives(_) =>
          v := InvokeAlternative(f);
        case Arrays(_, _) =>
          v := InvokeArray(f);
        case Objects(_) =>
          v := InvokeObject(f);
        case Texts(_, _) =>
          v := InvokeText(f);
        case Permutations(_, _) =>
          v := InvokePermutation(f);
        case Transformed(inner, fn) =>
          var x := Invoke(inner);
          v := fn(x);
      }
    }

    /** `alternative`: inside one group, picks an option with
        `integer(0, list.length - 1)` and invokes it. */
    method InvokeAlternative(f: Factory) returns (v: Value)
      requires f.Alternatives? && Built(f)
      modifies this
      ensures gens == old(gens)
      ensures Eval(env, f, old(gen)) == Outcome(v, gen)
      decreases f, 1
    {
      Group();
      var d := Random();
      var chosen := f.options[Index(d, |f.options|)];
      v := Invoke(chosen);
      Ungroup();
    }

    /** `array`: inside one group, resolves the count and pushes that many
        invocations of the item factory. */
    method InvokeArray(f: Factory) returns (v: Value)
      requires f.Arrays? && Built(f)
      modifies this
      ensures gens == old(gens)
      ensures Eval(env, f, old(gen)) == Outcome(v, gen)
      decreases f, 1
    {
      ghost var start := gen;
      Group();
      var c := ResolveCount(f);
      ghost var first := gen;
      var n := Iterations(ToNumber(c));
      var a := [];
      var i := 0;
      while i < n
        invariant 0 <= i <= n
        invariant gens == old(gens) + [start.Next()]
        invariant a + Items(env, f, n - i, gen).values == Items(env, f, n, first).values
      {
        var x := Invoke(f.item);
        a := a + [x];
        i := i + 1;
      }
      assert a == Items(env, f, n, first).values;
      Ungroup();
      v := List(a);
    }

    /** `object`: inside one group, copies each constant of the template and
        replaces each factory by one invocation, key by key. */
    method InvokeObject(f: Factory) returns (v: Value)
      requires f.Objects? && Built(f)
      modifies this
      ensures gens == old(gens)
      ensures Eval(env, f, old(gen)) == Outcome(v, gen)
      decreases f, 1
    {
      ghost var start := gen;
      Group();
      ghost var first := gen;
      var fields := [];
      var i := 0;
      while i < |f.template|
        invariant 0 <= i <= |f.template|
        invariant gens == old(gens) + [start.Next()]
        invariant fields + Fields(env, f, i, gen).fields == Fields(env, f, 0, first).fields
      {
        ghost var taken := fields;
        var field := InvokeEntry(f, i);
        ghost var rest := Fields(env, f, i + 1, gen).fields;
        fields := fields + [field];
        Regroup(taken, field, rest);
        i := i + 1;
      }
      assert Fields(env, f, i, gen).fields == [];
      assert fields == Fields(env, f, 0, first).fields;
      Ungroup();
      v := Record(fields);
      EvalObject(env, f, start);
    }

    /** One pass of the `object` loop: the key at `i` with its constant, or
        with one invocation of its factory. */
    method InvokeEntry(f: Factory, i: nat) returns (field: (string, Value))
      requires f.Objects? && Built(f) && i < |f.template|
      modifies this
      ensures gens == old(gens)
      ensures gen == if f.template[i].1.Produced? then old(gen).Next() else old(gen)
      ensures field.0 == f.template[i].0
      ensures Fields(env, f, i, old(gen)).fields == [field] + Fields(env, f, i + 1, gen).fields
      decreases f, 0
    {
      var x;
      match f.template[i].1 {
        case Constant(c) =>
          x := c;
        case Produced(g) =>
          x := Invoke(g);
      }
      field := (f.template[i].0, x);
    }

    /** `phrase`, `sentence`, `paragraph`: inside one group, resolves the
        count and lets lorem-ipsum draw from the group's generator. */
    method InvokeText(f: Factory) returns (v: Value)
      requires f.Texts? && Built(f)
      modifies this
      ensures gens == old(gens)
      ensures Eval(env, f, old(gen)) == Outcome(v, gen)
      decreases f, 1
    {
      Group();
      var c := ResolveCount(f);
      v := Str(env.lorem(c, f.units, gen));
      Ungroup();
    }

    /** `permutation`: inside one group, resolves the count and runs the
        permutation loop on a copy of the list. */
    method InvokePermutation(f: Factory) returns (v: Value)
      requires f.Permutations? && Built(f)
      modifies this
      ensures gens == old(gens)
      ensures Eval(env, f, old(gen)) == Outcome(v, gen)
      decreases f, 1
    {
      Group();
      var c := ResolveCount(f);
      var perm := Permute(f.list, Iterations(ToNumber(c)));
      Ungroup();
      v := List(perm);
    }

    /** The permutation loop: moves items at drawn indices from `reserve`,
        a copy of the list, to `perm` until `n` items are taken or the
        reserve is empty. */
    method Permute(list: seq<Value>, n: nat) returns (perm: seq<Value>)
      modifies this
      ensures gens == old(gens)
      ensures perm == Pick(env, list, n, old(gen)).values
      ensures gen == Pick(env, list, n, old(gen)).after
    {
      ghost var first := gen;
      var reserve := list;
      perm := [];
      while |perm| < n && |reserve| > 0
        invariant |perm| <= n
        invariant gens == old(gens)
        invariant perm + Pick(env, reserve, n - |perm|, gen).values == Pick(env, list, n, first).values
        invariant Pick(env, reserve, n - |perm|, gen).after == Pick(env, list, n, first).after
        decreases |reserve|
      {
        ghost var taken := perm;
        var item;
        item, reserve := TakeOne(reserve, n - |perm|);
        ghost var rest := Pick(env, reserve, n - |perm| - 1, gen).values;
        perm := perm + [item];
        Regroup(taken, item, rest);
      }
    }

    /** One pass of the `permutation` loop: `integer(0, reserve.length - 1)()`
        draws an index and `splice` takes the item there out of the reserve. */
    method TakeOne(reserve: seq<Value>, want: nat) returns (item: Value, remaining: seq<Value>)
      requires want > 0 && |reserve| > 0
      modifies this
      ensures gens == old(gens) && gen == old(gen).Next()
      ensures var index := Index(Draw(env.source, old(gen)), |reserve|);
        item == reserve[index] && remaining == Remove(reserve, index)
      ensures |remaining| == |reserve| - 1
      ensures Pick(env, reserve, want, old(gen)).values == [item] + Pick(env, remaining, want - 1, gen).values
      ensures Pick(env, reserve, want, old(gen)).after == Pick(env, remaining, want - 1, gen).after
    {
      var d := Random();
      var index := Index(d, |reserve|);
      item := reserve[index];
      remaining := Remove(reserve, index);
    }
  }

  /** Two sessions created from one seed: invoking `n`, then any factory `g`,
      then `n` on the first yields the same third value as invoking `n` three
      times on the second, however many draws `g` makes inside its groups. */
  method SameThirdValue(env: Env, seed: string, n: Factory, g: Factory) returns (a: Value, b: Value)
    requires seed != "" && Built(n) && Built(g)
    ensures a == b
  {
    var first := new Session(env, seed);
    var second := new Session(env, seed);
    var x1 := first.Invoke(n);
    var y1 := second.Invoke(n);
    var x2 := first.Invoke(g);
    var y2 := second.Invoke(n);
    a := first.Invoke(n);
    b := second.Invoke(n);
  }
}
