/**
 * `enable(f)`: every factory a session hands out is a function object that
 * `enable` equips, in place, with a `generator` property naming the function
 * itself and a `transform` property that post-composes it with a function.
 */
module Enable {
  import opened Js
  import opened Prng
  import opened Factories
  import opened Semantics
  import opened Randomizer

  /** A function object whose call runs the factory `body` on the session
      that built it. `generator` is null until `enable` sets it, and
      `transformable` says whether the `transform` property is attached. */
  class Closure {
    const body: Factory
    var generator: Closure?
    var transformable: bool

    /** A freshly written arrow function: no properties attached yet. */
    constructor (body: Factory)
      ensures this.body == body && generator == null && !transformable
    {
      this.body := body;
      generator := null;
      transformable := false;
    }

    /** `f()`: one invocation of the factory on `session`. */
    method Call(session: Session) returns (v: Value)
      requires Built(body)
      modifies session
      ensures session.gens == old(session.gens)
      ensures Eval(session.env, body, old(session.gen)) == Outcome(v, session.gen)
      ensures session.gen == old(session.gen).Next()
    {
      v := session.Invoke(body);
    }

    /** `f.transform(t)`: the arrow function `() => t(f())`. It is not passed
        through `enable`, so it has neither property of its own. */
    method Transform(t: Value -> Value) returns (g: Closure)
      requires transformable
      ensures fresh(g)
      ensures g.body == Transformed(body, t) && g.generator == null && !g.transformable
    {
      g := new Closure(Transformed(body, t));
    }
  }

  /** The argument of `enable`: a function object or any other value. */
  datatype Argument = Callable(fn: Closure) | NotCallable(v: Value)

  /** `enable(f)` refuses anything but a function; it attaches `generator`
      and `transform` to the function and returns that same function; its
      `body` is a constant, so what a call does stays as it was. */
  method Enable(x: Argument) returns (r: Result<Closure>)
    modifies if x.Callable? then {x.fn} else {}
    ensures r.Failure? <==> x.NotCallable?
    ensures r.Failure? ==> r.error == NotAFunction
    ensures x.Callable? ==> (
      && r == Success(x.fn)
      && x.fn.generator == x.fn && x.fn.transformable)
  {
    match x {
      case NotCallable(_) =>
        r := Failure(NotAFunction);
      case Callable(fn) =>
        fn.generator := fn;
        fn.transformable := true;
        r := Success(fn);
    }
  }

  /** A transformed factory yields `t` of what one invocation of the inner
      factory yields, and moves the generator exactly as that invocation
      does: one draw, with no group of its own. */
  lemma TransformComposes(env: Env, f: Factory, t: Value -> Value, s: Stream)
    requires Built(f)
    ensures Built(Transformed(f, t))
    ensures Eval(env, Transformed(f, t), s).value == t(Eval(env, f, s).value)
    ensures Eval(env, Transformed(f, t), s).after == Eval(env, f, s).after == s.Next()
  {
    OneDraw(env, f, s);
  }

  /** Transforming a factory changes only what it yields: the factories
      invoked after it see the same generator as without the transformation. */
  lemma TransformIsolated(env: Env, f: Factory, t: Value -> Value, g: Factory, s: Stream)
    requires Built(f) && Built(g)
    ensures Eval(env, g, Eval(env, Transformed(f, t), s).after) == Eval(env, g, Eval(env, f, s).after)
  {
    TransformComposes(env, f, t, s);
  }
}
