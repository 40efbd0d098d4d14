/**
 * The factory-building methods of a randomizer session that validate their
 * arguments. Building a factory draws nothing; an invalid argument makes the
 * builder throw, here a `Failure`. The builders that take their arguments
 * unchecked (`array`, `object`, `seed`, `sentence`, `paragraph`,
 * `permutation`) are the `Factory` constructors themselves.
 */
module Construction {
  import opened Js
  import opened Factories

  /** The `step` argument of `number(min, max, step)` as passed. */
  function StepArgument(args: seq<Value>): Value
  {
    if |args| > 2 then args[2] else Undefined
  }

  /** `number(...args)`: at least two arguments, both bounds numbers, a
      truthy `step` that converts to a number, and `min < max`. A falsy step
      becomes 0, which selects the continuous case. */
  function Number(args: seq<Value>): (r: Result<Factory>)
    ensures r.Success? <==>
      && |args| >= 2 && args[0].Num? && args[1].Num?
      && (Truthy(StepArgument(args)) ==> ToNumber(StepArgument(args)).Some?)
      && args[0].x < args[1].x
    ensures |args| < 2 ==> r == Failure(MissingArguments)
    ensures |args| >= 2 && !(args[0].Num? && args[1].Num?) ==> r == Failure(InvalidBounds)
    ensures (
        && |args| >= 2 && args[0].Num? && args[1].Num?
        && Truthy(StepArgument(args)) && ToNumber(StepArgument(args)).None?)
      ==> r == Failure(InvalidStep)
    ensures (
        && |args| >= 2 && args[0].Num? && args[1].Num? && args[0].x >= args[1].x
        && (Truthy(StepArgument(args)) ==> ToNumber(StepArgument(args)).Some?))
      ==> r == Failure(InvalidRange)
    ensures r.Success? ==> (
      && Built(r.value) && r.value.Numbers?
      && r.value.min == args[0].x && r.value.max == args[1].x
      && r.value.step == (if Truthy(StepArgument(args)) then ToNumber(StepArgument(args)).value else 0.0))
  {
    if |args| < 2 then Failure(MissingArguments)
    else if !args[0].Num? || !args[1].Num? then Failure(InvalidBounds)
    else
      var step := StepArgument(args);
      if Truthy(step) && ToNumber(step).None? then Failure(InvalidStep)
      else if args[0].x >= args[1].x then Failure(InvalidRange)
      else Success(Numbers(args[0].x, args[1].x, if Truthy(step) then ToNumber(step).value else 0.0))
  }

  /** The `max` that `integer(min, max)` passes to `number`: when `min === max`
      it is `min + 0.1`. (For bounds that are not numbers `number` rejects
      `min` whatever `max` is, so only numbers need the widening.) */
  function Widen(min: Value, max: Value): (w: Value)
    ensures min.Num? && max.Num? && min.x <= max.x ==> w.Num? && min.x < w.x
    ensures !(min.Num? && max.Num? && min.x == max.x) ==> w == max
  {
    if min.Num? && max.Num? && min.x == max.x then Num(IntegerMax(min.x, max.x)) else max
  }

  /** `integer(min, max)` is `number(min, max', 1)` with the widened `max'`:
      it fails only for non-number bounds or `min > max`. */
  function Integer(min: Value, max: Value): (r: Result<Factory>)
    ensures r.Success? <==> min.Num? && max.Num? && min.x <= max.x
    ensures r.Success? ==> (
      && Built(r.value) && r.value.Numbers? && r.value.step == 1.0
      && r.value.min == min.x && r.value.max == IntegerMax(min.x, max.x))
    ensures min.Num? && max.Num? && min.x > max.x ==> r == Failure(InvalidRange)
    ensures !(min.Num? && max.Num?) ==> r == Failure(InvalidBounds)
  {
    Number([min, Widen(min, max), Num(1.0)])
  }

  /** `boolean(split)`, whose split defaults to 0.5 only when no argument is
      given at all. */
  function Boolean(args: seq<Value>): (f: Factory)
    ensures Built(f) && f.Booleans?
    ensures |args| == 0 ==> f.split == Num(0.5)
    ensures |args| > 0 ==> f.split == args[0]
  {
    Booleans(if |args| == 0 then Num(0.5) else args[0])
  }

  /** `choice(list)` builds `integer(0, list.length - 1)`, so an empty list
      is an invalid range. */
  function Choice(list: seq<Value>): (r: Result<Factory>)
    ensures r.Success? <==> |list| > 0
    ensures r.Failure? ==> r.error == InvalidRange
    ensures r.Success? ==> Built(r.value) && r.value == Choices(list)
  {
    var index := Integer(Num(0.0), Num((|list| - 1) as real));
    if index.Failure? then Failure(index.error) else Success(Choices(list))
  }

  /** `alternative(list)` builds `choice(list)` over the factories. */
  function Alternative(options: seq<Factory>): (r: Result<Factory>)
    ensures r.Success? <==> |options| > 0
    ensures r.Failure? ==> r.error == InvalidRange
    ensures r.Success? ==> (
      && r.value == Alternatives(options)
      && (Built(r.value) <==> forall i | 0 <= i < |options| :: Built(options[i])))
  {
    var index := Integer(Num(0.0), Num((|options| - 1) as real));
    if index.Failure? then Failure(index.error) else Success(Alternatives(options))
  }

  /** `phrase(wordCount)`, whose count is a value or a factory as for any
      other count: a falsy count is missing; a count that is neither a number
      nor a function is invalid. */
  function Phrase(wordCount: Count): (r: Result<Factory>)
    ensures wordCount.Fixed? && !Truthy(wordCount.v) ==> r == Failure(MissingWordCount)
    ensures wordCount.Fixed? && Truthy(wordCount.v) && !wordCount.v.Num? ==> r == Failure(InvalidWordCount)
    ensures r.Success? <==> wordCount.Derived? || (wordCount.v.Num? && wordCount.v.x != 0.0)
    ensures r.Success? ==> (
      && r.value.Texts? && r.value.units == Words && r.value.count == wordCount
      && (Built(r.value) <==> wordCount.Derived? ==> Built(wordCount.f)))
  {
    match wordCount
    case Derived(_) => Success(Texts(Words, wordCount))
    case Fixed(v) =>
      if !Truthy(v) then Failure(MissingWordCount)
      else if !v.Num? then Failure(InvalidWordCount)
      else Success(Texts(Words, wordCount))
  }

  /** `date(min, max)` builds `integer(Number(min), Number(max))`. */
  function Date(min: Value, max: Value): (r: Result<Factory>)
    ensures r.Success? <==>
      ToNumber(min).Some? && ToNumber(max).Some? && ToNumber(min).value <= ToNumber(max).value
    ensures r.Success? ==> (
      && Built(r.value) && r.value.Dates?
      && r.value.instant.min == ToNumber(min).value && r.value.instant.step == 1.0
      && r.value.instant.max == IntegerMax(ToNumber(min).value, ToNumber(max).value))
    ensures ToNumber(min).Some? && ToNumber(max).Some? && ToNumber(min).value > ToNumber(max).value ==>
      r == Failure(InvalidRange)
    ensures ToNumber(min).None? || ToNumber(max).None? ==> r == Failure(InvalidBounds)
  {
    var instant := Integer(AsNumber(min), AsNumber(max));
    if instant.Failure? then Failure(instant.error) else Success(Dates(instant.value))
  }

  /** `Number(v)` as a value. */
  function AsNumber(v: Value): Value
  {
    match ToNumber(v)
    case Some(x) => Num(x)
    case None => NaN
  }
}
