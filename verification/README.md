# data-randomizer, modelled in Dafny

`data-randomizer` builds reproducible random test data. A `Randomizer`
session is created from a seed and hands out *factories*: parameterless
functions that each produce one random value when called. The session
offers these factories:

- numbers, integers, booleans, seeds, choices and dates;
- alternatives, arrays, objects and permutations;
- lorem-ipsum phrases, sentences and paragraphs.

Every factory goes through `enable`. It sets the function's `generator`
property to the function itself and attaches `transform`, which
post-composes the function with another function.

The session owns a current pseudo-random stream `gen` and a stack `gens` of
suspended streams. A scalar factory takes one draw from `gen`. A composite
factory does its work inside a *group*:

- `group()` takes one draw, turns it into a seed and suspends the current
  stream.
- The composite then switches to a fresh stream created from that seed and
  does all its work there.
- `ungroup()` resumes the suspended stream.

So invoking any factory, however many draws it makes inside, moves the
session's stream by exactly one draw, provided the invocation returns.
That is what makes the data reproducible when factories are added to or
removed from a composite.

The model has eight modules:

- `Js` holds the JavaScript values the factories see and return, plus the
  errors construction throws.
- `Prng` holds the seeded stream. The generator itself is a parameter: any
  function from a seed and a position to a number in [0, 1).
- `Factories` is the datatype of constructed factories, with the arithmetic
  of the numeric ones.
- `Construction` holds the argument checks of `number`, `integer`,
  `boolean`, `choice`, `alternative`, `phrase` and `date`. A thrown error is
  a `Failure`.
- `Semantics` defines `Eval`, what one invocation yields and where it leaves
  the stream, as a function of the stream it starts from.
- `Randomizer` is the session as a class. Its fields `gen` and `gens` are
  changed step by step by `Group`, `Ungroup` and `Invoke`. The loops of
  `array`, `object` and `permutation` are `while` loops. Every invocation is
  proved to end where `Eval` says it ends.
- `Enable` models the function objects: `enable` updates them in place, and
  `transform` builds a new one.
- `Laws` holds what the factories promise of their values, and the
  isolation law for invocations in a row.

## Model

| member | source | states |
|---|---|---|
| `Js.Truthy` | lib/randomizer.js:37 | `Boolean(v)`, and so `!v`, as used for the step here, the seed at :9 and the word count at :136: false exactly for `undefined`, NaN, 0, `false` and the empty string. It has no contract of its own; `Construction.Number`, `Construction.Phrase` and `Randomizer.Session.Create` state what follows from it |
| `Js.ToNumber` | lib/randomizer.js:34-42 | `Number(v)`, with `isNaN(v)` as its failure; the same conversion is behind `Number(min)` at :184 and the comparisons `i < n` at :113 and `perm.length < n` at :197. It has no contract of its own; the string and array simplifications are listed under "Left out", and `Construction.Number`, `Construction.Date` and `Factories.Iterations` state what follows from it |
| `Js.Below` | lib/randomizer.js:75 | `toss() < split`: the draw compared with `Number(split)`, false when that is NaN. It has no contract of its own; `Laws.BooleanSplit` states what `boolean` yields through it |
| `Prng.Draw` | lib/randomizer.js:51-56 | every draw of the generator lies in [0, 1) |
| `Factories.Index` | lib/randomizer.js:88-94 | the index `integer(0, n - 1)()` yields is a valid position of a list of length `n` |
| `Factories.IndexIsInteger` | lib/randomizer.js:62-67 | that index is exactly the value `integer(0, n - 1)` returns for the same draw, also for `n == 1`, where `integer` widens the range |
| `Factories.Built` | lib/randomizer.js:43-45 | what construction guarantees of a factory and of every factory inside it: a non-empty numeric range (the range check here), a non-empty list for `choice` and `alternative`, and a number factory with a non-empty range inside `date`. It has no contract of its own; every `Construction` function ensures it of the factory it builds, and `Semantics.Eval` requires it |
| `Factories.NumSteps` | lib/randomizer.js:49 | `Math.floor(range / step) + 1` is the whole number `n` with `n - 1 <= range / step < n`, at least 1 for a non-empty range |
| `Factories.NumberValue` | lib/randomizer.js:48-57 | the value a number factory returns for a draw: `Math.floor(draw * numSteps) * step + min` for a positive step, `draw * range + min` otherwise. It has no contract of its own; `Laws.SteppedValue`, `Laws.ContinuousValue` and `Laws.IntegerValue` state its ranges |
| `Factories.ScaledFloor` | lib/randomizer.js:49-51 | `Math.floor(draw * numSteps)` is one of `0 .. numSteps - 1` |
| `Factories.Iterations` | lib/randomizer.js:113 | the number of passes of `for (i = 0; i < n; i++)` is the least whole number at or above `n`, and 0 for a non-positive or non-numeric `n` |
| `Factories.IterationsIsLoopBound` | lib/randomizer.js:113 | a counter `i` is below that number of passes exactly when `i < n` |
| `Construction.Number` | lib/randomizer.js:30-60 | `number` succeeds exactly when it gets two numeric bounds with `min < max` and a step that is falsy or numeric. It fails with the missing-arguments error for fewer than two arguments, with the bounds error for non-numeric bounds, and otherwise with the step or range error. A truthy step that is not numeric always fails with the step error. A factory it builds keeps the bounds; its step is `Number(step)` for a truthy step and 0 (continuous) otherwise |
| `Construction.Integer` | lib/randomizer.js:62-67 | `integer(min, max)` succeeds exactly when both bounds are numbers and `min <= max`; the factory has step 1 and widens `max` to `min + 0.1` when the bounds are equal; `min > max` is a range error, and a bound that is not a number is the bounds error of `number` |
| `Construction.Widen` | lib/randomizer.js:63-65 | the `max` that `integer` hands to `number`: for numbers `min <= max` it lies strictly above `min`, so the range is never empty; otherwise it is `max` unchanged |
| `Factories.IntegerMax` | lib/randomizer.js:63-65 | the same widening on numbers: above `min` whenever `min <= max`, and `max` itself whenever the bounds differ |
| `Construction.AsNumber` | lib/randomizer.js:184 | `Number(min)` and `Number(max)` as the values `date` hands to `integer`, NaN when the conversion fails. It has no contract of its own; `Construction.Date` states the outcome |
| `Construction.Boolean` | lib/randomizer.js:69-78 | the split is 0.5 only when no argument is given, and otherwise the argument as passed |
| `Construction.Choice` | lib/randomizer.js:88-94 | `choice` succeeds exactly for a non-empty list; `choice([])` is the range error of `integer(0, -1)` |
| `Construction.Alternative` | lib/randomizer.js:96-106 | `alternative` succeeds exactly for a non-empty list of factories, with the range error otherwise |
| `Construction.Phrase` | lib/randomizer.js:135-153 | a falsy word count is missing, a count that is neither a number nor a function is invalid, and every other count yields a word-unit text factory that keeps the count |
| `Construction.Date` | lib/randomizer.js:183-189 | `date(min, max)` succeeds exactly when both bounds convert to numbers with `Number(min) <= Number(max)`; when the bounds are numbers with `Number(min) > Number(max)` it fails with the range error. The instant is the integer factory for `Number(min)` and `Number(max)`, widened as `integer` widens equal bounds. A bound whose `Number(...)` is NaN, such as a missing bound, fails with the bounds error |
| `Factories.TimeClip` | lib/randomizer.js:186 | `new Date(x)` keeps a whole number of milliseconds: `x` truncated toward zero |
| `Laws.IntegerBounds` | lib/randomizer.js:62-67 | `integer(a, b)` for any numbers `a <= b`, whole or not, yields a value in [a, b] |
| `Laws.TimeClipMonotone` | lib/randomizer.js:186 | truncation toward zero keeps the order of two time values |
| `Laws.DateRange` | lib/randomizer.js:183-189 | `date(min, max)` yields a date whose time is a whole number of milliseconds between the truncations of `Number(min)` and `Number(max)` |
| `Semantics.Enter` | lib/randomizer.js:20-24 | the stream `group()` switches to: the one seeded by the string of one draw from the current stream, at its start. It has no contract of its own; `Randomizer.Session.Group` is proved to switch to it |
| `Semantics.Eval` | lib/randomizer.js:48-206 | what invoking a factory yields and which stream it leaves current, closure by closure. It has no contract of its own; `Semantics.OneDraw`, `Semantics.DrawDetermines` and the laws state its properties, and `Randomizer.Session.Invoke` is proved to compute it |
| `Semantics.Resolve` | lib/randomizer.js:111 | `typeof count === 'function' ? count() : count`, the same at :145 and :196. It has no contract of its own; `Randomizer.Session.ResolveCount` is proved to compute it |
| `Semantics.Items` | lib/randomizer.js:112-115 | the `for` loop of `array`. It has no contract of its own; `Laws.ItemsAt` states its length, positions and final stream |
| `Semantics.Fields` | lib/randomizer.js:125-128 | the `for ... in` loop of `object`. It has no contract of its own; `Laws.FieldsCount`, `Laws.FieldAt` and `Laws.FieldsAt` state its keys, values and final stream |
| `Semantics.EntryOutcome` | lib/randomizer.js:127 | `typeof template[key] === 'function' ? template[key]() : template[key]`: the constant with the stream unchanged, or one invocation of the factory. It has no contract of its own; `Laws.FieldsHead` and `Laws.FieldAt` state what it contributes |
| `Semantics.Remove` | lib/randomizer.js:199 | `reserve.splice(index, 1)`. It has no contract of its own; `Laws.RemoveMultiset` states what it removes |
| `Semantics.Pick` | lib/randomizer.js:194-201 | the `while` loop of `permutation`. It has no contract of its own; `Laws.PickLength`, `Laws.PickTakes` and `Laws.PickTakesAll` state what it takes |
| `Semantics.OneDraw` | lib/randomizer.js:20-28 | invoking any constructed factory, composite or not, nested or transformed, leaves the current stream exactly one draw further on |
| `Semantics.DrawDetermines` | lib/randomizer.js:20-24 | what an invocation yields depends on the current stream only through the one draw it takes, since the group's seed is made from that draw |
| `Randomizer.Session.constructor` | lib/randomizer.js:8-14 | a session starts on the stream of its seed with an empty stack |
| `Randomizer.Session.Create` | lib/randomizer.js:8-18 | creating a session fails with the missing-seed error exactly when the seed is empty, which stands for any falsy seed, a missing one included |
| `Randomizer.Session.Random` | lib/randomizer.js:51-56 | `gen.random()` returns the draw at the current position and moves the stream by one; the stack is unchanged |
| `Randomizer.Session.Group` | lib/randomizer.js:20-24 | `group()` pushes the current stream as it is after one draw, and switches to the stream seeded by the string of that draw |
| `Randomizer.Session.Ungroup` | lib/randomizer.js:26-28 | `ungroup()` pops the stack into the current stream |
| `Randomizer.Session.ResolveCount` | lib/randomizer.js:111 | a count is the value given, whatever it is, or one invocation of the count factory |
| `Randomizer.Session.Invoke` | lib/randomizer.js:48-206 | invoking a factory yields what `Eval` yields, leaves the stack as it was, and moves the stream by exactly one draw |
| `Randomizer.Session.InvokeAlternative` | lib/randomizer.js:98-104 | inside one group, `alternative` picks an option with `integer(0, n - 1)` and invokes it, as `Eval` says; the stack is balanced |
| `Randomizer.Session.InvokeArray` | lib/randomizer.js:109-118 | the loop pushes exactly the items `Eval` describes, one invocation per pass, on the group's stream; the stack is balanced |
| `Randomizer.Session.InvokeObject` | lib/randomizer.js:123-131 | the loop fills in the template's keys in order, copying constants and invoking factories, as `Eval` describes; the stack is balanced |
| `Randomizer.Session.InvokeEntry` | lib/randomizer.js:127 | one pass of the object loop yields the key with its constant or with one invocation of its factory, and hands the rest of the loop the stream that invocation leaves: the generator moves one draw for a factory and not at all for a constant |
| `Randomizer.Session.InvokeText` | lib/randomizer.js:142-180 | lorem-ipsum gets the resolved count and the group's stream; the stack is balanced |
| `Randomizer.Session.InvokePermutation` | lib/randomizer.js:192-204 | inside one group, `permutation` resolves the count and runs the permutation loop, as `Eval` describes; the stack is balanced |
| `Randomizer.Session.Permute` | lib/randomizer.js:194-201 | the `while` loop moves items at drawn indices out of a copy of the list into `perm`, exactly as `Pick` describes, and leaves the generator where `Pick` says |
| `Randomizer.Session.TakeOne` | lib/randomizer.js:198-199 | one pass of the permutation loop draws an index with `integer(0, reserve.length - 1)()` and splices out the item there. The item is the reserve's entry at the drawn index, what remains is the reserve without it, and the generator moves one draw |
| `Randomizer.SameThirdValue` | test/randomizer.spec.js:758-781 | two sessions from one seed: `n(); g(); n()` on one and `n(); n(); n()` on the other yield the same third value for any factory `g` |
| `Laws.ContinuousRange` | lib/randomizer.js:54-57 | without a positive step, `number(min, max)` yields a value in [min, max) |
| `Laws.ContinuousValue` | lib/randomizer.js:55-57 | `draw * range + min` lies in [min, max) for every draw |
| `Laws.SteppedRange` | lib/randomizer.js:48-53 | with a positive step, `number` yields `min + k * step` for a whole `k` in `0 .. floor((max - min) / step)`. The value lies in [min, max], and it is `max` only when the range is a whole multiple of the step |
| `Laws.SteppedValue` | lib/randomizer.js:49-51 | the same as `Laws.SteppedRange`, for any single draw |
| `Laws.IntegerRange` | lib/randomizer.js:62-67 | `integer(a, b)` for whole `a <= b` yields a whole number in [a, b], and always `a` when `a == b` |
| `Laws.IntegerValue` | lib/randomizer.js:62-67 | the same as `Laws.IntegerRange`, for any single draw |
| `Laws.SingleInteger` | lib/randomizer.js:63-64 | with equal bounds `integer(a, a)` widens the range to 0.1, so every draw yields `a` |
| `Laws.BooleanSplit` | lib/randomizer.js:69-78 | `boolean` yields `draw < split`: with no argument the split is 0.5, for a numeric split the result is `draw < split`, so split 0 always yields false and split 1 always true; a split that does not convert to a number always yields false |
| `Laws.ChoiceMember` | lib/randomizer.js:88-94 | `choice(list)` always yields an element of `list` |
| `Laws.AlternativeOneOf` | lib/randomizer.js:96-106 | `alternative(options)` yields what one of the options yields on the group's stream after the pick |
| `Laws.ItemsAt` | lib/randomizer.js:113-115 | `k` passes of the array loop yield `k` items, the `i`th from the stream after `i` draws, and leave the stream `k` draws on |
| `Laws.ArrayLength` | lib/randomizer.js:108-120 | `array(count, item)` yields exactly as many items as the loop admits for the resolved count, each one invocation of `item` on the group's stream |
| `Laws.WholeCount` | lib/randomizer.js:113 | a count that is a whole number `n >= 0` runs the loop exactly `n` times |
| `Laws.FieldsAt` | lib/randomizer.js:126-128 | the object loop from key `i` on yields those keys in order with constants copied and factories invoked, one draw per factory |
| `Laws.FieldsCount` | lib/randomizer.js:126-128 | the object loop from key `i` on yields one field per remaining key and moves the stream by one draw per remaining factory |
| `Laws.FieldAt` | lib/randomizer.js:126-128 | the field of key `j` is the key with its constant, or with the invocation of its factory on the stream after one draw per factory before it |
| `Laws.FieldsHead` | lib/randomizer.js:127 | the first pass of the object loop takes one draw for a factory and none for a constant |
| `Laws.ObjectShape` | lib/randomizer.js:122-133 | `object(template)` yields the template's keys in template order; a constant is copied and a factory is replaced by one invocation on the group's stream after one draw per earlier factory |
| `Laws.RemoveMultiset` | lib/randomizer.js:199 | `splice(index, 1)` removes exactly the item at `index` from the reserve |
| `Laws.PickLength` | lib/randomizer.js:197 | the permutation loop runs as many times as the smaller of `want` and the reserve's length |
| `Laws.PickTakes` | lib/randomizer.js:197-201 | the items the permutation loop takes form a sub-multiset of the reserve |
| `Laws.PickTakesAll` | lib/randomizer.js:197-201 | when `want` covers the reserve, the items taken are the whole reserve as a multiset |
| `Laws.PickSplit` | lib/randomizer.js:194-201 | the items the permutation loop takes and the items it leaves in the reserve copy together make up the list as a multiset, and nothing is left when `want` covers the list |
| `Laws.PickShape` | lib/randomizer.js:197-201 | the permutation loop takes as many items as the smaller of `want` and the reserve's length, each from its own position of the reserve, and takes all of them when `want` covers the reserve |
| `Laws.PermutationShape` | lib/randomizer.js:191-206 | `permutation(count, list)` yields as many items as the smaller of `n` and the list's length, drawn from `list` as a sub-multiset, and a rearrangement of all of `list` when `n` is at least the list's length |
| `Laws.PermutationDistinct` | lib/randomizer.js:191-206 | a permutation of a list without repeated items has no repeated items |
| `Laws.Run` | test/randomizer.spec.js:866-874 | invoking factories one after the other on one session, as the tests do. It has no contract of its own; `Laws.RunAdvances`, `Laws.RunAppend`, `Laws.RunSplit` and `Laws.Isolation` state its properties |
| `Laws.RunAdvances` | test/randomizer.spec.js:866-874 | invoking `k` factories in a row moves the stream by exactly `k` draws |
| `Laws.RunAppend` | test/randomizer.spec.js:866-874 | invoking two rows one after the other is invoking the second row on the stream the first row leaves; `Laws.RunSplit` uses it to cut a test's row at its composite |
| `Laws.RunSplit` | test/randomizer.spec.js:758-781 | a row with `g` in the middle yields the values before it, then `g`'s value on the stream after one draw per earlier factory, then the rest one draw later |
| `Laws.Isolation` | test/randomizer.spec.js:1921-1929 | replacing one invocation of a row by any other factory changes no other value of the row |
| `Enable.Enable` | lib/enable.js:3-10 | `enable` fails with the not-a-function error exactly for a non-function. Otherwise it returns the very function it got, with `generator` set to that function and `transform` attached |
| `Enable.Closure.constructor` | lib/randomizer.js:50-52 | an arrow function as a factory closure writes it, before `enable` runs: its factory, no `generator` and no `transform` |
| `Enable.Closure.Transform` | lib/enable.js:6-8 | `f.transform(t)` is a new function that applies `t` to one invocation of `f`, with neither `generator` nor `transform` of its own |
| `Enable.Closure.Call` | lib/enable.js:9 | calling an enabled function does what its factory does: `Eval`'s value, one draw, a balanced stack |
| `Enable.TransformComposes` | lib/enable.js:6-7 | a transformed factory yields `t` of what the inner factory yields and draws exactly what the inner factory draws: one draw, with no group of its own |
| `Enable.TransformIsolated` | lib/enable.js:6-7 | factories invoked after a transformed factory see the same stream as without the transformation |

## Left out

- The generator of `random-seed` is a parameter (`Prng.Source`). So are `String(number)`, which makes the group's seed, and lorem-ipsum's text, which is a function of the count, the unit and the group's stream. The draws lorem-ipsum makes inside its group are not tracked; only the one outer draw is.
- Numbers are exact reals. IEEE-754 rounding in `draw * range + min` and `floor(draw * numSteps)` could, in principle, reach `max` in the continuous case, which the model does not show. `Math.floor(range / step)` is taken on the rounded quotient: `number(0, 0.3, 0.1)` has 0.3 / 0.1 just below 3 in IEEE-754, so it has three steps and never yields 0.3, while the exact model has four and can. `integer(m, m)` widens to `m + 0.1`, which rounds back to `m` once `m >= 2^50` (where doubles are 0.25 apart), so it fails with the range error there, while the model succeeds. `Infinity` is not a value of the model.
- `Number(v)`, `isNaN` and truthiness are modelled for the values the factories meet: numbers, booleans, strings, dates, `undefined`, `NaN`, arrays and plain objects. A non-empty string counts as `NaN`, even when it spells a numeral. Arrays and objects count as `NaN` as well.
- A seed is a string. The empty string stands for every falsy seed: a missing one, `undefined`, `null`, `0`, `NaN`, `false` and `""`. All of these fail with the missing-seed error. A truthy non-string seed (a number, an object) is not modelled.
- `Randomizer.Session.Ungroup` requires a non-empty stack. On an empty stack the source sets `gen` to `undefined` instead; that only happens when a caller uses `ungroup` directly.
- A factory runs on the session that invokes it. A factory built by one session and invoked inside another session's composite draws from its own session in the source; that cross-session sharing is not modelled.
- A plain function that is not a factory of the session cannot be written as an item, a count or a template value: `array(2, () => 0)`, `array(() => 3, f)` and `object({a: () => 1})` take no draw from the group's stream in the source, while every `Factory` of the model takes exactly one (`Semantics.OneDraw`, `Laws.FieldsHead`). Only session factories, possibly transformed, are modelled in those places.
- A transform function, or a value in an object template, that calls back into the session is not modelled: a `Factory` holds `Value -> Value`, which draws nothing and cannot throw.
- An invocation that throws is not modelled. The composite closures call `group()` and `ungroup()` without `try`/`finally`, so when something throws in between, `gens` stays one entry deeper and `gen` stays on the group's stream. Examples are `array(2, 5)()` and `alternative([1, 2])()`, where the item or option is not a function; a count function or a transform that throws; and a `list` without `slice`. The model's types rule all of these out: `item` and the options are `Factory` values, a count is a value or a `Factory`, and a transform is a total `Value -> Value`. So the one-draw law holds for every invocation the model can express; in the source it holds only for invocations that return. `array(Infinity, f)()` never ends in the source; the model has no `Infinity`, so it cannot express that call.
- `object` iterates over keys in insertion order. JavaScript puts integer-like keys first and includes inherited enumerable properties; neither is modelled.
- `date` returns a `Date` object; the model keeps only the millisecond timestamp, truncated as `new Date` truncates it. A time beyond 8.64e15 milliseconds either side of the epoch gives an invalid date in JavaScript; the model keeps the truncated number.
- Values are immutable, so the list given to `permutation` or `choice` cannot be changed behind the factory's back. `list.slice()` in `permutation` is the assignment of the list value to `reserve`.
- `shift`, `composite`, `transformation` and the plural factories (`integers`, `composites`, `phrases`) are used by the tests and demos but are not defined in lib/randomizer.js, so they are not part of this model.
- Statistical claims of the tests are not modelled: evenness, ratios, and "a different value each time".
- `Enable.Closure.Transform` requires that `transform` be attached. Calling `transform` on a function that was not enabled is a `TypeError` in the source.
- `sentence` and `paragraph` are `Texts(Sentences, Fixed(Num(1.0)))` and `Texts(Paragraphs, Fixed(Num(1.0)))`. They take no arguments and check nothing, so they have no construction function of their own. The same holds for `seed`, `array`, `object` and `permutation`, which are the `Factory` constructors themselves.

## Notes

- `integer(m, m)` widens `max` to `m + 0.1`, so `date(m, m)` succeeds and always yields `m` truncated toward zero. Only `min > max` is a range error for `integer` and `date`.
- `boolean()` with an explicit `undefined` argument compares every draw with `undefined`, which is always false. Only a call with no argument at all gets the split 0.5.
