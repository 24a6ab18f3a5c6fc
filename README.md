# typescripttips: the runtime and call-shape logic of the examples

The repository is a collection of TypeScript type-system snippets. Most of it
has no runtime effect. This project models the six parts that do have
behaviour that can be stated, one Dafny module each, over a small shared
model of JavaScript values (`Js`):

- `SendEvent` (src/examples/15.ts): which calls of `sendEvent` type-check.
  The `Event` union has two variants. `LOG_IN` declares a
  `{ userId: string }` payload and `SIGN_OUT` declares none. The rest
  parameter is the conditional tuple `[type, payload]` or `[type]`.
  `Accepts` says that, for some single tag as `Type`, the arguments conform
  to that tuple. `Diagnose` is a separate checker that also reports why a call
  is rejected: no such type, wrong arity, a payload that is not an object, or
  the sets of missing and mistyped fields. A lemma proves the two agree.
- `DisplayName` (src/examples/19.ts): `getDisplayName`. An item with a `name`
  property yields `{ animalName: name }`. Otherwise it yields
  `{ humanName: firstName + '_' + lastName }`. The branch is chosen at run time
  by `'name' in item`. So an item that is both an `Animal` and a `Human` gets
  an animal name, even though its declared return type says `humanName`. The
  `as` casts in the source hide this; `DeclaredTypeAgreesUnlessBoth` states
  exactly where the two disagree.
- `DeepEqual` (src/examples/10.ts): `deepEqualCompare` throws when either
  argument is an array. Otherwise it returns `a === b`, which compares objects
  by identity.
- `Sdk` (src/examples/18.ts): the `SDK` class. `assertUserIsLoggedIn` throws
  `User is not logged in` when the stored id is falsy. `createPost` calls
  `postFn(userId, title)` only after that check passes. The global `postFn` is
  declared but never defined, so `PostLog` records the calls made to it.
- `KeysStartingWith` (src/examples/20.ts): the union of the value types of the
  keys that match `a${string}`, or a given subset of keys. Object types are
  modelled as finite maps from keys to value types.
- `Index` (src/index.ts): summing the fruit counts of src/examples/01.ts, the
  100-step accumulation loop, and the `TClass` constructor.

Modelling conventions:
- JavaScript numbers are integers.
- Arrays and objects carry an allocation identity, which is all that `===`
  compares.
- A thrown `Error` is a `Thrown`/`Threw` result that holds its message.

The code has no event registry, subscription, sealing or handler invocation,
and `sendEvent`'s body is empty. The model follows the code: there is no
dispatcher, only the acceptance rule of the call.

## Model

| member | source | states |
|---|---|---|
| `Js.IsArray` | src/examples/10.ts:9 | `Array.isArray`: true exactly for array values |
| `Js.StrictEquals` | src/examples/10.ts:12 | `===` over the modelled values |
| `Js.Truthy` | src/examples/18.ts:15 | JavaScript truthiness: `undefined`, `null`, `false`, `0` and `""` are falsy |
| `Js.OptionalStringTruthy` | src/examples/18.ts:15 | an optional string (`undefined` or a string) is truthy exactly when it is present and non-empty |
| `Js.StrictEqualsMeaning` | src/examples/10.ts:12 | `===` is value equality on primitives, identity equality on arrays and objects, and false between a primitive and a reference |
| `SendEvent.VariantOf` | src/examples/15.ts:1-10 | `Extract<Event, { type: t }>`: the union member with tag `t`; `LOG_IN` declares `{ userId: string }`, `SIGN_OUT` declares no payload |
| `SendEvent.Params` | src/examples/15.ts:21-23 | the conditional rest tuple for `Type = t`: `[type: t, payload: P]` when the variant declares a payload `P`, otherwise `[type: t]` |
| `SendEvent.Accepts` | src/examples/15.ts:20-23 | a call type-checks when, for some single tag `t` (the literal inferred from a literal first argument), its arguments conform to the conditional rest tuple for `Type = t` |
| `SendEvent.AcceptsExactly` | src/examples/15.ts:20-23 | the accepted calls are exactly `SIGN_OUT` alone and `LOG_IN` with an object whose `userId` is a string |
| `SendEvent.Diagnose` | src/examples/15.ts:29-38 | the reason a call is rejected: no such tag (also reported for the empty call, where TypeScript reports the arity), wrong arity (a payload given to `SIGN_OUT`, none given to `LOG_IN`), a payload that is not an object, or the missing and mistyped declared fields |
| `SendEvent.DiagnoseAgreesWithAccepts` | src/examples/15.ts:20-24 | the field-by-field checker rejects exactly the calls that fit the conditional rest tuple for no single tag `t` |
| `SendEvent.ArityFollowsPayload` | src/examples/15.ts:21-23 | an accepted call starts with a variant's tag, and has a second argument exactly when that variant declares a payload |
| `SendEvent.LogInWithStringUserIdAccepted` | src/examples/15.ts:26 | `LOG_IN` with any object whose `userId` is a string is accepted |
| `SendEvent.SignOutWithoutPayloadAccepted` | src/examples/15.ts:27 | `SIGN_OUT` with no payload is accepted |
| `SendEvent.SignOutWithPayloadRejected` | src/examples/15.ts:29-30 | `SIGN_OUT` with any second argument, even `{}`, is rejected for its arity |
| `SendEvent.LogInWithMistypedUserIdRejected` | src/examples/15.ts:31-34 | `LOG_IN` whose `userId` is present but not a string is rejected, naming `userId` as mistyped |
| `SendEvent.LogInWithoutUserIdRejected` | src/examples/15.ts:35-36 | `LOG_IN` with an object lacking `userId` is rejected, naming `userId` as missing |
| `SendEvent.LogInWithoutPayloadRejected` | src/examples/15.ts:37-38 | `LOG_IN` with no payload is rejected for its arity |
| `SendEvent.UnknownTypeRejected` | src/examples/15.ts:20 | a call whose first argument is not one of the union's tags is never accepted |
| `SendEvent.Send` | src/examples/15.ts:24 | an accepted call returns `undefined` |
| `DisplayName.IsAnimal` | src/examples/19.ts:1-3 | an item satisfies `interface Animal`: it has a string `name` |
| `DisplayName.IsHuman` | src/examples/19.ts:5-8 | an item satisfies `interface Human`: it has string `firstName` and `lastName`; with `IsAnimal` it forms the constraint that `TItem` extends `Animal` or `Human` |
| `DisplayName.GetDisplayName` | src/examples/19.ts:10-19 | animal branch exactly when `name` is present, with the name unchanged; otherwise a human name of length first+last+1 that starts with the first name, has `_` at the first name's length and ends with the last name |
| `DisplayName.DeclaredHumanName` | src/examples/19.ts:11 | the declared conditional return type promises `humanName` exactly for a `Human` item |
| `DisplayName.DeclaredTypeAgreesUnlessBoth` | src/examples/19.ts:10-19 | the runtime branch agrees with the declared return type exactly on the items that are not both named and a `Human` |
| `DisplayName.DeclaredTypeMismatchExample` | src/examples/19.ts:11-15 | `{ name: 'Patch', firstName: 'Matt', lastName: 'hehe' }` is declared to give a human name and gives the animal name `Patch` |
| `DisplayName.HumanNameRoundTrip` | src/examples/19.ts:18 | splitting the human display name at the first name's length gives back both names, even when they contain `_` |
| `DisplayName.AnimalTakesPriority` | src/examples/19.ts:12-15 | any `Animal`, even one that is also a `Human`, is shown by its own string name |
| `DisplayName.PatchExample` | src/examples/19.ts:21 | `{ name: 'Patch' }` gives the animal name `Patch` |
| `DisplayName.MattExample` | src/examples/19.ts:22-24 | `{ firstName: 'Matt', lastName: 'hehe' }` gives the human name `Matt_hehe` |
| `DeepEqual.DeepEqualCompare` | src/examples/10.ts:5-13 | throws exactly when either argument is an array, with the source's message; otherwise the result is value equality on primitives, identity equality on objects, and false across the two |
| `DeepEqual.ArrayArgumentThrows` | src/examples/10.ts:9-10 | an array in either position throws, whatever the other argument |
| `DeepEqual.NonArraysCompareStrictly` | src/examples/10.ts:12 | without arrays the result is `a === b`, and it is symmetric in the arguments |
| `DeepEqual.ComparisonIsShallow` | src/examples/10.ts:12 | two distinct objects with equal contents compare unequal, and one object compares equal to itself |
| `DeepEqual.SourceExamples` | src/examples/10.ts:15-16 | `deepEqualCompare(1, 1)` is `true`, and `deepEqualCompare([], ['a'])` throws |
| `Sdk.PostLog.constructor` | src/examples/18.ts:2 | the foreign `postFn` has received no call yet |
| `Sdk.SDK.constructor` | src/examples/18.ts:6 | the optional argument is stored as `loggedInUserId` |
| `Sdk.SDK.AssertUserIsLoggedIn` | src/examples/18.ts:14-18 | completes exactly when the id is present and non-empty (so afterwards it is a present string); otherwise throws `User is not logged in` |
| `Sdk.SDK.CreatePost` | src/examples/18.ts:8-12 | when not logged in, throws and `postFn` gets no call; otherwise `postFn` gets exactly one call, with the stored id and the title in that order |
| `Sdk.PostingNeedsAUser` | src/examples/18.ts:5-19 | SDKs with no id or an empty id post nothing; one with a real id posts once |
| `KeysStartingWith.Obj` | src/examples/20.ts:1-8 | the object type `Obj`, as the map from its six keys to their literal value types |
| `KeysStartingWith.MatchesPrefix` | src/examples/20.ts:11 | a key matches the template literal type `` `a${string}` `` when it starts with the prefix; the suffix may be empty |
| `KeysStartingWith.DefaultKeys` | src/examples/20.ts:18 | the default of `_ExtractedKeys`: the keys of `T` that start with `a` |
| `KeysStartingWith.ExtractPrefixed` | src/examples/20.ts:11 | exactly the keys that match the prefix are kept, so the result is a subset of the keys |
| `KeysStartingWith.ValueOfKeysStartingWithA` | src/examples/20.ts:10-12 | every value of an `a`-prefixed key is selected, and every selected value is the value of some `a`-prefixed key |
| `KeysStartingWith.ValueOfKeysStartingWith` | src/examples/20.ts:16-21 | every value of a given key is selected, and every selected value is the value of a given key |
| `KeysStartingWith.GenericDefaultAgrees` | src/examples/20.ts:16-23 | the generic form with its default key set equals the specialised form |
| `KeysStartingWith.SelectedExactly` | src/examples/20.ts:10-12 | a key's value is selected exactly when the key matches or a matching key has the same value |
| `KeysStartingWith.ObjKeysByPrefix` | src/examples/20.ts:1-8 | the keys of `Obj` matching `a` are `a`, `a2`, `a3` (the bare `a` included); those matching `b` are `b`, `b1`, `b2` |
| `KeysStartingWith.AUnion` | src/examples/20.ts:14 | for `Obj`, both the specialised and the default generic forms give the values `"a"`, `"a2"` and `"hello"` |
| `KeysStartingWith.BUnion` | src/examples/20.ts:24 | for `Obj` with `b`-prefixed keys, the selection is the values `"b"`, `"b1"` and `"b2"` |
| `Index.fruitCounts` | src/examples/01.ts:1-5 | the counts `apple: 1`, `pear: 4`, `banana: 26` |
| `Index.Accumulate` | src/index.ts:4-7 | the body runs exactly 100 times; after run `i` the total is `(i + 1) * count`, so it ends at `100 * count` and never decreases when `count >= 0` |
| `Index.Run` | src/index.ts:3-8 | `count` is `1 + 26 + 4 = 31` and the final `num` is `3100` |
| `Index.TClass.constructor` | src/index.ts:20-26 | `name` and `score` are stored unchanged |

## Left out

- `TClass.sayHi`, `TClass.delaySay` and every `console.log` (src/index.ts:8, 28-36): console output and a `setTimeout` timer.
- The body of the global `postFn` (src/examples/18.ts:1-3): it is only declared. The model records its calls and nothing else.
- `Sdk.SDK.CreatePost`: `postFn` is assumed to return normally. An exception it throws would pass through `createPost`, and a global that is only declared would throw a `ReferenceError`. Neither is modelled.
- Strings are sequences of Unicode scalar values, while JavaScript strings are sequences of UTF-16 code units. So `|first| + |last| + 1` in `DisplayName.GetDisplayName` counts code points, not UTF-16 units, and lone surrogates cannot be represented.
- `SendEvent.Accepts`: TypeScript's excess-property check is not modelled. That check rejects a fresh object literal with undeclared fields. The model uses plain structural assignability, so extra payload fields are allowed.
- `SendEvent.Accepts`: `Type` stands only for a single tag, the literal type inferred from a literal first argument. The instantiation `Type = Event['type']` is not modelled, whether written explicitly or inferred from a first argument typed as the union. For it, `Extract<Event, { type: Type }>` is the whole union. The outer conditional does not distribute over it, so the tuple is `[type: Type]`, and TypeScript then accepts `LOG_IN` with no payload. The model rejects that call. A value widened to `string` is not modelled either.
- `SendEvent.Send`: the runtime body is empty. The only thing to state is that it returns `undefined`, and a Dafny function has no effects.
- The commented-out earlier versions of `sendEvent` (src/examples/15.ts:12-18): they are not part of the program.
- The type-level guard `CheckForBadArgs` (src/examples/10.ts:1-3): it only changes a compile-time parameter type. The runtime `Array.isArray` test it backs up is modelled.
- NaN and signed zero in `===`, and all floating point: numbers are integers. This covers `score` and the fruit counts.
- `'name' in item` also sees properties from the prototype chain. An item is modelled by its own properties only.
- The other files are only type-level demonstrations, UI typing, a stub or a crash demonstration: src/examples/01.ts (except `fruitCounts`), 06, 07, 08, 09, 11, 12, 13, 14, 14_global, 14_user, 16, 17, 24 and 25.
