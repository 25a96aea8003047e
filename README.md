# vuex-wrapper store builder, modelled in Dafny

The `Store` class of vuex-wrapper assembles the pieces of a Vuex store from
named "objects". For each call `addObject(name, data)` it extends five
accumulators — `state`, `getters`, `actions`, `mutations` and `computed` —
by JavaScript object spread. Each namespace takes either the caller's
override from `data` or one default entry derived from `name` by a naming
convention: `state[name]`, `get<Name>`, `update<Name>`, `set<Name>` and
`computed[name]`, where `<Name>` is `name` with its first letter
upper-cased by `capFirstLetter`. `exportVuex` hands back the four store
accumulators and `exportMixin` hands back `{ computed }`.

The project is six modules:

- `Values` (`values.dfy`): the values the builder handles. The closures it
  synthesises are symbolic (`GetterFn(name)`, `ActionFn(name)`,
  `MutationFn(name)`, `ComputedPair(name)`). Caller-supplied values are
  `Str`, `Obj` or `Opaque`. `ObjectData` is the optional `data` argument,
  with `None` for a field that is absent or `undefined`.
- `Naming` (`naming.dfy`): `capFirstLetter` and the three derived keys,
  with their length and idempotence properties and the exact condition under
  which two derived keys coincide (same role and same capitalised name).
- `Defaults` (`defaults.dfy`): the five `default*` builders and small
  functions that give the default closures their meaning. The lemmas here
  say that the derived names agree with each other.
- `Builder` (`builder.dfy`): `Merge` (the spread), `Step` (one
  `addObject` call, as a value), and the class `Store`. Its map fields are
  reassigned one after another by `AddObject`, as the source does. It also
  holds the lemmas about one `addObject` call.
- `HostRuntime` (`host_runtime.dfy`): a minimal stand-in for the Vuex
  `commit`/`dispatch` and getter lookup. It is used only to state the
  end-to-end agreement between the default computed pair, action,
  mutation and getter.
- `Replay` (`replay.dfy`): a sequence of `addObject` calls. It proves
  last-write-wins per key against an independent "scan from the last call
  backwards" definition.

The model follows `src/index.ts`, which:

- has exactly three public operations, `addObject`, `exportMixin` and
  `exportVuex`; `exportVuex` returns four accumulators and leaves out
  `computed`.
- accepts `""` as a name: `addObject("")` registers `state[""]`, the keys
  `get`, `update` and `set`, and `computed[""]`.
- treats an empty-string `initialValue` as falsy and stores `undefined` for
  it.

## Model

| member | source | states |
|---|---|---|
| `Naming.ToUpperAscii` | src/index.ts:2 | the upper-cased character is never a lower-case ASCII letter; `a`-`z` map to `A`-`Z`, anything else is kept |
| `Naming.CapFirstLetter` | src/index.ts:1-2 | length is preserved, `""` gives `""`, every character after index 0 is unchanged, and the first character is upper-cased |
| `Naming.CapIdempotent` | src/index.ts:1-2 | capitalising twice equals capitalising once |
| `Naming.CapFixedIff` | src/index.ts:1-2 | a name is unchanged by capitalisation iff it is empty or does not start with a lower-case letter |
| `Naming.CapEqualIff` | src/index.ts:1-2 | two names capitalise alike iff both are empty, or their tails are equal and their first characters upper-case alike |
| `Naming.ConventionKeyEqualIff` | src/index.ts:23-35 | derived keys of different roles (`get`/`update`/`set`) never coincide; two keys of one role coincide iff the names capitalise alike |
| `Naming.FirstLetterCaseCollides` | src/index.ts:23-35 | the distinct names `user` and `User` derive the same getter, action and mutation keys |
| `Defaults.InitialState` | src/index.ts:60-63 | the default state value is `undefined` iff `initialValue` is absent or `""`; otherwise it is the string verbatim |
| `Defaults.ActionCommitsDefaultMutation` | src/index.ts:26-35 | the default action of `name` commits its payload unchanged to exactly the key of the default mutation of `name` |
| `Defaults.ComputedMatchesGetterAndAction` | src/index.ts:23-43 | the default computed `get` reads exactly the default getter's key; `set(val)` dispatches `val` to exactly the default action's key |
| `Defaults.MutationThenGetter` | src/index.ts:23-35 | applying the default mutation with `p` and then the default getter yields `p`; no other state key changes |
| `Builder.Merge` | src/index.ts:56-80 | a spread has the keys of both objects; a key of the later object takes its value, and every other key keeps the earlier value |
| `Builder.Store.constructor` | src/index.ts:13-18 | a new store has five empty accumulators |
| `Builder.Store.AddObject` | src/index.ts:45-81 | each accumulator becomes the spread of its old value and the call's part (override or default); `computed` gains `name`; the new state equals `Step` of the old |
| `Builder.Store.ExportMixin` | src/index.ts:83-85 | returns the current `computed` accumulator |
| `Builder.Store.ExportVuex` | src/index.ts:87-94 | returns exactly the current `state`, `getters`, `actions` and `mutations` |
| `Builder.SnapshotSurvivesAddObject` | src/index.ts:45-94 | an export taken before an `addObject` still holds the earlier accumulators; an export taken after holds the new ones |
| `Builder.DefaultEntriesAdded` | src/index.ts:45-81 | without an override, `state[name]`, `getters["get"+Cap(name)]`, `actions["update"+Cap(name)]` and `mutations["set"+Cap(name)]` are added with the default closures; `computed[name]` is always added |
| `Builder.OverridesSpreadVerbatim` | src/index.ts:56-76 | with an override, the accumulator becomes the old one updated by the override (its keys and values); a derived key is present only if it was there before or the override has it; `initialValue` is ignored when `state` is overridden |
| `Builder.ComputedStoredUnderName` | src/index.ts:77-80 | `computed` gains exactly the key `name`, holding the caller's object or the default pair; other keys keep their values |
| `Builder.StepKeepsUnmentioned` | src/index.ts:56-80 | no key is removed from any accumulator; a key the call does not mention keeps its value |
| `Builder.SecondRegistrationWins` | src/index.ts:56-64 | registering a name twice with two initial values leaves the second in `state[name]` |
| `Builder.UserKeys` | src/index.ts:23-35 | the name `user` derives `getUser`, `updateUser` and `setUser` |
| `Builder.UserScenario` | src/index.ts:45-81 | `addObject("user", {initialValue: "anon"})` on a new store gives `{user: "anon"}`, `{getUser}`, `{updateUser}`, `{setUser}` and `{user}` |
| `HostRuntime.ComputedRoundTrip` | src/index.ts:23-43 | after a default registration, writing `val` through the computed setter stores `val` in `state[name]` only; the computed getter then reads back `val` |
| `HostRuntime.DefaultActionSetsState` | src/index.ts:26-35 | dispatching `update<Name>` with a payload sets `state[name]` to it and leaves every other state key alone |
| `Replay.RunSnoc` | src/index.ts:45-81 | running calls and then one more equals one `addObject` step on the result |
| `Replay.RunIsLatest` | src/index.ts:56-80 | after any sequence of calls, a key is present and holds a value exactly when the last call that mentions it gave it that value, or, if no call mentions it, it held that value before |
| `Replay.RunKeys` | src/index.ts:56-80 | after any sequence of calls, a key is present iff it was present before or some call mentions it |
| `Replay.RunNeverDeletes` | src/index.ts:56-80 | no sequence of calls removes a key from any accumulator |

## Left out

- `Naming.ToUpperAscii`: `toUpperCase` is modelled for ASCII letters only. Other characters are kept as they are, whereas JavaScript maps for example `é` to `É` and `ß` to `SS`. So `CapFirstLetter`'s length preservation and idempotence are proved only under this ASCII mapping.
- The bodies of the default closures are not run inside Vue or Vuex. The `this.$store` binding of the computed pair and the real `commit`/`dispatch` machinery are not modelled. `HostRuntime` gives only the lookups needed to state the agreement lemmas, and it treats any non-default closure as undefined.
- Aliasing of exports: `exportVuex` and `exportMixin` return the store's own objects, not copies. A caller that mutates a returned object mutates the store, and the next `addObject` spreads that mutated object into the new accumulator (src/index.ts:57), so the change is carried forward. Maps are values here, so this sharing is not captured.
- Builder.SnapshotSurvivesAddObject: the snapshot taken before `addObject` stays unchanged because maps are values in the model, not because the model captures the source's reassignment of each field to a new object (src/index.ts:56, 65, 69, 73, 77). An in-place update of the fields would get the same model and the same proof.
- Key order: JavaScript objects keep insertion order, and Dafny maps have no order.
- Prototype-sensitive keys such as `__proto__` are treated like any other key.
- JavaScript truthiness beyond the declared types: an override is modelled as present (an object, hence truthy) or absent, and `initialValue` as an optional string. Values such as `null` or `0` passed against the TypeScript types are not modelled.
- The TypeScript `ObjectData` type and the `export =` module plumbing (src/index.ts:4-11, 97) carry no behaviour.
