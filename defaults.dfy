/**
  The five `default*` builders of the store and the meaning of the closures
  they build. A closure is a symbolic `Value`; the small `Apply*` functions
  say what it does when the host framework calls it.
 */
module Defaults {
  import opened Values
  import opened Naming

  /** `data.initialValue ? data.initialValue : undefined`: a falsy (absent or empty) string becomes `undefined`. */
  function InitialState(initialValue: Option<string>): (v: Value)
    ensures v == Undef <==> initialValue == None || initialValue == Some("")
    ensures v != Undef ==> v == Str(initialValue.value)
  {
    match initialValue
    case None => Undef
    case Some(s) => if s == "" then Undef else Str(s)
  }

  /** `defaultState(name, initialValue)`: `{ [name]: initialValue }`. */
  function DefaultState(name: string, initialValue: Option<string>): Namespace {
    map[name := InitialState(initialValue)]
  }

  /** `defaultGetter(name)`: `{ get<Name>: (state) => state[name] }`. */
  function DefaultGetter(name: string): Namespace {
    map[ConventionKey(Getter, name) := GetterFn(name)]
  }

  /** `defaultAction(name)`: `{ update<Name>: ({ commit }, payload) => commit("set<Name>", payload) }`. */
  function DefaultAction(name: string): Namespace {
    map[ConventionKey(Action, name) := ActionFn(name)]
  }

  /** `defaultMutation(name)`: `{ set<Name>: (state, payload) => (state[name] = payload) }`. */
  function DefaultMutation(name: string): Namespace {
    map[ConventionKey(Mutation, name) := MutationFn(name)]
  }

  /** `defaultComputed(name)`: the `{ get, set }` pair for `name`. */
  function DefaultComputed(name: string): Value {
    ComputedPair(name)
  }

  /** A call `commit(mutation, payload)` made by an action. */
  datatype Commit = Commit(mutation: string, payload: Value)

  /** A call `this.$store.dispatch(action, payload)` made by a computed setter. */
  datatype Dispatch = Dispatch(action: string, payload: Value)

  /** The default getter applied to a state object (a missing key reads as `undefined`). */
  function ApplyGetter(f: Value, st: Namespace): Value
    requires f.GetterFn?
  {
    if f.name in st then st[f.name] else Undef
  }

  /** The default mutation applied to a state object and a payload. */
  function ApplyMutation(f: Value, st: Namespace, payload: Value): Namespace
    requires f.MutationFn?
  {
    st[f.name := payload]
  }

  /** The default action applied to a payload: the commit it makes. */
  function ApplyAction(f: Value, payload: Value): Commit
    requires f.ActionFn?
  {
    Commit(ConventionKey(Mutation, f.name), payload)
  }

  /** The getter key the default computed `get()` reads from `this.$store.getters`. */
  function ComputedGetKey(f: Value): string
    requires f.ComputedPair?
  {
    ConventionKey(Getter, f.name)
  }

  /** The dispatch the default computed `set(val)` makes. */
  function ComputedSet(f: Value, val: Value): Dispatch
    requires f.ComputedPair?
  {
    Dispatch(ConventionKey(Action, f.name), val)
  }

  /**
    The default action of `name` commits, with its payload unchanged,
    exactly the key under which the default mutation of `name` is stored.
   */
  lemma ActionCommitsDefaultMutation(name: string, payload: Value)
    ensures ConventionKey(Action, name) in DefaultAction(name)
    ensures var c := ApplyAction(DefaultAction(name)[ConventionKey(Action, name)], payload);
            c.payload == payload &&
            DefaultMutation(name).Keys == {c.mutation} &&
            DefaultMutation(name)[c.mutation] == MutationFn(name)
  {
  }

  /**
    The default computed `get()` of `name` reads the key of the default
    getter of `name`, and its `set(val)` dispatches the key of the default
    action of `name` with `val` unchanged.
   */
  lemma ComputedMatchesGetterAndAction(name: string, val: Value)
    ensures DefaultGetter(name).Keys == {ComputedGetKey(DefaultComputed(name))}
    ensures DefaultGetter(name)[ComputedGetKey(DefaultComputed(name))] == GetterFn(name)
    ensures var d := ComputedSet(DefaultComputed(name), val);
            d.payload == val &&
            DefaultAction(name).Keys == {d.action} &&
            DefaultAction(name)[d.action] == ActionFn(name)
  {
  }

  /**
    Applying the default mutation of `name` with `payload` and then the
    default getter of `name` yields `payload`; no other key of the state
    changes.
   */
  lemma MutationThenGetter(name: string, st: Namespace, payload: Value)
    ensures ApplyGetter(GetterFn(name), ApplyMutation(MutationFn(name), st, payload)) == payload
    ensures var st' := ApplyMutation(MutationFn(name), st, payload);
            st'.Keys == st.Keys + {name} &&
            forall k :: k in st && k != name ==> st'[k] == st[k]
  {
  }
}
