/**
  A minimal stand-in for the host framework that calls the closures the
  builder registers: `commit` looks a mutation up by key, `dispatch` looks an
  action up by key, and a component reads a getter by key. Only the default
  closures are given a meaning; any other registered value, or a missing
  key, makes the call undefined here (`None`).
 */
module HostRuntime {
  import opened Values
  import opened Naming
  import opened Defaults
  import opened Builder

  /** `commit(c.mutation, c.payload)` against the registered mutations. */
  function RunCommit(mutations: Namespace, c: Commit, st: Namespace): Option<Namespace> {
    if c.mutation in mutations && mutations[c.mutation].MutationFn?
    then Some(ApplyMutation(mutations[c.mutation], st, c.payload))
    else None
  }

  /** `dispatch(d.action, d.payload)`: the action runs and its commit is carried out. */
  function RunDispatch(a: Accumulators, d: Dispatch, st: Namespace): Option<Namespace> {
    if d.action in a.actions && a.actions[d.action].ActionFn?
    then RunCommit(a.mutations, ApplyAction(a.actions[d.action], d.payload), st)
    else None
  }

  /** `getters[key]` evaluated against a state object. */
  function ReadGetter(a: Accumulators, key: string, st: Namespace): Option<Value> {
    if key in a.getters && a.getters[key].GetterFn?
    then Some(ApplyGetter(a.getters[key], st))
    else None
  }

  /**
    After `addObject(name)` without getter, action, mutation or computed
    overrides, writing `val` through the computed setter of `name` stores
    `val` in `state[name]` (and nowhere else), and reading the computed getter
    afterwards gives `val` back.
   */
  lemma ComputedRoundTrip(a: Accumulators, name: string, data: ObjectData, st: Namespace, val: Value)
    requires data.getters.None? && data.actions.None? && data.mutations.None? && data.computed.None?
    ensures var s := Step(a, name, data);
            && name in s.computed && s.computed[name].ComputedPair?
            && RunDispatch(s, ComputedSet(s.computed[name], val), st) == Some(st[name := val])
            && ReadGetter(s, ComputedGetKey(s.computed[name]), st[name := val]) == Some(val)
  {
    DefaultEntriesAdded(a, name, data);
    ComputedStoredUnderName(a, name, data);
  }

  /**
    Dispatching the default action `update<Name>` with a payload, right after
    `addObject(name)` without action or mutation overrides, sets
    `state[name]` to that payload and leaves every other state key alone.
   */
  lemma DefaultActionSetsState(a: Accumulators, name: string, data: ObjectData, st: Namespace, payload: Value)
    requires data.actions.None? && data.mutations.None?
    ensures var s := Step(a, name, data);
            var r := RunDispatch(s, Dispatch(ConventionKey(Action, name), payload), st);
            && r.Some?
            && name in r.value && r.value[name] == payload
            && r.value.Keys == st.Keys + {name}
            && forall k :: k in st && k != name ==> r.value[k] == st[k]
  {
  }
}
