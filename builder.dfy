/**
  The `Store` builder: five accumulators that `addObject` extends by
  left-to-right spread, and the two export accessors. `Step` is the value
  semantics of one `addObject` call; the `Store` class keeps the accumulators
  as fields that `AddObject` reassigns one after another, as the source does.
 */
module Builder {
  import opened Values
  import opened Naming
  import opened Defaults

  /** `{ ...acc, ...part }`: the keys of both, a key of `part` winning over the same key of `acc`. */
  function Merge(acc: Namespace, part: Namespace): (r: Namespace)
    ensures r.Keys == acc.Keys + part.Keys
    ensures forall k :: k in part ==> r[k] == part[k]
    ensures forall k :: k in acc && k !in part ==> r[k] == acc[k]
  {
    acc + part
  }

  /** The five accumulators of a store, as values. */
  datatype Accumulators = Accumulators(
    state: Namespace,
    getters: Namespace,
    actions: Namespace,
    mutations: Namespace,
    computed: Namespace)

  /** A new store: every accumulator is `{}`. */
  const Empty := Accumulators(map[], map[], map[], map[], map[])

  /** What `addObject(name, data)` spreads into `state`: the override, or the default entry. */
  function StatePart(name: string, data: ObjectData): Namespace {
    if data.state.Some? then data.state.value else DefaultState(name, data.initialValue)
  }

  function GettersPart(name: string, data: ObjectData): Namespace {
    if data.getters.Some? then data.getters.value else DefaultGetter(name)
  }

  function ActionsPart(name: string, data: ObjectData): Namespace {
    if data.actions.Some? then data.actions.value else DefaultAction(name)
  }

  function MutationsPart(name: string, data: ObjectData): Namespace {
    if data.mutations.Some? then data.mutations.value else DefaultMutation(name)
  }

  /** What `addObject(name, data)` stores under `computed[name]`. */
  function ComputedValue(name: string, data: ObjectData): Value {
    if data.computed.Some? then Obj(data.computed.value) else DefaultComputed(name)
  }

  /** The accumulators after one `addObject(name, data)` call. */
  function Step(a: Accumulators, name: string, data: ObjectData): Accumulators {
    Accumulators(
      Merge(a.state, StatePart(name, data)),
      Merge(a.getters, GettersPart(name, data)),
      Merge(a.actions, ActionsPart(name, data)),
      Merge(a.mutations, MutationsPart(name, data)),
      Merge(a.computed, map[name := ComputedValue(name, data)]))
  }

  /** What `exportMixin()` returns: `{ computed }`. */
  datatype Mixin = Mixin(computed: Namespace)

  /** What `exportVuex()` returns: `{ state, getters, actions, mutations }`. */
  datatype VuexConfig = VuexConfig(
    state: Namespace,
    getters: Namespace,
    actions: Namespace,
    mutations: Namespace)

  class Store {
    var state: Namespace
    var getters: Namespace
    var actions: Namespace
    var mutations: Namespace
    var computed: Namespace

    /** The accumulators as one value. */
    function Contents(): Accumulators
      reads this
    {
      Accumulators(state, getters, actions, mutations, computed)
    }

    constructor ()
      ensures Contents() == Empty
    {
      state, getters, actions, mutations, computed := map[], map[], map[], map[], map[];
    }

    /** `addObject(name, data)`: each accumulator is replaced by a new spread of the old one and the part. */
    method AddObject(name: string, data: ObjectData)
      modifies this
      ensures state == Merge(old(state), StatePart(name, data))
      ensures getters == Merge(old(getters), GettersPart(name, data))
      ensures actions == Merge(old(actions), ActionsPart(name, data))
      ensures mutations == Merge(old(mutations), MutationsPart(name, data))
      ensures computed == Merge(old(computed), map[name := ComputedValue(name, data)])
      ensures Contents() == Step(old(Contents()), name, data)
    {
      state := Merge(state, if data.state.Some? then data.state.value
                            else DefaultState(name, data.initialValue));
      getters := Merge(getters, if data.getters.Some? then data.getters.value
                                else DefaultGetter(name));
      actions := Merge(actions, if data.actions.Some? then data.actions.value
                                else DefaultAction(name));
      mutations := Merge(mutations, if data.mutations.Some? then data.mutations.value
                                    else DefaultMutation(name));
      computed := Merge(computed, map[name := if data.computed.Some? then Obj(data.computed.value)
                                               else DefaultComputed(name)]);
    }

    /** `exportMixin()`: the current computed accumulator. */
    method ExportMixin() returns (m: Mixin)
      ensures m.computed == Contents().computed
    {
      m := Mixin(computed);
    }

    /** `exportVuex()`: exactly the four store accumulators, and not `computed`. */
    method ExportVuex() returns (v: VuexConfig)
      ensures v.state == Contents().state && v.getters == Contents().getters
      ensures v.actions == Contents().actions && v.mutations == Contents().mutations
    {
      v := VuexConfig(state, getters, actions, mutations);
    }
  }

  /**
    A snapshot exported before an `addObject` keeps the accumulators it was
    taken from, while a later export sees the new ones.
   */
  method SnapshotSurvivesAddObject(s: Store, name: string, data: ObjectData)
    returns (before: VuexConfig, after: VuexConfig)
    modifies s
    ensures before == VuexConfig(old(s.state), old(s.getters), old(s.actions), old(s.mutations))
    ensures var a := Step(old(s.Contents()), name, data);
            after == VuexConfig(a.state, a.getters, a.actions, a.mutations)
  {
    before := s.ExportVuex();
    s.AddObject(name, data);
    after := s.ExportVuex();
  }

  /**
    For every namespace without an override, `addObject` adds the
    convention-derived entry: `state[name]`, `getters["get" + Cap(name)]`,
    `actions["update" + Cap(name)]`, `mutations["set" + Cap(name)]`; and
    `computed[name]` is always added.
   */
  lemma DefaultEntriesAdded(a: Accumulators, name: string, data: ObjectData)
    ensures var s := Step(a, name, data);
            && (data.state.None? ==> name in s.state && s.state[name] == InitialState(data.initialValue))
            && (data.getters.None? ==>
                  ConventionKey(Getter, name) in s.getters && s.getters[ConventionKey(Getter, name)] == GetterFn(name))
            && (data.actions.None? ==>
                  ConventionKey(Action, name) in s.actions && s.actions[ConventionKey(Action, name)] == ActionFn(name))
            && (data.mutations.None? ==>
                  ConventionKey(Mutation, name) in s.mutations && s.mutations[ConventionKey(Mutation, name)] == MutationFn(name))
            && name in s.computed
  {
  }

  /**
    A supplied override is spread verbatim: the accumulator gains exactly the
    override's keys with the override's values, so no convention-derived key
    is added for that namespace, and `initialValue` is ignored when `state`
    is overridden.
   */
  lemma OverridesSpreadVerbatim(a: Accumulators, name: string, data: ObjectData)
    ensures var s := Step(a, name, data);
            && (data.state.Some? ==>
                  s.state == Merge(a.state, data.state.value) &&
                  s.state.Keys == a.state.Keys + data.state.value.Keys)
            && (data.getters.Some? ==>
                  s.getters == Merge(a.getters, data.getters.value) &&
                  s.getters.Keys == a.getters.Keys + data.getters.value.Keys &&
                  (ConventionKey(Getter, name) in s.getters <==>
                   ConventionKey(Getter, name) in a.getters || ConventionKey(Getter, name) in data.getters.value))
            && (data.actions.Some? ==>
                  s.actions == Merge(a.actions, data.actions.value) &&
                  s.actions.Keys == a.actions.Keys + data.actions.value.Keys &&
                  (ConventionKey(Action, name) in s.actions <==>
                   ConventionKey(Action, name) in a.actions || ConventionKey(Action, name) in data.actions.value))
            && (data.mutations.Some? ==>
                  s.mutations == Merge(a.mutations, data.mutations.value) &&
                  s.mutations.Keys == a.mutations.Keys + data.mutations.value.Keys &&
                  (ConventionKey(Mutation, name) in s.mutations <==>
                   ConventionKey(Mutation, name) in a.mutations || ConventionKey(Mutation, name) in data.mutations.value))
    ensures data.state.Some? ==>
              forall iv :: Step(a, name, data.(initialValue := iv)).state == Step(a, name, data).state
  {
  }

  /**
    The computed accumulator gains exactly the key `name`, holding the
    caller's `computed` object or the default `{ get, set }` pair; every
    other computed key keeps its value.
   */
  lemma ComputedStoredUnderName(a: Accumulators, name: string, data: ObjectData)
    ensures var s := Step(a, name, data);
            && s.computed.Keys == a.computed.Keys + {name}
            && s.computed[name] == (if data.computed.Some? then Obj(data.computed.value) else ComputedPair(name))
            && forall k :: k in a.computed && k != name ==> s.computed[k] == a.computed[k]
  {
  }

  /**
    `addObject` deletes nothing: every key of every accumulator survives,
    and a key that the call does not mention keeps its value.
   */
  lemma StepKeepsUnmentioned(a: Accumulators, name: string, data: ObjectData, k: string)
    ensures var s := Step(a, name, data);
            && a.state.Keys <= s.state.Keys && a.getters.Keys <= s.getters.Keys
            && a.actions.Keys <= s.actions.Keys && a.mutations.Keys <= s.mutations.Keys
            && a.computed.Keys <= s.computed.Keys
            && (k in a.state && k !in StatePart(name, data) ==> s.state[k] == a.state[k])
            && (k in a.getters && k !in GettersPart(name, data) ==> s.getters[k] == a.getters[k])
            && (k in a.actions && k !in ActionsPart(name, data) ==> s.actions[k] == a.actions[k])
            && (k in a.mutations && k !in MutationsPart(name, data) ==> s.mutations[k] == a.mutations[k])
            && (k in a.computed && k != name ==> s.computed[k] == a.computed[k])
  {
  }

  /** Registering `x` twice with two initial values leaves the second in `state["x"]`. */
  lemma SecondRegistrationWins(a: Accumulators, name: string, first: Option<string>, second: Option<string>)
    ensures var s := Step(Step(a, name, NoData.(initialValue := first)), name, NoData.(initialValue := second));
            name in s.state && s.state[name] == InitialState(second)
  {
    var s1 := Step(a, name, NoData.(initialValue := first));
    var s2 := Step(s1, name, NoData.(initialValue := second));
    assert StatePart(name, NoData.(initialValue := second)) == map[name := InitialState(second)];
    assert s2.state == Merge(s1.state, map[name := InitialState(second)]);
  }

  /** The keys derived from "user". */
  lemma UserKeys()
    ensures ConventionKey(Getter, "user") == "getUser"
    ensures ConventionKey(Action, "user") == "updateUser"
    ensures ConventionKey(Mutation, "user") == "setUser"
  {
  }

  /**
    `addObject("user", { initialValue: "anon" })` on a new store gives
    `state = { user: "anon" }`, `getters = { getUser }`,
    `actions = { updateUser }`, `mutations = { setUser }` and
    `computed = { user }`.
   */
  lemma UserScenario()
    ensures var s := Step(Empty, "user", NoData.(initialValue := Some("anon")));
            && s.state.Keys == {"user"} && s.state["user"] == Str("anon")
            && s.getters.Keys == {"getUser"} && s.getters["getUser"] == GetterFn("user")
            && s.actions.Keys == {"updateUser"} && s.actions["updateUser"] == ActionFn("user")
            && s.mutations.Keys == {"setUser"} && s.mutations["setUser"] == MutationFn("user")
            && s.computed.Keys == {"user"} && s.computed["user"] == ComputedPair("user")
  {
    UserKeys();
  }
}
