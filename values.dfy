/**
  The values the store builder handles. JavaScript values that the builder
  only moves around are modelled symbolically: the closures the builder
  synthesises are named by the object name they were built for, and values
  the caller supplies are opaque tokens (or nested objects).
 */
module Values {

  datatype Option<T> = None | Some(value: T)

  /** A JavaScript value as far as the builder is concerned. */
  datatype Value =
    | Undef                              // `undefined`
    | Str(s: string)                     // a string, e.g. an `initialValue`
    | Obj(fields: map<string, Value>)    // a plain object supplied by the caller
    | GetterFn(name: string)             // `(state) => state[name]`
    | ActionFn(name: string)             // `({ commit }, payload) => commit("set" + Cap(name), payload)`
    | MutationFn(name: string)           // `(state, payload) => (state[name] = payload)`
    | ComputedPair(name: string)         // `{ get() {...}, set(val) {...} }` for `name`
    | Opaque(id: nat)                    // any other caller-supplied value

  /** A plain object used as a key/value mapping (one accumulator or one override). */
  type Namespace = map<string, Value>

  /**
    The optional second argument of `addObject`. `None` stands for a field
    that is absent or `undefined`; an override that is present is an object
    and therefore truthy, even when it is empty.
   */
  datatype ObjectData = ObjectData(
    initialValue: Option<string>,
    computed: Option<Namespace>,
    state: Option<Namespace>,
    getters: Option<Namespace>,
    actions: Option<Namespace>,
    mutations: Option<Namespace>)

  /** The default argument of `addObject`: every field `undefined`. */
  const NoData := ObjectData(None, None, None, None, None, None)
}
