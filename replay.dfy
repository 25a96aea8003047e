/**
  A sequence of `addObject` calls on one store. Every accumulator ends up
  holding, for each key, the value of the LAST call whose contribution
  mentions that key, or its earlier value if no call mentions it.
 */
module Replay {
  import opened Values
  import opened Builder

  /** The arguments of one `addObject(name, data)` call. */
  datatype Registration = Registration(name: string, data: ObjectData)

  /** The five accumulators, by name. */
  datatype Kind = StateKind | GettersKind | ActionsKind | MutationsKind | ComputedKind

  function Select(a: Accumulators, kind: Kind): Namespace {
    match kind
    case StateKind => a.state
    case GettersKind => a.getters
    case ActionsKind => a.actions
    case MutationsKind => a.mutations
    case ComputedKind => a.computed
  }

  /** What one call spreads into the accumulator `kind`. */
  function Contribution(kind: Kind, r: Registration): Namespace {
    match kind
    case StateKind => StatePart(r.name, r.data)
    case GettersKind => GettersPart(r.name, r.data)
    case ActionsKind => ActionsPart(r.name, r.data)
    case MutationsKind => MutationsPart(r.name, r.data)
    case ComputedKind => map[r.name := ComputedValue(r.name, r.data)]
  }

  /** Every accumulator of one `addObject` is the spread of the old one and the call's contribution. */
  lemma StepSelect(a: Accumulators, kind: Kind, r: Registration)
    ensures Select(Step(a, r.name, r.data), kind) == Merge(Select(a, kind), Contribution(kind, r))
  {
  }

  /** The accumulators after the calls `regs`, first to last. */
  function Run(a: Accumulators, regs: seq<Registration>): Accumulators
    decreases |regs|
  {
    if regs == [] then a else Run(Step(a, regs[0].name, regs[0].data), regs[1..])
  }

  lemma {:induction false} RunSnoc(a: Accumulators, regs: seq<Registration>, r: Registration)
    ensures Run(a, regs + [r]) == Step(Run(a, regs), r.name, r.data)
    decreases |regs|
  {
    if regs == [] {
      assert [] + [r] == [r];
      assert [r][1..] == [];
    } else {
      assert (regs + [r])[0] == regs[0];
      assert (regs + [r])[1..] == regs[1..] + [r];
      RunSnoc(Step(a, regs[0].name, regs[0].data), regs[1..], r);
    }
  }

  /**
    The reference reading of last-write-wins: scanning the calls from the
    last one backwards, the first contribution that mentions `k` decides its
    value; if none does, the value before the calls stands.
   */
  function Latest(a: Accumulators, kind: Kind, regs: seq<Registration>, k: string): Option<Value>
    decreases |regs|
  {
    if regs == [] then
      (if k in Select(a, kind) then Some(Select(a, kind)[k]) else None)
    else
      var part := Contribution(kind, regs[|regs| - 1]);
      if k in part then Some(part[k]) else Latest(a, kind, regs[..|regs| - 1], k)
  }

  /**
    Running the calls agrees with the reference reading for every key: the
    key is present exactly when the reference reading finds a value, and
    then holds that value.
   */
  lemma {:induction false} RunIsLatest(a: Accumulators, kind: Kind, regs: seq<Registration>, k: string)
    ensures k in Select(Run(a, regs), kind) <==> Latest(a, kind, regs, k).Some?
    ensures k in Select(Run(a, regs), kind) ==> Latest(a, kind, regs, k) == Some(Select(Run(a, regs), kind)[k])
    decreases |regs|
  {
    if regs != [] {
      var init, last := regs[..|regs| - 1], regs[|regs| - 1];
      assert regs == init + [last];
      RunSnoc(a, init, last);
      StepSelect(Run(a, init), kind, last);
      RunIsLatest(a, kind, init, k);
    }
  }

  /**
    A key is in an accumulator after the calls exactly when it was there
    before or some call mentions it.
   */
  lemma {:induction false} RunKeys(a: Accumulators, kind: Kind, regs: seq<Registration>, k: string)
    ensures k in Select(Run(a, regs), kind) <==>
            k in Select(a, kind) || exists i :: 0 <= i < |regs| && k in Contribution(kind, regs[i])
    decreases |regs|
  {
    if regs != [] {
      var a' := Step(a, regs[0].name, regs[0].data);
      StepSelect(a, kind, regs[0]);
      RunKeys(a', kind, regs[1..], k);
      if exists i :: 0 <= i < |regs| && k in Contribution(kind, regs[i]) {
        var i :| 0 <= i < |regs| && k in Contribution(kind, regs[i]);
        if i > 0 {
          assert regs[1..][i - 1] == regs[i];
        }
      }
      if exists i :: 0 <= i < |regs[1..]| && k in Contribution(kind, regs[1..][i]) {
        var i :| 0 <= i < |regs[1..]| && k in Contribution(kind, regs[1..][i]);
        assert regs[i + 1] == regs[1..][i];
      }
    }
  }

  /** No sequence of calls removes a key from any accumulator. */
  lemma {:induction false} RunNeverDeletes(a: Accumulators, kind: Kind, regs: seq<Registration>)
    ensures Select(a, kind).Keys <= Select(Run(a, regs), kind).Keys
    decreases |regs|
  {
    if regs != [] {
      var a' := Step(a, regs[0].name, regs[0].data);
      StepSelect(a, kind, regs[0]);
      RunNeverDeletes(a', kind, regs[1..]);
    }
  }
}
