/**
 Histories, sequential models and linearizability (src/porcupine/model.go).
 */
module Histories {

  /** A sequential specification: `Init`, `Step` and `Equal` of a porcupine Model. */
  datatype Model<!S, !I, !O> = Model(init: S, step: (S, I, O) -> (bool, S), equal: (S, S) -> bool)

  datatype Operation<+I, +O> = Operation(clientId: int, input: I, call: int, output: O, ret: int)

  /**
   What a Model promises of `Equal`: it is reflexive and transitive, and equal states take the
   same steps to equal states.  `ShallowEqual` meets it for every `Step`.
   */
  ghost predicate EqualRespectsStep<S(!new), I(!new), O(!new)>(m: Model<S, I, O>) {
    && (forall s :: m.equal(s, s))
    && (forall s, t, u :: m.equal(s, t) && m.equal(t, u) ==> m.equal(s, u))
    && (forall s, t, i, o :: m.equal(s, t) ==>
          m.step(s, i, o).0 == m.step(t, i, o).0
          && (m.step(s, i, o).0 ==> m.equal(m.step(s, i, o).1, m.step(t, i, o).1)))
  }

  /** The state after the operations of `p`, taken in order from the initial state. */
  ghost function Run<S, I, O>(m: Model<S, I, O>, p: seq<Operation<I, O>>): S {
    if p == [] then m.init
    else m.step(Run(m, p[..|p| - 1]), p[|p| - 1].input, p[|p| - 1].output).1
  }

  /** Every operation of `p` is one the model can take where it stands. */
  ghost predicate Accepts<S, I, O>(m: Model<S, I, O>, p: seq<Operation<I, O>>) {
    p == [] ||
    (Accepts(m, p[..|p| - 1])
     && m.step(Run(m, p[..|p| - 1]), p[|p| - 1].input, p[|p| - 1].output).0)
  }

  /** No operation comes after one that was called only once it had returned. */
  ghost predicate RealTime<I, O>(p: seq<Operation<I, O>>) {
    forall i, j :: 0 <= i < j < |p| ==> !(p[j].ret < p[i].call)
  }

  ghost predicate Linearization<S, I, O>(m: Model<S, I, O>, ops: multiset<Operation<I, O>>, p: seq<Operation<I, O>>) {
    multiset(p) == ops && Accepts(m, p) && RealTime(p)
  }

  /** Some total order of the operations is accepted and keeps the real-time order. */
  ghost predicate Linearizable<S, I(!new), O(!new)>(m: Model<S, I, O>, ops: multiset<Operation<I, O>>) {
    exists p :: Linearization(m, ops, p)
  }

  /** Every operation of a complete history returns, and not before it is called. */
  ghost predicate Complete<I, O>(history: seq<Operation<I, O>>) {
    forall k :: 0 <= k < |history| ==> history[k].call <= history[k].ret
  }
}
