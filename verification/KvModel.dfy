module KvModel {
  // The key/value model (src/models/kv.go): the specification of one key, the split of a history
  // by key, and the proof that checking each key on its own is checking the whole store.

  import opened Histories
  import opened Sorting

  /** Op 0 is get, 1 is put, 2 is append, anything else is append that returns the old value. */
  datatype KvInput = KvInput(op: nat, key: string, value: string)

  datatype KvOutput = KvOutput(value: string)

  type KvOp = Operation<KvInput, KvOutput>

  function KvStep(st: string, inp: KvInput, out: KvOutput): (bool, string) {
    if inp.op == 0 then (out.value == st, st)
    else if inp.op == 1 then (true, inp.value)
    else if inp.op == 2 then (true, st + inp.value)
    else (out.value == st, st + inp.value)
  }

  /** KvModel: the state is the value of a single key. */
  const KEY_MODEL: Model<string, KvInput, KvOutput> := Model("", KvStep, (a: string, b: string) => a == b)

  // ---- what the model says of a sequence of operations ----

  /** The values of the appends, joined. */
  function Appended(p: seq<KvOp>): string {
    if p == [] then ""
    else
      var inp := p[|p| - 1].input;
      Appended(p[..|p| - 1]) + if inp.op >= 2 then inp.value else ""
  }

  /** The value of a key is what was put last, `k`, if anything, and then all that was appended since. */
  lemma {:induction false} ValueIs(p: seq<KvOp>, k: int)
    requires -1 <= k < |p| && (k >= 0 ==> p[k].input.op == 1) && forall j :: k < j < |p| ==> p[j].input.op != 1
    ensures Run(KEY_MODEL, p) == (if k >= 0 then p[k].input.value else "") + Appended(p[k + 1..])
  {
    if k < |p| - 1 {
      var rest := p[..|p| - 1];
      ValueIs(rest, k);
      assert p[k + 1..][..|p| - k - 2] == rest[k + 1..];
    }
  }

  /** Exactly the gets, and the appends with a return value, are to tell the value there was before. */
  lemma {:induction false} AcceptedIff(p: seq<KvOp>)
    ensures Accepts(KEY_MODEL, p) <==>
            forall i {:trigger p[i]} ::
              0 <= i < |p| && p[i].input.op !in {1, 2} ==> p[i].output.value == Run(KEY_MODEL, p[..i])
  {
    if p != [] {
      var rest := p[..|p| - 1];
      AcceptedIff(rest);
      forall i | 0 <= i < |rest| ensures rest[..i] == p[..i] && rest[i] == p[i] {}
    }
  }

  // ---- the whole store, which the model stands for ----

  type Store = map<string, string>

  function Lookup(m: Store, key: string): string {
    if key in m then m[key] else ""
  }

  function StoreStep(m: Store, inp: KvInput, out: KvOutput): (bool, Store) {
    var r := KvStep(Lookup(m, inp.key), inp, out);
    (r.0, m[inp.key := r.1])
  }

  const STORE_MODEL: Model<Store, KvInput, KvOutput> := Model(map[], StoreStep, (a: Store, b: Store) => a == b)

  lemma KeyModelEqual()
    ensures EqualRespectsStep(KEY_MODEL)
  {}

  // ---- one key of a history ----

  function Only(history: seq<KvOp>, key: string): seq<KvOp> {
    if history == [] then []
    else
      var rest, op := Only(history[..|history| - 1], key), history[|history| - 1];
      if op.input.key == key then rest + [op] else rest
  }

  lemma {:induction false} OnlyCounts(history: seq<KvOp>, key: string, op: KvOp)
    ensures multiset(Only(history, key))[op] == if op.input.key == key then multiset(history)[op] else 0
  {
    if history != [] {
      OnlyCounts(history[..|history| - 1], key, op);
      assert history == history[..|history| - 1] + [history[|history| - 1]];
    }
  }

  /** Rearranging a history rearranges each of its keys. */
  lemma OnlyRearranged(p: seq<KvOp>, q: seq<KvOp>, key: string)
    requires multiset(p) == multiset(q)
    ensures multiset(Only(p, key)) == multiset(Only(q, key))
  {
    forall op ensures multiset(Only(p, key))[op] == multiset(Only(q, key))[op] {
      OnlyCounts(p, key, op);
      OnlyCounts(q, key, op);
    }
  }

  /** What the store does to a key is what the key's own operations do. */
  lemma {:induction false} RunOnly(p: seq<KvOp>, key: string)
    ensures Lookup(Run(STORE_MODEL, p), key) == Run(KEY_MODEL, Only(p, key))
  {
    if p != [] {
      RunOnly(p[..|p| - 1], key);
    }
  }

  ghost predicate KeysAccept(p: seq<KvOp>) {
    forall key :: Accepts(KEY_MODEL, Only(p, key))
  }

  lemma AcceptsLast(q: seq<KvOp>, op: KvOp)
    ensures KeysAccept(q + [op]) <==>
            KeysAccept(q) && KvStep(Run(KEY_MODEL, Only(q, op.input.key)), op.input, op.output).0
  {
    var p, k := q + [op], op.input.key;
    assert p[..|p| - 1] == q;
    assert Only(p, k)[..|Only(p, k)| - 1] == Only(q, k);
    forall key ensures key != k ==> Only(p, key) == Only(q, key) {}
    if KeysAccept(p) {
      assert Accepts(KEY_MODEL, Only(p, k));
      forall key ensures Accepts(KEY_MODEL, Only(q, key)) {
        assert Accepts(KEY_MODEL, Only(p, key));
      }
    }
    if KeysAccept(q) && KvStep(Run(KEY_MODEL, Only(q, k)), op.input, op.output).0 {
      forall key ensures Accepts(KEY_MODEL, Only(p, key)) {
        assert Accepts(KEY_MODEL, Only(q, key));
      }
    }
  }

  /** The store accepts a sequence exactly when each key accepts its part. */
  lemma {:induction false} AcceptsOnly(p: seq<KvOp>)
    ensures Accepts(STORE_MODEL, p) <==> KeysAccept(p)
  {
    if p == [] {
      assert forall key :: Only(p, key) == [];
    } else {
      var q, op := p[..|p| - 1], p[|p| - 1];
      AcceptsOnly(q);
      RunOnly(q, op.input.key);
      AcceptsLast(q, op);
      assert p == q + [op];
    }
  }

  /** The operations of a key keep the order they have in the whole. */
  lemma {:induction false} OnlyIndex(p: seq<KvOp>, key: string, i: nat, j: nat) returns (a: nat, b: nat)
    requires i < j < |Only(p, key)|
    ensures a < b < |p| && p[a] == Only(p, key)[i] && p[b] == Only(p, key)[j]
  {
    var n := |p| - 1;
    var rest := Only(p[..n], key);
    if j < |rest| {
      a, b := OnlyIndex(p[..n], key, i, j);
    } else {
      a := OnlyAt(p[..n], key, i);
      b := n;
    }
  }

  lemma {:induction false} OnlyAt(p: seq<KvOp>, key: string, i: nat) returns (a: nat)
    requires i < |Only(p, key)|
    ensures a < |p| && p[a] == Only(p, key)[i]
  {
    var n := |p| - 1;
    if i < |Only(p[..n], key)| {
      a := OnlyAt(p[..n], key, i);
    } else {
      a := n;
    }
  }

  lemma RealTimeOnly(p: seq<KvOp>, key: string)
    requires RealTime(p)
    ensures RealTime(Only(p, key))
  {
    var q := Only(p, key);
    forall i, j | 0 <= i < j < |q| ensures !(q[j].ret < q[i].call) {
      var a, b := OnlyIndex(p, key, i, j);
    }
  }

  /** A linearization of the store, restricted to a key, is one of the key. */
  lemma StoreToKey(history: seq<KvOp>, p: seq<KvOp>, key: string)
    requires Linearization(STORE_MODEL, multiset(history), p)
    ensures Linearization(KEY_MODEL, multiset(Only(history, key)), Only(p, key))
  {
    OnlyRearranged(p, history, key);
    AcceptsOnly(p);
    RealTimeOnly(p, key);
  }

  // ---- merging linearizations of the keys ----

  /** `ps` holds, for each key, an order of its operations; together they are `ops`. */
  ghost predicate Parts(ps: map<string, seq<KvOp>>, ops: multiset<KvOp>) {
    && (forall op :: op in ops ==> op.call <= op.ret && op.input.key in ps)
    && (forall key :: key in ps ==> Part(ps[key], key, ops))
  }

  ghost predicate Part(p: seq<KvOp>, key: string, ops: multiset<KvOp>) {
    && RealTime(p)
    && (forall k :: 0 <= k < |p| ==> p[k].input.key == key)
    && (forall op :: multiset(p)[op] == if op.input.key == key then ops[op] else 0)
  }

  /** The operation called last. */
  lemma {:induction false} LastCalled(ops: multiset<KvOp>) returns (z: KvOp)
    requires |ops| > 0
    ensures z in ops && forall op :: op in ops ==> op.call <= z.call
  {
    z :| z in ops;
    var rest := ops - multiset{z};
    if |rest| > 0 {
      var y := LastCalled(rest);
      if y.call > z.call {
        z := y;
      }
    }
    forall op | op in ops ensures op.call <= z.call {
      if op !in rest {}
    }
  }

  lemma PartWithoutLast(p: seq<KvOp>, ops: multiset<KvOp>, key: string)
    requires p != [] && Part(p, key, ops)
    ensures Part(p[..|p| - 1], key, ops - multiset{p[|p| - 1]})
  {
    assert p == p[..|p| - 1] + [p[|p| - 1]];
  }

  lemma PartElsewhere(p: seq<KvOp>, ops: multiset<KvOp>, key: string, x: KvOp)
    requires Part(p, key, ops) && x.input.key != key
    ensures Part(p, key, ops - multiset{x})
  {}

  /**
   Orders of the keys merge into one order of everything that keeps real time: the key that
   owns the operation called last gives its last operation, which may come last of all.
   */
  lemma {:induction false} Merge(ps: map<string, seq<KvOp>>, ops: multiset<KvOp>) returns (p: seq<KvOp>)
    requires Parts(ps, ops)
    ensures multiset(p) == ops && RealTime(p)
    ensures forall key :: key in ps ==> Only(p, key) == ps[key]
    decreases |ops|
  {
    hide Parts, Part, Only, RealTime;
    if |ops| == 0 {
      p := [];
      MergeNone(ps, ops);
    } else {
      var z := LastCalled(ops);
      var k := z.input.key;
      var x := MergeLast(ps, ops, z);
      var ps', ops' := ps[k := ps[k][..|ps[k]| - 1]], ops - multiset{x};
      MergeParts(ps, ops, k);
      var q := Merge(ps', ops');
      p := q + [x];
      forall op | op in q ensures op.call <= x.ret {
        assert op in multiset(q);
      }
      RealTimeAppend(q, x);
      forall key | key in ps ensures Only(p, key) == ps[key] {
        OnlyAppend(q, x, key);
        assert Only(q, key) == ps'[key];
        assert ps[k] == ps[k][..|ps[k]| - 1] + [x];
      }
    }
  }

  lemma MergeNone(ps: map<string, seq<KvOp>>, ops: multiset<KvOp>)
    requires Parts(ps, ops) && |ops| == 0
    ensures RealTime<KvInput, KvOutput>([]) && forall key :: key in ps ==> Only([], key) == ps[key]
  {
    forall key | key in ps ensures ps[key] == [] {
      assert Part(ps[key], key, ops);
      if ps[key] != [] {
        HeadIn(ps[key]);
        assert false;
      }
    }
  }

  lemma RealTimeAppend(q: seq<KvOp>, x: KvOp)
    requires RealTime(q) && forall op :: op in q ==> op.call <= x.ret
    ensures RealTime(q + [x])
  {}

  lemma OnlyAppend(q: seq<KvOp>, x: KvOp, key: string)
    ensures Only(q + [x], key) == if x.input.key == key then Only(q, key) + [x] else Only(q, key)
  {
    assert (q + [x])[..|q|] == q;
  }

  lemma MergeLast(ps: map<string, seq<KvOp>>, ops: multiset<KvOp>, z: KvOp) returns (x: KvOp)
    requires Parts(ps, ops) && z in ops
    ensures z.input.key in ps && ps[z.input.key] != [] && x == ps[z.input.key][|ps[z.input.key]| - 1]
    ensures x in ops && x.input.key == z.input.key && z.call <= x.ret
  {
    var p := ps[z.input.key];
    assert Part(p, z.input.key, ops);
    assert z in multiset(p);
    var i :| 0 <= i < |p| && p[i] == z;
    x := p[|p| - 1];
    assert x in multiset(p);
  }

  lemma MergeParts(ps: map<string, seq<KvOp>>, ops: multiset<KvOp>, k: string)
    requires Parts(ps, ops) && k in ps && ps[k] != []
    ensures Parts(ps[k := ps[k][..|ps[k]| - 1]], ops - multiset{ps[k][|ps[k]| - 1]})
  {
    var x := ps[k][|ps[k]| - 1];
    var ps', ops' := ps[k := ps[k][..|ps[k]| - 1]], ops - multiset{x};
    assert Part(ps[k], k, ops);
    forall key | key in ps' ensures Part(ps'[key], key, ops') {
      assert Part(ps[key], key, ops);
      if key == k {
        PartWithoutLast(ps[k], ops, k);
      } else {
        PartElsewhere(ps[key], ops, key, x);
      }
    }
  }

  /** The orders chosen for the keys of a history. */
  lemma {:induction false} ChooseParts(history: seq<KvOp>, keys: set<string>) returns (ps: map<string, seq<KvOp>>)
    requires KeysLinearizable(history)
    ensures ps.Keys == keys
    ensures forall key :: key in ps ==> Linearization(KEY_MODEL, multiset(Only(history, key)), ps[key])
  {
    if keys == {} {
      ps := map[];
    } else {
      var k :| k in keys;
      ps := ChooseParts(history, keys - {k});
      assert Linearizable(KEY_MODEL, multiset(Only(history, k)));
      var p :| Linearization(KEY_MODEL, multiset(Only(history, k)), p);
      ps := ps[k := p];
    }
  }

  lemma KeyLinearizationIsPart(history: seq<KvOp>, key: string, p: seq<KvOp>)
    requires Linearization(KEY_MODEL, multiset(Only(history, key)), p)
    ensures Part(p, key, multiset(history))
  {
    forall op ensures multiset(p)[op] == if op.input.key == key then multiset(history)[op] else 0 {
      OnlyCounts(history, key, op);
    }
    forall k | 0 <= k < |p| ensures p[k].input.key == key {
      assert p[k] in multiset(p);
    }
  }

  ghost predicate KeysLinearizable(history: seq<KvOp>) {
    forall key :: Linearizable(KEY_MODEL, multiset(Only(history, key)))
  }

  lemma PartsOf(history: seq<KvOp>, ps: map<string, seq<KvOp>>)
    requires Complete(history) && forall k :: 0 <= k < |history| ==> history[k].input.key in ps
    requires forall key :: key in ps ==> Linearization(KEY_MODEL, multiset(Only(history, key)), ps[key])
    ensures Parts(ps, multiset(history))
  {
    forall key | key in ps ensures Part(ps[key], key, multiset(history)) {
      KeyLinearizationIsPart(history, key, ps[key]);
    }
    forall op | op in multiset(history) ensures op.call <= op.ret && op.input.key in ps {
      var k :| 0 <= k < |history| && history[k] == op;
    }
  }

  lemma NoneOfKey(history: seq<KvOp>, p: seq<KvOp>, key: string)
    requires multiset(p) == multiset(history) && forall k :: 0 <= k < |history| ==> history[k].input.key != key
    ensures Only(p, key) == []
  {
    forall op ensures multiset(Only(p, key))[op] == 0 {
      OnlyCounts(p, key, op);
      if op in multiset(history) {
        var k :| 0 <= k < |history| && history[k] == op;
      }
    }
    assert Only(p, key) != [] ==> Only(p, key)[0] in multiset(Only(p, key));
  }

  /** Linearizations of all the keys make one of the store. */
  lemma KeysToStore(history: seq<KvOp>)
    requires Complete(history) && KeysLinearizable(history)
    ensures Linearizable(STORE_MODEL, multiset(history))
  {
    hide Parts, Only, RealTime, Complete;
    var keys := set k | 0 <= k < |history| :: history[k].input.key;
    var ps := ChooseParts(history, keys);
    PartsOf(history, ps);
    var p := Merge(ps, multiset(history));
    forall key ensures Accepts(KEY_MODEL, Only(p, key)) {
      if key !in ps {
        NoneOfKey(history, p, key);
      } else {
        assert Linearization(KEY_MODEL, multiset(Only(history, key)), ps[key]);
      }
    }
    AcceptsOnly(p);
    assert Linearization(STORE_MODEL, multiset(history), p);
  }

  /** Partitioning by key is exact. */
  lemma PartitionExact(history: seq<KvOp>)
    requires Complete(history)
    ensures Linearizable(STORE_MODEL, multiset(history)) <==> KeysLinearizable(history)
  {
    if p :| Linearization(STORE_MODEL, multiset(history), p) {
      forall key ensures Linearizable(KEY_MODEL, multiset(Only(history, key))) {
        StoreToKey(history, p, key);
      }
    }
    if KeysLinearizable(history) {
      KeysToStore(history);
    }
  }

  // ---- KvModel.Partition ----

  lemma {:induction false} OnlyOneKey(history: seq<KvOp>, key: string)
    ensures forall i :: 0 <= i < |Only(history, key)| ==> Only(history, key)[i].input.key == key
  {
    if history != [] {
      OnlyOneKey(history[..|history| - 1], key);
    }
  }

  ghost predicate Grouped(m: map<string, seq<KvOp>>, history: seq<KvOp>) {
    && (forall key :: key in m ==> m[key] == Only(history, key) && m[key] != [])
    && (forall key :: key !in m ==> Only(history, key) == [])
  }

  lemma GroupedWith(m: map<string, seq<KvOp>>, history: seq<KvOp>, v: KvOp)
    requires Grouped(m, history)
    ensures Grouped(m[v.input.key := (if v.input.key in m then m[v.input.key] else []) + [v]], history + [v])
  {
    assert (history + [v])[..|history|] == history;
  }

  /** Splits a history into the operations of each key, the keys in order. */
  method Partition(history: seq<KvOp>) returns (ret: seq<seq<KvOp>>, ghost keys: seq<string>)
    ensures |ret| == |keys| && InOrder(keys, StringLess)
    ensures forall i, j :: 0 <= i < j < |keys| ==> keys[i] != keys[j]
    ensures forall i :: 0 <= i < |ret| ==> ret[i] == Only(history, keys[i]) && ret[i] != []
    ensures forall key :: key !in keys ==> Only(history, key) == []
    ensures forall i :: 0 <= i < |ret| ==> ret[i] != [] && ret[i] == Only(history, ret[i][0].input.key)
    ensures forall key :: Only(history, key) != [] ==> Only(history, key) in ret
  {
    var m: map<string, seq<KvOp>> := map[];
    for i := 0 to |history|
      invariant Grouped(m, history[..i])
    {
      var v := history[i];
      var key := v.input.key;
      GroupedWith(m, history[..i], v);
      assert history[..i] + [v] == history[..i + 1];
      m := m[key := (if key in m then m[key] else []) + [v]];
    }
    assert history[..|history|] == history;
    var found := KeysOf(m);
    StringOrder();
    SortExists(found, StringLess);
    var sorted :| SortOf(sorted, found, StringLess);
    SortedKeys(found, sorted);
    keys := sorted;
    ret := [];
    for i := 0 to |sorted|
      invariant |ret| == i && forall j :: 0 <= j < i ==> ret[j] == m[sorted[j]]
    {
      ret := ret + [m[sorted[i]]];
    }
    PartsOfKeys(history, ret, keys);
  }

  lemma PartsOfKeys(history: seq<KvOp>, ret: seq<seq<KvOp>>, keys: seq<string>)
    requires |ret| == |keys| && forall i :: 0 <= i < |ret| ==> ret[i] == Only(history, keys[i]) && ret[i] != []
    requires forall key :: key !in keys ==> Only(history, key) == []
    ensures forall i :: 0 <= i < |ret| ==> ret[i] != [] && ret[i] == Only(history, ret[i][0].input.key)
    ensures forall key :: Only(history, key) != [] ==> Only(history, key) in ret
  {
    forall i | 0 <= i < |ret| ensures ret[i] != [] && ret[i] == Only(history, ret[i][0].input.key) {
      OnlyOneKey(history, keys[i]);
    }
    forall key | Only(history, key) != [] ensures Only(history, key) in ret {
      var i :| 0 <= i < |keys| && keys[i] == key;
      assert ret[i] == Only(history, key);
    }
  }
}
