module Search {
  // The search space of the linearizability checker, as mathematics: entries in time order, the
  // partial linearizations of a history, and what a search that visits configurations
  // (linearized set, model state) has to keep for its verdict to be right.

  import opened Histories

  datatype Value<+I, +O> = Nil | Input(input: I) | Output(output: O)

  datatype Entry<+I, +O> = Entry(isReturn: bool, value: Value<I, O>, id: int, time: int, clientId: int)

  /** A history of entries with the positions of each operation's call and return. */
  datatype Problem<!S, !I, !O> =
    Problem(m: Model<S, I, O>, h: seq<Entry<I, O>>, cpos: seq<nat>, rpos: seq<nat>)
  {
    ghost function N(): nat { |cpos| }
  }

  ghost predicate Valid<S, I, O>(pb: Problem<S, I, O>) {
    && |pb.h| == 2 * pb.N() && |pb.rpos| == pb.N()
    && (forall i {:trigger OperationAt(pb, i)} :: 0 <= i < pb.N() ==> OperationAt(pb, i))
    && (forall k {:trigger EntryAt(pb, k)} :: 0 <= k < |pb.h| ==> EntryAt(pb, k))
  }

  ghost predicate OperationAt<S, I, O>(pb: Problem<S, I, O>, i: nat)
    requires i < pb.N() && |pb.rpos| == pb.N()
  {
    var c, r := pb.cpos[i], pb.rpos[i];
    && c < r < |pb.h|
    && pb.h[c].id == i && !pb.h[c].isReturn && pb.h[c].value.Input?
    && pb.h[r].id == i && pb.h[r].isReturn && pb.h[r].value.Output?
  }

  ghost predicate EntryAt<S, I, O>(pb: Problem<S, I, O>, k: nat)
    requires k < |pb.h| && |pb.rpos| == pb.N()
  {
    && 0 <= pb.h[k].id < pb.N()
    && k == if pb.h[k].isReturn then pb.rpos[pb.h[k].id] else pb.cpos[pb.h[k].id]
  }

  /** Whether operation `i` can be taken in state `s`, and the state it leads to. */
  ghost function Step<S, I, O>(pb: Problem<S, I, O>, s: S, i: nat): (bool, S)
    requires Valid(pb) && i < pb.N()
  {
    assert OperationAt(pb, i);
    pb.m.step(s, pb.h[pb.cpos[i]].value.input, pb.h[pb.rpos[i]].value.output)
  }

  /** Operation `i` may come next: no operation outside `d` returned before it was called. */
  ghost predicate Minimal<S, I, O>(pb: Problem<S, I, O>, d: set<nat>, i: nat)
    requires Valid(pb)
  {
    && i < pb.N() && i !in d
    && forall k :: 0 <= k < pb.N() && k !in d ==> !(pb.rpos[k] < pb.cpos[i])
  }

  ghost function Elems(p: seq<nat>): set<nat> {
    set x | x in p
  }

  ghost predicate InRange<S, I, O>(pb: Problem<S, I, O>, p: seq<nat>) {
    forall k :: 0 <= k < |p| ==> p[k] < pb.N()
  }

  ghost function StateOf<S, I, O>(pb: Problem<S, I, O>, p: seq<nat>): S
    requires Valid(pb) && InRange(pb, p)
  {
    if p == [] then pb.m.init else Step(pb, StateOf(pb, p[..|p| - 1]), p[|p| - 1]).1
  }

  /** A partial linearization: distinct operations, in an order that keeps real time, accepted. */
  ghost predicate Path<S, I, O>(pb: Problem<S, I, O>, p: seq<nat>)
    requires Valid(pb)
  {
    && InRange(pb, p)
    && (p == [] ||
        var q, i := p[..|p| - 1], p[|p| - 1];
        Path(pb, q) && Minimal(pb, Elems(q), i) && Step(pb, StateOf(pb, q), i).0)
  }

  /** Some order of all the operations is a linearization. */
  ghost predicate Solvable<S, I, O>(pb: Problem<S, I, O>)
    requires Valid(pb)
  {
    exists p :: Path(pb, p) && |p| == pb.N()
  }

  /** A path without its last operation. */
  lemma PathStep<S, I, O>(pb: Problem<S, I, O>, p: seq<nat>)
    requires Valid(pb) && Path(pb, p)
    ensures InRange(pb, p) &&
            (p != [] ==> Path(pb, p[..|p| - 1]) && p[|p| - 1] < pb.N() && p[|p| - 1] !in Elems(p[..|p| - 1]))
  {}

  lemma {:induction false} PathDistinct<S, I, O>(pb: Problem<S, I, O>, p: seq<nat>)
    requires Valid(pb) && Path(pb, p)
    ensures |Elems(p)| == |p| <= pb.N()
    ensures forall i, j :: 0 <= i < j < |p| ==> p[i] != p[j]
  {
    PathStep(pb, p);
    hide Valid, Path;
    if p != [] {
      var q, i := p[..|p| - 1], p[|p| - 1];
      PathDistinct(pb, q);
      assert p == q + [i];
      DistinctPush(q, i);
    }
    BelowSize(Elems(p), pb.N());
  }

  lemma DistinctPush(q: seq<nat>, i: nat)
    requires i !in Elems(q) && |Elems(q)| == |q| && forall a, b :: 0 <= a < b < |q| ==> q[a] != q[b]
    ensures |Elems(q + [i])| == |q| + 1 && forall a, b :: 0 <= a < b <= |q| ==> (q + [i])[a] != (q + [i])[b]
  {
    assert Elems(q + [i]) == Elems(q) + {i};
    forall a, b | 0 <= a < b <= |q| ensures (q + [i])[a] != (q + [i])[b] {
      assert q[a] in Elems(q);
    }
  }

  lemma {:induction false} BelowSize(d: set<nat>, n: nat)
    requires forall x :: x in d ==> x < n
    ensures |d| <= n
    ensures |d| == n ==> forall x: nat :: x < n ==> x in d
  {
    if n > 0 {
      var e := d - {n - 1};
      BelowSize(e, n - 1);
      assert n - 1 in d ==> d == e + {n - 1};
      assert n - 1 !in d ==> d == e;
    } else {
      assert d == {};
    }
  }

  lemma {:induction false} PathPrefix<S, I, O>(pb: Problem<S, I, O>, p: seq<nat>, k: nat)
    requires Valid(pb) && Path(pb, p) && k <= |p|
    ensures Path(pb, p[..k])
  {
    if k < |p| {
      PathPrefix(pb, p[..|p| - 1], k);
      assert p[..|p| - 1][..k] == p[..k];
    } else {
      assert p[..k] == p;
    }
  }

  // ---- configurations ----

  type Config<S> = (set<nat>, S)

  /** A configuration for the same set, in a state equal to `s`, has been seen. */
  ghost predicate Covered<S(!new), I, O>(pb: Problem<S, I, O>, seen: set<Config<S>>, d: set<nat>, s: S) {
    exists t :: (d, t) in seen && pb.m.equal(s, t)
  }

  /** Operation `i` is no candidate in configuration `(d, s)`, or leads to one that is covered. */
  ghost predicate Tried<S(!new), I, O>(pb: Problem<S, I, O>, seen: set<Config<S>>, d: set<nat>, s: S, i: nat)
    requires Valid(pb)
  {
    Minimal(pb, d, i) && Step(pb, s, i).0 ==> Covered(pb, seen, d + {i}, Step(pb, s, i).1)
  }

  ghost predicate Exhausted<S(!new), I, O>(pb: Problem<S, I, O>, seen: set<Config<S>>, c: Config<S>)
    requires Valid(pb)
  {
    forall i :: 0 <= i < pb.N() ==> Tried(pb, seen, c.0, c.1, i)
  }

  /** Every entry before position `limit` is of an operation in `d`, or a call that was tried. */
  ghost predicate Scanned<S(!new), I, O>(pb: Problem<S, I, O>, seen: set<Config<S>>, d: set<nat>, s: S, limit: nat)
    requires Valid(pb) && limit <= |pb.h|
  {
    forall k :: 0 <= k < limit && pb.h[k].id !in d ==>
      EntryAt(pb, k) && !pb.h[k].isReturn && Tried(pb, seen, d, s, pb.h[k].id)
  }

  lemma TriedMonotone<S(!new), I, O>(pb: Problem<S, I, O>, seen: set<Config<S>>, more: set<Config<S>>, d: set<nat>,
      s: S, i: nat)
    requires Valid(pb) && seen <= more && Tried(pb, seen, d, s, i)
    ensures Tried(pb, more, d, s, i)
  {}

  lemma ExhaustedMonotone<S(!new), I, O>(pb: Problem<S, I, O>, seen: set<Config<S>>, more: set<Config<S>>, c: Config<S>)
    requires Valid(pb) && seen <= more && Exhausted(pb, seen, c)
    ensures Exhausted(pb, more, c)
  {
    forall i | 0 <= i < pb.N() ensures Tried(pb, more, c.0, c.1, i) {
      TriedMonotone(pb, seen, more, c.0, c.1, i);
    }
  }

  lemma ScannedMonotone<S(!new), I, O>(pb: Problem<S, I, O>, seen: set<Config<S>>, more: set<Config<S>>, d: set<nat>,
      s: S, limit: nat)
    requires Valid(pb) && limit <= |pb.h| && seen <= more && Scanned(pb, seen, d, s, limit)
    ensures Scanned(pb, more, d, s, limit)
  {
    forall k | 0 <= k < limit && pb.h[k].id !in d
      ensures EntryAt(pb, k) && !pb.h[k].isReturn && Tried(pb, more, d, s, pb.h[k].id)
    {
      TriedMonotone(pb, seen, more, d, s, pb.h[k].id);
    }
  }

  /** A call reached by a scan may come next. */
  lemma ScannedCallMinimal<S(!new), I, O>(pb: Problem<S, I, O>, seen: set<Config<S>>, d: set<nat>, s: S, k: nat)
    requires Valid(pb) && k < |pb.h| && Scanned(pb, seen, d, s, k)
    requires pb.h[k].id !in d && !pb.h[k].isReturn
    ensures EntryAt(pb, k) && Minimal(pb, d, pb.h[k].id)
  {
    assert EntryAt(pb, k);
    forall j | 0 <= j < pb.N() && j !in d ensures !(pb.rpos[j] < k) {
      assert OperationAt(pb, j);
    }
  }

  /** Once a scan reaches a return, every candidate of the configuration has been tried. */
  lemma ReturnExhausts<S(!new), I, O>(pb: Problem<S, I, O>, seen: set<Config<S>>, d: set<nat>, s: S, k: nat)
    requires Valid(pb) && k < |pb.h| && Scanned(pb, seen, d, s, k)
    requires pb.h[k].id !in d && pb.h[k].isReturn
    ensures Exhausted(pb, seen, (d, s))
  {
    assert EntryAt(pb, k);
    forall i | 0 <= i < pb.N() ensures Tried(pb, seen, d, s, i) {
      if Minimal(pb, d, i) {
        assert OperationAt(pb, i);
        assert pb.rpos[pb.h[k].id] == k;
        assert pb.cpos[i] < k;
        assert pb.h[pb.cpos[i]].id == i;
      }
    }
  }

  lemma EqualStep<S(!new), I(!new), O(!new)>(pb: Problem<S, I, O>, s: S, t: S, i: nat)
    requires Valid(pb) && EqualRespectsStep(pb.m) && i < pb.N() && pb.m.equal(s, t) && Step(pb, s, i).0
    ensures Step(pb, t, i).0 && pb.m.equal(Step(pb, s, i).1, Step(pb, t, i).1)
  {
    assert OperationAt(pb, i);
    var a, b := pb.h[pb.cpos[i]].value.input, pb.h[pb.rpos[i]].value.output;
    assert pb.m.step(s, a, b).0 == pb.m.step(t, a, b).0;
  }

  /**
   When the initial configuration and every configuration seen are exhausted, what has been
   seen covers every partial linearization.
   */
  lemma {:induction false} AllCovered<S(!new), I(!new), O(!new)>(pb: Problem<S, I, O>, seen: set<Config<S>>,
      p: seq<nat>)
    requires Valid(pb) && EqualRespectsStep(pb.m)
    requires Exhausted(pb, seen, ({}, pb.m.init))
    requires forall c :: c in seen ==> Exhausted(pb, seen, c)
    requires Path(pb, p) && p != []
    ensures Covered(pb, seen, Elems(p), StateOf(pb, p))
  {
    var q, i := p[..|p| - 1], p[|p| - 1];
    assert Elems(p) == Elems(q) + {i};
    if q == [] {
      assert Elems(q) == {};
      assert Tried(pb, seen, {}, pb.m.init, i);
    } else {
      AllCovered(pb, seen, q);
      var t :| (Elems(q), t) in seen && pb.m.equal(StateOf(pb, q), t);
      assert Exhausted(pb, seen, (Elems(q), t));
      assert Tried(pb, seen, Elems(q), t, i);
      EqualStep(pb, StateOf(pb, q), t, i);
      var u :| (Elems(p), u) in seen && pb.m.equal(Step(pb, t, i).1, u);
      assert pb.m.equal(StateOf(pb, p), u);
    }
  }

  // ---- a finite universe, for termination ----

  ghost function Successors<S(!new), I, O>(pb: Problem<S, I, O>, u: set<Config<S>>): set<Config<S>>
    requires Valid(pb)
  {
    set c, i | c in u && 0 <= i < pb.N() :: (c.0 + {i}, Step(pb, c.1, i).1)
  }

  lemma Successor<S(!new), I, O>(pb: Problem<S, I, O>, u: set<Config<S>>, d: set<nat>, s: S, i: nat)
    requires Valid(pb) && (d, s) in u && i < pb.N()
    ensures (d + {i}, Step(pb, s, i).1) in Successors(pb, u)
  {
    var c := (d, s);
    assert c in u && (c.0 + {i}, Step(pb, c.1, i).1) == (d + {i}, Step(pb, s, i).1);
  }

  ghost predicate HoldsAll<S(!new), I, O>(pb: Problem<S, I, O>, all: set<Config<S>>)
    requires Valid(pb)
  {
    forall p :: Path(pb, p) ==> (Elems(p), StateOf(pb, p)) in all
  }

  ghost predicate HoldsPaths<S(!new), I, O>(pb: Problem<S, I, O>, u: set<Config<S>>, k: nat)
    requires Valid(pb)
  {
    forall p :: Path(pb, p) && |p| <= k ==> (Elems(p), StateOf(pb, p)) in u
  }

  lemma {:induction false} Reachable<S(!new), I, O>(pb: Problem<S, I, O>, k: nat) returns (u: set<Config<S>>)
    requires Valid(pb)
    ensures HoldsPaths(pb, u, k)
  {
    var first: Config<S> := ({}, pb.m.init);
    if k == 0 {
      u := {first};
      assert Elems([]) == {};
    } else {
      var v := Reachable(pb, k - 1);
      u := {first} + Successors(pb, v);
      forall p | Path(pb, p) && |p| <= k ensures (Elems(p), StateOf(pb, p)) in u {
        if p == [] {
          assert Elems(p) == {};
        } else {
          var q, i := p[..|p| - 1], p[|p| - 1];
          assert Elems(p) == Elems(q) + {i};
          Successor(pb, v, Elems(q), StateOf(pb, q), i);
        }
      }
    }
  }

  /** Finitely many configurations are reachable. */
  lemma FiniteUniverse<S(!new), I, O>(pb: Problem<S, I, O>) returns (u: set<Config<S>>)
    requires Valid(pb)
    ensures HoldsAll(pb, u)
  {
    u := Reachable(pb, pb.N());
    forall p | Path(pb, p) ensures (Elems(p), StateOf(pb, p)) in u {
      PathDistinct(pb, p);
    }
  }

  // ---- what the depth-first search keeps ----

  ghost function ConfigAt<S, I, O>(pb: Problem<S, I, O>, p: seq<nat>, d: nat): Config<S>
    requires Valid(pb) && InRange(pb, p) && d <= |p|
  {
    (Elems(p[..d]), StateOf(pb, p[..d]))
  }

  ghost predicate OnStack<S, I, O>(pb: Problem<S, I, O>, p: seq<nat>, c: Config<S>)
    requires Valid(pb) && InRange(pb, p)
  {
    exists d :: 1 <= d <= |p| && c == ConfigAt(pb, p, d)
  }

  /** Level `d` of the stack has tried every entry before the call it is at. */
  ghost predicate LevelScanned<S(!new), I, O>(pb: Problem<S, I, O>, p: seq<nat>, seen: set<Config<S>>, d: nat)
    requires Valid(pb) && InRange(pb, p) && d < |p|
  {
    && OperationAt(pb, p[d])
    && Scanned(pb, seen, ConfigAt(pb, p, d).0, ConfigAt(pb, p, d).1, pb.cpos[p[d]])
  }

  /**
   The search stands at partial linearization `p`, with the entries before `cur` scanned.
   Every configuration seen is on the stack or exhausted.
   */
  ghost predicate Searching<S(!new), I, O>(pb: Problem<S, I, O>, p: seq<nat>, seen: set<Config<S>>, cur: nat)
    requires Valid(pb)
  {
    && Path(pb, p) && cur <= |pb.h|
    && SeenOnStackOrExhausted(pb, p, seen)
    && StackSeen(pb, p, seen)
    && StackScanned(pb, p, seen)
    && Scanned(pb, seen, Elems(p), StateOf(pb, p), cur)
    && (forall c :: c in seen && |c.0| == pb.N() ==> |p| == pb.N())
  }

  ghost predicate SeenOnStackOrExhausted<S(!new), I, O>(pb: Problem<S, I, O>, p: seq<nat>, seen: set<Config<S>>)
    requires Valid(pb) && InRange(pb, p)
  {
    forall c :: c in seen ==> OnStack(pb, p, c) || Exhausted(pb, seen, c)
  }

  ghost predicate StackSeen<S(!new), I, O>(pb: Problem<S, I, O>, p: seq<nat>, seen: set<Config<S>>)
    requires Valid(pb) && InRange(pb, p)
  {
    forall d :: 1 <= d <= |p| ==> ConfigAt(pb, p, d) in seen
  }

  ghost predicate StackScanned<S(!new), I, O>(pb: Problem<S, I, O>, p: seq<nat>, seen: set<Config<S>>)
    requires Valid(pb) && InRange(pb, p)
  {
    forall d :: 0 <= d < |p| ==> LevelScanned(pb, p, seen, d)
  }

  ghost predicate NoneLeft<S, I, O>(pb: Problem<S, I, O>, d: set<nat>, lo: nat, hi: nat) {
    forall k :: lo <= k < hi && k < |pb.h| ==> pb.h[k].id in d
  }

  lemma ScanOn<S(!new), I, O>(pb: Problem<S, I, O>, seen: set<Config<S>>, d: set<nat>, s: S, cur: nat, next: nat)
    requires Valid(pb) && cur < next <= |pb.h| && Scanned(pb, seen, d, s, cur)
    requires pb.h[cur].id !in d && !pb.h[cur].isReturn
    requires 0 <= pb.h[cur].id && Tried(pb, seen, d, s, pb.h[cur].id)
    requires NoneLeft(pb, d, cur + 1, next)
    ensures Scanned(pb, seen, d, s, next)
  {
    assert EntryAt(pb, cur);
  }

  /** Going on to the next entry, once the call at the cursor has been tried. */
  lemma Skip<S(!new), I, O>(pb: Problem<S, I, O>, p: seq<nat>, seen: set<Config<S>>, cur: nat, next: nat)
    requires Valid(pb) && Searching(pb, p, seen, cur) && cur < next <= |pb.h|
    requires pb.h[cur].id !in Elems(p) && !pb.h[cur].isReturn
    requires 0 <= pb.h[cur].id && Tried(pb, seen, Elems(p), StateOf(pb, p), pb.h[cur].id)
    requires NoneLeft(pb, Elems(p), cur + 1, next)
    ensures Searching(pb, p, seen, next)
  {
    ScanOn(pb, seen, Elems(p), StateOf(pb, p), cur, next);
  }

  lemma PushPath<S(!new), I, O>(pb: Problem<S, I, O>, p: seq<nat>, seen: set<Config<S>>, cur: nat)
    requires Valid(pb) && Searching(pb, p, seen, cur) && cur < |pb.h|
    requires pb.h[cur].id !in Elems(p) && !pb.h[cur].isReturn
    requires EntryAt(pb, cur) && Step(pb, StateOf(pb, p), pb.h[cur].id).0
    ensures Path(pb, p + [pb.h[cur].id])
    ensures Elems(p + [pb.h[cur].id]) == Elems(p) + {pb.h[cur].id}
    ensures StateOf(pb, p + [pb.h[cur].id]) == Step(pb, StateOf(pb, p), pb.h[cur].id).1
  {
    var p' := p + [pb.h[cur].id];
    assert p'[..|p'| - 1] == p;
    ScannedCallMinimal(pb, seen, Elems(p), StateOf(pb, p), cur);
  }

  lemma ConfigAtPrefix<S, I, O>(pb: Problem<S, I, O>, p: seq<nat>, i: nat, d: nat)
    requires Valid(pb) && InRange(pb, p) && i < pb.N() && d <= |p|
    ensures InRange(pb, p + [i]) && ConfigAt(pb, p + [i], d) == ConfigAt(pb, p, d)
  {
    assert (p + [i])[..d] == p[..d];
  }

  lemma PushExhausted<S(!new), I, O>(pb: Problem<S, I, O>, p: seq<nat>, seen: set<Config<S>>, i: nat)
    requires Valid(pb) && InRange(pb, p + [i]) && InRange(pb, p) && SeenOnStackOrExhausted(pb, p, seen)
    ensures SeenOnStackOrExhausted(pb, p + [i], seen + {ConfigAt(pb, p + [i], |p| + 1)})
  {
    var p', c := p + [i], ConfigAt(pb, p + [i], |p| + 1);
    assert p'[|p|] == i;
    forall x | x in seen + {c} ensures OnStack(pb, p', x) || Exhausted(pb, seen + {c}, x) {
      if x != c {
        if OnStack(pb, p, x) {
          var d :| 1 <= d <= |p| && x == ConfigAt(pb, p, d);
          ConfigAtPrefix(pb, p, i, d);
        } else {
          ExhaustedMonotone(pb, seen, seen + {c}, x);
        }
      }
    }
  }

  lemma PushScanned<S(!new), I, O>(pb: Problem<S, I, O>, p: seq<nat>, seen: set<Config<S>>, more: set<Config<S>>,
      i: nat)
    requires Valid(pb) && InRange(pb, p) && i < pb.N() && seen <= more && StackScanned(pb, p, seen)
    requires OperationAt(pb, i) && Scanned(pb, seen, Elems(p), StateOf(pb, p), pb.cpos[i])
    ensures InRange(pb, p + [i]) && StackScanned(pb, p + [i], more)
  {
    var p' := p + [i];
    forall d | 0 <= d < |p'| ensures LevelScanned(pb, p', more, d) {
      ConfigAtPrefix(pb, p, i, d);
      if d < |p| {
        assert LevelScanned(pb, p, seen, d);
        ScannedMonotone(pb, seen, more, ConfigAt(pb, p, d).0, ConfigAt(pb, p, d).1, pb.cpos[p[d]]);
      } else {
        assert p[..d] == p;
        ScannedMonotone(pb, seen, more, Elems(p), StateOf(pb, p), pb.cpos[i]);
      }
    }
  }

  lemma PushSeen<S(!new), I, O>(pb: Problem<S, I, O>, p: seq<nat>, seen: set<Config<S>>, i: nat)
    requires Valid(pb) && InRange(pb, p) && InRange(pb, p + [i]) && StackSeen(pb, p, seen)
    ensures StackSeen(pb, p + [i], seen + {ConfigAt(pb, p + [i], |p| + 1)})
  {
    assert (p + [i])[|p|] == i;
    forall d | 1 <= d <= |p| ensures ConfigAt(pb, p + [i], d) in seen {
      ConfigAtPrefix(pb, p, i, d);
    }
  }

  /** Taking the call at the cursor, in a configuration that is not covered yet. */
  lemma Push<S(!new), I, O>(pb: Problem<S, I, O>, p: seq<nat>, seen: set<Config<S>>, cur: nat, next: nat)
    requires Valid(pb) && Searching(pb, p, seen, cur) && cur < |pb.h| && next <= |pb.h|
    requires pb.h[cur].id !in Elems(p) && !pb.h[cur].isReturn && |p| < pb.N()
    requires EntryAt(pb, cur) && Step(pb, StateOf(pb, p), pb.h[cur].id).0
    requires NoneLeft(pb, Elems(p) + {pb.h[cur].id as nat}, 0, next)
    ensures var i: nat := pb.h[cur].id;
            Searching(pb, p + [i], seen + {(Elems(p) + {i}, Step(pb, StateOf(pb, p), i).1)}, next)
  {
    var i: nat := pb.h[cur].id;
    var p', c := p + [i], (Elems(p) + {i}, Step(pb, StateOf(pb, p), i).1);
    PushPath(pb, p, seen, cur);
    assert p'[..|p| + 1] == p' && c == ConfigAt(pb, p', |p| + 1);
    PushExhausted(pb, p, seen, i);
    PushSeen(pb, p, seen, i);
    assert OperationAt(pb, i);
    PushScanned(pb, p, seen, seen + {c}, i);
    PathDistinct(pb, p');
  }

  lemma PopStack<S(!new), I, O>(pb: Problem<S, I, O>, q: seq<nat>, i: nat, seen: set<Config<S>>)
    requires Valid(pb) && InRange(pb, q) && InRange(pb, q + [i])
    requires SeenOnStackOrExhausted(pb, q + [i], seen) && StackSeen(pb, q + [i], seen) &&
             StackScanned(pb, q + [i], seen)
    requires Exhausted(pb, seen, ConfigAt(pb, q + [i], |q| + 1))
    ensures SeenOnStackOrExhausted(pb, q, seen) && StackSeen(pb, q, seen) && StackScanned(pb, q, seen)
  {
    var p := q + [i];
    assert p[|q|] == i;
    forall x | x in seen ensures OnStack(pb, q, x) || Exhausted(pb, seen, x) {
      if OnStack(pb, p, x) {
        var d :| 1 <= d <= |p| && x == ConfigAt(pb, p, d);
        if d <= |q| {
          ConfigAtPrefix(pb, q, i, d);
        }
      }
    }
    forall d | 1 <= d <= |q| ensures ConfigAt(pb, q, d) in seen {
      ConfigAtPrefix(pb, q, i, d);
    }
    forall d | 0 <= d < |q| ensures LevelScanned(pb, q, seen, d) {
      ConfigAtPrefix(pb, q, i, d);
      assert LevelScanned(pb, p, seen, d);
    }
  }

  /** The call given up has been tried at the level below: it led to the level given up. */
  lemma PopTried<S(!new), I(!new), O(!new)>(pb: Problem<S, I, O>, q: seq<nat>, i: nat, seen: set<Config<S>>)
    requires Valid(pb) && Path(pb, q) && Path(pb, q + [i]) && EqualRespectsStep(pb.m)
    requires ConfigAt(pb, q + [i], |q| + 1) in seen
    ensures Tried(pb, seen, Elems(q), StateOf(pb, q), i)
    ensures ConfigAt(pb, q + [i], |q| + 1) == (Elems(q + [i]), StateOf(pb, q + [i]))
  {
    var p := q + [i];
    assert p[..|q| + 1] == p && p[..|p| - 1] == q;
    assert Elems(p) == Elems(q) + {i};
    assert (Elems(q) + {i}, StateOf(pb, p)) in seen && pb.m.equal(StateOf(pb, p), StateOf(pb, p));
  }

  /** Giving up the top of the stack, once the scan has reached a return. */
  lemma Pop<S(!new), I(!new), O(!new)>(pb: Problem<S, I, O>, q: seq<nat>, i: nat, seen: set<Config<S>>, cur: nat,
      next: nat)
    requires Valid(pb) && Searching(pb, q + [i], seen, cur) && EqualRespectsStep(pb.m)
    requires |q + [i]| < pb.N() && cur < |pb.h| && pb.h[cur].id !in Elems(q + [i]) && pb.h[cur].isReturn
    requires i < pb.N() && pb.cpos[i] < next <= |pb.h| && NoneLeft(pb, Elems(q), pb.cpos[i] + 1, next)
    ensures Searching(pb, q, seen, next)
  {
    var p := q + [i];
    assert p[..|p| - 1] == q && p[|q|] == i;
    PopTried(pb, q, i, seen);
    ReturnExhausts(pb, seen, Elems(p), StateOf(pb, p), cur);
    assert LevelScanned(pb, p, seen, |q|) && p[..|q|] == q;
    PopStack(pb, q, i, seen);
    ScanOn(pb, seen, Elems(q), StateOf(pb, q), pb.cpos[i], next);
  }

  /** With an empty stack and a return at the cursor, everything reachable has been covered. */
  lemma Failed<S(!new), I(!new), O(!new)>(pb: Problem<S, I, O>, seen: set<Config<S>>, cur: nat, p: seq<nat>)
    requires Valid(pb) && Searching(pb, [], seen, cur) && EqualRespectsStep(pb.m)
    requires cur < |pb.h| && pb.h[cur].isReturn
    requires Path(pb, p)
    ensures p != [] ==> Covered(pb, seen, Elems(p), StateOf(pb, p))
    ensures |p| < pb.N()
  {
    assert Elems([]) == {};
    ReturnExhausts(pb, seen, {}, pb.m.init, cur);
    PathDistinct(pb, p);
    if p != [] {
      AllCovered(pb, seen, p);
      var t :| (Elems(p), t) in seen && pb.m.equal(StateOf(pb, p), t);
      assert |(Elems(p), t).0| == |p|;
    }
  }
}
