module Entries {
  // makeEntries (src/porcupine/checker.go:29-60): a history as a time-ordered list of calls and
  // returns, and the proof that linearizing the entries is linearizing the history.

  import opened Histories
  import opened Search
  import opened Sorting

  /** byTime.Less: at one time, calls come before returns. */
  predicate Less<I, O>(a: Entry<I, O>, b: Entry<I, O>) {
    if a.time != b.time then a.time < b.time else !a.isReturn && b.isReturn
  }

  function CallOf<I, O>(op: Operation<I, O>, id: nat): Entry<I, O> {
    Entry(false, Input(op.input), id, op.call, op.clientId)
  }

  function ReturnOf<I, O>(op: Operation<I, O>, id: nat): Entry<I, O> {
    Entry(true, Output(op.output), id, op.ret, op.clientId)
  }

  /** The entries before they are sorted. */
  ghost function Raw<I, O>(history: seq<Operation<I, O>>): seq<Entry<I, O>> {
    if history == [] then []
    else
      var k := |history| - 1;
      Raw(history[..k]) + [CallOf(history[k], k), ReturnOf(history[k], k)]
  }

  method MakeEntries<I(!new, ==), O(!new, ==)>(history: seq<Operation<I, O>>) returns (entries: seq<Entry<I, O>>)
    ensures SortOf(entries, Raw(history), Less)
  {
    var raw: seq<Entry<I, O>> := [];
    for id := 0 to |history|
      invariant raw == Raw(history[..id])
    {
      var elem := history[id];
      assert history[..id + 1][..id] == history[..id];
      raw := raw + [CallOf(elem, id)];
      raw := raw + [ReturnOf(elem, id)];
    }
    assert history[..|history|] == history;
    SortExists(raw, Less);
    entries :| SortOf(entries, raw, Less);
  }

  // ---- where the entries of an operation are ----

  lemma {:induction false} InRaw<I, O>(history: seq<Operation<I, O>>, e: Entry<I, O>)
    ensures e in Raw(history) <==>
            0 <= e.id < |history| && (e == CallOf(history[e.id], e.id) || e == ReturnOf(history[e.id], e.id))
    ensures multiset(Raw(history))[e] <= 1
    ensures |Raw(history)| == 2 * |history|
  {
    if history != [] {
      var k := |history| - 1;
      InRaw(history[..k], e);
      assert multiset(Raw(history)) == multiset(Raw(history[..k])) +
          multiset{CallOf(history[k], k), ReturnOf(history[k], k)};
    }
  }

  lemma SortedInRaw<I, O>(history: seq<Operation<I, O>>, h: seq<Entry<I, O>>)
    requires multiset(h) == multiset(Raw(history))
    ensures |h| == 2 * |history|
    ensures forall e :: e in h <==> e in Raw(history)
    ensures forall i, j :: 0 <= i < j < |h| ==> h[i] != h[j]
  {
    assert |multiset(h)| == |h| && |multiset(Raw(history))| == |Raw(history)|;
    InRaw(history, Entry(false, Nil, 0, 0, 0));
    forall e ensures e in h <==> e in Raw(history) {
      assert e in h <==> e in multiset(h);
      assert e in Raw(history) <==> e in multiset(Raw(history));
    }
    forall i, j | 0 <= i < j < |h| ensures h[i] != h[j] {
      if h[i] == h[j] {
        TwiceIn(h, i, j);
        InRaw(history, h[i]);
      }
    }
  }

  ghost function Position<T>(s: seq<T>, e: T): (k: nat)
    requires e in s
    ensures k < |s| && s[k] == e
  {
    var k :| 0 <= k < |s| && s[k] == e;
    k
  }

  /** `pb` is the search problem of the history: its entries, with where each operation's are. */
  ghost predicate ProblemOf<S, I, O>(pb: Problem<S, I, O>, m: Model<S, I, O>, history: seq<Operation<I, O>>) {
    && pb.m == m && Valid(pb) && pb.N() == |history|
    && (forall i {:trigger EntriesAt(pb, history, i)} :: 0 <= i < |history| ==> EntriesAt(pb, history, i))
    && (forall i, j {:trigger pb.rpos[i], pb.cpos[j]} :: 0 <= i < |history| && 0 <= j < |history| ==>
          (pb.rpos[i] < pb.cpos[j] <==> history[i].ret < history[j].call))
  }

  ghost predicate EntriesAt<S, I, O>(pb: Problem<S, I, O>, history: seq<Operation<I, O>>, i: nat)
    requires Valid(pb) && pb.N() == |history| && i < |history|
  {
    OperationAt(pb, i) && pb.h[pb.cpos[i]] == CallOf(history[i], i) && pb.h[pb.rpos[i]] == ReturnOf(history[i], i)
  }

  lemma Ordered<I, O>(h: seq<Entry<I, O>>, i: nat, j: nat)
    requires InOrder(h, Less) && i < |h| && j < |h| && Less(h[i], h[j])
    ensures i < j
  {
    assert !Less(h[i], h[i]);
  }

  /** Sorted entries put a return before a call exactly when it happened strictly earlier. */
  lemma EntriesProblem<S, I, O>(m: Model<S, I, O>, history: seq<Operation<I, O>>, h: seq<Entry<I, O>>)
      returns (pb: Problem<S, I, O>)
    requires Complete(history) && SortOf(h, Raw(history), Less)
    ensures ProblemOf(pb, m, history) && pb.h == h
  {
    hide Raw;
    SortedInRaw(history, h);
    forall i | 0 <= i < |history| ensures CallOf(history[i], i) in h && ReturnOf(history[i], i) in h {
      InRaw(history, CallOf(history[i], i));
      InRaw(history, ReturnOf(history[i], i));
    }
    var cpos := seq(|history|, i requires 0 <= i < |history| => Position(h, CallOf(history[i], i)));
    var rpos := seq(|history|, i requires 0 <= i < |history| => Position(h, ReturnOf(history[i], i)));
    pb := Problem(m, h, cpos, rpos);
    forall i | 0 <= i < |history| ensures OperationAt(pb, i) {
      Ordered(h, cpos[i], rpos[i]);
    }
    forall k | 0 <= k < |h| ensures EntryAt(pb, k) {
      assert h[k] in h;
      InRaw(history, h[k]);
    }
    assert Valid(pb);
    forall i, j | 0 <= i < |history| && 0 <= j < |history|
      ensures rpos[i] < cpos[j] <==> history[i].ret < history[j].call
    {
      if history[i].ret < history[j].call {
        Ordered(h, rpos[i], cpos[j]);
      } else {
        Ordered(h, cpos[j], rpos[i]);
      }
    }
    forall i | 0 <= i < |history| ensures EntriesAt(pb, history, i) {}
  }

  // ---- linearizing the entries is linearizing the history ----

  ghost function OpsOf<I, O>(history: seq<Operation<I, O>>, p: seq<nat>): seq<Operation<I, O>>
    requires forall k :: 0 <= k < |p| ==> p[k] < |history|
  {
    seq(|p|, k requires 0 <= k < |p| => history[p[k]])
  }

  /** Replaying operation numbers in the search is replaying the operations in the model. */
  lemma {:induction false} SameRun<S, I, O>(pb: Problem<S, I, O>, m: Model<S, I, O>, history: seq<Operation<I, O>>,
      p: seq<nat>)
    requires ProblemOf(pb, m, history) && InRange(pb, p)
    ensures Run(m, OpsOf(history, p)) == StateOf(pb, p)
  {
    if p != [] {
      var q, i := p[..|p| - 1], p[|p| - 1];
      SameRun(pb, m, history, q);
      assert OpsOf(history, p)[..|p| - 1] == OpsOf(history, q);
      assert EntriesAt(pb, history, i);
    }
  }

  lemma {:induction false} SameAccepts<S, I, O>(pb: Problem<S, I, O>, m: Model<S, I, O>, history: seq<Operation<I, O>>,
      p: seq<nat>)
    requires ProblemOf(pb, m, history) && InRange(pb, p)
    ensures Path(pb, p) ==> Accepts(m, OpsOf(history, p))
    ensures Accepts(m, OpsOf(history, p)) && (forall k :: 0 <= k < |p| ==> Minimal(pb, Elems(p[..k]), p[k])) ==>
            Path(pb, p)
  {
    if p != [] {
      var q, i := p[..|p| - 1], p[|p| - 1];
      SameAccepts(pb, m, history, q);
      SameRun(pb, m, history, q);
      assert OpsOf(history, p)[..|p| - 1] == OpsOf(history, q);
      assert EntriesAt(pb, history, i);
      assert forall k :: 0 <= k < |q| ==> q[..k] == p[..k] && q[k] == p[k];
    }
  }

  lemma {:induction false} MinimalInPath<S, I, O>(pb: Problem<S, I, O>, p: seq<nat>, k: nat)
    requires Valid(pb) && Path(pb, p) && k < |p|
    ensures Minimal(pb, Elems(p[..k]), p[k])
  {
    PathPrefix(pb, p, k + 1);
    assert p[..k + 1][..k] == p[..k];
  }

  ghost predicate Permutation(p: seq<nat>, n: nat) {
    |p| == n && (forall k :: 0 <= k < n ==> p[k] < n) && (forall i, j :: 0 <= i < j < n ==> p[i] != p[j])
  }

  lemma RemoveIndex<T>(s: seq<T>, i: nat)
    requires i < |s|
    ensures multiset(s[..i] + s[i + 1..]) == multiset(s) - multiset{s[i]}
  {
    assert s == s[..i] + [s[i]] + s[i + 1..];
  }

  /** Indices into `s` without its element `i`, as indices into `s`, with `i` at the end. */
  ghost function Reindex(p: seq<nat>, i: nat): seq<nat> {
    seq(|p|, k requires 0 <= k < |p| => if p[k] < i then p[k] else p[k] + 1) + [i]
  }

  lemma ReindexPermutation(p: seq<nat>, i: nat, n: nat)
    requires Permutation(p, n) && i <= n
    ensures Permutation(Reindex(p, i), n + 1)
  {
    var r := Reindex(p, i);
    forall a, b | 0 <= a < b < n + 1 ensures r[a] != r[b] {
      if b < n {
        assert p[a] != p[b];
      }
    }
  }

  /** Two sequences with the same elements are rearrangements of each other. */
  lemma {:induction false} Rearrangement<T>(s: seq<T>, q: seq<T>) returns (p: seq<nat>)
    requires multiset(s) == multiset(q)
    ensures Permutation(p, |s|) && |q| == |s| && forall k :: 0 <= k < |s| ==> q[k] == s[p[k]]
  {
    hide Permutation;
    assert |multiset(s)| == |s| && |multiset(q)| == |q|;
    if q == [] {
      p := [];
      EmptyPermutation();
    } else {
      var n := |q| - 1;
      assert q == q[..n] + [q[n]];
      assert q[n] in multiset(s);
      var i :| 0 <= i < |s| && s[i] == q[n];
      var s' := s[..i] + s[i + 1..];
      RemoveIndex(s, i);
      var p' := Rearrangement(s', q[..n]);
      p := Reindex(p', i);
      ReindexPermutation(p', i, n);
      PermutationSize(p', n);
      PermutationSize(p, n + 1);
      ReindexElements(s, i, p', q);
    }
  }

  lemma ReindexElements<T>(s: seq<T>, i: nat, p: seq<nat>, q: seq<T>)
    requires i < |s| == |q| == |p| + 1 && q[|p|] == s[i] && forall k :: 0 <= k < |p| ==>
             p[k] < |p| && q[..|p|][k] == (s[..i] + s[i + 1..])[p[k]]
    ensures forall k :: 0 <= k < |s| ==> Reindex(p, i)[k] < |s| && q[k] == s[Reindex(p, i)[k]]
  {
    forall k | 0 <= k < |p| ensures q[k] == s[Reindex(p, i)[k]] {
      assert q[..|p|][k] == q[k];
    }
  }

  lemma EmptyPermutation()
    ensures Permutation([], 0)
  {}

  lemma PermutationSize(p: seq<nat>, n: nat)
    requires Permutation(p, n)
    ensures |p| == n && forall k :: 0 <= k < n ==> p[k] < n
  {}

  /** Without the last index, and the index it stands for. */
  lemma Squeeze(p: seq<nat>, n: nat) returns (p': seq<nat>)
    requires Permutation(p, n + 1)
    ensures Permutation(p', n) && forall k {:trigger p'[k]} :: 0 <= k < n ==>
            p[k] != p[n] && p'[k] == if p[k] < p[n] then p[k] else p[k] - 1
  {
    var i := p[n];
    assert forall k :: 0 <= k < n ==> p[k] != p[n];
    p' := seq(n, k requires 0 <= k < n => if p[k] < i then p[k] else p[k] - 1);
    forall a, b | 0 <= a < b < n ensures p'[a] != p'[b] {
      assert p[a] != p[b];
    }
  }

  /** A permutation of the indices rearranges the elements. */
  lemma {:induction false} PermutationElements<T>(s: seq<T>, p: seq<nat>, q: seq<T>)
    requires Permutation(p, |s|) && |q| == |s| && forall k :: 0 <= k < |s| ==> q[k] == s[p[k]]
    ensures multiset(q) == multiset(s)
  {
    if s == [] {
      assert q == [];
    } else {
      var n := |s| - 1;
      var i := p[n];
      var s', q' := s[..i] + s[i + 1..], q[..n];
      RemoveIndex(s, i);
      var p' := Squeeze(p, n);
      forall k | 0 <= k < n ensures q'[k] == s'[p'[k]] {
        assert p[k] != i;
      }
      PermutationElements(s', p', q');
      assert q == q' + [q[n]];
    }
  }

  lemma SolvedIsLinearizable<S, I(!new), O(!new)>(pb: Problem<S, I, O>, m: Model<S, I, O>,
      history: seq<Operation<I, O>>, p: seq<nat>)
    requires ProblemOf(pb, m, history) && Path(pb, p) && |p| == pb.N()
    ensures Linearization(m, multiset(history), OpsOf(history, p))
  {
    PathDistinct(pb, p);
    var q := OpsOf(history, p);
    PermutationElements(history, p, q);
    SameAccepts(pb, m, history, p);
    forall a, b | 0 <= a < b < |q| ensures !(q[b].ret < q[a].call) {
      MinimalInPath(pb, p, a);
      assert p[b] !in Elems(p[..a]);
      assert !(pb.rpos[p[b]] < pb.cpos[p[a]]);
    }
  }

  lemma InPrefix(p: seq<nat>, a: nat, b: nat)
    requires a <= |p|
    ensures b < a ==> p[b] in Elems(p[..a])
  {
    assert b < a ==> p[..a][b] == p[b];
  }

  lemma LinearizableIsSolved<S, I(!new), O(!new)>(pb: Problem<S, I, O>, m: Model<S, I, O>,
      history: seq<Operation<I, O>>, q: seq<Operation<I, O>>)
    requires ProblemOf(pb, m, history) && Linearization(m, multiset(history), q)
    ensures Solvable(pb)
  {
    var p := Rearrangement(history, q);
    assert q == OpsOf(history, p);
    forall a | 0 <= a < |p| ensures Minimal(pb, Elems(p[..a]), p[a]) {
      forall k | 0 <= k < pb.N() && k !in Elems(p[..a]) ensures !(pb.rpos[k] < pb.cpos[p[a]]) {
        var b := Onto(p, |history|, k);
        assert q[b] == history[k] && q[a] == history[p[a]];
        InPrefix(p, a, b);
        if b < a {
          assert false;
        } else if b == a {
          assert OperationAt(pb, k);
        }
      }
    }
    SameAccepts(pb, m, history, p);
  }

  lemma Onto(p: seq<nat>, n: nat, x: nat) returns (k: nat)
    requires Permutation(p, n) && x < n
    ensures k < n && p[k] == x
  {
    DistinctSize(p);
    BelowSize(Elems(p), n);
    assert x in Elems(p);
    k :| 0 <= k < n && p[k] == x;
  }

  lemma {:induction false} DistinctSize(p: seq<nat>)
    requires forall i, j :: 0 <= i < j < |p| ==> p[i] != p[j]
    ensures |Elems(p)| == |p|
  {
    if p != [] {
      var q := p[..|p| - 1];
      DistinctSize(q);
      assert Elems(p) == Elems(q) + {p[|p| - 1]};
    }
  }

  /** The search problem of a history has a solution exactly when the history is linearizable. */
  lemma SolvableIffLinearizable<S, I(!new), O(!new)>(pb: Problem<S, I, O>, m: Model<S, I, O>,
      history: seq<Operation<I, O>>)
    requires ProblemOf(pb, m, history)
    ensures Solvable(pb) <==> Linearizable(m, multiset(history))
  {
    if p :| Path(pb, p) && |p| == pb.N() {
      SolvedIsLinearizable(pb, m, history, p);
    }
    if q :| Linearization(m, multiset(history), q) {
      LinearizableIsSolved(pb, m, history, q);
    }
  }
}
