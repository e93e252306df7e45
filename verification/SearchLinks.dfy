/**
 The linked entries during a search: whatever partial linearization the search stands at, the
 list holds exactly the entries of the operations not linearized, in their original order.
 */
module SearchLinks {
  import opened LinkedEntries
  import opened Search

  ghost predicate IsLive<S, I, O>(pb: Problem<S, I, O>, d: set<nat>, j: nat) {
    j == 0 || (j <= |pb.h| && pb.h[j - 1].id !in d)
  }

  /** The position of the head node, and of the entries of the operations outside `d`. */
  ghost function Live<S, I, O>(pb: Problem<S, I, O>, d: set<nat>): set<nat> {
    set j | j in Upto(|pb.h| + 1) && IsLive(pb, d, j)
  }

  /** The links once the operations of `p` have been lifted, one after the other. */
  ghost function LinksAt<S, I, O>(pb: Problem<S, I, O>, p: seq<nat>): Links
    requires Valid(pb) && InRange(pb, p)
  {
    if p == [] then InARow(|pb.h| + 1)
    else
      var i := p[|p| - 1];
      LiftLinks(LinksAt(pb, p[..|p| - 1]), pb.cpos[i] + 1, pb.rpos[i] + 1)
  }

  lemma LiveAll<S, I, O>(pb: Problem<S, I, O>)
    ensures Live(pb, {}) == Upto(|pb.h| + 1)
  {}

  lemma LiveWithout<S, I, O>(pb: Problem<S, I, O>, d: set<nat>, i: nat)
    requires Valid(pb) && i < pb.N() && i !in d
    ensures pb.cpos[i] + 1 in Live(pb, d) && pb.rpos[i] + 1 in Live(pb, d) && pb.cpos[i] < pb.rpos[i]
    ensures Live(pb, d + {i}) == Live(pb, d) - {pb.cpos[i] + 1, pb.rpos[i] + 1}
  {
    assert OperationAt(pb, i);
    var a, b := pb.cpos[i] + 1, pb.rpos[i] + 1;
    assert IsLive(pb, d, a) && IsLive(pb, d, b);
    forall j: nat ensures j in Live(pb, d + {i}) <==> j in Live(pb, d) - {a, b} {
      if 0 < j <= |pb.h| {
        assert EntryAt(pb, j - 1);
      }
      assert IsLive(pb, d + {i}, j) <==> IsLive(pb, d, j) && j != a && j != b;
    }
  }

  lemma CoherentStep(lk: Links, x: set<nat>, y: set<nat>, a: nat, b: nat)
    requires Coherent(lk, x) && a in x && b in x && 0 < a < b && y == x - {a, b}
    ensures |LiftLinks(lk, a, b).nx| == |lk.nx| && Coherent(LiftLinks(lk, a, b), y)
  {
    LiftCoherent(lk, x, a, b);
  }

  lemma CoherentStart<S, I, O>(pb: Problem<S, I, O>)
    ensures |InARow(|pb.h| + 1).nx| == |pb.h| + 1 && Coherent(InARow(|pb.h| + 1), Live(pb, Elems([])))
  {
    InARowCoherent(|pb.h| + 1);
    LiveAll(pb);
    assert Elems([]) == {};
  }

  lemma CoherentNext<S, I, O>(pb: Problem<S, I, O>, lk: Links, q: seq<nat>, i: nat)
    requires Valid(pb) && i < pb.N() && i !in Elems(q)
    requires |lk.nx| == |pb.h| + 1 && Coherent(lk, Live(pb, Elems(q)))
    ensures var next := LiftLinks(lk, pb.cpos[i] + 1, pb.rpos[i] + 1);
            |next.nx| == |pb.h| + 1 && Coherent(next, Live(pb, Elems(q + [i])))
  {
    LiveWithout(pb, Elems(q), i);
    assert Elems(q + [i]) == Elems(q) + {i};
    CoherentStep(lk, Live(pb, Elems(q)), Live(pb, Elems(q + [i])), pb.cpos[i] + 1, pb.rpos[i] + 1);
  }

  /** Through the whole search the list is well formed and holds exactly what is left. */
  lemma {:induction false} LinksAtCoherent<S, I, O>(pb: Problem<S, I, O>, p: seq<nat>)
    requires Valid(pb) && Path(pb, p)
    ensures |LinksAt(pb, p).nx| == |pb.h| + 1 && Coherent(LinksAt(pb, p), Live(pb, Elems(p)))
  {
    hide Coherent, Live, LiftLinks, InARow, Path, Valid, Elems;
    PathStep(pb, p);
    if p == [] {
      CoherentStart(pb);
    } else {
      var q, i := p[..|p| - 1], p[|p| - 1];
      LinksAtCoherent(pb, q);
      CoherentNext(pb, LinksAt(pb, q), q, i);
      assert p == q + [i];
    }
  }

  lemma LinksNext<S, I, O>(pb: Problem<S, I, O>, p: seq<nat>, i: nat)
    requires Valid(pb) && InRange(pb, p + [i])
    ensures InRange(pb, p) && i < pb.N() && |pb.rpos| == pb.N()
    ensures LinksAt(pb, p + [i]) == LiftLinks(LinksAt(pb, p), pb.cpos[i] + 1, pb.rpos[i] + 1)
  {
    hide LiftLinks, InARow;
    assert (p + [i])[..|p|] == p && (p + [i])[|p|] == i;
    forall k | 0 <= k < |p| ensures p[k] < pb.N() {
      assert (p + [i])[k] == p[k];
    }
  }

  lemma LinksPush<S, I, O>(pb: Problem<S, I, O>, p: seq<nat>, i: nat)
    requires Valid(pb) && Path(pb, p) && Path(pb, p + [i])
    ensures i < pb.N() && CanLift(LinksAt(pb, p), pb.cpos[i] + 1, pb.rpos[i] + 1)
    ensures LinksAt(pb, p + [i]) == LiftLinks(LinksAt(pb, p), pb.cpos[i] + 1, pb.rpos[i] + 1)
  {
    PathStep(pb, p + [i]);
    assert (p + [i])[..|p|] == p && (p + [i])[|p|] == i;
    hide Coherent, Live, InARow, Path, Valid, Elems, LinksAt, LiftLinks, CanLift, InRange;
    LinksNext(pb, p, i);
    LinksAtCoherent(pb, p);
    LiveWithout(pb, Elems(p), i);
    LiftCoherent(LinksAt(pb, p), Live(pb, Elems(p)), pb.cpos[i] + 1, pb.rpos[i] + 1);
  }

  /** Unlifting the top of the stack restores the links of the level below. */
  lemma LinksPop<S, I, O>(pb: Problem<S, I, O>, q: seq<nat>, i: nat)
    requires Valid(pb) && Path(pb, q) && Path(pb, q + [i])
    ensures i < pb.N() && CanUnlift(LinksAt(pb, q + [i]), pb.cpos[i] + 1, pb.rpos[i] + 1)
    ensures UnliftLinks(LinksAt(pb, q + [i]), pb.cpos[i] + 1, pb.rpos[i] + 1) == LinksAt(pb, q)
  {
    hide Coherent, Live, InARow, Path, Elems, LiftLinks, UnliftLinks;
    PathStep(pb, q + [i]);
    PathStep(pb, q);
    LinksPush(pb, q, i);
    LinksAtCoherent(pb, q);
    assert (q + [i])[..|q|] == q && (q + [i])[|q|] == i;
    LiveWithout(pb, Elems(q), i);
    UnliftUndoesLift(LinksAt(pb, q), Live(pb, Elems(q)), pb.cpos[i] + 1, pb.rpos[i] + 1);
  }

  lemma NextLive<S, I, O>(pb: Problem<S, I, O>, d: set<nat>, lk: Links, j: nat)
    requires |lk.nx| == |pb.h| + 1 && Coherent(lk, Live(pb, d)) && IsLive(pb, d, j)
    ensures j < lk.nx[j] <= |pb.h| + 1 && NoneLeft(pb, d, j, lk.nx[j] - 1)
    ensures lk.nx[j] <= |pb.h| ==> IsLive(pb, d, lk.nx[j])
  {
    assert j in Live(pb, d);
    assert NextOk(lk, Live(pb, d), j);
    forall k | j <= k < lk.nx[j] - 1 && k < |pb.h| ensures pb.h[k].id in d {
      assert k + 1 !in Live(pb, d);
      assert !IsLive(pb, d, k + 1);
    }
  }

  /** The next link from a live position skips only entries that are linearized. */
  lemma NextSkips<S, I, O>(pb: Problem<S, I, O>, p: seq<nat>, j: nat)
    requires Valid(pb) && Path(pb, p) && IsLive(pb, Elems(p), j)
    ensures |LinksAt(pb, p).nx| == |pb.h| + 1
    ensures var k := LinksAt(pb, p).nx[j];
            j < k <= |pb.h| + 1 && NoneLeft(pb, Elems(p), j, k - 1) && (k <= |pb.h| ==> IsLive(pb, Elems(p), k))
  {
    LinksAtCoherent(pb, p);
    NextLive(pb, Elems(p), LinksAt(pb, p), j);
  }
}
