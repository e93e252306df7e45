module LinkedEntries {
  // The doubly linked list of call and return nodes (src/porcupine/checker.go:62-90, 121-138,
  // 159-177) that the checker takes operations out of and puts them back into.
  //
  // A `Links` value is what the `next` and `prev` fields of ALL nodes hold, the lifted ones
  // included, with positions in the original list for nodes and the number of nodes for nil.

  import opened Search

  datatype Links = Links(nx: seq<nat>, pv: seq<nat>)

  /** The positions of `x`, in increasing order, are linked to each other both ways. */
  ghost predicate Coherent(lk: Links, x: set<nat>) {
    && |lk.nx| == |lk.pv|
    && 0 in x && (forall j :: j in x ==> j < |lk.nx|)
    && (forall j {:trigger NextOk(lk, x, j)} :: j in x ==> NextOk(lk, x, j))
    && (forall j {:trigger PrevOk(lk, x, j)} :: j in x && j != 0 ==> PrevOk(lk, x, j))
  }

  ghost predicate NextOk(lk: Links, x: set<nat>, j: nat)
    requires j < |lk.nx| == |lk.pv|
  {
    && j < lk.nx[j] <= |lk.nx|
    && (lk.nx[j] < |lk.nx| ==> lk.nx[j] in x && lk.pv[lk.nx[j]] == j)
    && (forall k :: j < k < lk.nx[j] ==> k !in x)
  }

  ghost predicate PrevOk(lk: Links, x: set<nat>, j: nat)
    requires j < |lk.nx| == |lk.pv|
  {
    lk.pv[j] < j && lk.pv[j] in x && lk.nx[lk.pv[j]] == j
  }

  /** Bypasses position `a`, which keeps its own links. */
  ghost function RemoveLinks(lk: Links, a: nat): Links {
    if a < |lk.nx| == |lk.pv| && lk.pv[a] < |lk.nx| then
      Links(lk.nx[lk.pv[a] := lk.nx[a]], if lk.nx[a] < |lk.pv| then lk.pv[lk.nx[a] := lk.pv[a]] else lk.pv)
    else
      lk
  }

  /** Links position `a` in again, by the links it kept. */
  ghost function InsertLinks(lk: Links, a: nat): Links
    requires a < |lk.nx| == |lk.pv| && lk.pv[a] < |lk.nx|
  {
    Links(lk.nx[lk.pv[a] := a], if lk.nx[a] < |lk.pv| then lk.pv[lk.nx[a] := a] else lk.pv)
  }

  lemma RemoveNextOk(lk: Links, x: set<nat>, a: nat, j: nat)
    requires a < |lk.nx| == |lk.pv| && j < |lk.nx| && j in x && j != a
    requires PrevOk(lk, x, a) && NextOk(lk, x, a) && NextOk(lk, x, lk.pv[a]) && NextOk(lk, x, j)
    ensures NextOk(RemoveLinks(lk, a), x - {a}, j)
  {}

  lemma RemovePrevOk(lk: Links, x: set<nat>, a: nat, j: nat)
    requires a < |lk.nx| == |lk.pv| && j < |lk.nx| && j in x && j != a
    requires PrevOk(lk, x, a) && NextOk(lk, x, a) && PrevOk(lk, x, j)
    ensures PrevOk(RemoveLinks(lk, a), x - {a}, j)
  {}

  /** What is left after a removal is linked in the original order. */
  lemma RemoveCoherent(lk: Links, x: set<nat>, a: nat)
    requires Coherent(lk, x) && a in x && a != 0
    ensures PrevOk(lk, x, a) && Coherent(RemoveLinks(lk, a), x - {a})
  {
    assert PrevOk(lk, x, a) && NextOk(lk, x, a) && NextOk(lk, x, lk.pv[a]);
    forall j | j in x - {a} ensures NextOk(RemoveLinks(lk, a), x - {a}, j) {
      RemoveNextOk(lk, x, a, j);
    }
    forall j | j in x - {a} && j != 0 ensures PrevOk(RemoveLinks(lk, a), x - {a}, j) {
      RemovePrevOk(lk, x, a, j);
    }
  }

  /** Putting a position back undoes its removal, for the links of every node. */
  lemma InsertUndoesRemove(lk: Links, x: set<nat>, a: nat)
    requires a < |lk.nx| == |lk.pv| && PrevOk(lk, x, a) && NextOk(lk, x, a)
    ensures RemoveLinks(lk, a).nx[a] == lk.nx[a] && RemoveLinks(lk, a).pv[a] == lk.pv[a]
    ensures InsertLinks(RemoveLinks(lk, a), a) == lk
  {}

  ghost predicate CanLift(lk: Links, a: nat, b: nat) {
    && a < |lk.nx| == |lk.pv| && lk.pv[a] < |lk.nx| && lk.nx[a] < |lk.nx|
    && b < |lk.nx| && RemoveLinks(lk, a).pv[b] < |lk.nx|
  }

  ghost function LiftLinks(lk: Links, a: nat, b: nat): Links {
    RemoveLinks(RemoveLinks(lk, a), b)
  }

  ghost predicate CanUnlift(lk: Links, a: nat, b: nat) {
    && b < |lk.nx| == |lk.pv| && b != lk.pv[b] < |lk.nx| && a < |lk.nx|
    && a != InsertLinks(lk, b).pv[a] < |lk.nx| && InsertLinks(lk, b).nx[a] < |lk.nx|
  }

  ghost function UnliftLinks(lk: Links, a: nat, b: nat): Links
    requires CanUnlift(lk, a, b)
  {
    InsertLinks(InsertLinks(lk, b), a)
  }

  /** Lifting a call and its return leaves the rest linked in the original order. */
  lemma LiftCoherent(lk: Links, x: set<nat>, a: nat, b: nat)
    requires Coherent(lk, x) && a in x && b in x && 0 < a < b
    ensures CanLift(lk, a, b) && Coherent(LiftLinks(lk, a, b), x - {a, b})
  {
    RemoveCoherent(lk, x, a);
    assert NextOk(lk, x, a);
    assert lk.nx[a] <= b;
    RemoveCoherent(RemoveLinks(lk, a), x - {a}, b);
    assert x - {a} - {b} == x - {a, b};
  }

  /** Unlifting undoes lifting exactly, adjacent or not: every link of every node is restored. */
  lemma UnliftUndoesLift(lk: Links, x: set<nat>, a: nat, b: nat)
    requires Coherent(lk, x) && a in x && b in x && 0 < a < b && CanLift(lk, a, b)
    ensures CanUnlift(LiftLinks(lk, a, b), a, b) && UnliftLinks(LiftLinks(lk, a, b), a, b) == lk
  {
    var l1 := RemoveLinks(lk, a);
    RemoveCoherent(lk, x, a);
    assert NextOk(lk, x, a) && PrevOk(l1, x - {a}, b) && NextOk(l1, x - {a}, b);
    InsertUndoesRemove(lk, x, a);
    InsertUndoesRemove(l1, x - {a}, b);
  }

  // ---- the nodes ----

  class Node<I, O> {
    const value: Value<I, O>
    const mate: Node?<I, O>  // the node of the return if this is a call, null if it is a return
    const id: int
    ghost const pos: nat     // its position in the original list
    var next: Node?<I, O>
    var prev: Node?<I, O>

    constructor (value: Value<I, O>, mate: Node?<I, O>, id: int, ghost pos: nat)
      ensures this.value == value && this.mate == mate && this.id == id && this.pos == pos
      ensures next == null && prev == null
    {
      this.value, this.mate, this.id, this.pos := value, mate, id, pos;
      next, prev := null, null;
    }
  }

  ghost predicate Numbered<I, O>(nd: seq<Node<I, O>>) {
    forall j :: 0 <= j < |nd| ==> nd[j].pos == j
  }

  ghost function At<I, O>(nd: seq<Node<I, O>>, j: nat): Node?<I, O> {
    if j < |nd| then nd[j] else null
  }

  /** The fields of the nodes hold these links. */
  ghost predicate Holds<I, O>(nd: seq<Node<I, O>>, lk: Links)
    reads nd
  {
    && |lk.nx| == |lk.pv| == |nd|
    && (forall j {:trigger lk.nx[j]} :: 0 <= j < |nd| ==> nd[j].next == At(nd, lk.nx[j]))
    && (forall j {:trigger lk.pv[j]} :: 0 <= j < |nd| ==> nd[j].prev == At(nd, lk.pv[j]))
  }

  lemma NextNode<I, O>(nd: seq<Node<I, O>>, lk: Links, j: nat)
    requires Holds(nd, lk) && j < |nd|
    ensures |lk.nx| == |lk.pv| == |nd| && nd[j].next == At(nd, lk.nx[j])
  {}

  method InsertBefore<I, O>(n: Node<I, O>, mark: Node?<I, O>) returns (r: Node<I, O>)
    requires mark != null ==> mark != n && mark.prev != n && mark.prev != mark
    modifies n, if mark == null then {} else if mark.prev == null then {mark} else {mark, mark.prev}
    ensures r == n
    ensures mark == null ==> unchanged(n)
    ensures mark != null ==> n.next == mark && mark.prev == n && mark.next == old(mark.next)
    ensures mark != null && old(mark.prev) == null ==> n.prev == old(n.prev)
    ensures mark != null && old(mark.prev) != null ==>
              n.prev == old(mark.prev) && n.prev.next == n && n.prev.prev == old(mark.prev.prev)
  {
    if mark != null {
      var beforeMark := mark.prev;
      mark.prev := n;
      n.next := mark;
      if beforeMark != null {
        n.prev := beforeMark;
        beforeMark.next := n;
      }
    }
    return n;
  }

  method Bypass<I, O>(n: Node<I, O>, ghost nd: seq<Node<I, O>>, ghost lk: Links, ghost a: nat)
    requires Numbered(nd) && Holds(nd, lk) && a < |nd| && lk.pv[a] < |nd| && n == nd[a]
    modifies n.prev, if lk.nx[a] < |nd| then {nd[lk.nx[a]]} else {}
    ensures Holds(nd, RemoveLinks(lk, a))
  {
    n.prev.next := n.next;
    if n.next != null {
      n.next.prev := n.prev;
    }
  }

  /** Takes a call and its return out of the list. */
  method Lift<I, O>(entry: Node<I, O>, ghost nd: seq<Node<I, O>>, ghost lk: Links, ghost a: nat, ghost b: nat)
    requires Numbered(nd) && Holds(nd, lk) && CanLift(lk, a, b)
    requires entry == nd[a] && entry.mate == nd[b]
    modifies nd
    ensures Holds(nd, LiftLinks(lk, a, b))
  {
    assert entry.prev == nd[lk.pv[a]];
    Bypass(entry, nd, lk, a);
    ghost var l1 := RemoveLinks(lk, a);
    assert entry.mate.prev == nd[l1.pv[b]];
    Bypass(entry.mate, nd, l1, b);
  }

  method Relink<I, O>(n: Node<I, O>, ghost nd: seq<Node<I, O>>, ghost lk: Links, ghost a: nat)
    requires Numbered(nd) && Holds(nd, lk) && a < |nd| && a != lk.pv[a] < |nd| && n == nd[a]
    modifies n.prev, if lk.nx[a] < |nd| then {nd[lk.nx[a]]} else {}
    ensures Holds(nd, InsertLinks(lk, a))
  {
    n.prev.next := n;
    if n.next != null {
      n.next.prev := n;
    }
  }

  /** Links a call and its return in again, by the links they kept. */
  method Unlift<I, O>(entry: Node<I, O>, ghost nd: seq<Node<I, O>>, ghost lk: Links, ghost a: nat, ghost b: nat)
    requires Numbered(nd) && Holds(nd, lk) && CanUnlift(lk, a, b)
    requires entry == nd[a] && entry.mate == nd[b]
    modifies nd
    ensures Holds(nd, UnliftLinks(lk, a, b))
  {
    assert entry.mate.prev == nd[lk.pv[b]];
    Relink(entry.mate, nd, lk, b);
    ghost var l1 := InsertLinks(lk, b);
    assert entry.prev == nd[l1.pv[a]];
    Relink(entry, nd, l1, a);
  }

  // ---- building the list ----

  /** The links of `m` nodes in a row. */
  ghost function InARow(m: nat): Links {
    Links(seq(m, j => j + 1), seq(m, j => if j == 0 then m else j - 1))
  }

  ghost function Upto(m: nat): (x: set<nat>)
    ensures forall j: nat :: j in x <==> j < m
  {
    if m == 0 then {} else Upto(m - 1) + {m - 1}
  }

  lemma InARowCoherent(m: nat)
    requires m > 0
    ensures Coherent(InARow(m), Upto(m))
  {}

  /** Puts a node that is linked to nothing in front of a row of nodes. */
  method Prepend<I, O>(n: Node<I, O>, root: Node?<I, O>, ghost ns: seq<Node<I, O>>) returns (r: Node<I, O>)
    requires root == At(ns, 0) && Holds(ns, InARow(|ns|))
    requires n !in ns && n.next == null && n.prev == null
    requires forall j :: 0 < j < |ns| ==> ns[j] != ns[0]
    modifies n, if ns == [] then {} else {ns[0]}
    ensures r == n && Holds([n] + ns, InARow(|ns| + 1))
  {
    ghost var lk, up := InARow(|ns|), InARow(|ns| + 1);
    assert ns != [] ==> root.prev == At(ns, lk.pv[0]) && root.next == At(ns, lk.nx[0]);
    r := InsertBefore(n, root);
    ghost var nd := [n] + ns;
    forall j | 0 <= j < |nd| ensures nd[j].next == At(nd, up.nx[j]) {
      if j > 0 {
        assert lk.nx[j - 1] == j && nd[j] == ns[j - 1];
        assert At(nd, j + 1) == At(ns, j);
      }
    }
    forall j | 0 <= j < |nd| ensures nd[j].prev == At(nd, up.pv[j]) {
      if j > 1 {
        assert lk.pv[j - 1] == j - 2 && nd[j] == ns[j - 1];
      }
    }
  }

  /** The nearest return of operation `id` from position `k` on, or the end of the entries. */
  ghost function NextReturn<I, O>(h: seq<Entry<I, O>>, id: int, k: nat): (j: nat)
    requires k <= |h|
    ensures k <= j <= |h| && (j < |h| ==> h[j].isReturn && h[j].id == id)
    ensures forall i :: k <= i < j ==> !(h[i].isReturn && h[i].id == id)
    decreases |h| - k
  {
    if k == |h| || (h[k].isReturn && h[k].id == id) then k else NextReturn(h, id, k + 1)
  }

  /** Node `n` stands for entry `k`: a call is matched with the nearest later return of its operation. */
  ghost predicate NodeOf<I, O>(h: seq<Entry<I, O>>, ns: seq<Node<I, O>>, k: nat, from: nat)
    requires from <= k < |h| && |ns| == |h| - from
  {
    var n := ns[k - from];
    && n.value == h[k].value && n.id == h[k].id && n.pos == k + 1
    && n.mate == if h[k].isReturn then null else At(ns, NextReturn(h, h[k].id, k) - from)
  }

  ghost predicate NodesOf<I, O>(h: seq<Entry<I, O>>, ns: seq<Node<I, O>>, from: nat)
    requires from <= |h|
  {
    |ns| == |h| - from && forall k :: from <= k < |h| ==> NodeOf(h, ns, k, from)
  }

  lemma NodesOfFront<I, O>(h: seq<Entry<I, O>>, n: Node<I, O>, ns: seq<Node<I, O>>, from: nat)
    requires from < |h| && NodesOf(h, ns, from + 1)
    requires n.value == h[from].value && n.id == h[from].id && n.pos == from + 1
    requires n.mate == if h[from].isReturn then null else At(ns, NextReturn(h, h[from].id, from + 1) - from - 1)
    ensures NodesOf(h, [n] + ns, from)
  {
    forall k | from <= k < |h| ensures NodeOf(h, [n] + ns, k, from) {
      assert k > from ==> NodeOf(h, ns, k, from + 1);
    }
  }

  /** The table used to match calls: the nearest return of each operation from `from` on. */
  ghost predicate MatesOf<I, O>(h: seq<Entry<I, O>>, mates: map<int, Node<I, O>>, ns: seq<Node<I, O>>, from: nat)
    requires from <= |h|
  {
    forall id :: Mate(mates, id) == At(ns, NextReturn(h, id, from) - from)
  }

  function Mate<I, O>(mates: map<int, Node<I, O>>, id: int): Node?<I, O> {
    if id in mates then mates[id] else null
  }

  lemma MatesOfFront<I, O>(h: seq<Entry<I, O>>, mates: map<int, Node<I, O>>, n: Node<I, O>, ns: seq<Node<I, O>>,
      from: nat)
    requires from < |h| && MatesOf(h, mates, ns, from + 1) && |ns| == |h| - from - 1
    ensures MatesOf(h, if h[from].isReturn then mates[h[from].id := n] else mates, [n] + ns, from)
  {
    var mates' := if h[from].isReturn then mates[h[from].id := n] else mates;
    forall id ensures Mate(mates', id) == At([n] + ns, NextReturn(h, id, from) - from) {
      assert Mate(mates, id) == At(ns, NextReturn(h, id, from + 1) - from - 1);
    }
  }

  method MakeLinkedEntries<I, O>(h: seq<Entry<I, O>>) returns (root: Node?<I, O>, ghost ns: seq<Node<I, O>>)
    ensures NodesOf(h, ns, 0) && root == At(ns, 0) && Holds(ns, InARow(|ns|))
    ensures forall n :: n in ns ==> fresh(n)
  {
    root, ns := null, [];
    var mates: map<int, Node<I, O>> := map[];
    var i := |h|;
    while i > 0
      invariant 0 <= i <= |h|
      invariant NodesOf(h, ns, i) && root == At(ns, 0) && Holds(ns, InARow(|ns|))
      invariant forall n :: n in ns ==> fresh(n)
      invariant MatesOf(h, mates, ns, i)
    {
      forall j | 0 <= j < |ns| ensures ns[j].pos == i + j + 1 {
        assert NodeOf(h, ns, i + j, i);
      }
      i := i - 1;
      var elem := h[i];
      var entry: Node<I, O>;
      if elem.isReturn {
        entry := new Node(elem.value, null, elem.id, i + 1);
        MatesOfFront(h, mates, entry, ns, i);
        mates := mates[elem.id := entry];
      } else {
        entry := new Node(elem.value, Mate(mates, elem.id), elem.id, i + 1);
        MatesOfFront(h, mates, entry, ns, i);
      }
      NodesOfFront(h, entry, ns, i);
      assert ns != [] ==> ns[0] in ns;
      root := Prepend(entry, root, ns);
      ns := [entry] + ns;
    }
  }

  method Length<I, O>(n: Node?<I, O>, ghost ns: seq<Node<I, O>>) returns (l: nat)
    requires n == At(ns, 0) && Holds(ns, InARow(|ns|))
    ensures l == |ns|
  {
    l := 0;
    var m := n;
    while m != null
      invariant l <= |ns| && m == At(ns, l)
      decreases |ns| - l
    {
      assert InARow(|ns|).nx[l] == l + 1;
      m := m.next;
      l := l + 1;
    }
  }
}
