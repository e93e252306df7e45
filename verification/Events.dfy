module Events {
  // Renumbering the events of a history (src/porcupine/checker.go): whatever numbers the events carry
  // to match calls with returns, they become 0, 1, 2, ... in the order in which they first appear.

  datatype Event<V> = Event(clientId: int, isReturn: bool, value: V, id: int)

  /** The different numbers in `ids`, in the order of their first appearance. */
  function Firsts(ids: seq<int>): seq<int> {
    if ids == [] then []
    else
      var rest, x := Firsts(ids[..|ids| - 1]), ids[|ids| - 1];
      if x in rest then rest else rest + [x]
  }

  function Ids<V>(events: seq<Event<V>>): (ids: seq<int>)
    ensures |ids| == |events| && forall i :: 0 <= i < |ids| ==> ids[i] == events[i].id
  {
    seq(|events|, i requires 0 <= i < |events| => events[i].id)
  }

  lemma {:induction false} FirstsFacts(ids: seq<int>)
    ensures forall x :: x in Firsts(ids) <==> x in ids
    ensures forall a, b :: 0 <= a < b < |Firsts(ids)| ==> Firsts(ids)[a] != Firsts(ids)[b]
  {
    if ids != [] {
      FirstsFacts(ids[..|ids| - 1]);
      assert ids == ids[..|ids| - 1] + [ids[|ids| - 1]];
    }
  }

  /** `m` takes each number seen to its place among the first appearances. */
  ghost predicate Numbering(m: map<int, nat>, firsts: seq<int>) {
    && (forall x :: x in m <==> x in firsts)
    && (forall x {:trigger m[x]} :: x in m ==> m[x] < |firsts| && firsts[m[x]] == x)
  }

  lemma NumberingWith(m: map<int, nat>, firsts: seq<int>, x: int)
    requires Numbering(m, firsts) && x !in m
    ensures Numbering(m[x := |firsts|], firsts + [x])
  {}

  /** Events keep everything but their numbers, which stand for their place among the first appearances. */
  method Renumber<V>(events: seq<Event<V>>) returns (e: seq<Event<V>>)
    ensures |e| == |events|
    ensures forall i {:trigger e[i]} :: 0 <= i < |e| ==>
              var f := Firsts(Ids(events));
              0 <= e[i].id < |f| && f[e[i].id] == events[i].id && e[i] == events[i].(id := e[i].id)
  {
    e := [];
    var m: map<int, nat>, id := map[], 0;
    ghost var ids := Ids(events);
    for i := 0 to |events|
      invariant |e| == i && Numbering(m, Firsts(ids[..i])) && id == |Firsts(ids[..i])|
      invariant Firsts(ids[..i]) <= Firsts(ids)
      invariant forall j {:trigger e[j]} :: 0 <= j < i ==>
                  0 <= e[j].id < id && Firsts(ids[..i])[e[j].id] == events[j].id && e[j] == events[j].(id := e[j].id)
    {
      var v := events[i];
      assert ids[..i + 1][..i] == ids[..i];
      FirstsGrow(ids, i + 1);
      if v.id in m {
        e := e + [v.(id := m[v.id])];
      } else {
        NumberingWith(m, Firsts(ids[..i]), v.id);
        e := e + [v.(id := id)];
        m := m[v.id := id];
        id := id + 1;
      }
    }
    assert ids[..|events|] == ids;
  }

  lemma {:induction false} FirstsGrow(ids: seq<int>, i: nat)
    requires i <= |ids|
    ensures Firsts(ids[..i]) <= Firsts(ids)
    decreases |ids| - i
  {
    if i == |ids| {
      assert ids[..i] == ids;
    } else {
      FirstsGrow(ids, i + 1);
      assert ids[..i + 1][..i] == ids[..i];
    }
  }

  /** Two events have the same number afterwards exactly if they had the same number before. */
  lemma SameAfterwards<V>(events: seq<Event<V>>, e: seq<Event<V>>, i: nat, j: nat)
    requires |e| == |events| && i < |e| && j < |e|
    requires forall k {:trigger e[k]} :: 0 <= k < |e| ==>
               var f := Firsts(Ids(events)); 0 <= e[k].id < |f| && f[e[k].id] == events[k].id
    ensures e[i].id == e[j].id <==> events[i].id == events[j].id
  {
    FirstsFacts(Ids(events));
  }
}
