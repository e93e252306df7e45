module Checker {
  // checkSingle (src/porcupine/checker.go:179-253): a depth-first search over the linked entries
  // that decides whether one partition of a history is linearizable.

  import opened Bitset
  import opened Histories
  import opened LinkedEntries
  import opened Search
  import opened SearchLinks
  import opened VisitedCache

  // ---- the cache, as a set of configurations ----

  /** The words `kept` stand for exactly the configurations `seen`. */
  ghost predicate SameConfigs<S(!new)>(kept: set<(seq<bv64>, S)>, seen: set<Config<S>>, len: nat) {
    && (forall w, s :: (w, s) in kept ==> |w| == len && (Bits(w), s) in seen)
    && (forall d, s :: (d, s) in seen ==> exists w :: (w, s) in kept && Bits(w) == d)
  }

  lemma SameConfigsAdd<S(!new)>(kept: set<(seq<bv64>, S)>, seen: set<Config<S>>, len: nat, w: seq<bv64>, s: S)
    requires SameConfigs(kept, seen, len) && |w| == len
    ensures SameConfigs(kept + {(w, s)}, seen + {(Bits(w), s)}, len)
  {
    forall d, t | (d, t) in seen + {(Bits(w), s)} ensures exists v :: (v, t) in kept + {(w, s)} && Bits(v) == d {
      if (d, t) in seen {
        var v :| (v, t) in kept && Bits(v) == d;
        assert (v, t) in kept + {(w, s)};
      } else {
        assert (w, t) in kept + {(w, s)};
      }
    }
  }

  lemma CoveredIffKept<S(!new), I(!new), O(!new)>(pb: Problem<S, I, O>, kept: set<(seq<bv64>, S)>,
      seen: set<Config<S>>, w: seq<bv64>, s: S)
    requires SameConfigs(kept, seen, |w|)
    ensures Covered(pb, seen, Bits(w), s) <==> KeptEqual(kept, w, s, pb.m.equal)
  {
    if Covered(pb, seen, Bits(w), s) {
      var t :| (Bits(w), t) in seen && pb.m.equal(s, t);
      var v :| (v, t) in kept && Bits(v) == Bits(w);
      BitsInjective(v, w);
    }
    if t :| (w, t) in kept && pb.m.equal(s, t) {
      assert (Bits(w), t) in seen;
    }
  }

  /** The scan of the bucket of the entry's hash. */
  method Lookup<H(==, !new), S(!new), I(!new), O(!new)>(model: Model<S, I, O>, cache: Cache<H, bv64, S>,
      entry: CacheEntry<bv64, S>, hash: H,
      ghost own: set<array<bv64>>, ghost kept: set<(seq<bv64>, S)>, ghost hf: seq<bv64> -> H) returns (r: bool)
    requires CacheOk(cache, own, kept, hf) && hash == hf(entry.linearized[..])
    ensures r <==> KeptEqual(kept, entry.linearized[..], entry.state, model.equal)
  {
    ghost var w := entry.linearized[..];
    if hash in cache {
      for k := 0 to |cache[hash]|
        invariant forall i :: 0 <= i < k ==> !Matches(cache[hash][i], w, entry.state, model.equal)
      {
        var elem := cache[hash][k];
        var same := Equals(entry.linearized, elem.linearized);
        if same && model.equal(entry.state, elem.state) {
          FoundInBucket(cache, own, kept, hf, hash, k, w, entry.state, model.equal);
          return true;
        }
      }
    }
    NotInBucket(cache, own, kept, hf, w, entry.state, model.equal);
    return false;
  }

  /** The lookup finds an entry exactly when an equal configuration was ever stored. */
  method CacheContains<S(!new), I(!new), O(!new)>(model: Model<S, I, O>, cache: Cache<bv64, bv64, S>,
      entry: CacheEntry<bv64, S>,
      ghost pb: Problem<S, I, O>, ghost own: set<array<bv64>>, ghost kept: set<(seq<bv64>, S)>,
          ghost seen: set<Config<S>>)
      returns (r: bool)
    requires pb.m == model && CacheOk(cache, own, kept, HashOf) && SameConfigs(kept, seen, entry.linearized.Length)
    ensures r <==> Covered(pb, seen, Bits(entry.linearized[..]), entry.state)
  {
    var hash := Hash(entry.linearized);
    r := Lookup(model, cache, entry, hash, own, kept, HashOf);
    CoveredIffKept(pb, kept, seen, entry.linearized[..], entry.state);
  }

  // ---- the search ----

  datatype Option<+T> = None | Some(value: T)

  datatype CallsEntry<S, I, O> = CallsEntry(entry: Node<I, O>, state: S)

  /** The nodes, with the head in front, stand for the entries; calls are matched with returns. */
  ghost predicate NodesMatch<S, I, O>(pb: Problem<S, I, O>, nd: seq<Node<I, O>>)
    requires Valid(pb)
  {
    && |nd| == |pb.h| + 1 && Numbered(nd)
    && (forall k {:trigger NodeMatches(pb, nd, k)} :: 0 <= k < |pb.h| ==> NodeMatches(pb, nd, k))
  }

  ghost predicate NodeMatches<S, I, O>(pb: Problem<S, I, O>, nd: seq<Node<I, O>>, k: nat)
    requires Valid(pb) && |nd| == |pb.h| + 1 && k < |pb.h|
  {
    assert EntryAt(pb, k);
    var n, e := nd[k + 1], pb.h[k];
    && n.value == e.value && n.id == e.id
    && n.mate == if e.isReturn then null else At(nd, pb.rpos[e.id] + 1)
  }

  /** Every recorded sequence is a partial linearization that includes the operation it is recorded for. */
  ghost predicate LongestOk<S, I, O>(pb: Problem<S, I, O>, longest: seq<Option<seq<nat>>>)
    requires Valid(pb)
  {
    && |longest| == pb.N()
    && forall i :: 0 <= i < pb.N() && longest[i].Some? ==> Path(pb, longest[i].value) && i in longest[i].value
  }

  /** Every member of `d` has a recorded sequence at least as long as `d`. */
  ghost predicate Recorded(longest: seq<Option<seq<nat>>>, d: set<nat>) {
    forall i :: i in d ==> i < |longest| && longest[i].Some? && |d| <= |longest[i].value|
  }

  ghost predicate AllRecorded<S, I, O>(pb: Problem<S, I, O>, p: seq<nat>, seen: set<Config<S>>,
      longest: seq<Option<seq<nat>>>)
    requires Valid(pb) && InRange(pb, p)
  {
    forall c :: c in seen ==> OnStack(pb, p, c) || Recorded(longest, c.0)
  }

  // ---- what the search knows about the entry it is at ----

  /** The entry at the cursor is of an operation that is not linearized; it is a call exactly if it is matched. */
  lemma CursorEntry<S, I, O>(pb: Problem<S, I, O>, nd: seq<Node<I, O>>, p: seq<nat>, cur: nat)
    requires Valid(pb) && NodesMatch(pb, nd) && 0 < cur < |nd| && IsLive(pb, Elems(p), cur)
    ensures |pb.rpos| == pb.N() && Numbered(nd)
    ensures EntryAt(pb, cur - 1) && pb.h[cur - 1].id !in Elems(p) && nd[cur].id == pb.h[cur - 1].id
    ensures nd[cur].mate != null <==> !pb.h[cur - 1].isReturn
    ensures !pb.h[cur - 1].isReturn ==>
              var i := pb.h[cur - 1].id;
              && pb.cpos[i] + 1 == cur < pb.rpos[i] + 1 < |nd|
              && nd[cur].mate == nd[pb.rpos[i] + 1]
              && nd[cur].value.Input? && nd[pb.rpos[i] + 1].value.Output?
              && forall s :: Step(pb, s, i) == pb.m.step(s, nd[cur].value.input, nd[pb.rpos[i] + 1].value.output)
  {
    assert EntryAt(pb, cur - 1) && NodeMatches(pb, nd, cur - 1);
    var i := pb.h[cur - 1].id;
    assert OperationAt(pb, i);
    if !pb.h[cur - 1].isReturn {
      assert NodeMatches(pb, nd, pb.rpos[i]);
    }
  }

  /** A live call is followed by a live entry: its return, if nothing else. */
  lemma CallHasNext<S, I, O>(pb: Problem<S, I, O>, p: seq<nat>, i: nat)
    requires Valid(pb) && Path(pb, p) && i < pb.N() && i !in Elems(p)
    ensures IsLive(pb, Elems(p), pb.cpos[i] + 1)
    ensures |LinksAt(pb, p).nx| == |pb.h| + 1 && pb.cpos[i] < |pb.h| && LinksAt(pb, p).nx[pb.cpos[i] + 1] <= |pb.h|
  {
    assert OperationAt(pb, i);
    NextSkips(pb, p, pb.cpos[i] + 1);
  }

  lemma EntryFact<S, I, O>(pb: Problem<S, I, O>, k: nat)
    requires Valid(pb) && k < |pb.h|
    ensures EntryAt(pb, k)
  {}

  /** The list is empty exactly when every operation is linearized. */
  lemma EmptyIffDone<S, I, O>(pb: Problem<S, I, O>, p: seq<nat>)
    requires Valid(pb) && Path(pb, p)
    ensures |LinksAt(pb, p).nx| == |pb.h| + 1
    ensures LinksAt(pb, p).nx[0] == |pb.h| + 1 <==> |p| == pb.N()
  {
    NextSkips(pb, p, 0);
    PathDistinct(pb, p);
    BelowSize(Elems(p), pb.N());
    if LinksAt(pb, p).nx[0] == |pb.h| + 1 && |p| < pb.N() {
      forall i: nat | i < pb.N() ensures i in Elems(p) {
        assert OperationAt(pb, i);
      }
      Full(Elems(p), pb.N());
    }
    if |p| == pb.N() && LinksAt(pb, p).nx[0] <= |pb.h| {
      EntryFact(pb, LinksAt(pb, p).nx[0] - 1);
      assert false;
    }
  }

  lemma {:induction false} Full(d: set<nat>, n: nat)
    requires forall i: nat :: i < n ==> i in d
    ensures |d| >= n
  {
    if n > 0 {
      Full(d - {n - 1}, n - 1);
    }
  }

  /** The stack holds the node of each operation of `p` and the state before it. */
  ghost predicate CallsMatch<S, I, O>(pb: Problem<S, I, O>, nd: seq<Node<I, O>>, p: seq<nat>,
      calls: seq<CallsEntry<S, I, O>>)
    requires Valid(pb) && InRange(pb, p)
  {
    && |calls| == |p|
    && forall d {:trigger CallMatches(pb, nd, p, calls, d)} :: 0 <= d < |p| ==> CallMatches(pb, nd, p, calls, d)
  }

  ghost predicate CallMatches<S, I, O>(pb: Problem<S, I, O>, nd: seq<Node<I, O>>, p: seq<nat>,
      calls: seq<CallsEntry<S, I, O>>, d: nat)
    requires Valid(pb) && InRange(pb, p) && |calls| == |p| && d < |p|
  {
    calls[d].entry == At(nd, pb.cpos[p[d]] + 1) && calls[d].state == StateOf(pb, p[..d])
  }

  lemma CallsPush<S, I, O>(pb: Problem<S, I, O>, nd: seq<Node<I, O>>, p: seq<nat>, calls: seq<CallsEntry<S, I, O>>,
      i: nat, c: CallsEntry<S, I, O>)
    requires Valid(pb) && InRange(pb, p) && CallsMatch(pb, nd, p, calls) && i < pb.N()
    requires c.entry == At(nd, pb.cpos[i] + 1) && c.state == StateOf(pb, p)
    ensures InRange(pb, p + [i]) && CallsMatch(pb, nd, p + [i], calls + [c])
  {
    forall d | 0 <= d < |p + [i]| ensures CallMatches(pb, nd, p + [i], calls + [c], d) {
      assert (p + [i])[..d] == p[..d];
      if d < |p| {
        assert CallMatches(pb, nd, p, calls, d);
      } else {
        assert p[..d] == p;
      }
    }
  }

  lemma CallsPop<S, I, O>(pb: Problem<S, I, O>, nd: seq<Node<I, O>>, q: seq<nat>, i: nat,
      calls: seq<CallsEntry<S, I, O>>)
    requires Valid(pb) && InRange(pb, q) && InRange(pb, q + [i]) && CallsMatch(pb, nd, q + [i], calls)
    ensures CallsMatch(pb, nd, q, calls[..|q|])
    ensures i < pb.N() && calls[|q|].entry == At(nd, pb.cpos[i] + 1) && calls[|q|].state == StateOf(pb, q)
  {
    forall d | 0 <= d < |q| ensures CallMatches(pb, nd, q, calls[..|q|], d) {
      assert CallMatches(pb, nd, q + [i], calls, d);
      assert (q + [i])[..d] == q[..d];
    }
    assert CallMatches(pb, nd, q + [i], calls, |q|);
    assert (q + [i])[..|q|] == q && (q + [i])[|q|] == i;
  }

  lemma StartOk<S(!new), I(!new), O(!new)>(pb: Problem<S, I, O>)
    requires Valid(pb)
    ensures Path(pb, []) && Elems([]) == {} && StateOf(pb, []) == pb.m.init && LinksAt(pb, []) == InARow(|pb.h| + 1)
    ensures Searching(pb, [], {}, 0)
    ensures |pb.h| > 0 ==> IsLive(pb, {}, 1)
  {}

  /** The local variables of checkSingle. */
  class Searcher<S(!new), I(!new), O(!new)> {
    const model: Model<S, I, O>
    const head: Node<I, O>
    const linearized: array<bv64>
    var entry: Node?<I, O>
    var cache: Cache<bv64, bv64, S>
    var calls: seq<CallsEntry<S, I, O>>
    var state: S

    ghost const pb: Problem<S, I, O>
    ghost const nd: seq<Node<I, O>>
    ghost var p: seq<nat>                    // the operations on the stack
    ghost var cur: nat                       // the position of `entry` in the original list
    ghost var seen: set<Config<S>>
    ghost var kept: set<(seq<bv64>, S)>
    ghost var own: set<array<bv64>>

    constructor (model: Model<S, I, O>, head: Node<I, O>, entry: Node?<I, O>, linearized: array<bv64>,
        ghost pb: Problem<S, I, O>, ghost nd: seq<Node<I, O>>)
      requires Valid(pb) && pb.m == model
      requires NodesMatch(pb, nd) && head == nd[0] && entry == At(nd, 1) && Holds(nd, InARow(|pb.h| + 1))
      requires pb.N() <= WORD * linearized.Length && Bits(linearized[..]) == {}
      ensures Ok() && this.pb == pb && this.linearized == linearized && this.head == head && this.nd == nd
      ensures p == [] && seen == {} && fresh(own)
    {
      this.model, this.head, this.linearized, this.pb, this.nd := model, head, linearized, pb, nd;
      this.entry, cache, calls, state := entry, map[], [], model.init;
      p, cur, seen, kept, own := [], 1, {}, {}, {};
      new;
      StartOk(pb);
    }

    ghost predicate Setting()
    {
      && Valid(pb) && pb.m == model
      && NodesMatch(pb, nd) && head == nd[0] && pb.N() <= WORD * linearized.Length
    }

    ghost predicate CallsOk()
      requires Setting()
      reads this`calls, this`p
    {
      Path(pb, p) && CallsMatch(pb, nd, p, calls)
    }

    ghost predicate CacheSound()
      reads this`cache, this`own, this`kept, this`seen, own
    {
      CacheOk(cache, own, kept, HashOf) && linearized !in own && SameConfigs(kept, seen, linearized.Length)
    }

    ghost predicate StateOk()
      requires Setting()
      reads this`p, this`state, linearized
    {
      InRange(pb, p) && Bits(linearized[..]) == Elems(p) && state == StateOf(pb, p)
    }

    ghost predicate ListOk()
      requires Setting()
      reads this`p, nd
    {
      InRange(pb, p) && Holds(nd, LinksAt(pb, p))
    }

    ghost predicate CursorOk()
      requires Setting()
      reads this`p, this`seen, this`cur, this`entry
    {
      && 0 < cur <= |nd| && entry == At(nd, cur)
      && (cur < |nd| ==> IsLive(pb, Elems(p), cur)) && (|p| < pb.N() ==> cur < |nd|)
      && Searching(pb, p, seen, cur - 1)
    }

    ghost predicate Ok()
      reads this, nd, linearized, own
    {
      Setting() && CallsOk() && CacheSound() && StateOk() && ListOk() && CursorOk()
    }

    /** The call at the cursor, as operation number. */
    ghost predicate AtCall(i: nat)
      requires Setting()
      reads this
    {
      && |p| < pb.N() && 0 < cur < |nd| && Path(pb, p) && IsLive(pb, Elems(p), cur)
      && !pb.h[cur - 1].isReturn && pb.h[cur - 1].id == i && i < pb.N()
    }

    method Advance(ghost i: nat)
      requires Ok() && AtCall(i) && Tried(pb, seen, Elems(p), StateOf(pb, p), i)
      modifies this`entry, this`cur
      ensures Ok() && cur > old(cur)
    {
      hide Valid, Searching, CacheOk, SameConfigs, Path, StateOf, LinksAt, Holds, Tried, Bits, CallsMatch, NodesMatch,
          IsLive;
      AdvanceOk(pb, nd, p, seen, cur, i);
      ghost var next := LinksAt(pb, p).nx[cur];
      NextNode(nd, LinksAt(pb, p), cur);
      entry := entry.next;
      cur := next;
    }

    /** Stores a configuration in the bucket of its hash. */
    method Remember(newEntry: CacheEntry<bv64, S>)
      requires CacheSound()
      requires newEntry.linearized != linearized && newEntry.linearized.Length == linearized.Length
      modifies this`cache, this`own, this`kept, this`seen
      ensures CacheSound() && own == old(own) + {newEntry.linearized}
      ensures seen == old(seen) + {(Bits(newEntry.linearized[..]), newEntry.state)}
    {
      hide CacheOk, SameConfigs, Bits, Xor, Total;
      StoreOk(cache, own, kept, HashOf, newEntry);
      SameConfigsAdd(kept, seen, linearized.Length, newEntry.linearized[..], newEntry.state);
      var hash := Hash(newEntry.linearized);
      cache := Store(cache, hash, newEntry);
      own, kept := own + {newEntry.linearized}, kept + {Content(newEntry)};
      seen := seen + {(Bits(newEntry.linearized[..]), newEntry.state)};
    }

    /** Puts the call at the cursor on the stack and in the bitset. */
    method Mark(newState: S, ghost i: nat)
      requires Setting() && CacheSound() && StateOk() && ListOk() && entry != null && entry.id == i < pb.N()
      modifies this`calls, this`state, linearized
      ensures CacheSound() && ListOk() && Bits(linearized[..]) == Elems(p) + {i} && state == newState
      ensures calls == old(calls) + [CallsEntry(entry, old(state))]
    {
      hide Valid, CacheOk, SameConfigs, StateOf, LinksAt, Holds, Bits, Elems, NodesMatch;
      calls := calls + [CallsEntry(entry, state)];
      state := newState;
      Set(linearized, entry.id);
    }

    /** Takes the call at the cursor out of the list and starts over from the head. */
    method Detach(ghost i: nat)
      requires Setting() && CacheSound() && ListOk() && i < pb.N() && Path(pb, p + [i]) && Numbered(nd)
      requires |pb.rpos| == pb.N() && pb.cpos[i] + 1 < |nd| && pb.rpos[i] + 1 < |nd|
      requires entry == nd[pb.cpos[i] + 1] && entry.mate == nd[pb.rpos[i] + 1]
      requires CanLift(LinksAt(pb, p), pb.cpos[i] + 1, pb.rpos[i] + 1)
      requires LinksAt(pb, p + [i]) == LiftLinks(LinksAt(pb, p), pb.cpos[i] + 1, pb.rpos[i] + 1)
      modifies this`p, this`entry, this`cur, nd
      ensures CacheSound() && ListOk() && p == old(p) + [i] && linearized[..] == old(linearized[..])
      ensures |LinksAt(pb, p).nx| == |nd| && cur == LinksAt(pb, p).nx[0] && entry == At(nd, cur)
    {
      hide Valid, CacheOk, SameConfigs, LinksAt, LiftLinks, CanLift, Holds, Path, NodesMatch, Numbered;
      Lift(entry, nd, LinksAt(pb, p), pb.cpos[i] + 1, pb.rpos[i] + 1);
      p := p + [i];
      NextNode(nd, LinksAt(pb, p), 0);
      entry := head.next;
      cur := LinksAt(pb, p).nx[0];
    }

    /** Takes the call at the cursor: a configuration that is not covered yet. */
    method Take(newEntry: CacheEntry<bv64, S>, ghost i: nat)
      requires Ok() && AtCall(i) && Step(pb, state, i).0 && newEntry.state == Step(pb, state, i).1
      requires newEntry.linearized != linearized && newEntry.linearized.Length == linearized.Length
      requires Bits(newEntry.linearized[..]) == Elems(p) + {i}
      modifies this, nd, linearized
      ensures Ok() && own == old(own) + {newEntry.linearized}
      ensures p == old(p) + [i] && seen == old(seen) + {(Elems(p), StateOf(pb, p))}
      ensures Elems(p) == Elems(old(p)) + {i} && StateOf(pb, p) == newEntry.state
    {
      hide Valid, Searching, CacheOk, SameConfigs, Path, StateOf, Step, LinksAt, LiftLinks, Holds, Bits, CallsMatch,
          NodesMatch, Numbered,
        IsLive, Elems, CanLift, EntryAt, Covered;
      CursorEntry(pb, nd, p, cur);
      TakeLinks(pb, nd, p, seen, cur, i);
      TakeSearch(pb, nd, p, seen, cur, i);
      CallsPush(pb, nd, p, calls, i, CallsEntry(entry, state));
      Remember(newEntry);
      Mark(newEntry.state, i);
      Detach(i);
    }

    /** The branch for a call: take the operation if it leads to a new configuration, else go on. */
    method TryCall()
      requires Ok() && EqualRespectsStep(pb.m) && |p| < pb.N() && entry != null && entry.mate != null
      modifies this, nd, linearized
      ensures Ok() && fresh(own - old(own)) && old(seen) <= seen
      ensures (seen == old(seen) && p == old(p) && cur > old(cur))
              || (exists i :: p == old(p) + [i] && seen == old(seen) + {(Elems(p), StateOf(pb, p))}
                              && (Elems(p), StateOf(pb, p)) !in old(seen))
    {
      hide Valid, Searching, CacheOk, SameConfigs, Path, StateOf, Step, LinksAt, Holds, Bits, CallsMatch, NodesMatch,
          Numbered,
        IsLive, Elems, EntryAt, Covered, EqualRespectsStep;
      CursorEntry(pb, nd, p, cur);
      ghost var i: nat := entry.id;
      var mate := entry.mate;
      var step := model.step(state, entry.value.input, mate.value.output);
      var ok, newState := step.0, step.1;
      if ok {
        var newLinearized := Clone(linearized);
        Set(newLinearized, entry.id);
        var newCacheEntry := CacheEntry(newLinearized, newState);
        var hit := CacheContains(model, cache, newCacheEntry, pb, own, kept, seen);
        if !hit {
          NotCoveredNew(pb, seen, Elems(p) + {i}, newState);
          Take(newCacheEntry, i);
          return;
        }
      }
      TriedNow(pb, seen, Elems(p), state, i);
      Advance(i);
    }

    method Unmark(ghost q: seq<nat>, ghost i: nat)
      requires Setting() && CacheSound() && ListOk() && CallsOk() && p == q + [i] && InRange(pb, q)
      requires Bits(linearized[..]) == Elems(p) && i < WORD * linearized.Length
      requires calls != [] && calls[|calls| - 1].entry.id == i
      modifies this`calls, this`state, this`entry, linearized
      ensures CacheSound() && ListOk() && Bits(linearized[..]) == Elems(p) - {i}
      ensures entry == old(calls[|calls| - 1].entry) && state == old(calls[|calls| - 1].state)
      ensures calls == old(calls[..|calls| - 1])
    {
      hide Valid, CacheOk, SameConfigs, StateOf, LinksAt, Holds, Bits, Elems, NodesMatch, Path, CallsMatch;
      var callsTop := calls[|calls| - 1];
      entry := callsTop.entry;
      state := callsTop.state;
      Clear(linearized, entry.id);
      calls := calls[..|calls| - 1];
    }

    /** Puts the operation at the top of the stack back into the list and goes on behind it. */
    method Reattach(ghost q: seq<nat>, ghost i: nat)
      requires Setting() && CacheSound() && ListOk() && i < pb.N() && p == q + [i] && InRange(pb, q) && Numbered(nd)
      requires |pb.rpos| == pb.N() && pb.cpos[i] + 1 < |nd| && pb.rpos[i] + 1 < |nd|
      requires entry == nd[pb.cpos[i] + 1] && entry.mate == nd[pb.rpos[i] + 1]
      requires CanUnlift(LinksAt(pb, p), pb.cpos[i] + 1, pb.rpos[i] + 1)
      requires UnliftLinks(LinksAt(pb, p), pb.cpos[i] + 1, pb.rpos[i] + 1) == LinksAt(pb, q)
      modifies this`p, this`entry, this`cur, nd
      ensures CacheSound() && ListOk() && p == q && linearized[..] == old(linearized[..])
      ensures |LinksAt(pb, p).nx| == |nd| && cur == LinksAt(pb, p).nx[pb.cpos[i] + 1] && entry == At(nd, cur)
    {
      hide Valid, CacheOk, SameConfigs, LinksAt, UnliftLinks, CanUnlift, Holds, Path, NodesMatch, Numbered;
      Unlift(entry, nd, LinksAt(pb, p), pb.cpos[i] + 1, pb.rpos[i] + 1);
      p := q;
      NextNode(nd, LinksAt(pb, p), pb.cpos[i] + 1);
      entry := entry.next;
      cur := LinksAt(pb, p).nx[pb.cpos[i] + 1];
    }

    /** The branch for a return: the top of the stack is given up. */
    method GiveUp()
      requires Ok() && EqualRespectsStep(pb.m) && |p| < pb.N() && entry != null && entry.mate == null && calls != []
      modifies this, nd, linearized
      ensures Ok() && own == old(own) && seen == old(seen) && p == old(p[..|p| - 1])
    {
      hide Valid, Searching, CacheOk, SameConfigs, Path, StateOf, Step, LinksAt, LiftLinks, UnliftLinks, Holds, Bits,
          CallsMatch, NodesMatch,
        Numbered, IsLive, Elems, CanUnlift, EntryAt, Covered, EqualRespectsStep;
      CursorEntry(pb, nd, p, cur);
      CallsSize(pb, nd, p, calls);
      ghost var q, i := p[..|p| - 1], p[|p| - 1];
      assert p == q + [i];
      PopPath(pb, q, i);
      CallsPop(pb, nd, q, i, calls);
      PopLinks(pb, nd, q, i);
      PopSearch(pb, nd, q, i, seen, cur);
      Unmark(q, i);
      Reattach(q, i);
    }
  }

  /** An uncovered configuration has not been seen. */
  lemma NotCoveredNew<S(!new), I(!new), O(!new)>(pb: Problem<S, I, O>, seen: set<Config<S>>, d: set<nat>, s: S)
    requires EqualRespectsStep(pb.m) && !Covered(pb, seen, d, s)
    ensures (d, s) !in seen
  {}

  lemma TriedNow<S(!new), I(!new), O(!new)>(pb: Problem<S, I, O>, seen: set<Config<S>>, d: set<nat>, s: S, i: nat)
    requires Valid(pb) && i < pb.N() && (Step(pb, s, i).0 ==> Covered(pb, seen, d + {i}, Step(pb, s, i).1))
    ensures Tried(pb, seen, d, s, i)
  {}

  lemma CallsSize<S, I, O>(pb: Problem<S, I, O>, nd: seq<Node<I, O>>, p: seq<nat>, calls: seq<CallsEntry<S, I, O>>)
    requires Valid(pb) && InRange(pb, p) && CallsMatch(pb, nd, p, calls)
    ensures |calls| == |p|
  {}

  lemma PopPath<S, I, O>(pb: Problem<S, I, O>, q: seq<nat>, i: nat)
    requires Valid(pb) && Path(pb, q + [i])
    ensures Path(pb, q) && i < pb.N() && i !in Elems(q) && Elems(q + [i]) - {i} == Elems(q)
  {
    assert (q + [i])[..|q|] == q && (q + [i])[|q|] == i;
    assert Elems(q + [i]) == Elems(q) + {i};
  }

  lemma PopLinks<S, I, O>(pb: Problem<S, I, O>, nd: seq<Node<I, O>>, q: seq<nat>, i: nat)
    requires Valid(pb) && NodesMatch(pb, nd) && Path(pb, q) && Path(pb, q + [i]) && i < pb.N()
    ensures |pb.rpos| == pb.N() && Numbered(nd) && pb.cpos[i] + 1 < |nd| && pb.rpos[i] + 1 < |nd|
    ensures nd[pb.cpos[i] + 1].mate == nd[pb.rpos[i] + 1] && nd[pb.cpos[i] + 1].id == i
    ensures CanUnlift(LinksAt(pb, q + [i]), pb.cpos[i] + 1, pb.rpos[i] + 1)
    ensures UnliftLinks(LinksAt(pb, q + [i]), pb.cpos[i] + 1, pb.rpos[i] + 1) == LinksAt(pb, q)
  {
    LinksPop(pb, q, i);
    assert OperationAt(pb, i) && NodeMatches(pb, nd, pb.cpos[i]);
  }

  lemma PopSearch<S(!new), I(!new), O(!new)>(pb: Problem<S, I, O>, nd: seq<Node<I, O>>, q: seq<nat>, i: nat,
      seen: set<Config<S>>, cur: nat)
    requires Valid(pb) && NodesMatch(pb, nd) && EqualRespectsStep(pb.m) && Path(pb, q) && i < pb.N() && i !in Elems(q)
    requires 0 < cur < |nd| && |q + [i]| < pb.N() && Searching(pb, q + [i], seen, cur - 1) &&
             IsLive(pb, Elems(q + [i]), cur)
    requires pb.h[cur - 1].isReturn
    ensures |LinksAt(pb, q).nx| == |nd| && pb.cpos[i] + 1 < |nd|
    ensures var next := LinksAt(pb, q).nx[pb.cpos[i] + 1];
            0 < next < |nd| && IsLive(pb, Elems(q), next) && Searching(pb, q, seen, next - 1)
  {
    hide Searching, LinksAt, StateOf, Step, Tried;
    CallHasNext(pb, q, i);
    NextSkips(pb, q, pb.cpos[i] + 1);
    Pop(pb, q, i, seen, cur - 1, LinksAt(pb, q).nx[pb.cpos[i] + 1] - 1);
  }

  lemma TakeLinks<S(!new), I(!new), O(!new)>(pb: Problem<S, I, O>, nd: seq<Node<I, O>>, p: seq<nat>,
      seen: set<Config<S>>, cur: nat, i: nat)
    requires Valid(pb) && NodesMatch(pb, nd) && 0 < cur < |nd| && |p| < pb.N()
    requires Searching(pb, p, seen, cur - 1) && IsLive(pb, Elems(p), cur)
    requires !pb.h[cur - 1].isReturn && pb.h[cur - 1].id == i && i < pb.N() && Step(pb, StateOf(pb, p), i).0
    ensures Path(pb, p + [i]) && Elems(p + [i]) == Elems(p) + {i}
    ensures StateOf(pb, p + [i]) == Step(pb, StateOf(pb, p), i).1
    ensures CanLift(LinksAt(pb, p), pb.cpos[i] + 1, pb.rpos[i] + 1)
    ensures LinksAt(pb, p + [i]) == LiftLinks(LinksAt(pb, p), pb.cpos[i] + 1, pb.rpos[i] + 1)
  {
    CursorEntry(pb, nd, p, cur);
    PushPath(pb, p, seen, cur - 1);
    LinksPush(pb, p, i);
  }

  lemma FirstLive<S, I, O>(pb: Problem<S, I, O>, p: seq<nat>)
    requires Valid(pb) && Path(pb, p)
    ensures |LinksAt(pb, p).nx| == |pb.h| + 1
    ensures var first := LinksAt(pb, p).nx[0];
            && 0 < first <= |pb.h| + 1 && (first <= |pb.h| ==> IsLive(pb, Elems(p), first))
            && (|p| < pb.N() ==> first <= |pb.h|)
            && NoneLeft(pb, Elems(p), 0, first - 1)
  {
    NextSkips(pb, p, 0);
    EmptyIffDone(pb, p);
    PathDistinct(pb, p);
  }

  lemma TakeSearch<S(!new), I(!new), O(!new)>(pb: Problem<S, I, O>, nd: seq<Node<I, O>>, p: seq<nat>,
      seen: set<Config<S>>, cur: nat, i: nat)
    requires Valid(pb) && NodesMatch(pb, nd) && 0 < cur < |nd| && |p| < pb.N()
    requires Searching(pb, p, seen, cur - 1) && IsLive(pb, Elems(p), cur)
    requires !pb.h[cur - 1].isReturn && pb.h[cur - 1].id == i && i < pb.N() && Step(pb, StateOf(pb, p), i).0
    requires Path(pb, p + [i]) && Elems(p + [i]) == Elems(p) + {i}
    requires StateOf(pb, p + [i]) == Step(pb, StateOf(pb, p), i).1
    ensures |LinksAt(pb, p + [i]).nx| == |nd|
    ensures var first := LinksAt(pb, p + [i]).nx[0];
            && 0 < first <= |nd| && (first < |nd| ==> IsLive(pb, Elems(p + [i]), first))
            && (|p + [i]| < pb.N() ==> first < |nd|)
            && Searching(pb, p + [i], seen + {(Elems(p + [i]), StateOf(pb, p + [i]))}, first - 1)
  {
    FirstLive(pb, p + [i]);
    assert EntryAt(pb, cur - 1);
    Push(pb, p, seen, cur - 1, LinksAt(pb, p + [i]).nx[0] - 1);
  }

  lemma AdvanceOk<S(!new), I(!new), O(!new)>(pb: Problem<S, I, O>, nd: seq<Node<I, O>>, p: seq<nat>,
      seen: set<Config<S>>, cur: nat, i: nat)
    requires Valid(pb) && NodesMatch(pb, nd) && 0 < cur < |nd| && |p| < pb.N()
    requires Searching(pb, p, seen, cur - 1) && IsLive(pb, Elems(p), cur)
    requires !pb.h[cur - 1].isReturn && pb.h[cur - 1].id == i && Tried(pb, seen, Elems(p), StateOf(pb, p), i)
    ensures |LinksAt(pb, p).nx| == |nd|
    ensures var next := LinksAt(pb, p).nx[cur];
            cur < next < |nd| && IsLive(pb, Elems(p), next) && Searching(pb, p, seen, next - 1)
  {
    hide LinksAt, StateOf, Step, Tried;
    CursorEntry(pb, nd, p, cur);
    NextSkips(pb, p, cur);
    CallHasNext(pb, p, i);
    Skip(pb, p, seen, cur - 1, LinksAt(pb, p).nx[cur] - 1);
  }

  // ---- the longest partial linearizations ----

  /** The operation numbers of the stack. */
  method Ids<S, I, O>(calls: seq<CallsEntry<S, I, O>>, ghost pb: Problem<S, I, O>, ghost nd: seq<Node<I, O>>,
      ghost p: seq<nat>) returns (ids: seq<nat>)
    requires Valid(pb) && NodesMatch(pb, nd) && InRange(pb, p) && CallsMatch(pb, nd, p, calls)
    ensures ids == p
  {
    ids := [];
    for k := 0 to |calls|
      invariant ids == p[..k]
    {
      CallId(pb, nd, p, calls, k);
      ids := ids + [calls[k].entry.id];
    }
    assert p[..|calls|] == p;
  }

  lemma CallId<S, I, O>(pb: Problem<S, I, O>, nd: seq<Node<I, O>>, p: seq<nat>, calls: seq<CallsEntry<S, I, O>>, k: nat)
    requires Valid(pb) && NodesMatch(pb, nd) && InRange(pb, p) && CallsMatch(pb, nd, p, calls) && k < |p|
    ensures calls[k].entry.id == p[k]
  {
    assert OperationAt(pb, p[k]) && NodeMatches(pb, nd, pb.cpos[p[k]]) && CallMatches(pb, nd, p, calls, k);
  }

  /** No recorded sequence gets lost or shorter. */
  ghost predicate Improves(a: seq<Option<seq<nat>>>, b: seq<Option<seq<nat>>>) {
    |a| == |b| && forall i :: 0 <= i < |a| && a[i].Some? ==> b[i].Some? && |a[i].value| <= |b[i].value|
  }

  /** The first `k` operations of `p` have recorded sequences at least as long as `p`. */
  ghost predicate RecordedUpTo(r: seq<Option<seq<nat>>>, p: seq<nat>, k: nat)
    requires k <= |p|
  {
    forall d :: 0 <= d < k ==> p[d] < |r| && r[p[d]].Some? && |p| <= |r[p[d]].value|
  }

  lemma RecordKeep(r: seq<Option<seq<nat>>>, p: seq<nat>, k: nat)
    requires k < |p| && RecordedUpTo(r, p, k) && p[k] < |r| && r[p[k]].Some? && |p| <= |r[p[k]].value|
    ensures RecordedUpTo(r, p, k + 1)
  {}

  lemma RecordStep<S, I, O>(pb: Problem<S, I, O>, longest: seq<Option<seq<nat>>>, r: seq<Option<seq<nat>>>,
      p: seq<nat>, k: nat)
    requires Valid(pb) && Path(pb, p) && LongestOk(pb, r) && Improves(longest, r) && k < |p| && RecordedUpTo(r, p, k)
    requires p[k] < |r| && (r[p[k]].None? || |p| > |r[p[k]].value|)
    ensures LongestOk(pb, r[p[k] := Some(p)]) && Improves(longest, r[p[k] := Some(p)]) &&
            RecordedUpTo(r[p[k] := Some(p)], p, k + 1)
  {
    hide Path, Valid;
    var r' := r[p[k] := Some(p)];
    assert p[k] in p;
    forall i | 0 <= i < |r'| && r'[i].Some? ensures Path(pb, r'[i].value) && i in r'[i].value {
      if i != p[k] {
        assert r'[i] == r[i];
      }
    }
    assert Improves(longest, r') by {
      ImprovesOne(longest, r, p[k], p);
    }
    RecordedOne(r, p, k);
  }

  lemma ImprovesOne(longest: seq<Option<seq<nat>>>, r: seq<Option<seq<nat>>>, i: nat, p: seq<nat>)
    requires Improves(longest, r) && i < |r| && (r[i].None? || |p| > |r[i].value|)
    ensures Improves(longest, r[i := Some(p)])
  {}

  lemma RecordedOne(r: seq<Option<seq<nat>>>, p: seq<nat>, k: nat)
    requires k < |p| && RecordedUpTo(r, p, k) && p[k] < |r|
    ensures RecordedUpTo(r[p[k] := Some(p)], p, k + 1)
  {}

  /** Records the stack for every operation on it that has no sequence as long yet. */
  method Record<S(!new), I(!new), O(!new)>(calls: seq<CallsEntry<S, I, O>>, longest: seq<Option<seq<nat>>>,
      ghost pb: Problem<S, I, O>, ghost nd: seq<Node<I, O>>, ghost p: seq<nat>) returns (r: seq<Option<seq<nat>>>)
    requires Valid(pb) && NodesMatch(pb, nd) && Path(pb, p) && CallsMatch(pb, nd, p, calls) && LongestOk(pb, longest)
    ensures LongestOk(pb, r) && Improves(longest, r) && Recorded(r, Elems(p))
  {
    hide CallsMatch, NodesMatch, Valid, RecordedUpTo, Improves, Path;
    r := longest;
    assert InRange(pb, p) && Improves(longest, r) && RecordedUpTo(r, p, 0) by {
      RecordStart(pb, longest, p);
    }
    CallsSize(pb, nd, p, calls);
    var ids: Option<seq<nat>> := None;
    for k := 0 to |calls|
      invariant ids.Some? ==> ids.value == p
      invariant LongestOk(pb, r) && Improves(longest, r) && RecordedUpTo(r, p, k)
    {
      CallId(pb, nd, p, calls, k);
      var id: nat := calls[k].entry.id;
      if r[id].None? || |calls| > |r[id].value| {
        if ids.None? {
          var seq' := Ids(calls, pb, nd, p);
          ids := Some(seq');
        }
        RecordStep(pb, longest, r, p, k);
        r := r[id := ids];
      } else {
        RecordKeep(r, p, k);
      }
    }
    RecordEnd(pb, r, p);
  }

  lemma RecordStart<S, I, O>(pb: Problem<S, I, O>, longest: seq<Option<seq<nat>>>, p: seq<nat>)
    requires Valid(pb) && Path(pb, p)
    ensures InRange(pb, p) && Improves(longest, longest) && RecordedUpTo(longest, p, 0)
  {}

  lemma RecordEnd<S, I, O>(pb: Problem<S, I, O>, r: seq<Option<seq<nat>>>, p: seq<nat>)
    requires Valid(pb) && Path(pb, p) && RecordedUpTo(r, p, |p|)
    ensures Recorded(r, Elems(p))
  {
    PathDistinct(pb, p);
  }

  lemma RecordedPop<S(!new), I(!new), O(!new)>(pb: Problem<S, I, O>, q: seq<nat>, i: nat, seen: set<Config<S>>,
      a: seq<Option<seq<nat>>>, b: seq<Option<seq<nat>>>)
    requires Valid(pb) && Path(pb, q + [i]) && InRange(pb, q) && AllRecorded(pb, q + [i], seen, a)
    requires Improves(a, b) && Recorded(b, Elems(q + [i]))
    ensures AllRecorded(pb, q, seen, b)
  {
    var p := q + [i];
    forall c | c in seen ensures OnStack(pb, q, c) || Recorded(b, c.0) {
      if OnStack(pb, p, c) {
        var d :| 1 <= d <= |p| && c == ConfigAt(pb, p, d);
        if d <= |q| {
          assert p[|q|] == i;
          ConfigAtPrefix(pb, q, i, d);
        } else {
          assert p[..d] == p;
        }
      }
    }
  }

  lemma RecordedPush<S(!new), I(!new), O(!new)>(pb: Problem<S, I, O>, p: seq<nat>, i: nat, seen: set<Config<S>>,
      longest: seq<Option<seq<nat>>>)
    requires Valid(pb) && InRange(pb, p) && Path(pb, p + [i]) && AllRecorded(pb, p, seen, longest)
    ensures AllRecorded(pb, p + [i], seen + {(Elems(p + [i]), StateOf(pb, p + [i]))}, longest)
  {
    var p' := p + [i];
    assert p'[|p|] == i && p'[..|p'|] == p';
    forall c | c in seen + {(Elems(p'), StateOf(pb, p'))} ensures OnStack(pb, p', c) || Recorded(longest, c.0) {
      if c == (Elems(p'), StateOf(pb, p')) {
        assert c == ConfigAt(pb, p', |p'|);
      } else if OnStack(pb, p, c) {
        var d :| 1 <= d <= |p| && c == ConfigAt(pb, p, d);
        ConfigAtPrefix(pb, p, i, d);
      }
    }
  }

  /** Nothing longer that includes operation `i` is a partial linearization. */
  ghost predicate Longest<S, I, O>(pb: Problem<S, I, O>, longest: seq<Option<seq<nat>>>)
    requires Valid(pb)
  {
    && |longest| == pb.N()
    && forall p, i :: Path(pb, p) && i in p ==> i < |longest| && longest[i].Some? && |p| <= |longest[i].value|
  }

  lemma FailedLongest<S(!new), I(!new), O(!new)>(pb: Problem<S, I, O>, seen: set<Config<S>>, cur: nat,
      longest: seq<Option<seq<nat>>>)
    requires Valid(pb) && Searching(pb, [], seen, cur) && EqualRespectsStep(pb.m)
    requires cur < |pb.h| && pb.h[cur].isReturn && |longest| == pb.N()
    requires AllRecorded(pb, [], seen, longest)
    ensures Longest(pb, longest)
  {
    forall p, i | Path(pb, p) && i in p ensures i < |longest| && longest[i].Some? && |p| <= |longest[i].value| {
      Failed(pb, seen, cur, p);
      PathDistinct(pb, p);
      var t :| (Elems(p), t) in seen && pb.m.equal(StateOf(pb, p), t);
      assert Recorded(longest, (Elems(p), t).0);
      assert i in Elems(p);
    }
  }

  lemma FailedUnsolvable<S(!new), I(!new), O(!new)>(pb: Problem<S, I, O>, seen: set<Config<S>>, cur: nat)
    requires Valid(pb) && Searching(pb, [], seen, cur) && EqualRespectsStep(pb.m)
    requires cur < |pb.h| && pb.h[cur].isReturn
    ensures !Solvable(pb)
  {
    forall p | Path(pb, p) ensures |p| < pb.N() {
      Failed(pb, seen, cur, p);
    }
  }

  lemma DoneLongest<S, I, O>(pb: Problem<S, I, O>, p: seq<nat>, longest: seq<Option<seq<nat>>>)
    requires Valid(pb) && Path(pb, p) && |p| == pb.N() && |longest| == pb.N()
    requires forall i :: 0 <= i < pb.N() ==> longest[i] == Some(p)
    ensures LongestOk(pb, longest) && Longest(pb, longest)
  {
    PathDistinct(pb, p);
    BelowSize(Elems(p), pb.N());
    forall i: nat | i < pb.N() ensures i in p {
      assert i in Elems(p);
    }
    forall q, i | Path(pb, q) && i in q ensures i < |longest| && |q| <= |longest[i].value| {
      PathDistinct(pb, q);
    }
  }

  // ---- checkSingle ----

  /** The kill flag was not set at any of the first `looks` looks. */
  ghost predicate Unseen(kill: nat -> bool, looks: nat) {
    forall t: nat :: t < looks ==> !kill(t)
  }

  lemma HeadInFront<S, I, O>(pb: Problem<S, I, O>, ns: seq<Node<I, O>>, head: Node<I, O>)
    requires Valid(pb) && NodesOf(pb.h, ns, 0) && head.pos == 0
    ensures NodesMatch(pb, [head] + ns)
  {
    var nd := [head] + ns;
    forall k | 0 <= k < |pb.h| ensures NodeMatches(pb, nd, k) && nd[k + 1].pos == k + 1 {
      assert NodeOf(pb.h, ns, k, 0) && EntryAt(pb, k);
      var i := pb.h[k].id;
      assert OperationAt(pb, i);
      if !pb.h[k].isReturn {
        var j := NextReturn(pb.h, i, k);
        assert j < |pb.h| ==> EntryAt(pb, j);
        assert j == pb.rpos[i];
      }
    }
    forall j | 0 <= j < |nd| ensures nd[j].pos == j {
      if j > 0 {
        assert NodeMatches(pb, nd, j - 1) && nd[j - 1 + 1].pos == j;
      }
    }
  }

  lemma NotNil<S(!new), I(!new), O(!new)>(s: Searcher<S, I, O>)
    requires s.Ok()
    ensures s.head.next != null <==> |s.p| < s.pb.N()
    ensures |s.p| <= s.pb.N()
    ensures |s.p| < s.pb.N() ==>
              && s.entry != null && 0 < s.cur < |s.nd| == |s.pb.h| + 1 && s.entry == s.nd[s.cur]
              && IsLive(s.pb, Elems(s.p), s.cur)
  {
    hide Searching, CacheOk, SameConfigs, StateOf, LinksAt, Holds, Bits, CallsMatch, IsLive, Elems;
    EmptyIffDone(s.pb, s.p);
    NextNode(s.nd, LinksAt(s.pb, s.p), 0);
    PathDistinct(s.pb, s.p);
    NextSkips(s.pb, s.p, 0);
  }

  /**
   Decides one partition.  `kill(t)` is whether the kill flag is set when the loop looks at it
   for the t-th time; it looks `looks` times.
   */
  method CheckSingle<S(!new), I(!new), O(!new)>(model: Model<S, I, O>, history: seq<Entry<I, O>>, computePartial: bool,
      kill: nat -> bool,
      ghost pb: Problem<S, I, O>) returns (ok: bool, longest: seq<Option<seq<nat>>>, ghost looks: nat)
    requires Valid(pb) && pb.m == model && pb.h == history && EqualRespectsStep(model)
    ensures ok ==> Solvable(pb)
    ensures !ok && Unseen(kill, looks) ==> !Solvable(pb)
    ensures LongestOk(pb, longest)
    ensures computePartial && Unseen(kill, looks) ==> Longest(pb, longest)
  {
    hide Valid, Path, EqualRespectsStep, Longest, Solvable, LongestOk, CallsMatch, NodesMatch, HoldsAll, Going,
        Searcher.Ok;
    ghost var all := FiniteUniverse(pb);
    var s, n := Setup(model, history, pb);
    longest := seq(n, _ => None);
    SetupGoing(s, pb, longest, computePartial, all);
    var tick := 0;
    GoingFacts(s, pb, longest, computePartial, all);
    while s.head.next != null
      invariant Going(s, pb, longest, computePartial, all) && LongestOk(pb, longest) && s.seen <= all
      invariant fresh(s) && fresh(s.linearized) && (forall j :: 0 <= j < |s.nd| ==> fresh(s.nd[j]))
      invariant |s.p| <= pb.N() && (s.head.next != null <==> |s.p| < pb.N())
      decreases all - s.seen, |s.p|, |s.nd| - s.cur
    {
      if kill(tick) {
        return false, longest, tick + 1;
      }
      tick := tick + 1;
      var stop: bool;
      stop, longest := Round(s, computePartial, longest, pb, all);
      if stop {
        return false, longest, tick;
      }
      GoingFacts(s, pb, longest, computePartial, all);
    }
    GoingFacts(s, pb, longest, computePartial, all);
    var seq' := Ids(s.calls, pb, s.nd, s.p);
    longest := seq(n, _ => Some(seq'));
    DoneLongest(pb, s.p, longest);
    Found(pb, s.p);
    return true, longest, tick;
  }

  /** What the loop of checkSingle keeps. */
  ghost predicate Going<S(!new), I(!new), O(!new)>(s: Searcher<S, I, O>, pb: Problem<S, I, O>,
      longest: seq<Option<seq<nat>>>,
      computePartial: bool, all: set<Config<S>>)
    reads s, s.nd, s.linearized, s.own
  {
    && s.Ok() && s.pb == pb && s.seen <= all && LongestOk(pb, longest)
    && (computePartial ==> AllRecorded(pb, s.p, s.seen, longest))
  }

  lemma GoingFacts<S(!new), I(!new), O(!new)>(s: Searcher<S, I, O>, pb: Problem<S, I, O>,
      longest: seq<Option<seq<nat>>>,
      computePartial: bool, all: set<Config<S>>)
    requires Going(s, pb, longest, computePartial, all)
    ensures Valid(pb) && LongestOk(pb, longest) && s.seen <= all && Path(pb, s.p) && InRange(pb, s.p)
    ensures NodesMatch(pb, s.nd) && CallsMatch(pb, s.nd, s.p, s.calls)
    ensures |s.p| <= pb.N() && (s.head.next != null <==> |s.p| < pb.N()) && s.cur <= |s.nd|
  {
    hide Searching, CacheOk, SameConfigs, StateOf, Holds, Bits;
    NotNil(s);
  }

  lemma SetupGoing<S(!new), I(!new), O(!new)>(s: Searcher<S, I, O>, pb: Problem<S, I, O>,
      longest: seq<Option<seq<nat>>>,
      computePartial: bool, all: set<Config<S>>)
    requires s.Ok() && s.pb == pb && s.p == [] && s.seen == {}
    requires |longest| == pb.N() && forall i :: 0 <= i < |longest| ==> longest[i].None?
    ensures Going(s, pb, longest, computePartial, all)
  {
    hide Searching, CacheOk, SameConfigs, StateOf, Holds, Bits, Path;
    SetupLongest(pb, longest);
  }

  /** One iteration takes the search on: a new configuration, a shorter stack, or a later entry. */
  twostate predicate Progress<S(!new), I(!new), O(!new)>(s: Searcher<S, I, O>)
    reads s
  {
    || old(s.seen) < s.seen
    || (s.seen == old(s.seen) && |s.p| < |old(s.p)|)
    || (s.seen == old(s.seen) && s.p == old(s.p) && s.cur > old(s.cur))
  }

  /** Lines 194-242: one iteration, stopping when the stack is empty and nothing is left to try. */
  method Round<S(!new), I(!new), O(!new)>(s: Searcher<S, I, O>, computePartial: bool, longest: seq<Option<seq<nat>>>,
      ghost pb: Problem<S, I, O>, ghost all: set<Config<S>>) returns (stop: bool, longest': seq<Option<seq<nat>>>)
    requires Going(s, pb, longest, computePartial, all) && |s.p| < pb.N()
    requires EqualRespectsStep(pb.m) && HoldsAll(pb, all)
    modifies s, s.nd, s.linearized
    ensures LongestOk(pb, longest')
    ensures stop ==> !Solvable(pb) && (computePartial ==> Longest(pb, longest'))
    ensures !stop ==> Going(s, pb, longest', computePartial, all) && Progress(s)
  {
    hide Valid, Searching, CacheOk, SameConfigs, Path, StateOf, Step, LinksAt, Holds, Bits, CallsMatch, NodesMatch,
        Numbered,
      IsLive, Elems, EntryAt, Covered, EqualRespectsStep, AllRecorded, Longest, Solvable, LongestOk, HoldsAll;
    NotNil(s);
    CursorEntry(pb, s.nd, s.p, s.cur);
    longest' := longest;
    if s.entry.mate != null {
      ghost var p, seen := s.p, s.seen;
      s.TryCall();
      if s.p != p {
        TookCall(pb, p, s.p, seen, s.seen, all, longest, computePartial);
      }
      return false, longest';
    }
    CallsSize(pb, s.nd, s.p, s.calls);
    if |s.calls| == 0 {
      assert s.p == [];
      FailedUnsolvable(pb, s.seen, s.cur - 1);
      if computePartial {
        LongestSize(pb, longest);
        FailedLongest(pb, s.seen, s.cur - 1, longest);
      }
      return true, longest';
    }
    ghost var q, i := s.p[..|s.p| - 1], s.p[|s.p| - 1];
    assert s.p == q + [i];
    PopPath(pb, q, i);
    if computePartial {
      longest' := Record(s.calls, longest, pb, s.nd, s.p);
      RecordedPop(pb, q, i, s.seen, longest, longest');
    }
    s.GiveUp();
    return false, longest';
  }

  lemma LongestSize<S, I, O>(pb: Problem<S, I, O>, longest: seq<Option<seq<nat>>>)
    requires Valid(pb) && LongestOk(pb, longest)
    ensures |longest| == pb.N()
  {}

  lemma Found<S, I, O>(pb: Problem<S, I, O>, p: seq<nat>)
    requires Valid(pb) && Path(pb, p) && |p| == pb.N()
    ensures Solvable(pb)
  {}

  lemma TookCall<S(!new), I(!new), O(!new)>(pb: Problem<S, I, O>, p: seq<nat>, p': seq<nat>, seen: set<Config<S>>,
      more: set<Config<S>>,
      all: set<Config<S>>, longest: seq<Option<seq<nat>>>, computePartial: bool)
    requires Valid(pb) && InRange(pb, p) && Path(pb, p') && (computePartial ==> AllRecorded(pb, p, seen, longest))
    requires (exists i :: p' == p + [i]) && more == seen + {(Elems(p'), StateOf(pb, p'))}
    requires seen <= all && HoldsAll(pb, all)
    ensures more <= all && (computePartial ==> AllRecorded(pb, p', more, longest))
  {
    var i :| p' == p + [i];
    if computePartial {
      RecordedPush(pb, p, i, seen, longest);
    }
  }

  /** Lines 180-189: the list with its head, and an empty bitset. */
  method Setup<S(!new), I(!new), O(!new)>(model: Model<S, I, O>, history: seq<Entry<I, O>>, ghost pb: Problem<S, I, O>)
      returns (s: Searcher<S, I, O>, n: nat)
    requires Valid(pb) && pb.m == model && pb.h == history
    ensures s.Ok() && s.pb == pb && s.p == [] && s.seen == {} && n == pb.N()
    ensures fresh(s) && fresh(s.linearized) && (forall j :: 0 <= j < |s.nd| ==> fresh(s.nd[j]))
  {
    hide NodesMatch, Numbered, NodesOf, InARow, Holds, Bits, Searching, Path, LinksAt, CacheOk;
    var entry, ns := MakeLinkedEntries(history);
    NodesDiffer(history, ns);
    var l := Length(entry, ns);
    n := l / 2;
    var linearized := NewBitset(n);
    var headNode := new Node(Nil, null, -1, 0);
    HeadInFront(pb, ns, headNode);
    ghost var nd := [headNode] + ns;
    assert ns != [] ==> ns[0] in ns;
    var head := Prepend(headNode, entry, ns);
    assert forall j :: 0 < j < |nd| ==> nd[j] == ns[j - 1] && nd[j] in ns;
    s := new Searcher(model, head, entry, linearized, pb, nd);
  }

  lemma NodesDiffer<I, O>(h: seq<Entry<I, O>>, ns: seq<Node<I, O>>)
    requires NodesOf(h, ns, 0)
    ensures |ns| == |h| && forall j :: 0 < j < |ns| ==> ns[j] != ns[0]
  {
    forall j | 0 <= j < |ns| ensures ns[j].pos == j + 1 {
      assert NodeOf(h, ns, j, 0);
    }
  }

  lemma SetupLongest<S(!new), I(!new), O(!new)>(pb: Problem<S, I, O>, longest: seq<Option<seq<nat>>>)
    requires Valid(pb) && |longest| == pb.N() && forall i :: 0 <= i < |longest| ==> longest[i].None?
    ensures LongestOk(pb, longest) && AllRecorded(pb, [], {}, longest)
  {}
}
