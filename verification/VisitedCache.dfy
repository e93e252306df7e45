/**
 The cache of visited configurations (src/porcupine/checker.go:140-152, 197-202): buckets by
 hash, each entry holding a bitset of its own, cloned for it, and the model state.
 */
module VisitedCache {

  datatype CacheEntry<W, S> = CacheEntry(linearized: array<W>, state: S)

  type Cache<!H(==), W, S> = map<H, seq<CacheEntry<W, S>>>

  predicate Stored<H(==), W, S>(cache: Cache<H, W, S>, h: H, k: int) {
    h in cache && 0 <= k < |cache[h]|
  }

  /** What an entry stands for: the words of its bitset, and its state. */
  ghost function Content<W, S>(e: CacheEntry<W, S>): (seq<W>, S)
    reads e.linearized
  {
    (e.linearized[..], e.state)
  }

  /** Entry `k` of bucket `h` is in the bucket of its hash, and its bitset is one of `own`. */
  ghost predicate EntryOk<H, W, S>(cache: Cache<H, W, S>, h: H, k: int, own: set<array<W>>, hf: seq<W> -> H)
    requires Stored(cache, h, k)
    reads own
  {
    var e := cache[h][k];
    e.linearized in own && hf(e.linearized[..]) == h
  }

  ghost predicate Represents<H, W, S>(cache: Cache<H, W, S>, h: H, k: int, own: set<array<W>>, c: (seq<W>, S))
    reads own
  {
    && Stored(cache, h, k) && cache[h][k].linearized in own
    && Content(cache[h][k]) == c
  }

  /** The cache holds exactly the configurations `kept`, as words and state. */
  ghost predicate CacheOk<H(!new), W(!new), S(!new)>(cache: Cache<H, W, S>, own: set<array<W>>, kept: set<(seq<W>, S)>,
      hf: seq<W> -> H)
    reads own
  {
    && (forall h, k :: Stored(cache, h, k) ==> EntryOk(cache, h, k, own, hf) && Content(cache[h][k]) in kept)
    && (forall c :: c in kept ==> exists h, k :: Represents(cache, h, k, own, c))
  }

  /** Whatever is kept is in the bucket of its hash. */
  lemma InItsBucket<H(!new), W(!new), S(!new)>(cache: Cache<H, W, S>, own: set<array<W>>, kept: set<(seq<W>, S)>,
      hf: seq<W> -> H, w: seq<W>, s: S)
      returns (k: nat)
    requires CacheOk(cache, own, kept, hf) && (w, s) in kept
    ensures Represents(cache, hf(w), k, own, (w, s))
  {
    var c := (w, s);
    assert c in kept;
    var h, j :| Represents(cache, h, j, own, c);
    assert EntryOk(cache, h, j, own, hf);
    k := j;
  }

  /** Appends to the bucket of the entry's hash. */
  function Store<H(==), W, S>(cache: Cache<H, W, S>, hash: H, entry: CacheEntry<W, S>): Cache<H, W, S> {
    cache[hash := (if hash in cache then cache[hash] else []) + [entry]]
  }

  lemma StoreKeeps<H, W, S>(cache: Cache<H, W, S>, hash: H, entry: CacheEntry<W, S>, h: H, k: int)
    requires Stored(cache, h, k)
    ensures Stored(Store(cache, hash, entry), h, k) && Store(cache, hash, entry)[h][k] == cache[h][k]
  {}

  lemma StoreAdds<H, W, S>(cache: Cache<H, W, S>, hash: H, entry: CacheEntry<W, S>, h: H, k: int)
    requires Stored(Store(cache, hash, entry), h, k) && !Stored(cache, h, k)
    ensures h == hash && Store(cache, hash, entry)[h][k] == entry
  {}

  lemma StoreOk<H(!new), W(!new), S(!new)>(cache: Cache<H, W, S>, own: set<array<W>>, kept: set<(seq<W>, S)>,
      hf: seq<W> -> H, entry: CacheEntry<W, S>)
    requires CacheOk(cache, own, kept, hf)
    ensures CacheOk(Store(cache, hf(entry.linearized[..]), entry), own + {entry.linearized},
                    kept + {Content(entry)}, hf)
  {
    var hash := hf(entry.linearized[..]);
    var cache': Cache<H, W, S> := Store(cache, hash, entry);
    var own' := own + {entry.linearized};
    forall h, k | Stored(cache', h, k) ensures EntryOk(cache', h, k, own', hf) &&
        Content(cache'[h][k]) in kept + {Content(entry)} {
      if Stored(cache, h, k) {
        StoreKeeps(cache, hash, entry, h, k);
        assert EntryOk(cache, h, k, own, hf);
      } else {
        StoreAdds(cache, hash, entry, h, k);
      }
    }
    forall c | c in kept + {Content(entry)} ensures exists h, k :: Represents(cache', h, k, own', c) {
      if c in kept {
        var h, k :| Represents(cache, h, k, own, c);
        StoreKeeps(cache, hash, entry, h, k);
        assert Represents(cache', h, k, own', c);
      } else {
        assert Represents(cache', hash, |cache'[hash]| - 1, own', c);
      }
    }
  }

  /** A configuration with the words `w` and a state equal to `s` is kept. */
  ghost predicate KeptEqual<W, S(!new)>(kept: set<(seq<W>, S)>, w: seq<W>, s: S, equal: (S, S) -> bool) {
    exists t :: (w, t) in kept && equal(s, t)
  }

  ghost predicate Matches<W, S>(e: CacheEntry<W, S>, w: seq<W>, s: S, equal: (S, S) -> bool)
    reads e.linearized
  {
    e.linearized[..] == w && equal(s, e.state)
  }

  lemma FoundInBucket<H(!new), W(!new), S(!new)>(cache: Cache<H, W, S>, own: set<array<W>>, kept: set<(seq<W>, S)>,
      hf: seq<W> -> H,
      h: H, k: int, w: seq<W>, s: S, equal: (S, S) -> bool)
    requires CacheOk(cache, own, kept, hf) && Stored(cache, h, k) && Matches(cache[h][k], w, s, equal)
    ensures KeptEqual(kept, w, s, equal)
  {
    assert Content(cache[h][k]) in kept;
  }

  lemma ItsMatch<H(!new), W(!new), S(!new)>(cache: Cache<H, W, S>, own: set<array<W>>, kept: set<(seq<W>, S)>,
      hf: seq<W> -> H,
      w: seq<W>, s: S, t: S, equal: (S, S) -> bool) returns (k: int)
    requires CacheOk(cache, own, kept, hf) && (w, t) in kept && equal(s, t)
    ensures Stored(cache, hf(w), k) && Matches(cache[hf(w)][k], w, s, equal)
  {
    k := InItsBucket(cache, own, kept, hf, w, t);
  }

  lemma NotInBucket<H(!new), W(!new), S(!new)>(cache: Cache<H, W, S>, own: set<array<W>>, kept: set<(seq<W>, S)>,
      hf: seq<W> -> H,
      w: seq<W>, s: S, equal: (S, S) -> bool)
    requires CacheOk(cache, own, kept, hf)
    requires forall k :: Stored(cache, hf(w), k) ==> !Matches(cache[hf(w)][k], w, s, equal)
    ensures !KeptEqual(kept, w, s, equal)
  {
    if t :| (w, t) in kept && equal(s, t) {
      var k := ItsMatch(cache, own, kept, hf, w, s, t, equal);
      assert false;
    }
  }
}
