module MrData {
  // The data of a MapReduce job (src/mr/worker.go) and the sequential job it should agree with
  // (src/main/mrsequential.go).  The application's functions, and the hash of a key, are parameters.

  import opened Sorting

  datatype KeyValue = KeyValue(key: string, value: string)

  /** A line of output: the key, and what Reduce made of its values. */
  datatype Line = Line(key: string, output: string)

  type MapF = (string, string) -> seq<KeyValue>

  type ReduceF = (string, seq<string>) -> string

  predicate KeyLess(a: KeyValue, b: KeyValue) {
    StringLess(a.key, b.key)
  }

  // ---- values and buckets ----

  function ValuesOf(kvs: seq<KeyValue>, key: string): seq<string> {
    if kvs == [] then []
    else
      var kv := kvs[|kvs| - 1];
      ValuesOf(kvs[..|kvs| - 1], key) + if kv.key == key then [kv.value] else []
  }

  function BucketOf(kvs: seq<KeyValue>, hash: string -> nat, r: nat, n: nat): seq<KeyValue>
    requires n > 0
  {
    if kvs == [] then []
    else
      var kv := kvs[|kvs| - 1];
      BucketOf(kvs[..|kvs| - 1], hash, r, n) + if hash(kv.key) % n == r then [kv] else []
  }

  function Flat<T>(parts: seq<seq<T>>): seq<T> {
    if parts == [] then [] else Flat(parts[..|parts| - 1]) + parts[|parts| - 1]
  }

  lemma {:induction false} ValuesJoined(a: seq<KeyValue>, b: seq<KeyValue>, key: string)
    ensures ValuesOf(a + b, key) == ValuesOf(a, key) + ValuesOf(b, key)
    decreases |b|
  {
    if b == [] {
      assert a + b == a;
    } else {
      ValuesJoined(a, b[..|b| - 1], key);
      assert (a + b)[..|a + b| - 1] == a + b[..|b| - 1];
    }
  }

  lemma {:induction false} BucketJoined(a: seq<KeyValue>, b: seq<KeyValue>, hash: string -> nat, r: nat, n: nat)
    requires n > 0
    ensures BucketOf(a + b, hash, r, n) == BucketOf(a, hash, r, n) + BucketOf(b, hash, r, n)
    decreases |b|
  {
    if b == [] {
      assert a + b == a;
    } else {
      BucketJoined(a, b[..|b| - 1], hash, r, n);
      assert (a + b)[..|a + b| - 1] == a + b[..|b| - 1];
    }
  }

  lemma {:induction false} ValueCounts(kvs: seq<KeyValue>, key: string, value: string)
    ensures multiset(ValuesOf(kvs, key))[value] == multiset(kvs)[KeyValue(key, value)]
  {
    if kvs != [] {
      ValueCounts(kvs[..|kvs| - 1], key, value);
      assert kvs == kvs[..|kvs| - 1] + [kvs[|kvs| - 1]];
    }
  }

  lemma {:induction false} BucketCounts(kvs: seq<KeyValue>, hash: string -> nat, r: nat, n: nat, kv: KeyValue)
    requires n > 0
    ensures multiset(BucketOf(kvs, hash, r, n))[kv] == if hash(kv.key) % n == r then multiset(kvs)[kv] else 0
  {
    if kvs != [] {
      BucketCounts(kvs[..|kvs| - 1], hash, r, n, kv);
      assert kvs == kvs[..|kvs| - 1] + [kvs[|kvs| - 1]];
    }
  }

  /** Rearranging pairs rearranges the values of each key, and each bucket. */
  lemma ValuesRearranged(a: seq<KeyValue>, b: seq<KeyValue>, key: string)
    requires multiset(a) == multiset(b)
    ensures multiset(ValuesOf(a, key)) == multiset(ValuesOf(b, key))
  {
    forall value ensures multiset(ValuesOf(a, key))[value] == multiset(ValuesOf(b, key))[value] {
      ValueCounts(a, key, value);
      ValueCounts(b, key, value);
    }
  }

  lemma BucketRearranged(a: seq<KeyValue>, b: seq<KeyValue>, hash: string -> nat, r: nat, n: nat)
    requires n > 0 && multiset(a) == multiset(b)
    ensures multiset(BucketOf(a, hash, r, n)) == multiset(BucketOf(b, hash, r, n))
  {
    forall kv ensures multiset(BucketOf(a, hash, r, n))[kv] == multiset(BucketOf(b, hash, r, n))[kv] {
      BucketCounts(a, hash, r, n, kv);
      BucketCounts(b, hash, r, n, kv);
    }
  }

  /** A bucket has all the values of its keys, and none of any other. */
  lemma {:induction false} ValuesOfBucket(kvs: seq<KeyValue>, hash: string -> nat, r: nat, n: nat, key: string)
    requires n > 0
    ensures ValuesOf(BucketOf(kvs, hash, r, n), key) == if hash(key) % n == r then ValuesOf(kvs, key) else []
  {
    if kvs != [] {
      var kv := kvs[|kvs| - 1];
      var rest := BucketOf(kvs[..|kvs| - 1], hash, r, n);
      ValuesOfBucket(kvs[..|kvs| - 1], hash, r, n, key);
      if hash(kv.key) % n == r {
        assert (rest + [kv])[..|rest|] == rest;
      } else {
        assert BucketOf(kvs, hash, r, n) == rest;
      }
    }
  }

  // ---- what a job should put out ----

  ghost predicate NoTwice<T(!new)>(s: seq<T>) {
    forall i, j :: 0 <= i < j < |s| ==> s[i] != s[j]
  }

  ghost predicate RightLine(l: Line, kvs: seq<KeyValue>, reducef: ReduceF) {
    ValuesOf(kvs, l.key) != [] && l.output == reducef(l.key, ValuesOf(kvs, l.key))
  }

  /** One line for each key there is, with what Reduce makes of all its values. */
  ghost predicate Reduces(lines: seq<Line>, kvs: seq<KeyValue>, reducef: ReduceF) {
    NoTwice(lines) && forall l :: l in lines <==> RightLine(l, kvs, reducef)
  }

  /** Reduce does not depend on the order of the values. */
  ghost predicate Insensitive(reducef: ReduceF) {
    forall key, v, w :: multiset(v) == multiset(w) ==> reducef(key, v) == reducef(key, w)
  }

  /** There is only one right output, up to the order of lines. */
  lemma SameLines(a: seq<Line>, b: seq<Line>, kvs: seq<KeyValue>, reducef: ReduceF)
    requires Reduces(a, kvs, reducef) && Reduces(b, kvs, reducef)
    ensures multiset(a) == multiset(b)
  {
    forall l ensures multiset(a)[l] == multiset(b)[l] {
      AtMostOnce(a, l);
      AtMostOnce(b, l);
      assert l in a <==> l in multiset(a);
      assert l in b <==> l in multiset(b);
      assert l in a <==> RightLine(l, kvs, reducef);
      assert l in b <==> RightLine(l, kvs, reducef);
    }
  }

  lemma ReducesRearranged(lines: seq<Line>, a: seq<KeyValue>, b: seq<KeyValue>, reducef: ReduceF)
    requires Insensitive(reducef) && multiset(a) == multiset(b) && Reduces(lines, a, reducef)
    ensures Reduces(lines, b, reducef)
  {
    forall l ensures RightLine(l, a, reducef) <==> RightLine(l, b, reducef) {
      ValuesRearranged(a, b, l.key);
      var v, w := ValuesOf(a, l.key), ValuesOf(b, l.key);
      assert |v| == |multiset(v)| && |w| == |multiset(w)|;
      assert reducef(l.key, v) == reducef(l.key, w);
    }
  }

  // ---- the buckets together ----

  lemma {:induction false} FlatMember<T>(parts: seq<seq<T>>, x: T)
    ensures x in Flat(parts) <==> exists r :: 0 <= r < |parts| && x in parts[r]
  {
    if parts != [] {
      FlatMember(parts[..|parts| - 1], x);
      forall r | 0 <= r < |parts| - 1 ensures parts[..|parts| - 1][r] == parts[r] {}
    }
  }

  lemma JoinedOnce<T(!new)>(a: seq<T>, b: seq<T>)
    requires NoTwice(a) && NoTwice(b) && forall x :: x in a ==> x !in b
    ensures NoTwice(a + b)
  {
    forall i, j | 0 <= i < j < |a + b| ensures (a + b)[i] != (a + b)[j] {
      if i < |a| <= j {
        assert a[i] in a && b[j - |a|] in b;
      }
    }
  }

  ghost predicate EachReduces(outs: seq<seq<Line>>, kvs: seq<KeyValue>, hash: string -> nat, n: nat, reducef: ReduceF)
    requires n > 0
  {
    forall r {:trigger outs[r]} :: 0 <= r < |outs| ==> Reduces(outs[r], BucketOf(kvs, hash, r, n), reducef)
  }

  lemma {:induction false} FlatOnce(outs: seq<seq<Line>>, kvs: seq<KeyValue>, hash: string -> nat, n: nat,
      reducef: ReduceF)
    requires n > 0 && EachReduces(outs, kvs, hash, n, reducef)
    ensures NoTwice(Flat(outs)) && forall l :: l in Flat(outs) ==> hash(l.key) % n < |outs|
  {
    if outs != [] {
      var rest, r := outs[..|outs| - 1], |outs| - 1;
      assert EachReduces(rest, kvs, hash, n, reducef) by {
        forall q | 0 <= q < |rest| ensures Reduces(rest[q], BucketOf(kvs, hash, q, n), reducef) {
          assert rest[q] == outs[q];
        }
      }
      FlatOnce(rest, kvs, hash, n, reducef);
      forall l | l in outs[r] ensures hash(l.key) % n == r {
        assert RightLine(l, BucketOf(kvs, hash, r, n), reducef);
        ValuesOfBucket(kvs, hash, r, n, l.key);
      }
      JoinedOnce(Flat(rest), outs[r]);
    }
  }

  lemma BucketLine(out: seq<Line>, kvs: seq<KeyValue>, hash: string -> nat, r: nat, n: nat, reducef: ReduceF, l: Line)
    requires n > 0 && Reduces(out, BucketOf(kvs, hash, r, n), reducef)
    ensures l in out <==> hash(l.key) % n == r && RightLine(l, kvs, reducef)
  {
    assert l in out <==> RightLine(l, BucketOf(kvs, hash, r, n), reducef);
    ValuesOfBucket(kvs, hash, r, n, l.key);
  }

  /** Right outputs for all the buckets are, together, the right output. */
  lemma BucketsReduce(outs: seq<seq<Line>>, kvs: seq<KeyValue>, hash: string -> nat, n: nat, reducef: ReduceF)
    requires n > 0 && |outs| == n && EachReduces(outs, kvs, hash, n, reducef)
    ensures Reduces(Flat(outs), kvs, reducef)
  {
    FlatOnce(outs, kvs, hash, n, reducef);
    forall l ensures l in Flat(outs) <==> RightLine(l, kvs, reducef) {
      hide RightLine, Flat, Reduces, BucketOf;
      FlatMember(outs, l);
      forall r | 0 <= r < n ensures l in outs[r] <==> hash(l.key) % n == r && RightLine(l, kvs, reducef) {
        BucketLine(outs[r], kvs, hash, r, n, reducef, l);
      }
      var r := hash(l.key) % n;
      assert 0 <= r < n && (l in outs[r] <==> RightLine(l, kvs, reducef));
    }
  }
}
