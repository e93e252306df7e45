module MrWorker {
  // What a MapReduce worker does with the data of a task (src/mr/worker.go), and the sequential job
  // (src/main/mrsequential.go), as they are written.

  import opened Sorting
  import opened MrData

  /** What Map makes of input files, one after the other. */
  function Mapped(mapf: MapF, contents: map<string, string>, inputs: seq<string>): seq<KeyValue>
    requires forall f :: f in inputs ==> f in contents
  {
    if inputs == [] then []
    else
      var f := inputs[|inputs| - 1];
      Mapped(mapf, contents, inputs[..|inputs| - 1]) + mapf(f, contents[f])
  }

  /** Map is given the name and the contents of each file, and what it makes of them is joined. */
  lemma MappedIsFlat(mapf: MapF, contents: map<string, string>, inputs: seq<string>)
    requires forall f :: f in inputs ==> f in contents
    ensures Mapped(mapf, contents, inputs) ==
            Flat(seq(|inputs|, i requires 0 <= i < |inputs| => mapf(inputs[i], contents[inputs[i]])))
  {
    hide Mapped, Flat;
    MappedJoins(mapf, contents, inputs,
                seq(|inputs|, i requires 0 <= i < |inputs| => mapf(inputs[i], contents[inputs[i]])));
  }

  lemma {:induction false} MappedJoins(mapf: MapF, contents: map<string, string>, inputs: seq<string>,
      parts: seq<seq<KeyValue>>)
    requires |parts| == |inputs| && forall f :: f in inputs ==> f in contents
    requires forall i {:trigger parts[i]} :: 0 <= i < |inputs| ==> parts[i] == mapf(inputs[i], contents[inputs[i]])
    ensures Mapped(mapf, contents, inputs) == Flat(parts)
  {
    if inputs != [] {
      MappedJoins(mapf, contents, inputs[..|inputs| - 1], parts[..|inputs| - 1]);
    }
  }

  lemma KeyOrder()
    ensures StrictWeakOrder(KeyLess)
  {
    StringOrder();
    forall a, b | KeyLess(a, b) ensures !KeyLess(b, a) {
      assert StringLess(a.key, b.key);
    }
    forall a, b, c | KeyLess(a, c) ensures KeyLess(a, b) || KeyLess(b, c) {
      assert StringLess(a.key, c.key);
    }
  }

  /** sort.Sort(ByKey(kvs)). */
  method SortByKey(kvs: seq<KeyValue>) returns (sorted: seq<KeyValue>)
    ensures SortOf(sorted, kvs, KeyLess)
  {
    KeyOrder();
    SortExists(kvs, KeyLess);
    sorted :| SortOf(sorted, kvs, KeyLess);
  }

  /** Reads the inputs and maps them; a file that cannot be opened is the end of the process. */
  method MapAll(mapf: MapF, contents: map<string, string>, inputs: seq<string>) returns (ok: bool, kvs: seq<KeyValue>)
    ensures ok <==> forall f :: f in inputs ==> f in contents
    ensures ok ==> kvs == Mapped(mapf, contents, inputs)
  {
    kvs := [];
    for i := 0 to |inputs|
      invariant forall f :: f in inputs[..i] ==> f in contents
      invariant kvs == Mapped(mapf, contents, inputs[..i])
    {
      var f := inputs[i];
      if f !in contents {
        assert f in inputs;
        return false, [];
      }
      assert inputs[..i + 1] == inputs[..i] + [f];
      kvs := kvs + mapf(f, contents[f]);
    }
    assert inputs[..|inputs|] == inputs;
    ok := true;
  }

  /** Each pair goes to the file of its bucket, in order. */
  method WriteIntoTmpFiles(numFiles: nat, kva: seq<KeyValue>, hash: string -> nat) returns (files: seq<seq<KeyValue>>)
    requires numFiles > 0
    ensures |files| == numFiles && forall r {:trigger files[r]} :: 0 <= r < numFiles ==>
            files[r] == BucketOf(kva, hash, r, numFiles)
  {
    files := [];
    for i := 0 to numFiles
      invariant |files| == i && forall r {:trigger files[r]} :: 0 <= r < i ==> files[r] == []
    {
      files := files + [[]];
    }
    for i := 0 to |kva|
      invariant |files| == numFiles && forall r {:trigger files[r]} :: 0 <= r < numFiles ==>
                files[r] == BucketOf(kva[..i], hash, r, numFiles)
    {
      var kv := kva[i];
      var idx := hash(kv.key) % numFiles;
      assert kva[..i + 1][..i] == kva[..i];
      files := files[idx := files[idx] + [kv]];
    }
    assert kva[..|kva|] == kva;
  }

  /**
   The files a map task leaves: what Map makes of the name and contents of its inputs, each pair in
   the file of its bucket and nowhere else, those of each file in the order of keys.
   */
  method DoMap(mapf: MapF, contents: map<string, string>, inputs: seq<string>, numFiles: nat, hash: string -> nat)
    returns (ok: bool, files: seq<seq<KeyValue>>)
    requires numFiles > 0
    ensures ok <==> forall f :: f in inputs ==> f in contents
    ensures ok ==> |files| == numFiles && forall r {:trigger files[r]} :: 0 <= r < numFiles ==>
              InOrder(files[r], KeyLess) && multiset(files[r]) ==
                  multiset(BucketOf(Mapped(mapf, contents, inputs), hash, r, numFiles))
    ensures ok ==>
              var pairs := Flat(seq(|inputs|, i requires 0 <= i < |inputs| => mapf(inputs[i], contents[inputs[i]])));
              forall r, kv {:trigger multiset(files[r])[kv]} :: 0 <= r < numFiles ==>
                multiset(files[r])[kv] == if hash(kv.key) % numFiles == r then multiset(pairs)[kv] else 0
  {
    var intermediate;
    ok, intermediate := MapAll(mapf, contents, inputs);
    if !ok {
      return false, [];
    }
    var sorted := SortByKey(intermediate);
    files := WriteIntoTmpFiles(numFiles, sorted, hash);
    hide BucketOf, Mapped, Flat, InOrder;
    FilesSorted(files, sorted, intermediate, hash, numFiles);
    FilesCounted(files, intermediate, hash, numFiles);
    MappedIsFlat(mapf, contents, inputs);
  }

  lemma FilesSorted(files: seq<seq<KeyValue>>, sorted: seq<KeyValue>, kvs: seq<KeyValue>, hash: string -> nat, n: nat)
    requires n > 0 && |files| == n && SortOf(sorted, kvs, KeyLess)
    requires forall r {:trigger files[r]} :: 0 <= r < n ==> files[r] == BucketOf(sorted, hash, r, n)
    ensures forall r {:trigger files[r]} :: 0 <= r < n ==>
              InOrder(files[r], KeyLess) && multiset(files[r]) == multiset(BucketOf(kvs, hash, r, n))
  {
    forall r | 0 <= r < n
      ensures InOrder(files[r], KeyLess) && multiset(files[r]) == multiset(BucketOf(kvs, hash, r, n))
    {
      BucketRearranged(sorted, kvs, hash, r, n);
      BucketInOrder(sorted, hash, r, n);
    }
  }

  lemma FilesCounted(files: seq<seq<KeyValue>>, kvs: seq<KeyValue>, hash: string -> nat, n: nat)
    requires n > 0 && |files| == n
    requires forall r {:trigger files[r]} :: 0 <= r < n ==> multiset(files[r]) == multiset(BucketOf(kvs, hash, r, n))
    ensures forall r, kv {:trigger multiset(files[r])[kv]} :: 0 <= r < n ==>
              multiset(files[r])[kv] == if hash(kv.key) % n == r then multiset(kvs)[kv] else 0
  {
    forall r, kv | 0 <= r < n
      ensures multiset(files[r])[kv] == if hash(kv.key) % n == r then multiset(kvs)[kv] else 0
    {
      BucketCounts(kvs, hash, r, n, kv);
    }
  }

  /** A bucket of sorted pairs is sorted. */
  lemma {:induction false} BucketInOrder(kvs: seq<KeyValue>, hash: string -> nat, r: nat, n: nat)
    requires n > 0 && InOrder(kvs, KeyLess)
    ensures InOrder(BucketOf(kvs, hash, r, n), KeyLess) && forall kv :: kv in BucketOf(kvs, hash, r, n) ==> kv in kvs
  {
    if kvs != [] {
      var rest, z := kvs[..|kvs| - 1], kvs[|kvs| - 1];
      BucketInOrder(rest, hash, r, n);
      var b := BucketOf(rest, hash, r, n);
      forall i | 0 <= i < |b| ensures !KeyLess(z, b[i]) {
        assert b[i] in rest;
        var j :| 0 <= j < |rest| && rest[j] == b[i];
        assert kvs[j] == b[i];
      }
    }
  }

  // ---- reducing ----

  ghost predicate Grouped(m: map<string, seq<string>>, kvs: seq<KeyValue>) {
    && (forall key :: key in m ==> m[key] == ValuesOf(kvs, key) && m[key] != [])
    && (forall key :: key !in m ==> ValuesOf(kvs, key) == [])
  }

  /** `read` is what was read from each of the task's files; the lines come in the order of their keys. */
  method DoReduce(reducef: ReduceF, read: seq<seq<KeyValue>>) returns (lines: seq<Line>)
    ensures Reduces(lines, Flat(read), reducef)
    ensures forall i, j :: 0 <= i < j < |lines| ==> StringLess(lines[i].key, lines[j].key)
  {
    var kva: map<string, seq<string>> := map[];
    for f := 0 to |read|
      invariant Grouped(kva, Flat(read[..f]))
    {
      kva := Collect(kva, read[f], Flat(read[..f]));
      assert read[..f + 1][..f] == read[..f];
    }
    assert read[..|read|] == read;
    var found := KeysOf(kva);
    StringOrder();
    SortExists(found, StringLess);
    var keys :| SortOf(keys, found, StringLess);
    SortedKeys(found, keys);
    lines := [];
    for i := 0 to |keys|
      invariant |lines| == i && forall j {:trigger lines[j]} :: 0 <= j < i ==>
                lines[j] == Line(keys[j], reducef(keys[j], kva[keys[j]]))
    {
      lines := lines + [Line(keys[i], reducef(keys[i], kva[keys[i]]))];
    }
    LinesReduce(lines, keys, kva, Flat(read), reducef);
    forall i, j | 0 <= i < j < |lines| ensures StringLess(lines[i].key, lines[j].key) {
      if !StringLess(keys[i], keys[j]) {
        StringConnected(keys[i], keys[j]);
      }
    }
  }

  lemma GroupedWith(m: map<string, seq<string>>, kvs: seq<KeyValue>, kv: KeyValue)
    requires Grouped(m, kvs)
    ensures Grouped(m[kv.key := (if kv.key in m then m[kv.key] else []) + [kv.value]], kvs + [kv])
  {
    assert (kvs + [kv])[..|kvs|] == kvs;
  }

  /** The pairs of one file join the groups. */
  method Collect(groups: map<string, seq<string>>, file: seq<KeyValue>, ghost before: seq<KeyValue>)
      returns (m: map<string, seq<string>>)
    requires Grouped(groups, before)
    ensures Grouped(m, before + file)
  {
    hide Grouped;
    m := groups;
    assert before + file[..0] == before;
    for i := 0 to |file|
      invariant Grouped(m, before + file[..i])
    {
      var kv := file[i];
      GroupedWith(m, before + file[..i], kv);
      assert before + file[..i] + [kv] == before + file[..i + 1];
      m := m[kv.key := (if kv.key in m then m[kv.key] else []) + [kv.value]];
    }
    assert file[..|file|] == file;
  }

  lemma LinesReduce(lines: seq<Line>, keys: seq<string>, m: map<string, seq<string>>, kvs: seq<KeyValue>,
      reducef: ReduceF)
    requires Grouped(m, kvs) && NoTwice(keys) && (forall key :: key in keys <==> key in m) && |lines| == |keys|
    requires forall j {:trigger lines[j]} :: 0 <= j < |lines| ==>
             keys[j] in m && lines[j] == Line(keys[j], reducef(keys[j], m[keys[j]]))
    ensures Reduces(lines, kvs, reducef)
  {
    forall i, j | 0 <= i < j < |lines| ensures lines[i] != lines[j] {
      assert keys[i] != keys[j];
    }
    forall l ensures l in lines <==> RightLine(l, kvs, reducef) {
      if RightLine(l, kvs, reducef) {
        assert l.key in m;
        var j :| 0 <= j < |keys| && keys[j] == l.key;
        assert lines[j] == l;
      }
    }
  }

  // ---- the sequential job ----

  /** Up to `i`, every key is done with. */
  ghost predicate Cut(s: seq<KeyValue>, i: nat)
    requires i <= |s|
  {
    forall a, b :: 0 <= a < i <= b < |s| ==> s[a].key != s[b].key
  }

  method Sequential(mapf: MapF, reducef: ReduceF, contents: map<string, string>, inputs: seq<string>)
    returns (ok: bool, lines: seq<Line>, ghost sorted: seq<KeyValue>)
    ensures ok <==> forall f :: f in inputs ==> f in contents
    ensures ok ==> SortOf(sorted, Mapped(mapf, contents, inputs), KeyLess) && Reduces(lines, sorted, reducef)
    ensures ok ==> SortOf(sorted, Flat(seq(|inputs|, i requires 0 <= i < |inputs| =>
                     mapf(inputs[i], contents[inputs[i]]))), KeyLess)
  {
    var intermediate;
    ok, intermediate := MapAll(mapf, contents, inputs);
    if !ok {
      return false, [], [];
    }
    MappedIsFlat(mapf, contents, inputs);
    var s := SortByKey(intermediate);
    sorted, lines := s, [];
    var i := 0;
    assert Cut(s, 0) && s[..0] == [] && Reduces([], [], reducef);
    hide Cut, Reduces, Mapped, InOrder;
    while i < |s|
      invariant i <= |s| && Cut(s, i) && Reduces(lines, s[..i], reducef)
    {
      var j, values := Group(s, i);
      GroupDone(s, i, j);
      LineDone(lines, s, i, j, values, reducef);
      lines := lines + [Line(s[i].key, reducef(s[i].key, values))];
      i := j;
    }
    assert s[..|s|] == s;
  }

  /** The values of the key at `i`, and where the next key begins. */
  method Group(s: seq<KeyValue>, i: nat) returns (j: nat, values: seq<string>)
    requires i < |s|
    ensures i < j <= |s| && (forall k :: i <= k < j ==> s[k].key == s[i].key) && (j < |s| ==> s[j].key != s[i].key)
    ensures values == ValuesOf(s[i..j], s[i].key)
  {
    j := i + 1;
    while j < |s| && s[j].key == s[i].key
      invariant i < j <= |s| && forall k :: i <= k < j ==> s[k].key == s[i].key
    {
      j := j + 1;
    }
    values := [];
    for k := i to j
      invariant values == ValuesOf(s[i..k], s[i].key)
    {
      assert s[i..k + 1][..k - i] == s[i..k];
      values := values + [s[k].value];
    }
  }

  /** The keys before `i` and at `i` to `j` do not come again. */
  lemma GroupDone(s: seq<KeyValue>, i: nat, j: nat)
    requires InOrder(s, KeyLess) && i < j <= |s| && Cut(s, i) && (forall k :: i <= k < j ==> s[k].key == s[i].key)
    requires j < |s| ==> s[j].key != s[i].key
    ensures Cut(s, j)
  {
    forall a, b | 0 <= a < j <= b < |s| ensures s[a].key != s[b].key {
      if i <= a {
        assert !KeyLess(s[j], s[i]);
        if !StringLess(s[i].key, s[j].key) {
          StringConnected(s[i].key, s[j].key);
        }
        assert j < b ==> !KeyLess(s[b], s[j]);
      }
    }
  }

  /** The group from `i` to `j` makes one more line. */
  lemma LineDone(lines: seq<Line>, s: seq<KeyValue>, i: nat, j: nat, values: seq<string>, reducef: ReduceF)
    requires i < j <= |s| && Cut(s, i) && Reduces(lines, s[..i], reducef) && values == ValuesOf(s[i..j], s[i].key)
    requires forall k :: i <= k < j ==> s[k].key == s[i].key
    ensures Reduces(lines + [Line(s[i].key, reducef(s[i].key, values))], s[..j], reducef)
  {
    var key := s[i].key;
    var line := Line(key, reducef(key, values));
    assert s[..j] == s[..i] + s[i..j];
    NoValues(s[..i], key);
    OneKey(s[i..j], key);
    forall l ensures RightLine(l, s[..j], reducef) <==> RightLine(l, s[..i], reducef) || l == line {
      ValuesJoined(s[..i], s[i..j], l.key);
      if l.key != key {
        OtherKeys(s[i..j], key, l.key);
        assert ValuesOf(s[..j], l.key) == ValuesOf(s[..i], l.key);
      } else {
        assert ValuesOf(s[..j], key) == values;
      }
    }
    JoinedOnce(lines, [line]);
  }

  lemma {:induction false} NoValues(kvs: seq<KeyValue>, key: string)
    requires forall k :: 0 <= k < |kvs| ==> kvs[k].key != key
    ensures ValuesOf(kvs, key) == []
  {
    if kvs != [] {
      NoValues(kvs[..|kvs| - 1], key);
    }
  }

  lemma OtherKeys(kvs: seq<KeyValue>, key: string, other: string)
    requires other != key && forall k :: 0 <= k < |kvs| ==> kvs[k].key == key
    ensures ValuesOf(kvs, other) == []
  {
    NoValues(kvs, other);
  }

  lemma OneKey(kvs: seq<KeyValue>, key: string)
    requires kvs != [] && kvs[|kvs| - 1].key == key
    ensures ValuesOf(kvs, key) != []
  {}
}
