module MrProgress {
  // No MapReduce job is ever beyond help: whatever has been lost so far, one worker that asks for
  // tasks and carries them out, while timers fire, can still bring the job to its end.

  import opened Sorting
  import opened MrTasks
  import opened MrData
  import opened MrWorker
  import opened MrJob

  // ---- what the steps may leave exists ----

  function Keys(kvs: seq<KeyValue>): seq<string> {
    if kvs == [] then []
    else
      var keys, key := Keys(kvs[..|kvs| - 1]), kvs[|kvs| - 1].key;
      if key in keys then keys else keys + [key]
  }

  lemma {:induction false} KeysOnce(kvs: seq<KeyValue>)
    ensures NoTwice(Keys(kvs)) && forall key :: key in Keys(kvs) <==> ValuesOf(kvs, key) != []
  {
    if kvs != [] {
      KeysOnce(kvs[..|kvs| - 1]);
    }
  }

  /** There is a right output for any pairs. */
  lemma LinesExist(kvs: seq<KeyValue>, reducef: ReduceF) returns (lines: seq<Line>)
    ensures Reduces(lines, kvs, reducef)
  {
    var keys := Keys(kvs);
    KeysOnce(kvs);
    lines := seq(|keys|, i requires 0 <= i < |keys| => Line(keys[i], reducef(keys[i], ValuesOf(kvs, keys[i]))));
    forall l ensures l in lines <==> RightLine(l, kvs, reducef) {
      if l in lines {
        var i :| 0 <= i < |lines| && lines[i] == l;
        assert keys[i] in keys;
      }
      if RightLine(l, kvs, reducef) {
        assert l.key in keys;
        var i :| 0 <= i < |keys| && keys[i] == l.key;
        assert lines[i] == l;
      }
    }
  }

  lemma {:induction false} AsSequence<T(!new)>(all: set<T>) returns (s: seq<T>)
    ensures NoTwice(s) && forall x :: x in s <==> x in all
  {
    if all == {} {
      s := [];
    } else {
      var x :| x in all;
      s := AsSequence(all - {x});
      s := s + [x];
    }
  }

  lemma {:induction false} SearchesFind(w: World, n: nat) returns (found: seq<seq<Name>>)
    ensures |found| == n && forall r {:trigger found[r]} :: 0 <= r < n ==> Finds(w, found[r], r)
  {
    if n == 0 {
      found := [];
    } else {
      var rest := SearchesFind(w, n - 1);
      var names := AsSequence(set name | name in w.middle && name.Middle? && name.r == n - 1);
      found := rest + [names];
    }
  }

  // ---- runs ----

  ghost predicate Reaches(s: Settings, trace: seq<Event>, w: World)
    requires s.Valid()
  {
    IsRun(s, trace) && After(s, trace) == w
  }

  lemma Next(s: Settings, trace: seq<Event>, w: World, ev: Event)
    requires s.Valid() && Reaches(s, trace, w) && Enabled(s, w, ev)
    ensures Reaches(s, trace + [ev], Apply(s, w, ev)) && trace <= trace + [ev]
  {
    assert (trace + [ev])[..|trace|] == trace;
  }

  /** A worker's map task leaves its buckets one after the other. */
  lemma {:induction false} RenamesAll(s: Settings, trace: seq<Event>, w: World, x: nat, k: nat)
      returns (longer: seq<Event>, w': World)
    requires s.Valid() && Reaches(s, trace, w) && x in w.work && w.work[x].MapWork? && w.work[x].m < |s.inputs| &&
             k <= w.work[x].n
    ensures Reaches(s, longer, w') && trace <= longer && w'.c == w.c && x in w'.work
    ensures w'.work[x].MapWork? && w'.work[x].worker == w.work[x].worker && w'.work[x].m == w.work[x].m &&
            w'.work[x].n == w.work[x].n
    ensures forall r: nat :: r < k ==> r in w'.work[x].written
    decreases k
  {
    hide IsRun, After, Reaches, Enabled, Apply;
    if k == 0 {
      longer, w' := trace, w;
    } else {
      var t1, w1 := RenamesAll(s, trace, w, x, k - 1);
      var content := BucketSorted(s, w1.work[x].m, k - 1);
      Renames(s, w1, x, k - 1, content);
      Next(s, t1, w1, Rename(x, k - 1, content));
      longer, w' := t1 + [Rename(x, k - 1, content)], Apply(s, w1, Rename(x, k - 1, content));
    }
  }

  lemma BucketSorted(s: Settings, m: nat, r: nat) returns (content: seq<KeyValue>)
    requires s.Valid() && m < |s.inputs|
    ensures MayLeave(s, m, r, content)
  {
    hide Share;
    KeyOrder();
    SortExists(Share(s, m, r), KeyLess);
    content :| SortOf(content, Share(s, m, r), KeyLess);
  }

  lemma Renames(s: Settings, w: World, x: nat, r: nat, content: seq<KeyValue>)
    requires s.Valid() && x in w.work && w.work[x].MapWork? && r < w.work[x].n && MayLeave(s, w.work[x].m, r, content)
    ensures Enabled(s, w, Rename(x, r, content))
    ensures var w' := Apply(s, w, Rename(x, r, content));
            w'.c == w.c && w'.work == w.work[x := w.work[x].(written := w.work[x].written + {r})]
  {
    hide MayLeave;
  }

  /** A worker's reduce task reads its files one after the other. */
  lemma {:induction false} ReadsAll(s: Settings, trace: seq<Event>, w: World, x: nat, k: nat)
      returns (longer: seq<Event>, w': World)
    requires s.Valid() && Reaches(s, trace, w) && x in w.work && w.work[x].ReduceWork? &&
             |w.work[x].read| + k == |w.work[x].files|
    ensures Reaches(s, longer, w') && trace <= longer && w'.c == w.c && x in w'.work
    ensures w'.work[x].ReduceWork? && w'.work[x].worker == w.work[x].worker && w'.work[x].r == w.work[x].r
    ensures |w'.work[x].read| == |w'.work[x].files|
    decreases k
  {
    if k == 0 {
      longer, w' := trace, w;
    } else {
      Next(s, trace, w, Read(x));
      var w1 := Apply(s, w, Read(x));
      hide IsRun, After, Reaches, Enabled;
      longer, w' := ReadsAll(s, trace + [Read(x)], w1, x, k - 1);
    }
  }

  // ---- one task more ----

  /** The task a worker is about to report. */
  ghost predicate Ready(w: World, x: nat, kind: Kind, i: nat) {
    && x in w.work && kind in {MapTask, ReduceTask} && i < |w.c.Tasks(kind)|
    && w.c.Tasks(kind)[i].stat == Assigned && w.c.Tasks(kind)[i].worker == w.work[x].worker
    && if kind == MapTask then w.work[x].MapWork? && w.work[x].m == i && forall r: nat :: r < w.work[x].n ==>
        r in w.work[x].written
       else w.work[x].ReduceWork? && w.work[x].r == i && w.work[x].done
  }

  /** A worker has been given the task, and nothing else has changed. */
  ghost predicate Given(s: Settings, w: World, x: nat, kind: Kind, i: nat) {
    && x in w.work && kind in {MapTask, ReduceTask} && i < |w.c.Tasks(kind)|
    && w.c.Tasks(kind)[i].stat == Assigned && w.c.Tasks(kind)[i].worker == w.work[x].worker
    && if kind == MapTask then w.work[x].MapWork? && w.work[x].m == i < |s.inputs| && w.work[x].n == s.n
       else w.work[x].ReduceWork? && w.work[x].r == i && w.work[x].read == []
  }

  /** The coordinator has as many finished tasks of the phase as before. */
  ghost predicate AsMany(c: Coord, d: Coord) {
    d.phase == c.phase && |d.Tasks(KindOf(c.phase))| == |c.Tasks(KindOf(c.phase))| &&
        Done(d.Tasks(KindOf(c.phase))) == Done(c.Tasks(KindOf(c.phase)))
  }

  lemma CarriesOutMap(s: Settings, trace: seq<Event>, w: World, x: nat, i: nat) returns (longer: seq<Event>, w': World)
    requires s.Valid() && Reaches(s, trace, w) && Given(s, w, x, MapTask, i)
    ensures Reaches(s, longer, w') && trace <= longer && w'.c == w.c && Ready(w', x, MapTask, i)
  {
    hide IsRun, After, Reaches;
    longer, w' := RenamesAll(s, trace, w, x, s.n);
  }

  lemma CarriesOutReduce(s: Settings, trace: seq<Event>, w: World, x: nat, i: nat)
      returns (longer: seq<Event>, w': World)
    requires s.Valid() && Reaches(s, trace, w) && Given(s, w, x, ReduceTask, i)
    ensures Reaches(s, longer, w') && trace <= longer && w'.c == w.c && Ready(w', x, ReduceTask, i)
  {
    hide IsRun, After, Reaches, Reduces, Flat, Insensitive;
    var t1, w1 := ReadsAll(s, trace, w, x, |w.work[x].files|);
    var lines := LinesExist(Flat(w1.work[x].read), s.reducef);
    Next(s, t1, w1, PutOut(x, lines));
    longer, w' := t1 + [PutOut(x, lines)], Apply(s, w1, PutOut(x, lines));
  }

  /** A report finishes the task. */
  lemma Reports(s: Settings, w: World, x: nat, kind: Kind, i: nat)
    requires s.Valid() && Inv(s, w) && Ready(w, x, kind, i) && kind == KindOf(w.c.phase)
    ensures Enabled(s, w, Report(x))
    ensures var c, d := w.c, Apply(s, w, Report(x)).c;
            d.phase == c.phase && |d.Tasks(kind)| == |c.Tasks(kind)| && Done(d.Tasks(kind)) == Done(c.Tasks(kind)) + 1
  {
    hide FilesOk, FinishedLeft, WorksOk, OutsOk, TimersOk;
    DoneUpdate(w.c.Tasks(kind), i, w.c.Tasks(kind)[i].(stat := Finished));
    if kind == MapTask {
      assert MapTaskOk(s, w.c.mapTask[i], i);
    } else {
      assert ReduceTaskOk(s, w.c.reduceTask[i], i);
    }
  }

  /** If a task is free, a worker that asks is given one. */
  lemma Asks(s: Settings, w: World, j: nat) returns (i: nat)
    requires s.Valid() && Inv(s, w) && w.c.phase != AllDone
    requires j < |w.c.Tasks(KindOf(w.c.phase))| && w.c.Tasks(KindOf(w.c.phase))[j].stat == NotAssign
    ensures var w' := Apply(s, w, Request(0)); Given(s, w', w.clock, KindOf(w.c.phase), i) && AsMany(w.c, w'.c)
  {
    var kind := KindOf(w.c.phase);
    var tasks := w.c.Tasks(kind);
    i := FirstFree(tasks);
    assert i <= j;
    if kind == MapTask {
      assert MapTaskOk(s, w.c.mapTask[i], i);
    } else {
      assert ReduceTaskOk(s, w.c.reduceTask[i], i);
    }
    hide FilesOk, FinishedLeft, WorksOk, OutsOk, TimersOk, FirstFree;
    DoneUpdate(tasks, i, tasks[i].(stat := Assigned, worker := 0));
  }

  /** A task that is assigned can be set free. */
  lemma Frees(s: Settings, w: World, j: nat) returns (t: Timer)
    requires s.Valid() && Inv(s, w) && w.c.phase != AllDone
    requires j < |w.c.Tasks(KindOf(w.c.phase))| && w.c.Tasks(KindOf(w.c.phase))[j].stat == Assigned
    ensures Enabled(s, w, Expire(t))
    ensures var w' := Apply(s, w, Expire(t)); AsMany(w.c, w'.c) && w'.c.Tasks(KindOf(w.c.phase))[j].stat == NotAssign
  {
    var kind := KindOf(w.c.phase);
    assert Timed(w.timers, kind, j);
    var worker :| Timer(worker, kind, j) in w.timers;
    t := Timer(worker, kind, j);
    hide FilesOk, FinishedLeft, WorksOk, OutsOk, TimersOk, CoordInv;
    DoneUpdate(w.c.Tasks(kind), j, TimedOut(w.c.Tasks(kind)[j], worker));
  }

  lemma {:induction false} SomeUnfinished(tasks: seq<Task>) returns (j: nat)
    requires Done(tasks) < |tasks|
    ensures j < |tasks| && tasks[j].stat != Finished
  {
    if tasks[|tasks| - 1].stat != Finished {
      j := |tasks| - 1;
    } else {
      j := SomeUnfinished(tasks[..|tasks| - 1]);
    }
  }

  lemma OneFreed(s: Settings, trace: seq<Event>, w: World) returns (longer: seq<Event>, w': World, j: nat)
    requires s.Valid() && Reaches(s, trace, w) && w.c.phase != AllDone
    requires Done(w.c.Tasks(KindOf(w.c.phase))) < |w.c.Tasks(KindOf(w.c.phase))|
    ensures Reaches(s, longer, w') && trace <= longer && AsMany(w.c, w'.c)
    ensures j < |w'.c.Tasks(KindOf(w.c.phase))| && w'.c.Tasks(KindOf(w.c.phase))[j].stat == NotAssign
  {
    RunInv(s, trace);
    hide IsRun, After, Inv, Enabled, Apply;
    j := SomeUnfinished(w.c.Tasks(KindOf(w.c.phase)));
    if w.c.Tasks(KindOf(w.c.phase))[j].stat == NotAssign {
      longer, w' := trace, w;
    } else {
      var t := Frees(s, w, j);
      Next(s, trace, w, Expire(t));
      longer, w' := trace + [Expire(t)], Apply(s, w, Expire(t));
    }
  }

  lemma OneMore(s: Settings, trace: seq<Event>, w: World) returns (longer: seq<Event>, w': World)
    requires s.Valid() && Reaches(s, trace, w) && w.c.phase != AllDone
    requires Done(w.c.Tasks(KindOf(w.c.phase))) < |w.c.Tasks(KindOf(w.c.phase))|
    ensures Reaches(s, longer, w') && trace <= longer
    ensures w'.c.phase == w.c.phase && |w'.c.Tasks(KindOf(w.c.phase))| == |w.c.Tasks(KindOf(w.c.phase))|
    ensures Done(w'.c.Tasks(KindOf(w.c.phase))) == Done(w.c.Tasks(KindOf(w.c.phase))) + 1
  {
    hide IsRun, After, Inv, Apply, Given, Done;
    var kind := KindOf(w.c.phase);
    var t1, w1, j := OneFreed(s, trace, w);
    InvOf(s, t1, w1);
    var i := Asks(s, w1, j);
    Next(s, t1, w1, Request(0));
    var t2, w2 := t1 + [Request(0)], Apply(s, w1, Request(0));
    hide Enabled, Ready, Reaches;
    var t3, w3;
    if kind == MapTask {
      t3, w3 := CarriesOutMap(s, t2, w2, w1.clock, i);
    } else {
      t3, w3 := CarriesOutReduce(s, t2, w2, w1.clock, i);
    }
    InvOf(s, t3, w3);
    Reports(s, w3, w1.clock, kind, i);
    Next(s, t3, w3, Report(w1.clock));
    longer, w' := t3 + [Report(w1.clock)], Apply(s, w3, Report(w1.clock));
  }

  lemma InvOf(s: Settings, trace: seq<Event>, w: World)
    requires s.Valid() && Reaches(s, trace, w)
    ensures Inv(s, w)
  {
    RunInv(s, trace);
  }

  // ---- to the end ----

  lemma {:induction false} FinishPhase(s: Settings, trace: seq<Event>, w: World) returns (longer: seq<Event>, w': World)
    requires s.Valid() && Reaches(s, trace, w) && w.c.phase != AllDone
    ensures Reaches(s, longer, w') && trace <= longer && w'.c.phase == w.c.phase
    ensures Done(w'.c.Tasks(KindOf(w.c.phase))) == |w'.c.Tasks(KindOf(w.c.phase))|
    decreases |w.c.Tasks(KindOf(w.c.phase))| - Done(w.c.Tasks(KindOf(w.c.phase)))
  {
    hide IsRun, After, Reaches, Done;
    if Done(w.c.Tasks(KindOf(w.c.phase))) == |w.c.Tasks(KindOf(w.c.phase))| {
      longer, w' := trace, w;
    } else {
      longer, w' := OneMore(s, trace, w);
      longer, w' := FinishPhase(s, longer, w');
    }
  }

  /** Then the next look of the coordinator ends the phase. */
  lemma NextPhase(s: Settings, trace: seq<Event>, w: World) returns (longer: seq<Event>, w': World)
    requires s.Valid() && Reaches(s, trace, w) && w.c.phase != AllDone
    ensures Reaches(s, longer, w') && trace <= longer && Rank(w'.c.phase) == Rank(w.c.phase) + 1
  {
    hide IsRun, After, Reaches, Done;
    var t1, w1 := FinishPhase(s, trace, w);
    InvOf(s, t1, w1);
    var found := SearchesFind(w1, if w1.c.nReduce > 0 then w1.c.nReduce else 0);
    hide Finds, FilesOk, FinishedLeft, WorksOk, OutsOk, TimersOk;
    Next(s, t1, w1, Look(found));
    longer, w' := t1 + [Look(found)], Apply(s, w1, Look(found));
  }

  /** Every run of a job can still come to its end. */
  lemma {:induction false} JobCanFinish(s: Settings, trace: seq<Event>) returns (longer: seq<Event>)
    requires s.Valid() && IsRun(s, trace)
    ensures trace <= longer && IsRun(s, longer) && After(s, longer).c.phase == AllDone
    decreases 2 - Rank(After(s, trace).c.phase)
  {
    longer := trace;
    if After(s, trace).c.phase != AllDone {
      var w';
      assert Reaches(s, trace, After(s, trace));
      longer, w' := NextPhase(s, trace, After(s, trace));
      longer := JobCanFinish(s, longer);
    }
  }
}
