module MrJob {
  // A whole MapReduce job as a state machine: the coordinator, its timers, the workers and the files.
  // Workers may die at any point, be slow, or carry out a task that somebody else has been given
  // since; files appear by renaming, all at once.

  import opened Sorting
  import opened MrTasks
  import opened MrData
  import opened MrWorker

  datatype Settings = Settings(
    mapf: MapF, reducef: ReduceF, hash: string -> nat, contents: map<string, string>, inputs: seq<string>, n: nat)
  {
    ghost predicate Valid() {
      n > 0 && Insensitive(reducef) && forall f :: f in inputs ==> f in contents
    }
  }

  datatype Timer = Timer(worker: int, kind: Kind, id: nat)

  /** What a worker is at: the buckets it has renamed; the files it has read so far, and whether it has put out. */
  datatype Work =
    | MapWork(worker: int, m: nat, n: int, written: set<nat>)
    | ReduceWork(worker: int, r: nat, files: seq<Name>, read: seq<seq<KeyValue>>, done: bool)

  datatype World = World(
    c: Coord, timers: multiset<Timer>, work: map<nat, Work>, clock: nat, middle: map<Name, seq<KeyValue>>,
    out: map<nat, seq<Line>>)

  datatype Event =
    | Request(worker: int)
    | Rename(x: nat, r: nat, content: seq<KeyValue>)
    | Read(x: nat)
    | PutOut(x: nat, lines: seq<Line>)
    | Report(x: nat)
    | Expire(timer: Timer)
    | Look(found: seq<seq<Name>>)

  function Init(s: Settings): World {
    World(Make(s.inputs, s.n), multiset{}, map[], 0, map[], map[])
  }

  /** What map task `m` has for reduce task `r`. */
  ghost function Share(s: Settings, m: nat, r: nat): seq<KeyValue>
    requires s.Valid() && m < |s.inputs|
  {
    BucketOf(Mapped(s.mapf, s.contents, [s.inputs[m]]), s.hash, r, s.n)
  }

  /** What DoMap may leave in a file. */
  ghost predicate MayLeave(s: Settings, m: nat, r: nat, content: seq<KeyValue>)
    requires s.Valid()
  {
    m < |s.inputs| && InOrder(content, KeyLess) && multiset(content) == multiset(Share(s, m, r))
  }

  /** What a search for the files of reduce task `r` finds. */
  ghost predicate Finds(w: World, names: seq<Name>, r: nat) {
    NoTwice(names) && forall name :: name in names <==> name in w.middle && name.Middle? && name.r == r
  }

  ghost predicate Enabled(s: Settings, w: World, ev: Event)
    requires s.Valid()
  {
    match ev
    case Request(_) => true
    case Rename(x, r, content) => x in w.work && w.work[x].MapWork? && r < w.work[x].n &&
        MayLeave(s, w.work[x].m, r, content)
    case Read(x) => x in w.work && w.work[x].ReduceWork? && |w.work[x].read| < |w.work[x].files|
    case PutOut(x, lines) =>
      x in w.work && w.work[x].ReduceWork? && |w.work[x].read| == |w.work[x].files| &&
          Reduces(lines, Flat(w.work[x].read), s.reducef)
    case Report(x) =>
      x in w.work && (w.work[x].MapWork? ==> w.work[x].m < |w.c.mapTask| && forall r: nat :: r < w.work[x].n ==>
          r in w.work[x].written)
      && (w.work[x].ReduceWork? ==> w.work[x].done && w.work[x].r < |w.c.reduceTask|)
    case Expire(t) => t in w.timers && t.id < |w.c.Tasks(t.kind)|
    case Look(found) => |found| >= w.c.nReduce && forall r {:trigger found[r]} :: 0 <= r < |found| ==>
        Finds(w, found[r], r)
  }

  /** A file that is not there reads as empty. */
  function Contents(w: World, name: Name): seq<KeyValue> {
    if name in w.middle then w.middle[name] else []
  }

  function Listed(found: seq<seq<Name>>): nat -> seq<Name> {
    (r: nat) => if r < |found| then found[r] else []
  }

  ghost function Apply(s: Settings, w: World, ev: Event): World
    requires s.Valid() && Enabled(s, w, ev)
  {
    match ev
    case Request(worker) =>
      var (c, reply) := RequestTask(w.c, worker);
      if reply.kind in {MapTask, ReduceTask} && reply.id >= 0 then
        w.(c := c, timers := w.timers + multiset{Timer(worker, reply.kind, reply.id)}, clock := w.clock + 1,
           work := w.work[w.clock := if reply.kind == MapTask then MapWork(worker, reply.id, reply.reduceNum, {})
                                     else ReduceWork(worker, reply.id, reply.files, [], false)])
      else w.(c := c)
    case Rename(x, r, content) =>
      var k := w.work[x];
      w.(middle := w.middle[Middle(k.m, r) := content], work := w.work[x := k.(written := k.written + {r})])
    case Read(x) =>
      var k := w.work[x];
      w.(work := w.work[x := k.(read := k.read + [Contents(w, k.files[|k.read|])])])
    case PutOut(x, lines) => w.(out := w.out[w.work[x].r := lines], work := w.work[x := w.work[x].(done := true)])
    case Report(x) =>
      var k := w.work[x];
      w.(c := if k.MapWork? then ReportTask(w.c, k.worker, MapTask, k.m)
          else ReportTask(w.c, k.worker, ReduceTask, k.r), work := w.work - {x})
    case Expire(t) => w.(c := CheckTimeout(w.c, t.worker, t.kind, t.id), timers := w.timers - multiset{t})
    case Look(found) => w.(c := CheckPhase(w.c, Listed(found)))
  }

  ghost predicate IsRun(s: Settings, trace: seq<Event>)
    requires s.Valid()
    decreases |trace|, 0
  {
    trace == [] ||
    (var before := trace[..|trace| - 1];
     IsRun(s, before) && Enabled(s, After(s, before), trace[|trace| - 1]))
  }

  ghost function After(s: Settings, trace: seq<Event>): World
    requires s.Valid() && IsRun(s, trace)
    decreases |trace|, 1
  {
    if trace == [] then Init(s) else Apply(s, After(s, trace[..|trace| - 1]), trace[|trace| - 1])
  }

  // ---- the coordinator ----

  function Done(tasks: seq<Task>): (n: nat)
    ensures n <= |tasks|
  {
    if tasks == [] then 0 else Done(tasks[..|tasks| - 1]) + if tasks[|tasks| - 1].stat == Finished then 1 else 0
  }

  ghost predicate AllFinished(tasks: seq<Task>) {
    forall i {:trigger tasks[i]} :: 0 <= i < |tasks| ==> tasks[i].stat == Finished
  }

  /** Changing one task changes the count by that task. */
  lemma {:induction false} DoneUpdate(tasks: seq<Task>, i: nat, t: Task)
    requires i < |tasks|
    ensures Done(tasks[i := t]) == Done(tasks) - (if tasks[i].stat == Finished then 1 else 0) +
            (if t.stat == Finished then 1 else 0)
  {
    var rest := tasks[..|tasks| - 1];
    if i == |tasks| - 1 {
      assert tasks[i := t][..i] == rest;
    } else {
      assert tasks[i := t][..|tasks| - 1] == rest[i := t];
      DoneUpdate(rest, i, t);
    }
  }

  lemma {:induction false} DoneAll(tasks: seq<Task>)
    ensures Done(tasks) == |tasks| <==> AllFinished(tasks)
  {
    if tasks != [] {
      DoneAll(tasks[..|tasks| - 1]);
      var rest := tasks[..|tasks| - 1];
      if AllFinished(tasks) {
        forall i | 0 <= i < |rest| ensures rest[i].stat == Finished {
          assert rest[i] == tasks[i];
        }
      }
      if AllFinished(rest) {
        forall i | 0 <= i < |tasks| - 1 ensures tasks[i].stat == Finished {
          assert rest[i] == tasks[i];
        }
      }
    }
  }

  lemma {:induction false} NoneDone(tasks: seq<Task>)
    requires forall i {:trigger tasks[i]} :: 0 <= i < |tasks| ==> tasks[i].stat != Finished
    ensures Done(tasks) == 0
  {
    if tasks != [] {
      var rest := tasks[..|tasks| - 1];
      forall i | 0 <= i < |rest| ensures rest[i].stat != Finished {
        assert rest[i] == tasks[i];
      }
      NoneDone(rest);
    }
  }

  ghost predicate MapTaskOk(s: Settings, t: Task, i: nat)
    requires i < |s.inputs|
  {
    t.kind == MapTask && t.id == i && t.files == [Input(s.inputs[i])]
  }

  /** Each of the `m` files for reduce task `r`, once. */
  ghost predicate Listing(files: seq<Name>, m: nat, r: nat) {
    NoTwice(files) && forall name :: name in files <==> name.Middle? && name.m < m && name.r == r
  }

  ghost predicate ReduceTaskOk(s: Settings, t: Task, r: nat) {
    t.kind == ReduceTask && t.id == r && Listing(t.files, |s.inputs|, r)
  }

  ghost predicate MapTasksOk(s: Settings, c: Coord) {
    |c.mapTask| == |s.inputs| && forall i {:trigger MapTaskOk(s, c.mapTask[i], i)} :: 0 <= i < |c.mapTask| ==>
        MapTaskOk(s, c.mapTask[i], i)
  }

  ghost predicate ReduceTasksOk(s: Settings, c: Coord) {
    |c.reduceTask| == s.n && forall r {:trigger ReduceTaskOk(s, c.reduceTask[r], r)} :: 0 <= r < s.n ==>
        ReduceTaskOk(s, c.reduceTask[r], r)
  }

  /** The counters count, and each phase is over when all its tasks are. */
  ghost predicate CoordInv(s: Settings, c: Coord) {
    && MapTasksOk(s, c) && c.nMap == Done(c.mapTask)
    && (c.phase == MapPhase ==> c.nReduce == s.n && c.reduceTask == [])
    && (c.phase != MapPhase ==> ReduceTasksOk(s, c) && c.nReduce == Done(c.reduceTask) && AllFinished(c.mapTask))
    && (c.phase == AllDone ==> AllFinished(c.reduceTask))
  }

  /** One task changes, and what is finished stays finished. */
  lemma TaskChanges(s: Settings, c: Coord, kind: Kind, i: nat, t: Task)
    requires CoordInv(s, c) && kind in {MapTask, ReduceTask} && i < |c.Tasks(kind)|
    requires var o := c.Tasks(kind)[i];
             t == o.(stat := t.stat, worker := t.worker) && (o.stat == Finished ==> t.stat == Finished)
    ensures var d := if t.stat == Finished && c.Tasks(kind)[i].stat != Finished then 1 else 0;
            var c' := c.With(kind, c.Tasks(kind)[i := t]);
            CoordInv(s, if kind == MapTask then c'.(nMap := c.nMap + d) else c'.(nReduce := c.nReduce + d))
  {
    var tasks := c.Tasks(kind);
    var more := tasks[i := t];
    DoneUpdate(tasks, i, t);
    if kind == MapTask {
      forall j | 0 <= j < |more| ensures MapTaskOk(s, more[j], j) {
        assert MapTaskOk(s, tasks[j], j);
      }
    } else {
      forall j | 0 <= j < |more| ensures ReduceTaskOk(s, more[j], j) {
        assert ReduceTaskOk(s, tasks[j], j);
      }
    }
  }

  function Rank(phase: Phase): nat {
    match phase case MapPhase => 0 case ReducePhase => 1 case AllDone => 2
  }

  /** Tasks are never taken away, what is finished stays finished, and phases only advance. */
  ghost predicate Advances(c: Coord, d: Coord) {
    && Rank(c.phase) <= Rank(d.phase)
    && (forall kind {:trigger d.Tasks(kind)} :: |c.Tasks(kind)| <= |d.Tasks(kind)|)
    && (forall kind, i {:trigger d.Tasks(kind)[i]} :: 0 <= i < |c.Tasks(kind)| && c.Tasks(kind)[i].stat == Finished ==>
        d.Tasks(kind)[i].stat == Finished)
  }

  lemma RequestKeeps(s: Settings, c: Coord, worker: int)
    requires CoordInv(s, c)
    ensures var (d, reply) := RequestTask(c, worker);
            && CoordInv(s, d) && Advances(c, d) && d.phase == c.phase &&
                (reply.kind == MapTask ==> reply.reduceNum == s.n)
            && (reply.kind in {MapTask, ReduceTask} ==>
                  && reply.kind == KindOf(c.phase) && 0 <= reply.id < |c.Tasks(reply.kind)|
                  && c.Tasks(reply.kind)[reply.id].stat == NotAssign &&
                      reply.files == c.Tasks(reply.kind)[reply.id].files
                  && d == c.With(reply.kind,
                      c.Tasks(reply.kind)[reply.id :=
                      c.Tasks(reply.kind)[reply.id].(stat := Assigned, worker := worker)]))
            && (reply.kind !in {MapTask, ReduceTask} ==> d == c)
  {
    if c.phase != AllDone {
      var kind := KindOf(c.phase);
      var tasks := c.Tasks(kind);
      var i := FirstFree(tasks);
      if i < |tasks| {
        if kind == MapTask {
          assert MapTaskOk(s, c.mapTask[i], i);
        } else {
          assert ReduceTaskOk(s, c.reduceTask[i], i);
        }
        TaskChanges(s, c, kind, i, tasks[i].(stat := Assigned, worker := worker));
      }
    }
  }

  /** Whichever timer fires, a task that is not finished is free again. */
  lemma TimeoutKeeps(s: Settings, c: Coord, worker: int, kind: Kind, i: nat)
    requires CoordInv(s, c) && kind in {MapTask, ReduceTask} && i < |c.Tasks(kind)|
    ensures var d := CheckTimeout(c, worker, kind, i);
            && CoordInv(s, d) && Advances(c, d) && d.phase == c.phase
            && (c.Tasks(kind)[i].stat != Finished ==> d.Tasks(kind)[i].stat == NotAssign)
  {
    TaskChanges(s, c, kind, i, TimedOut(c.Tasks(kind)[i], worker));
  }

  lemma ReportKeeps(s: Settings, c: Coord, worker: int, kind: Kind, i: nat)
    requires CoordInv(s, c) && kind in {MapTask, ReduceTask} && i < |c.Tasks(kind)|
    ensures CoordInv(s, ReportTask(c, worker, kind, i)) && Advances(c, ReportTask(c, worker, kind, i)) &&
            ReportTask(c, worker, kind, i).phase == c.phase
  {
    var t := c.Tasks(kind)[i];
    if kind == MapTask {
      assert MapTaskOk(s, t, i);
    } else {
      assert ReduceTaskOk(s, t, i);
    }
    TaskChanges(s, c, kind, i, t.(stat := Finished));
    if kind == MapTask && t.stat == Assigned {
      assert c.phase == MapPhase;
    }
  }

  lemma PhaseKeeps(s: Settings, c: Coord, found: nat -> seq<Name>)
    requires CoordInv(s, c) &&
             (c.phase == MapPhase && AllFinished(c.mapTask) ==> forall r: nat :: r < s.n ==>
             Listing(found(r), |s.inputs|, r))
    ensures CoordInv(s, CheckPhase(c, found)) && Advances(c, CheckPhase(c, found))
  {
    var d := CheckPhase(c, found);
    DoneAll(c.mapTask);
    DoneAll(c.reduceTask);
    if c.phase == MapPhase && c.nMap == |c.mapTask| {
      NoneDone(d.reduceTask);
      forall r | 0 <= r < s.n ensures ReduceTaskOk(s, d.reduceTask[r], r) {
        assert Listing(found(r), |s.inputs|, r);
      }
    }
  }

  // ---- files and work under way ----

  /** All pairs there are, and those of one reduce task. */
  ghost function Total(s: Settings): seq<KeyValue>
    requires s.Valid()
  {
    Mapped(s.mapf, s.contents, s.inputs)
  }

  lemma TotalIsFlat(s: Settings)
    requires s.Valid()
    ensures Total(s) == Flat(seq(|s.inputs|, i requires 0 <= i < |s.inputs| =>
              s.mapf(s.inputs[i], s.contents[s.inputs[i]])))
  {
    var mapf, contents, inputs := s.mapf, s.contents, s.inputs;
    MappedIsFlat(mapf, contents, inputs);
    assert seq(|inputs|, i requires 0 <= i < |inputs| => mapf(inputs[i], contents[inputs[i]])) ==
           seq(|s.inputs|, i requires 0 <= i < |s.inputs| => s.mapf(s.inputs[i], s.contents[s.inputs[i]]));
  }

  /** What a map task has for a reduce task: those pairs that Map makes of its file whose keys hash to it. */
  lemma ShareIsHashed(s: Settings, m: nat, r: nat, kv: KeyValue)
    requires s.Valid() && m < |s.inputs|
    ensures var pairs := s.mapf(s.inputs[m], s.contents[s.inputs[m]]);
            multiset(Share(s, m, r))[kv] == if s.hash(kv.key) % s.n == r then multiset(pairs)[kv] else 0
  {
    var f := s.inputs[m];
    MappedIsFlat(s.mapf, s.contents, [f]);
    var one := seq(|[f]|, i requires 0 <= i < |[f]| => s.mapf([f][i], s.contents[[f][i]]));
    assert one == [s.mapf(f, s.contents[f])] && one[..0] == [];
    BucketCounts(Mapped(s.mapf, s.contents, [f]), s.hash, r, s.n, kv);
  }

  ghost predicate FileOk(s: Settings, middle: map<Name, seq<KeyValue>>, name: Name)
    requires s.Valid() && name in middle
  {
    name.Middle? && name.m < |s.inputs| && name.r < s.n && multiset(middle[name]) == multiset(Share(s, name.m, name.r))
  }

  ghost predicate FilesOk(s: Settings, middle: map<Name, seq<KeyValue>>)
    requires s.Valid()
  {
    forall name {:trigger FileOk(s, middle, name)} :: name in middle ==> FileOk(s, middle, name)
  }

  /** Map task `m` has left a file for every reduce task. */
  ghost predicate Left(s: Settings, middle: map<Name, seq<KeyValue>>, m: nat) {
    forall r: nat {:trigger Middle(m, r)} :: r < s.n ==> Middle(m, r) in middle
  }

  ghost predicate ReadOk(s: Settings, files: seq<Name>, read: seq<seq<KeyValue>>, r: nat)
    requires s.Valid()
  {
    |read| <= |files| && forall i {:trigger read[i]} :: 0 <= i < |read| ==>
      files[i].Middle? && files[i].m < |s.inputs| && multiset(read[i]) == multiset(Share(s, files[i].m, r))
  }

  ghost predicate WorkOk(s: Settings, w: World, k: Work)
    requires s.Valid()
  {
    match k
    case MapWork(_, m, n, written) => m < |s.inputs| && n == s.n && forall r :: r in written ==>
        Middle(m, r) in w.middle
    case ReduceWork(_, r, files, read, done) =>
      && w.c.phase != MapPhase && r < s.n && Listing(files, |s.inputs|, r)
      && ReadOk(s, files, read, r) && (done ==> r in w.out)
  }

  ghost predicate OutOk(s: Settings, out: map<nat, seq<Line>>, r: nat)
    requires s.Valid() && r in out
  {
    r < s.n && Reduces(out[r], BucketOf(Total(s), s.hash, r, s.n), s.reducef)
  }

  /** Some timer is running for the task. */
  ghost predicate Timed(timers: multiset<Timer>, kind: Kind, i: nat) {
    exists worker {:trigger Timer(worker, kind, i)} :: Timer(worker, kind, i) in timers
  }

  ghost predicate TimersOk(w: World) {
    && (forall t :: t in w.timers ==> t.kind in {MapTask, ReduceTask})
    && (forall i: nat {:trigger Timed(w.timers, MapTask, i)} ::
          i < |w.c.mapTask| && w.c.mapTask[i].stat == Assigned ==> Timed(w.timers, MapTask, i))
    && (forall i: nat {:trigger Timed(w.timers, ReduceTask, i)} ::
          i < |w.c.reduceTask| && w.c.reduceTask[i].stat == Assigned ==> Timed(w.timers, ReduceTask, i))
  }

  ghost predicate WorksOk(s: Settings, w: World)
    requires s.Valid()
  {
    forall x {:trigger w.work[x]} :: x in w.work ==> WorkOk(s, w, w.work[x])
  }

  /** What is finished has left its files. */
  ghost predicate FinishedLeft(s: Settings, w: World) {
    && (forall m: nat {:trigger Left(s, w.middle, m)} :: m < |w.c.mapTask| && w.c.mapTask[m].stat == Finished ==>
        Left(s, w.middle, m))
    && (forall r: nat {:trigger r in w.out} :: r < |w.c.reduceTask| && w.c.reduceTask[r].stat == Finished ==>
        r in w.out)
  }

  ghost predicate OutsOk(s: Settings, out: map<nat, seq<Line>>)
    requires s.Valid()
  {
    forall r {:trigger OutOk(s, out, r)} :: r in out ==> OutOk(s, out, r)
  }

  ghost predicate Inv(s: Settings, w: World)
    requires s.Valid()
  {
    && CoordInv(s, w.c) && FilesOk(s, w.middle) && FinishedLeft(s, w) && WorksOk(s, w) && OutsOk(s, w.out) &&
        TimersOk(w)
    && (forall x {:trigger w.work[x]} :: x in w.work ==> x < w.clock)
  }

  lemma InitInv(s: Settings)
    requires s.Valid()
    ensures Inv(s, Init(s))
  {
    var w := Init(s);
    NoneDone(w.c.mapTask);
    forall i | 0 <= i < |w.c.mapTask| ensures MapTaskOk(s, w.c.mapTask[i], i) {}
  }

  // ---- what a reduce task reads, all together ----

  lemma {:induction false} FlatParts(a: seq<seq<KeyValue>>, x: seq<KeyValue>, b: seq<seq<KeyValue>>)
    ensures multiset(Flat(a + [x] + b)) == multiset(Flat(a + b)) + multiset(x)
    decreases |b|
  {
    if b == [] {
      assert a + [x] + b == a + [x] && a + b == a && (a + [x])[..|a|] == a;
    } else {
      var b', z := b[..|b| - 1], b[|b| - 1];
      FlatParts(a, x, b');
      assert (a + [x] + b)[..|a + [x] + b| - 1] == a + [x] + b';
      assert (a + b)[..|a + b| - 1] == a + b';
    }
  }

  lemma ShareIsBucket(s: Settings, m: nat, r: nat)
    requires s.Valid() && m < |s.inputs|
    ensures var p := s.inputs[..m];
            BucketOf(Mapped(s.mapf, s.contents, s.inputs[..m + 1]), s.hash, r, s.n) ==
            BucketOf(Mapped(s.mapf, s.contents, p), s.hash, r, s.n) + Share(s, m, r)
  {
    var f := s.inputs[m];
    assert s.inputs[..m + 1][..m] == s.inputs[..m];
    assert [f][..0] == [];
    assert Mapped(s.mapf, s.contents, [f]) == s.mapf(f, s.contents[f]);
    BucketJoined(Mapped(s.mapf, s.contents, s.inputs[..m]), s.mapf(f, s.contents[f]), s.hash, r, s.n);
  }

  lemma FindLast(s: Settings, files: seq<Name>, read: seq<seq<KeyValue>>, m: nat, r: nat) returns (i: nat)
    requires s.Valid() && 0 < m <= |s.inputs| && Listing(files, m, r) && |read| == |files| && ReadOk(s, files, read, r)
    ensures i < |files| && files[i] == Middle(m - 1, r) && multiset(read[i]) == multiset(Share(s, m - 1, r))
  {
    assert Middle(m - 1, r) in files;
    i :| 0 <= i < |files| && files[i] == Middle(m - 1, r);
  }

  lemma Together(flat: seq<KeyValue>, rest: seq<KeyValue>, x: seq<KeyValue>, bucket: seq<KeyValue>,
      share: seq<KeyValue>)
    requires multiset(flat) == multiset(rest) + multiset(x) && multiset(rest) == multiset(bucket) &&
             multiset(x) == multiset(share)
    ensures multiset(flat) == multiset(bucket + share)
  {}

  /** In whatever order the files are listed, they hold the whole bucket. */
  lemma {:induction false} AllRead(s: Settings, files: seq<Name>, read: seq<seq<KeyValue>>, m: nat, r: nat)
    requires s.Valid() && m <= |s.inputs| && Listing(files, m, r) && |read| == |files| && ReadOk(s, files, read, r)
    ensures multiset(Flat(read)) == multiset(BucketOf(Mapped(s.mapf, s.contents, s.inputs[..m]), s.hash, r, s.n))
    decreases m
  {
    if m == 0 {
      if files != [] {
        HeadIn(files);
        assert false;
      }
    } else {
      hide Listing, ReadOk, Share, BucketOf, Flat, Mapped, Insensitive;
      assert (s.inputs[..m])[..m - 1] == s.inputs[..m - 1];
      var i := FindLast(s, files, read, m, r);
      var less, ra, rb := files[..i] + files[i + 1..], read[..i], read[i + 1..];
      assert read == ra + [read[i]] + rb;
      FlatParts(ra, read[i], rb);
      ListingWithout(files, i, m, r);
      ReadWithout(s, files, read, i, r);
      AllRead(s, less, ra + rb, m - 1, r);
      ShareIsBucket(s, m - 1, r);
      Together(Flat(read), Flat(ra + rb), read[i],
          BucketOf(Mapped(s.mapf, s.contents, s.inputs[..m - 1]), s.hash, r, s.n), Share(s, m - 1, r));
    }
  }

  lemma ListingWithout(files: seq<Name>, i: nat, m: nat, r: nat)
    requires m > 0 && Listing(files, m, r) && i < |files| && files[i] == Middle(m - 1, r)
    ensures Listing(files[..i] + files[i + 1..], m - 1, r)
  {
    var less := files[..i] + files[i + 1..];
    forall j, k | 0 <= j < k < |less| ensures less[j] != less[k] {
      assert less[j] == files[if j < i then j else j + 1] && less[k] == files[if k < i then k else k + 1];
    }
    forall name ensures name in less <==> name.Middle? && name.m < m - 1 && name.r == r {
      if name in less {
        var j :| 0 <= j < |less| && less[j] == name;
        assert name == files[if j < i then j else j + 1];
        assert name in files && name != files[i];
      }
      if name in files && name != files[i] {
        var j :| 0 <= j < |files| && files[j] == name;
        assert name == less[if j < i then j else j - 1];
      }
    }
  }

  lemma ReadWithout(s: Settings, files: seq<Name>, read: seq<seq<KeyValue>>, i: nat, r: nat)
    requires s.Valid() && i < |read| == |files| && ReadOk(s, files, read, r)
    ensures ReadOk(s, files[..i] + files[i + 1..], read[..i] + read[i + 1..], r)
  {
    var f, q := files[..i] + files[i + 1..], read[..i] + read[i + 1..];
    forall j | 0 <= j < |q| ensures f[j].Middle? && f[j].m < |s.inputs| &&
        multiset(q[j]) == multiset(Share(s, f[j].m, r)) {
      var k := if j < i then j else j + 1;
      assert q[j] == read[k] && f[j] == files[k];
    }
  }

  // ---- steps ----

  ghost predicate Kept(s: Settings, w: World, w': World)
    requires s.Valid()
  {
    Inv(s, w') && Advances(w.c, w'.c)
  }

  lemma SameCoord(c: Coord)
    ensures Advances(c, c)
  {}

  lemma RenameStep(s: Settings, w: World, x: nat, r: nat, content: seq<KeyValue>)
    requires s.Valid() && Inv(s, w) && Enabled(s, w, Rename(x, r, content))
    ensures Kept(s, w, Apply(s, w, Rename(x, r, content)))
  {
    hide CoordInv, Share, InOrder, OutsOk, ReadOk, Listing;
    var w', k := Apply(s, w, Rename(x, r, content)), w.work[x];
    SameCoord(w.c);
    assert WorkOk(s, w, k);
    forall name | name in w'.middle ensures FileOk(s, w'.middle, name) {
      if name != Middle(k.m, r) {
        assert FileOk(s, w.middle, name);
      }
    }
    forall y | y in w'.work ensures WorkOk(s, w', w'.work[y]) {
      assert WorkOk(s, w, w.work[y]);
    }
    forall m: nat | Left(s, w.middle, m) ensures Left(s, w'.middle, m) {}
    forall m: nat | m < |w.c.mapTask| && w.c.mapTask[m].stat == Finished ensures Left(s, w'.middle, m) {
      assert Left(s, w.middle, m);
    }
  }

  /** Every file a reduce task is to read is there by the time there are reduce tasks. */
  lemma FileIsThere(s: Settings, w: World, name: Name)
    requires s.Valid() && Inv(s, w) && AllFinished(w.c.mapTask) && name.Middle? && name.m < |s.inputs| && name.r < s.n
    ensures name in w.middle && FileOk(s, w.middle, name)
  {
    assert w.c.mapTask[name.m].stat == Finished;
    assert Left(s, w.middle, name.m);
    assert name == Middle(name.m, name.r);
  }

  lemma ReadStep(s: Settings, w: World, x: nat)
    requires s.Valid() && Inv(s, w) && Enabled(s, w, Read(x))
    ensures Kept(s, w, Apply(s, w, Read(x)))
  {
    var w', k := Apply(s, w, Read(x)), w.work[x];
    SameCoord(w.c);
    assert WorkOk(s, w, k);
    var name := k.files[|k.read|];
    assert name in k.files;
    FileIsThere(s, w, name);
    hide CoordInv, Share, FilesOk, OutsOk, Listing, FinishedLeft, TimersOk;
    var k' := w'.work[x];
    forall i | 0 <= i < |k'.read|
      ensures k'.files[i].Middle? && k'.files[i].m < |s.inputs| &&
              multiset(k'.read[i]) == multiset(Share(s, k'.files[i].m, k'.r))
    {
      if i < |k.read| {
        assert k'.read[i] == k.read[i];
      }
    }
    forall y | y in w'.work ensures WorkOk(s, w', w'.work[y]) {
      if y != x {
        assert WorkOk(s, w, w.work[y]);
      }
    }
    assert FinishedLeft(s, w') by { SameFiles(s, w, w'); }
    assert TimersOk(w') by { SameTimers(w, w'); }
  }

  lemma SameFiles(s: Settings, w: World, w': World)
    requires FinishedLeft(s, w) && w'.c == w.c && w'.middle == w.middle && w.out.Keys <= w'.out.Keys
    ensures FinishedLeft(s, w')
  {
    forall r: nat | r < |w.c.reduceTask| && w.c.reduceTask[r].stat == Finished ensures r in w'.out {
      assert r in w.out;
    }
  }

  lemma SameTimers(w: World, w': World)
    requires TimersOk(w) && w'.c == w.c && w'.timers == w.timers
    ensures TimersOk(w')
  {}

  /** What a reduce task puts out is right, whichever files it read. */
  lemma PutOutRight(s: Settings, k: Work, lines: seq<Line>)
    requires s.Valid() && k.ReduceWork? && Listing(k.files, |s.inputs|, k.r) && |k.read| == |k.files| &&
             ReadOk(s, k.files, k.read, k.r)
    requires Reduces(lines, Flat(k.read), s.reducef)
    ensures Reduces(lines, BucketOf(Total(s), s.hash, k.r, s.n), s.reducef)
  {
    hide Listing, ReadOk, Reduces, Flat, BucketOf, Mapped, Insensitive;
    AllRead(s, k.files, k.read, |s.inputs|, k.r);
    assert s.inputs[..|s.inputs|] == s.inputs;
    ReducesRearranged(lines, Flat(k.read), BucketOf(Total(s), s.hash, k.r, s.n), s.reducef);
  }

  lemma PutOutStep(s: Settings, w: World, x: nat, lines: seq<Line>)
    requires s.Valid() && Inv(s, w) && Enabled(s, w, PutOut(x, lines))
    ensures Kept(s, w, Apply(s, w, PutOut(x, lines)))
  {
    hide CoordInv, Share, FilesOk, Listing, FinishedLeft, TimersOk, ReadOk, BucketOf, Mapped, Reduces, Flat,
        Insensitive, Total;
    var w', k := Apply(s, w, PutOut(x, lines)), w.work[x];
    SameCoord(w.c);
    assert WorkOk(s, w, k);
    PutOutRight(s, k, lines);
    forall r | r in w'.out ensures OutOk(s, w'.out, r) {
      if r != k.r {
        assert OutOk(s, w.out, r);
      }
    }
    forall y | y in w'.work ensures WorkOk(s, w', w'.work[y]) {
      assert WorkOk(s, w, w.work[y]);
    }
    SameFiles(s, w, w');
    SameTimers(w, w');
  }

  lemma StillTimed(timers: multiset<Timer>, t: Timer, kind: Kind, i: nat)
    ensures Timed(timers, kind, i) ==> Timed(timers + multiset{t}, kind, i)
    ensures Timed(timers + multiset{t}, t.kind, t.id)
    ensures Timed(timers, kind, i) && (kind, i) != (t.kind, t.id) ==> Timed(timers - multiset{t}, kind, i)
  {
    assert t in timers + multiset{t};
    if Timed(timers, kind, i) {
      var v :| Timer(v, kind, i) in timers;
      assert Timer(v, kind, i) in timers + multiset{t};
      if (kind, i) != (t.kind, t.id) {
        assert Timer(v, kind, i) in timers - multiset{t};
      }
    }
  }

  /** A task that is assigned gets a timer, and the timers of others go on. */
  lemma AssignTimers(w: World, w': World, t: Timer)
    requires TimersOk(w) && t.kind in {MapTask, ReduceTask} && w'.timers == w.timers + multiset{t} &&
             t.id < |w.c.Tasks(t.kind)|
    requires |w'.c.Tasks(t.kind)| == |w.c.Tasks(t.kind)| &&
             w'.c == w.c.With(t.kind, w.c.Tasks(t.kind)[t.id := w'.c.Tasks(t.kind)[t.id]])
    ensures TimersOk(w')
  {
    forall i: nat | i < |w'.c.mapTask| && w'.c.mapTask[i].stat == Assigned ensures Timed(w'.timers, MapTask, i) {
      StillTimed(w.timers, t, MapTask, i);
      assert (t.kind, t.id) != (MapTask, i) ==> w'.c.mapTask[i] == w.c.mapTask[i] && Timed(w.timers, MapTask, i);
    }
    forall i: nat | i < |w'.c.reduceTask| && w'.c.reduceTask[i].stat == Assigned
        ensures Timed(w'.timers, ReduceTask, i) {
      StillTimed(w.timers, t, ReduceTask, i);
      assert (t.kind, t.id) != (ReduceTask, i) ==>
          w'.c.reduceTask[i] == w.c.reduceTask[i] && Timed(w.timers, ReduceTask, i);
    }
  }

  lemma RequestStep(s: Settings, w: World, worker: int)
    requires s.Valid() && Inv(s, w)
    ensures Kept(s, w, Apply(s, w, Request(worker)))
  {
    var w' := Apply(s, w, Request(worker));
    var (d, reply) := RequestTask(w.c, worker);
    RequestKeeps(s, w.c, worker);
    hide CoordInv, FilesOk, OutsOk, RequestTask, Advances, TimersOk, WorksOk, FinishedLeft;
    if reply.kind in {MapTask, ReduceTask} {
      NewWork(s, w, worker, d, reply);
      AssignTimers(w, w', Timer(worker, reply.kind, reply.id));
    }
  }

  /** What a worker is given to do is a task of the job. */
  lemma NewWork(s: Settings, w: World, worker: int, d: Coord, reply: Reply)
    requires s.Valid() && Inv(s, w) && (d, reply) == RequestTask(w.c, worker) && reply.kind in {MapTask, ReduceTask}
    ensures reply.id >= 0 && WorksOk(s, Apply(s, w, Request(worker))) && FinishedLeft(s, Apply(s, w, Request(worker)))
  {
    RequestKeeps(s, w.c, worker);
    var w' := Apply(s, w, Request(worker));
    if reply.kind == ReduceTask {
      assert ReduceTaskOk(s, w.c.reduceTask[reply.id], reply.id);
    }
    hide FilesOk, OutsOk, RequestTask, Advances, Listing;
    forall y | y in w'.work ensures WorkOk(s, w', w'.work[y]) {
      if y != w.clock {
        assert WorkOk(s, w, w.work[y]);
      }
    }
    forall m: nat | m < |w'.c.mapTask| && w'.c.mapTask[m].stat == Finished ensures Left(s, w'.middle, m) {
      assert w.c.mapTask[m].stat == Finished;
      assert Left(s, w.middle, m);
    }
    forall r: nat | r < |w'.c.reduceTask| && w'.c.reduceTask[r].stat == Finished ensures r in w'.out {
      assert w.c.reduceTask[r].stat == Finished;
      assert r in w.out;
    }
  }

  /** The files of what was finished before are enough if nothing else is finished now. */
  lemma NothingNew(s: Settings, w: World, w': World)
    requires s.Valid() && Inv(s, w) && w'.middle == w.middle && w'.out == w.out && w'.work.Keys <= w.work.Keys
    requires forall x {:trigger w'.work[x]} :: x in w'.work ==> w'.work[x] == w.work[x]
    requires w.c.phase != MapPhase ==> w'.c.phase != MapPhase
    ensures WorksOk(s, w')
  {
    hide CoordInv, FilesOk, OutsOk, Listing, ReadOk;
    forall y | y in w'.work ensures WorkOk(s, w', w'.work[y]) {
      assert y in w.work && WorkOk(s, w, w.work[y]);
    }
  }

  lemma ExpireStep(s: Settings, w: World, t: Timer)
    requires s.Valid() && Inv(s, w) && Enabled(s, w, Expire(t))
    ensures Kept(s, w, Apply(s, w, Expire(t)))
  {
    var w' := Apply(s, w, Expire(t));
    TimeoutKeeps(s, w.c, t.worker, t.kind, t.id);
    assert w'.work == w.work;
    NothingNew(s, w, w');
    hide CoordInv, FilesOk, OutsOk, WorksOk, Advances, TimersOk;
    ExpireTimers(w, w', t);
    NoneFinished(s, w, w');
  }

  /** Nothing is finished now that was not before. */
  lemma NoneFinished(s: Settings, w: World, w': World)
    requires FinishedLeft(s, w) && w'.middle == w.middle && w'.out == w.out
    requires |w'.c.mapTask| == |w.c.mapTask| && |w'.c.reduceTask| == |w.c.reduceTask|
    requires forall i {:trigger w'.c.mapTask[i]} ::
               0 <= i < |w.c.mapTask| && w'.c.mapTask[i].stat == Finished ==> w.c.mapTask[i].stat == Finished
    requires forall i {:trigger w'.c.reduceTask[i]} ::
               0 <= i < |w.c.reduceTask| && w'.c.reduceTask[i].stat == Finished ==> w.c.reduceTask[i].stat == Finished
    ensures FinishedLeft(s, w')
  {
    forall m: nat | m < |w'.c.mapTask| && w'.c.mapTask[m].stat == Finished ensures Left(s, w'.middle, m) {
      assert Left(s, w.middle, m);
    }
    forall r: nat | r < |w'.c.reduceTask| && w'.c.reduceTask[r].stat == Finished ensures r in w'.out {
      assert r in w.out;
    }
  }

  lemma ExpireTimers(w: World, w': World, t: Timer)
    requires TimersOk(w) && t in w.timers && t.id < |w.c.Tasks(t.kind)| && w'.timers == w.timers - multiset{t} &&
             w'.c == CheckTimeout(w.c, t.worker, t.kind, t.id)
    ensures TimersOk(w')
  {
    forall u | u in w'.timers ensures u in w.timers {}
    forall i: nat | i < |w'.c.mapTask| && w'.c.mapTask[i].stat == Assigned ensures Timed(w'.timers, MapTask, i) {
      StillTimed(w.timers, t, MapTask, i);
      assert (t.kind, t.id) != (MapTask, i);
      assert w'.c.mapTask[i] == w.c.mapTask[i] && Timed(w.timers, MapTask, i);
    }
    forall i: nat | i < |w'.c.reduceTask| && w'.c.reduceTask[i].stat == Assigned
        ensures Timed(w'.timers, ReduceTask, i) {
      StillTimed(w.timers, t, ReduceTask, i);
      assert (t.kind, t.id) != (ReduceTask, i);
      assert w'.c.reduceTask[i] == w.c.reduceTask[i] && Timed(w.timers, ReduceTask, i);
    }
  }

  /** A report finishes a task only after its files are there. */
  lemma ReportStep(s: Settings, w: World, x: nat)
    requires s.Valid() && Inv(s, w) && Enabled(s, w, Report(x))
    ensures Kept(s, w, Apply(s, w, Report(x)))
  {
    var w', k := Apply(s, w, Report(x)), w.work[x];
    var kind, i := if k.MapWork? then MapTask else ReduceTask, if k.MapWork? then k.m else k.r;
    assert WorkOk(s, w, k);
    ReportKeeps(s, w.c, k.worker, kind, i);
    NothingNew(s, w, w');
    hide CoordInv, FilesOk, OutsOk, WorksOk, Advances, Listing, ReadOk;
    ReportTimers(w, w', k.worker, kind, i);
    forall m: nat | m < |w'.c.mapTask| && w'.c.mapTask[m].stat == Finished ensures Left(s, w'.middle, m) {
      if w.c.mapTask[m].stat == Finished {
        assert Left(s, w.middle, m);
      }
    }
    forall r: nat | r < |w'.c.reduceTask| && w'.c.reduceTask[r].stat == Finished ensures r in w'.out {
      if w.c.reduceTask[r].stat == Finished {
        assert r in w.out;
      }
    }
  }

  lemma ReportTimers(w: World, w': World, worker: int, kind: Kind, i: nat)
    requires TimersOk(w) && kind in {MapTask, ReduceTask} && i < |w.c.Tasks(kind)| && w'.timers == w.timers &&
             w'.c == ReportTask(w.c, worker, kind, i)
    ensures TimersOk(w')
  {
    forall j: nat | j < |w'.c.mapTask| && w'.c.mapTask[j].stat == Assigned ensures Timed(w'.timers, MapTask, j) {
      assert w.c.mapTask[j].stat == Assigned && Timed(w.timers, MapTask, j);
    }
    forall j: nat | j < |w'.c.reduceTask| && w'.c.reduceTask[j].stat == Assigned
        ensures Timed(w'.timers, ReduceTask, j) {
      assert w.c.reduceTask[j].stat == Assigned && Timed(w.timers, ReduceTask, j);
    }
  }

  /** When all map tasks are finished, a search finds one file of each. */
  lemma FoundAll(s: Settings, w: World, names: seq<Name>, r: nat)
    requires s.Valid() && Inv(s, w) && AllFinished(w.c.mapTask) && Finds(w, names, r) && r < s.n
    ensures Listing(names, |s.inputs|, r)
  {
    forall name ensures name in names <==> name.Middle? && name.m < |s.inputs| && name.r == r {
      if name.Middle? && name.m < |s.inputs| && name.r == r {
        FileIsThere(s, w, name);
      }
      if name in names {
        assert name in w.middle && FileOk(s, w.middle, name);
      }
    }
  }

  lemma LookFinds(s: Settings, w: World, found: seq<seq<Name>>)
    requires s.Valid() && Inv(s, w) && Enabled(s, w, Look(found)) && w.c.phase == MapPhase && AllFinished(w.c.mapTask)
    ensures forall r: nat :: r < s.n ==> Listing(Listed(found)(r), |s.inputs|, r)
  {
    hide FilesOk, OutsOk, WorksOk, FinishedLeft, TimersOk, Listing;
    forall r: nat | r < s.n ensures Listing(Listed(found)(r), |s.inputs|, r) {
      assert Finds(w, found[r], r);
      FoundAll(s, w, found[r], r);
    }
  }

  lemma LookStep(s: Settings, w: World, found: seq<seq<Name>>)
    requires s.Valid() && Inv(s, w) && Enabled(s, w, Look(found))
    ensures Kept(s, w, Apply(s, w, Look(found)))
  {
    if w.c.phase == MapPhase && AllFinished(w.c.mapTask) {
      LookFinds(s, w, found);
    }
    hide FilesOk, OutsOk, WorksOk, Advances, Listing, Finds;
    var w' := Apply(s, w, Look(found));
    PhaseKeeps(s, w.c, Listed(found));
    assert w'.work == w.work;
    NothingNew(s, w, w');
    LookTimers(w, w', Listed(found));
    hide TimersOk;
    forall m: nat | m < |w'.c.mapTask| && w'.c.mapTask[m].stat == Finished ensures Left(s, w'.middle, m) {
      assert Left(s, w.middle, m);
    }
    forall r: nat | r < |w'.c.reduceTask| && w'.c.reduceTask[r].stat == Finished ensures r in w'.out {
      assert w.c.phase != MapPhase && r in w.out;
    }
  }

  lemma LookTimers(w: World, w': World, found: nat -> seq<Name>)
    requires TimersOk(w) && w'.timers == w.timers && w'.c == CheckPhase(w.c, found) &&
             (w.c.phase == MapPhase ==> w.c.reduceTask == [])
    ensures TimersOk(w')
  {
    forall j: nat | j < |w'.c.mapTask| && w'.c.mapTask[j].stat == Assigned ensures Timed(w'.timers, MapTask, j) {
      assert Timed(w.timers, MapTask, j);
    }
    forall j: nat | j < |w'.c.reduceTask| && w'.c.reduceTask[j].stat == Assigned
        ensures Timed(w'.timers, ReduceTask, j) {
      assert Timed(w.timers, ReduceTask, j);
    }
  }

  lemma StepInv(s: Settings, w: World, ev: Event)
    requires s.Valid() && Inv(s, w) && Enabled(s, w, ev)
    ensures Kept(s, w, Apply(s, w, ev))
  {
    hide Inv, Enabled, Apply, Kept;
    match ev
    case Request(worker) => RequestStep(s, w, worker);
    case Rename(x, r, content) => RenameStep(s, w, x, r, content);
    case Read(x) => ReadStep(s, w, x);
    case PutOut(x, lines) => PutOutStep(s, w, x, lines);
    case Report(x) => ReportStep(s, w, x);
    case Expire(t) => ExpireStep(s, w, t);
    case Look(found) => LookStep(s, w, found);
  }

  lemma {:induction false} RunInv(s: Settings, trace: seq<Event>)
    requires s.Valid() && IsRun(s, trace)
    ensures Inv(s, After(s, trace))
  {
    if trace == [] {
      InitInv(s);
    } else {
      hide Inv, Enabled, Apply;
      RunInv(s, trace[..|trace| - 1]);
      StepInv(s, After(s, trace[..|trace| - 1]), trace[|trace| - 1]);
    }
  }

  // ---- the theorems ----

  ghost function Outs(out: map<nat, seq<Line>>, n: nat): seq<seq<Line>>
    requires forall r: nat :: r < n ==> r in out
  {
    seq(n, r requires 0 <= r < n => out[r])
  }

  /**
   Distributed equals sequential: whatever was assigned, lost, timed out or carried out twice, when
   the job is done its output files hold together the very lines of the sequential job.
   */
  lemma DistributedIsSequential(s: Settings, trace: seq<Event>, sorted: seq<KeyValue>, lines: seq<Line>)
    requires s.Valid() && IsRun(s, trace) && After(s, trace).c.phase == AllDone
    requires SortOf(sorted, Total(s), KeyLess) && Reduces(lines, sorted, s.reducef)
    ensures forall r: nat {:trigger r in After(s, trace).out} :: r < s.n ==> r in After(s, trace).out
    ensures multiset(Flat(Outs(After(s, trace).out, s.n))) == multiset(lines)
  {
    RunInv(s, trace);
    var w := After(s, trace);
    forall r: nat | r < s.n ensures r in w.out && OutOk(s, w.out, r) {
      assert w.c.reduceTask[r].stat == Finished;
      assert r in w.out;
    }
    hide IsRun, After, Inv, InOrder, BucketOf, Mapped, Flat, Insensitive;
    var outs := Outs(w.out, s.n);
    forall r | 0 <= r < |outs| ensures Reduces(outs[r], BucketOf(Total(s), s.hash, r, s.n), s.reducef) {
      assert OutOk(s, w.out, r);
    }
    hide Reduces;
    BucketsReduce(outs, Total(s), s.hash, s.n, s.reducef);
    ReducesRearranged(lines, sorted, Total(s), s.reducef);
    SameLines(Flat(outs), lines, Total(s), s.reducef);
  }

  /** Map makes the pair of one of the inputs. */
  ghost predicate Emitted(s: Settings, kv: KeyValue)
    requires s.Valid()
  {
    exists i {:trigger s.inputs[i]} :: 0 <= i < |s.inputs| && kv in s.mapf(s.inputs[i], s.contents[s.inputs[i]])
  }

  /** `vals` are the values of the key in all that Map makes of the inputs, in some order. */
  ghost predicate AllValues(s: Settings, key: string, vals: seq<string>)
    requires s.Valid()
  {
    var pairs := Flat(seq(|s.inputs|, i requires 0 <= i < |s.inputs| =>
                   s.mapf(s.inputs[i], s.contents[s.inputs[i]])));
    forall v {:trigger multiset(vals)[v]} :: multiset(vals)[v] == multiset(pairs)[KeyValue(key, v)]
  }

  /**
   When the job is done, a line is in output file `r` iff its key hashes to `r`, Map has made a pair
   of that key, and Reduce makes its output of all the values of the key, taken in any order.
   */
  lemma OutputIsRight(s: Settings, trace: seq<Event>, r: nat, l: Line, vals: seq<string>)
    requires s.Valid() && IsRun(s, trace) && After(s, trace).c.phase == AllDone && r < s.n && AllValues(s, l.key, vals)
    ensures r in After(s, trace).out
    ensures l in After(s, trace).out[r] <==>
            && s.hash(l.key) % s.n == r && (exists v :: Emitted(s, KeyValue(l.key, v)))
            && l.output == s.reducef(l.key, vals)
  {
    RunInv(s, trace);
    var w := After(s, trace);
    assert w.c.reduceTask[r].stat == Finished;
    assert r in w.out && OutOk(s, w.out, r);
    hide IsRun, After, Inv, BucketOf, Mapped, Flat, Reduces;
    BucketLine(w.out[r], Total(s), s.hash, r, s.n, s.reducef, l);
    TotalValues(s, l.key, vals);
    KeyEmitted(s, l.key);
  }

  lemma TotalValues(s: Settings, key: string, vals: seq<string>)
    requires s.Valid() && AllValues(s, key, vals)
    ensures s.reducef(key, ValuesOf(Total(s), key)) == s.reducef(key, vals)
  {
    TotalIsFlat(s);
    var all := ValuesOf(Total(s), key);
    forall v ensures multiset(all)[v] == multiset(vals)[v] {
      ValueCounts(Total(s), key, v);
    }
    assert multiset(all) == multiset(vals);
  }

  lemma KeyEmitted(s: Settings, key: string)
    requires s.Valid()
    ensures ValuesOf(Total(s), key) != [] <==> exists v :: Emitted(s, KeyValue(key, v))
  {
    TotalIsFlat(s);
    var parts := seq(|s.inputs|, i requires 0 <= i < |s.inputs| => s.mapf(s.inputs[i], s.contents[s.inputs[i]]));
    var all := ValuesOf(Total(s), key);
    forall v ensures v in all <==> Emitted(s, KeyValue(key, v)) {
      ValueCounts(Total(s), key, v);
      FlatMember(parts, KeyValue(key, v));
      assert v in all <==> v in multiset(all);
      assert KeyValue(key, v) in Total(s) <==> KeyValue(key, v) in multiset(Total(s));
      if Emitted(s, KeyValue(key, v)) {
        var i :| 0 <= i < |s.inputs| && KeyValue(key, v) in s.mapf(s.inputs[i], s.contents[s.inputs[i]]);
        assert KeyValue(key, v) in parts[i];
      }
    }
    if all != [] {
      assert all[0] in all;
    }
  }

  /** The counters are right in every run, and each phase is over only when all its tasks are finished. */
  lemma CountersAreRight(s: Settings, trace: seq<Event>)
    requires s.Valid() && IsRun(s, trace)
    ensures var c := After(s, trace).c;
            && c.nMap == Done(c.mapTask) && |c.mapTask| == |s.inputs| && (c.phase == MapPhase ==> c.nReduce == s.n)
            && (c.phase != MapPhase ==>
                  c.nReduce == Done(c.reduceTask) && |c.reduceTask| == s.n && AllFinished(c.mapTask))
            && (c.phase == AllDone ==> AllFinished(c.reduceTask))
  {
    RunInv(s, trace);
  }

  /**
   What a worker is told in every run: to exit iff the job is done, to wait iff it is not and no task
   of the phase is free, and else to carry out the first task that is.
   */
  lemma RepliesAreRight(s: Settings, trace: seq<Event>, worker: int)
    requires s.Valid() && IsRun(s, trace)
    ensures var c := After(s, trace).c;
            var tasks, reply := c.Tasks(KindOf(c.phase)), RequestTask(c, worker).1;
            && (reply.kind == ExitTask <==> c.phase == AllDone)
            && (reply.kind == WaitTask <==>
                c.phase != AllDone && forall i {:trigger tasks[i]} :: 0 <= i < |tasks| ==> tasks[i].stat != NotAssign)
            && (reply.kind == WaitTask ==> reply.id == -1)
            && (reply.kind !in {MapTask, ReduceTask} ==> reply.files == [])
            && (reply.kind in {MapTask, ReduceTask} ==>
                  && reply.kind == KindOf(c.phase) && 0 <= reply.id < |tasks| && tasks[reply.id].stat == NotAssign
                  && (forall i {:trigger tasks[i]} :: 0 <= i < reply.id ==> tasks[i].stat != NotAssign)
                  && reply.files == tasks[reply.id].files)
  {
    RunInv(s, trace);
    var c := After(s, trace).c;
    hide IsRun, After;
    RequestKeeps(s, c, worker);
    if c.phase != AllDone {
      var tasks := c.Tasks(KindOf(c.phase));
      var i := FirstFree(tasks);
      if i < |tasks| {
        assert if c.phase == MapPhase then MapTaskOk(s, tasks[i], i) else ReduceTaskOk(s, tasks[i], i);
      }
    }
  }

  /** A report counts iff the task is still assigned to who reports it; a late one changes nothing. */
  lemma ReportCountsIff(s: Settings, trace: seq<Event>, x: nat)
    requires s.Valid() && IsRun(s, trace) && Enabled(s, After(s, trace), Report(x))
    ensures var w, d := After(s, trace), Apply(s, After(s, trace), Report(x)).c;
            var k := w.work[x];
            var kind, i := if k.MapWork? then MapTask else ReduceTask, if k.MapWork? then k.m else k.r;
            && i < |w.c.Tasks(kind)| == |d.Tasks(kind)|
            && if w.c.Tasks(kind)[i].stat == Assigned && w.c.Tasks(kind)[i].worker == k.worker then
                 && d.Tasks(kind)[i].stat == Finished && Done(d.Tasks(kind)) == Done(w.c.Tasks(kind)) + 1
                 && d.nMap + d.nReduce == w.c.nMap + w.c.nReduce + 1
               else d == w.c
  {
    RunInv(s, trace);
    var w := After(s, trace);
    hide IsRun, After, CoordInv, ReportTask, Done;
    var k := w.work[x];
    if k.MapWork? {
      Reported(s, w.c, k.worker, MapTask, k.m);
    } else {
      Reported(s, w.c, k.worker, ReduceTask, k.r);
    }
  }

  lemma Reported(s: Settings, c: Coord, worker: int, kind: Kind, i: nat)
    requires CoordInv(s, c) && kind in {MapTask, ReduceTask} && i < |c.Tasks(kind)|
    ensures var d, tasks := ReportTask(c, worker, kind, i), c.Tasks(kind);
            && |d.Tasks(kind)| == |tasks|
            && if tasks[i].stat == Assigned && tasks[i].worker == worker then
                 && d.Tasks(kind)[i].stat == Finished && Done(d.Tasks(kind)) == Done(tasks) + 1
                 && d.nMap + d.nReduce == c.nMap + c.nReduce + 1
               else d == c
  {
    var tasks := c.Tasks(kind);
    assert kind == MapTask ==> MapTaskOk(s, c.mapTask[i], i);
    assert kind == ReduceTask ==> ReduceTaskOk(s, c.reduceTask[i], i);
    DoneUpdate(tasks, i, tasks[i].(stat := Finished));
  }

  ghost predicate Unowned(tasks: seq<Task>) {
    forall i {:trigger tasks[i]} :: 0 <= i < |tasks| && tasks[i].stat == NotAssign ==> tasks[i].worker == -1
  }

  /** In every run, a task that is free belongs to nobody. */
  lemma {:induction false} FreeTasksHaveNoWorker(s: Settings, trace: seq<Event>)
    requires s.Valid() && IsRun(s, trace)
    ensures Unowned(After(s, trace).c.mapTask) && Unowned(After(s, trace).c.reduceTask)
  {
    if trace != [] {
      var before := trace[..|trace| - 1];
      FreeTasksHaveNoWorker(s, before);
      UnownedStep(s, After(s, before), trace[|trace| - 1]);
    }
  }

  lemma UnownedStep(s: Settings, w: World, ev: Event)
    requires s.Valid() && Enabled(s, w, ev) && Unowned(w.c.mapTask) && Unowned(w.c.reduceTask)
    ensures var d := Apply(s, w, ev).c; Unowned(d.mapTask) && Unowned(d.reduceTask)
  {
    hide MayLeave, Reduces, Finds, Unowned, RequestTask, ReportTask, CheckTimeout, CheckPhase;
    match ev {
      case Request(worker) => UnownedRequest(w.c, worker);
      case Report(x) =>
        var k := w.work[x];
        if k.MapWork? {
          UnownedReport(w.c, k.worker, MapTask, k.m);
        } else {
          UnownedReport(w.c, k.worker, ReduceTask, k.r);
        }
      case Expire(t) => UnownedTimeout(w.c, t.worker, t.kind, t.id);
      case Look(found) => UnownedLook(w.c, Listed(found));
      case _ =>
    }
  }

  lemma UnownedRequest(c: Coord, worker: int)
    requires Unowned(c.mapTask) && Unowned(c.reduceTask)
    ensures var d := RequestTask(c, worker).0; Unowned(d.mapTask) && Unowned(d.reduceTask)
  {}

  lemma UnownedReport(c: Coord, worker: int, kind: Kind, i: nat)
    requires Unowned(c.mapTask) && Unowned(c.reduceTask) && kind in {MapTask, ReduceTask} && i < |c.Tasks(kind)|
    ensures var d := ReportTask(c, worker, kind, i); Unowned(d.mapTask) && Unowned(d.reduceTask)
  {}

  lemma UnownedTimeout(c: Coord, worker: int, kind: Kind, i: nat)
    requires Unowned(c.mapTask) && Unowned(c.reduceTask) && i < |c.Tasks(kind)|
    ensures var d := CheckTimeout(c, worker, kind, i); Unowned(d.mapTask) && Unowned(d.reduceTask)
  {}

  lemma UnownedLook(c: Coord, found: nat -> seq<Name>)
    requires Unowned(c.mapTask) && Unowned(c.reduceTask)
    ensures var d := CheckPhase(c, found); Unowned(d.mapTask) && Unowned(d.reduceTask)
  {}

  /** Every map assignment carries the number of reduce tasks, though the counter it is read from is reused. */
  lemma AssignmentsCarryNReduce(s: Settings, trace: seq<Event>, worker: int)
    requires s.Valid() && IsRun(s, trace)
    ensures RequestTask(After(s, trace).c, worker).1.kind == MapTask ==>
            RequestTask(After(s, trace).c, worker).1.reduceNum == s.n
  {
    RunInv(s, trace);
    RequestKeeps(s, After(s, trace).c, worker);
  }

  /** No task is stranded: one that is assigned has a timer, and that timer, if it fires first, sets it free. */
  lemma NoTaskIsStranded(s: Settings, trace: seq<Event>, kind: Kind, i: nat) returns (t: Timer)
    requires s.Valid() && IsRun(s, trace) && kind in {MapTask, ReduceTask}
    requires i < |After(s, trace).c.Tasks(kind)| && After(s, trace).c.Tasks(kind)[i].stat == Assigned
    ensures t.kind == kind && t.id == i && Enabled(s, After(s, trace), Expire(t))
    ensures Apply(s, After(s, trace), Expire(t)).c.Tasks(kind)[i].stat == NotAssign
  {
    RunInv(s, trace);
    var w := After(s, trace);
    assert Timed(w.timers, kind, i);
    var worker :| Timer(worker, kind, i) in w.timers;
    t := Timer(worker, kind, i);
    TimeoutKeeps(s, w.c, worker, kind, i);
  }

  /** And a timer left over from an earlier assignment does no worse to an unfinished task. */
  lemma AnyTimerFrees(s: Settings, trace: seq<Event>, t: Timer)
    requires s.Valid() && IsRun(s, trace) && Enabled(s, After(s, trace), Expire(t))
    ensures After(s, trace).c.Tasks(t.kind)[t.id].stat != Finished ==>
              Apply(s, After(s, trace), Expire(t)).c.Tasks(t.kind)[t.id].stat == NotAssign
  {
    RunInv(s, trace);
    TimeoutKeeps(s, After(s, trace).c, t.worker, t.kind, t.id);
  }

  lemma AdvancesOn(c: Coord, d: Coord, e: Coord)
    requires Advances(c, d) && Advances(d, e)
    ensures Advances(c, e)
  {
    forall kind, i | 0 <= i < |c.Tasks(kind)| && c.Tasks(kind)[i].stat == Finished
        ensures i < |e.Tasks(kind)| && e.Tasks(kind)[i].stat == Finished {
      assert d.Tasks(kind)[i].stat == Finished;
    }
    forall kind ensures |c.Tasks(kind)| <= |e.Tasks(kind)| {
      assert |c.Tasks(kind)| <= |d.Tasks(kind)|;
    }
  }

  /** From any point of a run to any later one, phases only advance and finished tasks stay finished. */
  lemma {:induction false} JobAdvances(s: Settings, trace: seq<Event>, m: nat)
    requires s.Valid() && IsRun(s, trace) && m <= |trace|
    ensures IsRun(s, trace[..m]) && Advances(After(s, trace[..m]).c, After(s, trace).c)
    decreases |trace|
  {
    if m == |trace| {
      assert trace[..m] == trace;
      SameCoord(After(s, trace).c);
    } else {
      hide Inv, Enabled, Apply, Advances;
      var before := trace[..|trace| - 1];
      JobAdvances(s, before, m);
      assert before[..m] == trace[..m];
      RunInv(s, before);
      StepInv(s, After(s, before), trace[|trace| - 1]);
      AdvancesOn(After(s, trace[..m]).c, After(s, before).c, After(s, trace).c);
    }
  }
}
