/**
 The MapReduce coordinator (src/mr/coordinator.go): its tasks and phases, and what each handler and
 timer does to them, as functions.  Each handler is one step.
 */
module MrTasks {

  /** Files: the inputs, what map task `m` leaves for reduce task `r`, and what reduce task `r` puts out. */
  datatype Name = Input(name: string) | Middle(m: nat, r: nat) | Out(r: nat)

  datatype Kind = MapTask | ReduceTask | WaitTask | ExitTask

  datatype Stat = NotAssign | Assigned | Finished

  datatype Phase = MapPhase | ReducePhase | AllDone

  datatype Task = Task(kind: Kind, stat: Stat, files: seq<Name>, id: int, worker: int)

  datatype Reply = Reply(kind: Kind, files: seq<Name>, id: int, reduceNum: int)

  /** nReduce is the number of reduce tasks until they are made, and then how many are finished. */
  datatype Coord = Coord(nMap: int, nReduce: int, mapTask: seq<Task>, reduceTask: seq<Task>, phase: Phase)
  {
    function Tasks(kind: Kind): seq<Task> {
      if kind == MapTask then mapTask else reduceTask
    }

    function With(kind: Kind, tasks: seq<Task>): Coord {
      if kind == MapTask then this.(mapTask := tasks) else this.(reduceTask := tasks)
    }
  }

  function MapTasks(files: seq<string>, n: nat): seq<Task>
    requires n <= |files|
  {
    seq(n, i requires 0 <= i < n => Task(MapTask, NotAssign, [Input(files[i])], i, -1))
  }

  /** MakeCoordinator. */
  function Make(files: seq<string>, nReduce: nat): Coord {
    Coord(0, nReduce, MapTasks(files, |files|), [], MapPhase)
  }

  /** The first task that nobody has, or the number of tasks. */
  function FirstFree(tasks: seq<Task>): (i: nat)
    ensures i <= |tasks| && (i < |tasks| ==> tasks[i].stat == NotAssign)
    ensures forall j :: 0 <= j < i ==> tasks[j].stat != NotAssign
  {
    if tasks == [] || tasks[0].stat == NotAssign then 0 else 1 + FirstFree(tasks[1..])
  }

  function KindOf(phase: Phase): Kind {
    match phase
    case MapPhase => MapTask
    case ReducePhase => ReduceTask
    case AllDone => ExitTask
  }

  function RequestTask(c: Coord, worker: int): (Coord, Reply) {
    if c.phase == AllDone then (c, Reply(ExitTask, [], 0, 0))
    else
      var kind := KindOf(c.phase);
      var tasks := c.Tasks(kind);
      var i := FirstFree(tasks);
      if i == |tasks| then (c, Reply(WaitTask, [], -1, c.nReduce))
      else
        (c.With(kind, tasks[i := tasks[i].(stat := Assigned, worker := worker)]),
            Reply(tasks[i].kind, tasks[i].files, tasks[i].id, c.nReduce))
  }

  function TimedOut(t: Task, worker: int): Task {
    if t.stat == Finished then t
    else if (t.worker == worker && t.stat == Assigned) || t.worker != worker then t.(stat := NotAssign, worker := -1)
    else t
  }

  /** checkTimeout, of the task at index `i`. */
  function CheckTimeout(c: Coord, worker: int, kind: Kind, i: nat): Coord
    requires i < |c.Tasks(kind)|
  {
    c.With(kind, c.Tasks(kind)[i := TimedOut(c.Tasks(kind)[i], worker)])
  }

  function ReportTask(c: Coord, worker: int, kind: Kind, i: nat): Coord
    requires kind in {MapTask, ReduceTask} && i < |c.Tasks(kind)|
  {
    var t := c.Tasks(kind)[i];
    if t.worker == worker && t.stat == Assigned then
      var c1 := c.With(kind, c.Tasks(kind)[i := t.(stat := Finished)]);
      if t.kind == MapTask then c1.(nMap := c.nMap + 1)
      else if t.kind == ReduceTask then c1.(nReduce := c.nReduce + 1)
      else c1
    else c
  }

  function ReduceTasks(found: nat -> seq<Name>, n: nat): seq<Task> {
    seq(n, r requires 0 <= r => Task(ReduceTask, NotAssign, found(r), r, -1))
  }

  /** One look of checkPhase; `found(r)` are the files named mr-*-r. */
  function CheckPhase(c: Coord, found: nat -> seq<Name>): Coord {
    if c.phase == MapPhase && c.nMap == |c.mapTask| then
      c.(phase := ReducePhase, reduceTask := c.reduceTask + ReduceTasks(found, if c.nReduce > 0 then c.nReduce else 0),
          nReduce := 0)
    else if c.phase == ReducePhase && c.nReduce == |c.reduceTask| then c.(phase := AllDone)
    else c
  }

}
