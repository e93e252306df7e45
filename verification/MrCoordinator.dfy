/** The coordinator as it is written, with task records that timers point to. */
module MrCoordinator {
  import opened MrTasks

  class TaskRecord {
    const kind: Kind
    const files: seq<Name>
    const id: int
    var stat: Stat
    var worker: int

    constructor (kind: Kind, stat: Stat, files: seq<Name>, id: int, worker: int)
      ensures this.kind == kind && this.stat == stat && this.files == files && this.id == id && this.worker == worker
    {
      this.kind, this.stat, this.files, this.id, this.worker := kind, stat, files, id, worker;
    }

    function Value(): Task
      reads this
    {
      Task(kind, stat, files, id, worker)
    }
  }

  ghost function Values(ts: seq<TaskRecord>): (r: seq<Task>)
    reads ts
    ensures |r| == |ts| && forall i {:trigger r[i]} {:trigger ts[i]} :: 0 <= i < |ts| ==> r[i] == ts[i].Value()
  {
    seq(|ts|, i requires 0 <= i < |ts| reads ts => ts[i].Value())
  }

  ghost predicate Distinct(ts: seq<TaskRecord>) {
    forall i, j {:trigger ts[i], ts[j]} :: 0 <= i < j < |ts| ==> ts[i] != ts[j]
  }

  class Coordinator {
    const inputFiles: seq<string>
    var nMap: int
    var nReduce: int
    var mapTask: seq<TaskRecord>
    var reduceTask: seq<TaskRecord>
    var phase: Phase

    /** No two tasks share a record, and reduce tasks are made when the map tasks are done. */
    ghost predicate Valid()
      reads this
    {
      Distinct(mapTask + reduceTask) && (phase == MapPhase ==> reduceTask == [])
    }

    ghost function Contents(): Coord
      reads this, mapTask, reduceTask
    {
      Coord(nMap, nReduce, Values(mapTask), Values(reduceTask), phase)
    }

    constructor (files: seq<string>, nReduce: nat)
      ensures Valid() && Contents() == Make(files, nReduce) && fresh(mapTask + reduceTask)
    {
      inputFiles := files;
      nMap := |files|;
      this.nReduce := nReduce;
      mapTask, reduceTask := [], [];
      phase := MapPhase;
      new;
      MakeMapTask();
    }

    method MakeMapTask()
      requires mapTask == [] && reduceTask == [] && nMap == |inputFiles|
      modifies `nMap, `mapTask
      ensures Valid() && fresh(mapTask) && nMap == 0 && Values(mapTask) == MapTasks(inputFiles, |inputFiles|)
    {
      var mapId := 0;
      while mapId < nMap
        invariant mapId <= nMap == |inputFiles| == old(nMap) && |mapTask| == mapId && fresh(mapTask) &&
                  Distinct(mapTask)
        invariant Values(mapTask) == MapTasks(inputFiles, mapId)
      {
        var task := new TaskRecord(MapTask, NotAssign, [Input(inputFiles[mapId])], mapId, -1);
        mapTask := mapTask + [task];
        mapId := mapId + 1;
      }
      nMap := 0;
    }
  
    /** The records of the tasks of a kind. */
    ghost function Records(kind: Kind): seq<TaskRecord>
      reads this
    {
      if kind == MapTask then mapTask else reduceTask
    }

    /** A record is the record of one task only. */
    lemma OneTask(kind: Kind, i: nat)
      requires Valid() && kind in {MapTask, ReduceTask} && i < |Records(kind)|
      ensures forall j {:trigger mapTask[j]} :: 0 <= j < |mapTask| && (kind != MapTask || j != i) ==>
              mapTask[j] != Records(kind)[i]
      ensures forall j {:trigger reduceTask[j]} :: 0 <= j < |reduceTask| && (kind == MapTask || j != i) ==>
              reduceTask[j] != Records(kind)[i]
    {
      var all, k := mapTask + reduceTask, if kind == MapTask then i else |mapTask| + i;
      assert all[k] == Records(kind)[i];
      forall j | 0 <= j < |mapTask| && (kind != MapTask || j != i) ensures mapTask[j] != Records(kind)[i] {
        assert all[j] == mapTask[j] && all[j] != all[k];
      }
      forall j | 0 <= j < |reduceTask| && (kind == MapTask || j != i) ensures reduceTask[j] != Records(kind)[i] {
        assert all[|mapTask| + j] == reduceTask[j] && all[|mapTask| + j] != all[k];
      }
    }

    lemma TaskValue(kind: Kind, i: nat)
      requires kind in {MapTask, ReduceTask} && i < |Records(kind)|
      ensures Contents().Tasks(kind)[i] == Records(kind)[i].Value()
    {}

    method FindFree(ts: seq<TaskRecord>) returns (i: nat)
      ensures i == FirstFree(Values(ts))
    {
      i := 0;
      while i < |ts| && ts[i].stat != NotAssign
        invariant i <= |ts| && forall j {:trigger ts[j]} :: 0 <= j < i ==> ts[j].stat != NotAssign
      {
        i := i + 1;
      }
      assert forall j :: 0 <= j < i ==> Values(ts)[j] == ts[j].Value();
    }

    /** The first task that nobody has is now assigned; if there is none, the caller is told to wait. */
    method SelectTask(phase: Phase) returns (task: TaskRecord)
      requires Valid() && phase != AllDone
      modifies mapTask, reduceTask
      ensures var c, kind := old(Contents()), KindOf(phase);
              var i := FirstFree(c.Tasks(kind));
              if i < |Records(kind)| then
                task == Records(kind)[i] && Contents() ==
                    c.With(kind, c.Tasks(kind)[i := c.Tasks(kind)[i].(stat := Assigned)])
              else fresh(task) && task.Value() == Task(WaitTask, Finished, [], -1, -1) && Contents() == c
    {
      hide Distinct, FirstFree;
      var ts := if phase == MapPhase then mapTask else reduceTask;
      var i := FindFree(ts);
      if i < |ts| {
        task := ts[i];
        OneTask(KindOf(phase), i);
        task.stat := Assigned;
        assert Values(ts) == old(Values(ts))[i := task.Value()];
      } else {
        task := new TaskRecord(WaitTask, Finished, [], -1, -1);
      }
    }

    /** The worker's number is put down with task `i`, or with the record of a worker that waits. */
    method SetWorker(task: TaskRecord, worker: int, ghost kind: Kind, ghost i: nat)
      requires Valid() && kind in {MapTask, ReduceTask} && i <= |Records(kind)|
      requires if i < |Records(kind)| then task == Records(kind)[i] else task !in mapTask + reduceTask
      modifies task
      ensures task.Value() == old(task.Value()).(worker := worker)
      ensures Contents() == if i < |Records(kind)| then
              old(Contents()).With(kind, old(Contents()).Tasks(kind)[i := task.Value()]) else old(Contents())
    {
      task.worker := worker;
      if i < |Records(kind)| {
        OneTask(kind, i);
        assert Values(Records(kind)) == old(Values(Records(kind)))[i := task.Value()];
      } else {
        assert forall t :: t in mapTask || t in reduceTask ==> t in mapTask + reduceTask;
      }
    }

    /** A task, or the word to wait; `task` is the record a timer is started for. */
    method Assign(worker: int) returns (reply: Reply, task: TaskRecord)
      requires Valid() && phase != AllDone
      modifies mapTask, reduceTask
      ensures Contents() == MrTasks.RequestTask(old(Contents()), worker).0 &&
              reply == MrTasks.RequestTask(old(Contents()), worker).1
      ensures var kind := KindOf(phase);
              var i := FirstFree(old(Contents()).Tasks(kind));
              i < |Records(kind)| ==> task == Records(kind)[i]
    {
      hide Distinct, FirstFree, Values;
      ghost var c, kind := Contents(), KindOf(phase);
      ghost var i := FirstFree(c.Tasks(kind));
      if i < |Records(kind)| {
        TaskValue(kind, i);
      }
      task := SelectTask(phase);
      SetWorker(task, worker, kind, i);
      reply := Reply(task.kind, task.files, task.id, nReduce);
      assert i < |Records(kind)| ==>
          Contents().Tasks(kind) == c.Tasks(kind)[i := c.Tasks(kind)[i].(stat := Assigned, worker := worker)];
    }

    method RequestTask(worker: int) returns (reply: Reply, task: TaskRecord?)
      requires Valid()
      modifies mapTask, reduceTask
      ensures Valid() && Contents() == MrTasks.RequestTask(old(Contents()), worker).0
      ensures reply == MrTasks.RequestTask(old(Contents()), worker).1
      ensures phase != AllDone ==>
                var kind := KindOf(phase);
                var i := FirstFree(old(Contents()).Tasks(kind));
                i < |Records(kind)| ==> task == Records(kind)[i]
    {
      hide Distinct, FirstFree;
      if phase == AllDone {
        reply, task := Reply(ExitTask, [], 0, 0), null;
      } else {
        reply, task := Assign(worker);
      }
    }

    method CheckTimeout(worker: int, task: TaskRecord, ghost kind: Kind, ghost i: nat)
      requires Valid() && kind in {MapTask, ReduceTask} && i < |Records(kind)| && Records(kind)[i] == task
      modifies task
      ensures Valid() && Contents() == MrTasks.CheckTimeout(old(Contents()), worker, kind, i)
    {
      if task.stat != Finished {
        if (task.worker == worker && task.stat == Assigned) || task.worker != worker {
          task.stat := NotAssign;
          task.worker := -1;
        }
      }
      OneTask(kind, i);
      assert Values(Records(kind)) == old(Values(Records(kind)))[i := task.Value()];
    }

    /** Task `i` is finished. */
    method SetFinished(task: TaskRecord, ghost kind: Kind, ghost i: nat)
      requires Valid() && kind in {MapTask, ReduceTask} && i < |Records(kind)| && Records(kind)[i] == task
      modifies task
      ensures task.Value() == old(task.Value()).(stat := Finished)
      ensures Contents() == old(Contents()).With(kind, old(Contents()).Tasks(kind)[i := task.Value()])
    {
      OneTask(kind, i);
      task.stat := Finished;
      assert Values(Records(kind)) == old(Values(Records(kind)))[i := task.Value()];
    }

    /** One more task of a kind is finished. */
    method CountFinished(kind: Kind)
      modifies `nMap, `nReduce
      ensures var c := old(Contents());
              Contents() == c.(nMap := if kind == MapTask then c.nMap + 1 else c.nMap,
                               nReduce := if kind == ReduceTask then c.nReduce + 1 else c.nReduce)
    {
      if kind == MapTask {
        nMap := nMap + 1;
      } else if kind == ReduceTask {
        nReduce := nReduce + 1;
      }
    }

    method ReportTask(worker: int, kind: Kind, id: nat)
      requires Valid() && kind in {MapTask, ReduceTask} && id < |Records(kind)|
      modifies `nMap, `nReduce, Records(kind)[id]
      ensures Valid() && Contents() == MrTasks.ReportTask(old(Contents()), worker, kind, id)
    {
      hide Distinct, Values;
      var task := if kind == MapTask then mapTask[id] else reduceTask[id];
      TaskValue(kind, id);
      if task.worker == worker && task.stat == Assigned {
        SetFinished(task, kind, id);
        CountFinished(task.kind);
      }
    }

    method MakeReduceTask(found: nat -> seq<Name>)
      requires reduceTask == [] && Distinct(mapTask) && phase != MapPhase
      modifies `nReduce, `reduceTask
      ensures Valid() && nReduce == 0 && fresh(reduceTask)
      ensures Values(reduceTask) == ReduceTasks(found, if old(nReduce) > 0 then old(nReduce) else 0)
    {
      var reduceId := 0;
      assert mapTask + reduceTask == mapTask;
      while reduceId < nReduce
        invariant nReduce == old(nReduce) && 0 <= reduceId && (reduceId <= nReduce || reduceId == 0)
        invariant |reduceTask| == reduceId && fresh(reduceTask) && Distinct(mapTask + reduceTask)
        invariant Values(reduceTask) == ReduceTasks(found, reduceId)
      {
        var task := new TaskRecord(ReduceTask, NotAssign, found(reduceId), reduceId, -1);
        assert mapTask + (reduceTask + [task]) == mapTask + reduceTask + [task];
        reduceTask := reduceTask + [task];
        reduceId := reduceId + 1;
      }
      nReduce := 0;
    }

    method CheckPhase(found: nat -> seq<Name>)
      requires Valid()
      modifies `phase, `nReduce, `reduceTask
      ensures Valid() && Contents() == MrTasks.CheckPhase(old(Contents()), found)
    {
      if phase == MapPhase {
        if nMap == |mapTask| {
          assert mapTask + reduceTask == mapTask;
          phase := ReducePhase;
          MakeReduceTask(found);
          assert old(Contents()).reduceTask + Values(reduceTask) == Values(reduceTask);
        }
      } else if phase == ReducePhase {
        if nReduce == |reduceTask| {
          phase := AllDone;
        }
      }
    }
  }
}
