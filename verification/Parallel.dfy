module Parallel {
  // checkParallel (src/porcupine/checker.go:274-353) as a state machine: one goroutine for each
  // partition, a results channel, a kill flag, and the loop that collects results until it may
  // stop or times out.

  import opened Search

  datatype Result = Result(worker: nat, ok: bool)

  datatype Phase = Looping | Draining | Done

  datatype Verdict = Unknown | Ok | Illegal

  /** `running` are the goroutines still at work; `got` are the results received in the loop. */
  datatype Driver = Driver(
    running: set<nat>, channel: seq<Result>, got: seq<Result>, drained: seq<Result>,
    ok: bool, timedOut: bool, kill: bool, phase: Phase)

  /** What is checked: which partitions are linearizable, and how checkParallel was called. */
  datatype Job = Job(lin: seq<bool>, computeInfo: bool, hasTimeout: bool)

  function Range(n: nat): (r: set<nat>)
    ensures forall i: nat :: i in r <==> i < n
    ensures |r| == n
  {
    if n == 0 then {} else Range(n - 1) + {n - 1}
  }

  function Init(job: Job): Driver {
    Driver(Range(|job.lin|), [], [], [], true, false, false, Looping)
  }

  datatype Event = Finish(worker: nat, ok: bool) | Receive | Timeout | Drain

  /**
   A goroutine's checkSingle may return true only for a linearizable partition, and false only
   for one that is not, or once it has seen the kill flag.
   */
  predicate Enabled(job: Job, d: Driver, ev: Event) {
    match ev
    case Finish(i, ok) => i in d.running && i < |job.lin| && (if ok then job.lin[i] else !job.lin[i] || d.kill)
    case Receive => d.phase == Looping && d.channel != []
    case Timeout => d.phase == Looping && job.hasTimeout
    case Drain => d.phase == Draining && |d.got| + |d.drained| < |job.lin| && d.channel != []
  }

  /** Leaving the loop: with `computeInfo` the rest of the results is waited for. */
  function Leave(job: Job, d: Driver): Driver {
    d.(phase := if job.computeInfo && |d.got| + |d.drained| < |job.lin| then Draining else Done)
  }

  function Apply(job: Job, d: Driver, ev: Event): Driver
    requires Enabled(job, d, ev)
  {
    match ev
    case Finish(i, ok) =>
      d.(running := d.running - {i}, channel := d.channel + [Result(i, ok)])
    case Receive =>
      var r := d.channel[0];
      var d' := d.(channel := d.channel[1..], got := d.got + [r], ok := d.ok && r.ok);
      if !d'.ok && !job.computeInfo then Leave(job, d'.(kill := true))
      else if |d'.got| >= |job.lin| then Leave(job, d')
      else d'
    case Timeout =>
      Leave(job, d.(timedOut := true, kill := true))
    case Drain =>
      Leave(job, d.(channel := d.channel[1..], drained := d.drained + [d.channel[0]]))
  }

  function VerdictOf(d: Driver): Verdict {
    if !d.ok then Illegal else if d.timedOut then Unknown else Ok
  }

  /** A run: each event was enabled where it happened. */
  ghost predicate IsRun(job: Job, trace: seq<Event>)
    decreases |trace|, 0
  {
    trace == [] ||
    (IsRun(job, trace[..|trace| - 1]) && Enabled(job, After(job, trace[..|trace| - 1]), trace[|trace| - 1]))
  }

  ghost function After(job: Job, trace: seq<Event>): Driver
    requires IsRun(job, trace)
    decreases |trace|, 1
  {
    if trace == [] then Init(job)
    else Apply(job, After(job, trace[..|trace| - 1]), trace[|trace| - 1])
  }

  /** The kill flag was set when `m` events of the run had happened. */
  ghost predicate KilledAt(job: Job, trace: seq<Event>, m: nat) {
    m <= |trace| && IsRun(job, trace[..m]) && After(job, trace[..m]).kill
  }

  /** Nobody clears it. */
  lemma {:induction false} KillStays(job: Job, trace: seq<Event>, m: nat)
    requires IsRun(job, trace) && KilledAt(job, trace, m)
    ensures After(job, trace).kill
  {
    if m == |trace| {
      assert trace[..m] == trace;
    } else {
      var before := trace[..|trace| - 1];
      assert before[..m] == trace[..m];
      KillStays(job, before, m);
    }
  }

  // ---- what every run keeps ----

  ghost predicate Exact(job: Job, rs: seq<Result>) {
    forall k :: 0 <= k < |rs| ==> rs[k].worker < |job.lin| && (rs[k].ok <==> job.lin[rs[k].worker])
  }

  /** All results, received or not: one for each goroutine that has finished. */
  ghost function Results(d: Driver): seq<Result> {
    d.got + d.drained + d.channel
  }

  ghost predicate OnePerWorker(job: Job, running: set<nat>, rs: seq<Result>) {
    && (forall i, j :: 0 <= i < j < |rs| ==> rs[i].worker != rs[j].worker)
    && (forall k :: 0 <= k < |rs| ==> rs[k].worker < |job.lin| && rs[k].worker !in running)
    && (forall i :: i in running ==> i < |job.lin|)
    && |rs| + |running| == |job.lin|
  }

  ghost predicate AllTrue(rs: seq<Result>) {
    forall k :: 0 <= k < |rs| ==> rs[k].ok
  }

  ghost predicate Inv(job: Job, d: Driver) {
    && OnePerWorker(job, d.running, Results(d))
    && Exact(job, d.got)
    && (!d.kill ==> Exact(job, d.channel))
    && (d.ok <==> AllTrue(d.got))
    && (d.phase == Looping ==>
          !d.kill && !d.timedOut && d.drained == [] && (d.ok || job.computeInfo) &&
              (|d.got| < |job.lin| || |job.lin| == 0))
    && (d.timedOut ==> job.hasTimeout)
    && (d.phase != Looping ==> d.timedOut || !d.ok || |d.got| == |job.lin|)
    && (d.phase == Draining ==> |d.got| + |d.drained| < |job.lin|)
  }

  lemma InitInv(job: Job)
    ensures Inv(job, Init(job))
  {}

  lemma OnePerWorkerFinish(job: Job, running: set<nat>, rs: seq<Result>, r: Result)
    requires OnePerWorker(job, running, rs) && r.worker in running
    ensures OnePerWorker(job, running - {r.worker}, rs + [r])
  {}

  lemma FinishInv(job: Job, d: Driver, i: nat, ok: bool)
    requires Inv(job, d) && Enabled(job, d, Finish(i, ok))
    ensures Inv(job, Apply(job, d, Finish(i, ok)))
  {
    hide OnePerWorker;
    OnePerWorkerFinish(job, d.running, Results(d), Result(i, ok));
    var d' := Apply(job, d, Finish(i, ok));
    assert Results(d') == Results(d) + [Result(i, ok)];
  }

  lemma SizeBound(job: Job, running: set<nat>, rs: seq<Result>)
    requires OnePerWorker(job, running, rs)
    ensures |rs| <= |job.lin|
  {}

  lemma ReceiveInv(job: Job, d: Driver)
    requires Inv(job, d) && Enabled(job, d, Receive)
    ensures Inv(job, Apply(job, d, Receive))
  {
    hide OnePerWorker;
    var d' := Apply(job, d, Receive);
    var r := d.channel[0];
    assert d'.got == d.got + [r] && d'.channel == d.channel[1..];
    assert Results(d') == Results(d);
    SizeBound(job, d.running, Results(d));
    assert AllTrue(d'.got) <==> AllTrue(d.got) && r.ok by {
      assert forall k :: 0 <= k < |d.got| ==> d'.got[k] == d.got[k];
      assert d'.got[|d.got|] == r;
    }
  }

  lemma DrainInv(job: Job, d: Driver)
    requires Inv(job, d) && Enabled(job, d, Drain)
    ensures Inv(job, Apply(job, d, Drain))
  {
    hide OnePerWorker;
    var d' := Apply(job, d, Drain);
    assert Results(d') == Results(d);
  }

  lemma {:induction false} RunInv(job: Job, trace: seq<Event>)
    requires IsRun(job, trace)
    ensures Inv(job, After(job, trace))
  {
    if trace == [] {
      InitInv(job);
    } else {
      var d, ev := After(job, trace[..|trace| - 1]), trace[|trace| - 1];
      RunInv(job, trace[..|trace| - 1]);
      match ev {
        case Finish(i, ok) => FinishInv(job, d, i, ok);
        case Receive => ReceiveInv(job, d);
        case Timeout =>
        case Drain => DrainInv(job, d);
      }
    }
  }

  lemma WorkerFor(rs: seq<Result>, n: nat, w: nat) returns (k: nat)
    requires forall i, j :: 0 <= i < j < |rs| ==> rs[i].worker != rs[j].worker
    requires forall k :: 0 <= k < |rs| ==> rs[k].worker < n
    requires |rs| == n && w < n
    ensures k < |rs| && rs[k].worker == w
  {
    var ws := set k | 0 <= k < |rs| :: rs[k].worker;
    WorkersSize(rs);
    BelowSize(ws, n);
    assert w in ws;
    k :| 0 <= k < |rs| && rs[k].worker == w;
  }

  lemma {:induction false} WorkersSize(rs: seq<Result>)
    requires forall i, j :: 0 <= i < j < |rs| ==> rs[i].worker != rs[j].worker
    ensures |set k | 0 <= k < |rs| :: rs[k].worker| == |rs|
  {
    if rs != [] {
      var q := rs[..|rs| - 1];
      WorkersSize(q);
      assert (set k | 0 <= k < |rs| :: rs[k].worker) == (set k | 0 <= k < |q| :: q[k].worker) + {rs[|rs| - 1].worker};
    }
  }

  /**
   Whatever the order of the results and the moment of the timeout: Ok means every partition is
   linearizable, Illegal means some partition is not, and only a timeout gives Unknown.
   */
  lemma VerdictRight(job: Job, trace: seq<Event>)
    requires IsRun(job, trace) && After(job, trace).phase == Done
    ensures var v := VerdictOf(After(job, trace));
            && (v == Ok ==> forall i :: 0 <= i < |job.lin| ==> job.lin[i])
            && (v == Illegal ==> exists i :: 0 <= i < |job.lin| && !job.lin[i])
            && (v == Unknown ==> job.hasTimeout && Timeout in trace)
  {
    RunInv(job, trace);
    var d := After(job, trace);
    var v := VerdictOf(d);
    if v == Ok {
      forall i: nat | i < |job.lin| ensures job.lin[i] {
        assert forall a, b :: 0 <= a < b < |d.got| ==> Results(d)[a] == d.got[a] && Results(d)[b] == d.got[b];
        var k := WorkerFor(d.got, |job.lin|, i);
        assert d.got[k].ok;
      }
    } else if v == Illegal {
      var k :| 0 <= k < |d.got| && !d.got[k].ok;
      assert !job.lin[d.got[k].worker];
    } else {
      TimedOutInTrace(job, trace);
    }
  }

  // ---- exactly which verdict ----

  /** The results the goroutines of a run have sent, in order. */
  function Sent(trace: seq<Event>): seq<Result> {
    if trace == [] then []
    else
      var ev := trace[|trace| - 1];
      Sent(trace[..|trace| - 1]) + if ev.Finish? then [Result(ev.worker, ev.ok)] else []
  }

  /** How many of them the loop has received, and how many were drained after it. */
  function Taken(trace: seq<Event>, what: Event): nat {
    if trace == [] then 0
    else Taken(trace[..|trace| - 1], what) + if trace[|trace| - 1] == what then 1 else 0
  }

  /** Results come in the order they were sent, the loop's first. */
  lemma {:induction false} InOrderSent(job: Job, trace: seq<Event>)
    requires IsRun(job, trace)
    ensures var d := After(job, trace);
            && Results(d) == Sent(trace) && |d.got| == Taken(trace, Receive) && |d.drained| == Taken(trace, Drain)
            && (d.timedOut <==> Timeout in trace)
  {
    if trace != [] {
      var before, ev := trace[..|trace| - 1], trace[|trace| - 1];
      InOrderSent(job, before);
      RunInv(job, before);
      SentStep(job, After(job, before), ev);
      assert trace == before + [ev];
    }
  }

  lemma SentStep(job: Job, d: Driver, ev: Event)
    requires Inv(job, d) && Enabled(job, d, ev)
    ensures var d' := Apply(job, d, ev);
            && Results(d') == Results(d) + (if ev.Finish? then [Result(ev.worker, ev.ok)] else [])
            && |d'.got| == |d.got| + (if ev == Receive then 1 else 0)
            && |d'.drained| == |d.drained| + (if ev == Drain then 1 else 0)
            && (d'.timedOut <==> d.timedOut || ev == Timeout)
  {
    hide OnePerWorker, Exact, AllTrue;
    var d' := Apply(job, d, ev);
    if ev == Receive || ev == Drain {
      assert d.channel == [d.channel[0]] + d.channel[1..];
      assert Results(d') == Results(d) + [];
    }
  }

  /**
   The verdict of every run that has one, by the results its loop has received: Illegal iff one of
   them is false, also after a timeout; Unknown iff there was a timeout and none is; else Ok, and
   then all results were received.
   */
  lemma VerdictExact(job: Job, trace: seq<Event>)
    requires HasVerdict(job, trace)
    ensures Taken(trace, Receive) <= |Sent(trace)|
    ensures var v, received := VerdictOf(After(job, trace)), Sent(trace)[..Taken(trace, Receive)];
            && (v == Illegal <==> exists k :: 0 <= k < |received| && !received[k].ok)
            && (v == Unknown <==> Timeout in trace && forall k :: 0 <= k < |received| ==> received[k].ok)
            && (v == Ok <==> Timeout !in trace && forall k :: 0 <= k < |received| ==> received[k].ok)
            && (v == Ok ==> |received| == |job.lin|)
  {
    RunInv(job, trace);
    InOrderSent(job, trace);
    var d := After(job, trace);
    assert Sent(trace)[..Taken(trace, Receive)] == d.got;
  }

  ghost predicate AllButLast(rs: seq<Result>) {
    forall k :: 0 <= k < |rs| - 1 ==> rs[k].ok
  }

  ghost predicate StopInv(job: Job, d: Driver) {
    && (d.kill <==> d.timedOut || (!job.computeInfo && !AllTrue(d.got)))
    && (!job.computeInfo ==> AllButLast(d.got) && d.drained == [] && d.phase != Draining)
    && (job.computeInfo && d.phase == Done ==> |d.got| + |d.drained| == |job.lin|)
    && (job.computeInfo && d.phase != Looping && !d.timedOut ==> |d.got| == |job.lin|)
  }

  lemma StopStep(job: Job, d: Driver, ev: Event)
    requires Inv(job, d) && StopInv(job, d) && Enabled(job, d, ev)
    ensures StopInv(job, Apply(job, d, ev))
  {
    SizeBound(job, d.running, Results(d));
    hide OnePerWorker, Exact;
    var d' := Apply(job, d, ev);
    if ev == Receive {
      assert d'.got == d.got + [d.channel[0]];
      OneMore(d.got, d.channel[0]);
    }
  }

  lemma OneMore(rs: seq<Result>, r: Result)
    ensures AllTrue(rs + [r]) <==> AllTrue(rs) && r.ok
    ensures AllTrue(rs) ==> AllButLast(rs + [r])
  {
    var all := rs + [r];
    assert all[..|rs|] == rs && all[|rs|] == r;
    if AllTrue(all) {
      forall k | 0 <= k < |rs| ensures rs[k].ok {
        assert all[k].ok;
      }
    }
  }

  lemma {:induction false} RunStops(job: Job, trace: seq<Event>)
    requires IsRun(job, trace)
    ensures StopInv(job, After(job, trace))
  {
    if trace != [] {
      RunStops(job, trace[..|trace| - 1]);
      RunInv(job, trace[..|trace| - 1]);
      StopStep(job, After(job, trace[..|trace| - 1]), trace[|trace| - 1]);
    }
  }

  /**
   When the loop stops: with computeInfo every result is received, in the loop or, after a timeout,
   behind it; without, none is received after a false one, and none is drained.  The goroutines are
   told to stop iff there was a timeout, or a false result and no computeInfo.
   */
  lemma LoopStops(job: Job, trace: seq<Event>)
    requires HasVerdict(job, trace)
    ensures Taken(trace, Receive) <= |Sent(trace)|
    ensures var received := Sent(trace)[..Taken(trace, Receive)];
            && (job.computeInfo ==> Taken(trace, Receive) + Taken(trace, Drain) == |job.lin|)
            && (job.computeInfo && Timeout !in trace ==> Taken(trace, Receive) == |job.lin|)
            && (!job.computeInfo ==> Taken(trace, Drain) == 0 && AllButLast(received))
            && (After(job, trace).kill <==> Timeout in trace || (!job.computeInfo && !AllTrue(received)))
  {
    RunStops(job, trace);
    InOrderSent(job, trace);
    assert Sent(trace)[..Taken(trace, Receive)] == After(job, trace).got;
  }

  lemma {:induction false} TimedOutInTrace(job: Job, trace: seq<Event>)
    requires IsRun(job, trace) && After(job, trace).timedOut
    ensures Timeout in trace
  {
    if trace != [] && trace[|trace| - 1] != Timeout {
      TimedOutInTrace(job, trace[..|trace| - 1]);
    }
  }

  // ---- when there is a verdict at all ----

  ghost function Work(d: Driver): nat {
    3 * |d.running| + 2 * |d.channel| + if d.phase == Looping then 2 else if d.phase == Draining then 1 else 0
  }

  /** Every event brings the end nearer, so every run is finite. */
  lemma WorkShrinks(job: Job, d: Driver, ev: Event)
    requires Enabled(job, d, ev)
    ensures Work(Apply(job, d, ev)) < Work(d)
  {}

  /** With at least one partition nothing gets stuck: some event is enabled until there is a verdict. */
  lemma NeverStuck(job: Job, trace: seq<Event>)
    requires IsRun(job, trace) && |job.lin| > 0 && After(job, trace).phase != Done
    ensures exists ev :: Enabled(job, After(job, trace), ev)
  {
    RunInv(job, trace);
    var d := After(job, trace);
    if d.channel != [] {
      assert d.phase == Looping ==> Enabled(job, d, Receive);
      assert d.phase == Draining ==> Enabled(job, d, Drain);
    } else {
      assert |d.running| > 0;
      var i :| i in d.running;
      assert Enabled(job, d, Finish(i, job.lin[i]));
    }
  }

  /**
   With no partition and no timeout there is never a verdict: the loop waits for a first
   result that nobody sends.  The partition of an empty key/value history is such a case.
   */
  lemma {:induction false} NoPartitionsBlocks(job: Job, trace: seq<Event>)
    requires IsRun(job, trace) && job.lin == [] && !job.hasTimeout
    ensures trace == [] && After(job, trace).phase == Looping
  {
    if trace != [] {
      NoPartitionsBlocks(job, trace[..|trace| - 1]);
    }
  }

  lemma {:induction false} RunToEnd(job: Job, trace: seq<Event>) returns (longer: seq<Event>)
    requires IsRun(job, trace) && job.lin != []
    ensures IsRun(job, longer) && After(job, longer).phase == Done
    decreases Work(After(job, trace))
  {
    var d := After(job, trace);
    if d.phase == Done {
      longer := trace;
    } else {
      NeverStuck(job, trace);
      var ev :| Enabled(job, d, ev);
      var next := trace + [ev];
      assert next[..|next| - 1] == trace;
      WorkShrinks(job, d, ev);
      longer := RunToEnd(job, next);
    }
  }

  ghost predicate HasVerdict(job: Job, trace: seq<Event>) {
    IsRun(job, trace) && After(job, trace).phase == Done
  }

  /** There is a verdict exactly when there is a partition, or a timeout to wait for. */
  lemma VerdictReachable(job: Job)
    ensures (exists trace :: HasVerdict(job, trace)) <==> job.lin != [] || job.hasTimeout
  {
    if job.lin != [] {
      var trace := RunToEnd(job, []);
      assert HasVerdict(job, trace);
    } else if job.hasTimeout {
      var trace := [Timeout];
      assert trace[..0] == [];
      assert Enabled(job, Init(job), Timeout);
      assert HasVerdict(job, trace);
    } else {
      forall trace | IsRun(job, trace) ensures !HasVerdict(job, trace) {
        NoPartitionsBlocks(job, trace);
      }
    }
  }
}
