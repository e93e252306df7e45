module Porcupine {
  // The checker as its clients call it (src/porcupine/checker.go:281-285, 365-373 and
  // src/porcupine/porcupine.go): from a history of operations to a verdict.

  import opened Checker
  import opened Entries
  import opened Histories
  import opened KvModel
  import opened Parallel
  import opened Search

  /**
   What a goroutine of checkParallel does with one partition.  Unless it sees the kill flag set the
   answer is exact; whatever the flag does, true is only said of a linearizable partition.
   */
  method CheckPartition<S(!new), I(!new, ==), O(!new, ==)>(model: Model<S, I, O>, history: seq<Operation<I, O>>,
      computePartial: bool,
      kill: nat -> bool) returns (ok: bool, longest: seq<Option<seq<nat>>>, ghost looks: nat)
    requires Complete(history) && EqualRespectsStep(model)
    ensures ok ==> Linearizable(model, multiset(history))
    ensures !ok && Unseen(kill, looks) ==> !Linearizable(model, multiset(history))
    ensures |longest| == |history| && forall i :: 0 <= i < |longest| && longest[i].Some? ==>
              Replays(model, history, longest[i].value) && i in longest[i].value
  {
    hide Valid, ProblemOf, EqualRespectsStep, Linearizable, LongestOk, Path;
    var entries := MakeEntries(history);
    ghost var pb := EntriesProblem(model, history, entries);
    ProblemFacts(pb, model, history);
    SolvableIffLinearizable(pb, model, history);
    ok, longest, looks := CheckSingle(model, entries, computePartial, kill, pb);
    LongestReplays(pb, model, history, longest);
  }

  lemma ProblemFacts<S(!new), I(!new), O(!new)>(pb: Problem<S, I, O>, m: Model<S, I, O>, history: seq<Operation<I, O>>)
    requires ProblemOf(pb, m, history)
    ensures Valid(pb) && pb.m == m && pb.N() == |history|
  {}

  /**
   The visualizer replays a recorded partial linearization from the initial state; every step of
   it is accepted, so its panic is never reached (src/porcupine/visualization.go:62-71).
   */
  ghost predicate Replays<S, I, O>(m: Model<S, I, O>, history: seq<Operation<I, O>>, ids: seq<nat>) {
    && (forall k :: 0 <= k < |ids| ==> ids[k] < |history|)
    && Accepts(m, OpsOf(history, ids)) && RealTime(OpsOf(history, ids))
  }

  lemma PathReplays<S(!new), I(!new), O(!new)>(pb: Problem<S, I, O>, m: Model<S, I, O>, history: seq<Operation<I, O>>,
      p: seq<nat>)
    requires ProblemOf(pb, m, history) && Path(pb, p)
    ensures Replays(m, history, p)
  {
    SameAccepts(pb, m, history, p);
    PathDistinct(pb, p);
    var q := OpsOf(history, p);
    forall a, b | 0 <= a < b < |q| ensures !(q[b].ret < q[a].call) {
      MinimalInPath(pb, p, a);
      assert p[b] !in Elems(p[..a]);
      assert !(pb.rpos[p[b]] < pb.cpos[p[a]]);
    }
  }

  lemma LongestReplays<S(!new), I(!new), O(!new)>(pb: Problem<S, I, O>, m: Model<S, I, O>,
      history: seq<Operation<I, O>>,
      longest: seq<Option<seq<nat>>>)
    requires ProblemOf(pb, m, history) && LongestOk(pb, longest)
    ensures |longest| == |history| && forall i :: 0 <= i < |longest| && longest[i].Some? ==>
              Replays(m, history, longest[i].value) && i in longest[i].value
  {
    forall i | 0 <= i < |longest| && longest[i].Some? ensures Replays(m, history, longest[i].value) {
      PathReplays(pb, m, history, longest[i].value);
    }
  }

  /** The job checkParallel is given for a key/value history split into `parts`. */
  ghost function KvJob(parts: seq<seq<KvOp>>, computeInfo: bool, hasTimeout: bool): Job {
    Job(seq(|parts|, i requires 0 <= i < |parts| => Linearizable(KEY_MODEL, multiset(parts[i]))), computeInfo,
        hasTimeout)
  }

  /** A look that found the kill flag set came after the run had set it. */
  ghost predicate SawFlag(job: Job, trace: seq<Event>, kill: nat -> bool, looks: nat) {
    forall t: nat :: t < looks && kill(t) ==> exists m :: KilledAt(job, trace, m)
  }

  /** The goroutine of a partition that is still at work after a run: what it answers is an answer the run allows. */
  method Goroutine(parts: seq<seq<KvOp>>, i: nat, computePartial: bool, kill: nat -> bool, ghost job: Job,
      ghost trace: seq<Event>)
      returns (ok: bool, longest: seq<Option<seq<nat>>>, ghost looks: nat)
    requires i < |parts| && Complete(parts[i]) && job == KvJob(parts, job.computeInfo, job.hasTimeout)
    requires IsRun(job, trace) && i in After(job, trace).running
    ensures SawFlag(job, trace, kill, looks) ==> Parallel.Enabled(job, After(job, trace), Finish(i, ok))
  {
    hide Linearizable, Complete, IsRun, After;
    ok, longest, looks := CheckPartition(KEY_MODEL, parts[i], computePartial, kill);
    if SawFlag(job, trace, kill, looks) && !Unseen(kill, looks) {
      var t: nat :| t < looks && kill(t);
      var m :| KilledAt(job, trace, m);
      KillStays(job, trace, m);
    }
    assert job.lin[i] == Linearizable(KEY_MODEL, multiset(parts[i]));
  }

  /** `parts` is what KvModel.Partition makes of `history`. */
  ghost predicate SplitByKey(history: seq<KvOp>, parts: seq<seq<KvOp>>, keys: seq<string>) {
    && |parts| == |keys|
    && (forall i :: 0 <= i < |parts| ==> parts[i] == Only(history, keys[i]))
    && (forall key :: key !in keys ==> Only(history, key) == [])
  }

  lemma EmptyLinearizable()
    ensures Linearizable(KEY_MODEL, multiset([]))
  {
    assert Linearization(KEY_MODEL, multiset([]), []);
  }

  lemma SplitLinearizable(history: seq<KvOp>, parts: seq<seq<KvOp>>, keys: seq<string>)
    requires SplitByKey(history, parts, keys)
    ensures KeysLinearizable(history) <==> forall i :: 0 <= i < |parts| ==> Linearizable(KEY_MODEL, multiset(parts[i]))
  {
    hide Linearizable, Only;
    if forall i :: 0 <= i < |parts| ==> Linearizable(KEY_MODEL, multiset(parts[i])) {
      forall key ensures Linearizable(KEY_MODEL, multiset(Only(history, key))) {
        if key in keys {
          var i :| 0 <= i < |keys| && keys[i] == key;
          assert parts[i] == Only(history, keys[i]);
        } else {
          EmptyLinearizable();
        }
      }
    }
  }

  /**
   CheckOperations with KvModel: every run that ends gives a verdict about the whole store, all
   keys together.
   */
  lemma KvVerdictRight(history: seq<KvOp>, parts: seq<seq<KvOp>>, keys: seq<string>, computeInfo: bool,
      hasTimeout: bool, trace: seq<Event>)
    requires Complete(history) && SplitByKey(history, parts, keys)
    requires HasVerdict(KvJob(parts, computeInfo, hasTimeout), trace)
    ensures var v := VerdictOf(After(KvJob(parts, computeInfo, hasTimeout), trace));
            && (v == Ok ==> Linearizable(STORE_MODEL, multiset(history)))
            && (v == Illegal ==> !Linearizable(STORE_MODEL, multiset(history)))
            && (!hasTimeout ==> v != Unknown)
  {
    hide Linearizable, Only, Complete;
    var job := KvJob(parts, computeInfo, hasTimeout);
    VerdictRight(job, trace);
    PartitionExact(history);
    SplitLinearizable(history, parts, keys);
    assert forall i :: 0 <= i < |parts| ==> job.lin[i] == Linearizable(KEY_MODEL, multiset(parts[i]));
  }

  lemma {:induction false} OnlyNonempty(history: seq<KvOp>, k: nat)
    requires k < |history|
    ensures Only(history, history[k].input.key) != []
  {
    if k < |history| - 1 {
      OnlyNonempty(history[..|history| - 1], k);
    }
  }

  /** The check of a key/value history comes to a verdict exactly if the history is not empty, or a timeout is set. */
  lemma KvVerdictReachable(history: seq<KvOp>, parts: seq<seq<KvOp>>, keys: seq<string>, computeInfo: bool,
      hasTimeout: bool)
    requires SplitByKey(history, parts, keys) && forall i :: 0 <= i < |parts| ==> parts[i] != []
    ensures (exists trace :: HasVerdict(KvJob(parts, computeInfo, hasTimeout), trace)) <==> history != [] || hasTimeout
  {
    VerdictReachable(KvJob(parts, computeInfo, hasTimeout));
    if history != [] {
      OnlyNonempty(history, 0);
    } else if parts != [] {
      PartIsOnly(history, parts, keys, 0);
      assert false;
    }
  }

  lemma PartIsOnly(history: seq<KvOp>, parts: seq<seq<KvOp>>, keys: seq<string>, i: nat)
    requires SplitByKey(history, parts, keys) && i < |parts|
    ensures parts[i] == Only(history, keys[i])
  {}
}
