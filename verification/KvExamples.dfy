module KvExamples {
  // What a retried Put can do: a clerk that the server keeps no record of may have its Put executed
  // twice, with the operations of others in between.

  import opened Histories
  import opened KvModel
  import opened KvServer
  import opened KvProtocol

  /**
   Executing a Put once more leaves the store alone exactly if there is a record of it, or the value
   is still there.
   */
  lemma RetriedPutIsHarmless(st: Tables, client: int, num: int, key: string, value: string)
    ensures Alike(OnPut(st, client, num, key, value).data, st.data) <==>
            (client in st.table && st.table[client].num == num) || Lookup(st.data, key) == value
  {
    assert Lookup(OnPut(st, client, num, key, value).data, key) ==
           if client in st.table && st.table[client].num == num then Lookup(st.data, key) else value;
  }

  // ---- a run ----

  const IDS := {1, 2}
  const GET := KvInput(0, "k", "")
  const PUT_A := KvInput(1, "k", "a")
  const PUT_B := KvInput(1, "k", "b")

  ghost predicate Reaches(trace: seq<Event>, y: System) {
    IsRun(IDS, trace) && After(IDS, trace) == y
  }

  lemma Next(trace: seq<Event>, y: System, ev: Event)
    requires Reaches(trace, y) && Enabled(y, ev)
    ensures Reaches(trace + [ev], Apply(y, ev))
  {
    assert (trace + [ev])[..|trace|] == trace;
  }

  /** A clerk without a record begins a call, has it executed and gets the reply, in one go. */
  lemma Completes(trace: seq<Event>, y: System, c: int, input: KvInput) returns (trace': seq<Event>, y': System)
    requires Reaches(trace, y) && c in y.callers && y.callers[c].state.Idle? && input.op in {0, 1} &&
             y.server.table == map[]
    ensures Reaches(trace', y') && y'.clock == y.clock + 3 && y'.server.table == map[]
    ensures y'.again == y.again && y'.harm == y.harm
    ensures y'.callers == y.callers[c := Caller(y.callers[c].num + 1, Idle)]
    ensures y'.server.data == if input.op == 0 then y.server.data else y.server.data[input.key := input.value]
    ensures y'.history ==
            y.history + [Operation(c, input, y.clock,
                KvOutput(if input.op == 0 then Lookup(y.server.data, input.key) else ""), y.clock + 2)]
  {
    hide IsRun, After, Reaches;
    Next(trace, y, Begin(c, input));
    var y1 := Apply(y, Begin(c, input));
    Next(trace + [Begin(c, input)], y1, Execute(c));
    var y2 := Apply(y1, Execute(c));
    Next(trace + [Begin(c, input)] + [Execute(c)], y2, Return(c));
    trace', y' := trace + [Begin(c, input)] + [Execute(c)] + [Return(c)], Apply(y2, Return(c));
  }

  const FIRST_A := Operation(2, GET, 3, KvOutput("a"), 5)
  const THEN_PUT := Operation(2, PUT_B, 6, KvOutput(""), 8)
  const THEN_B := Operation(2, GET, 9, KvOutput("b"), 11)
  const SLOW_PUT := Operation(1, PUT_A, 0, KvOutput(""), 13)
  const AGAIN_A := Operation(2, GET, 14, KvOutput("a"), 16)

  /** Clerk 1 puts, and the reply is lost; clerk 2 reads, puts and reads. */
  lemma Meanwhile() returns (trace: seq<Event>, y: System)
    ensures Reaches(trace, y) && y.clock == 12 && y.again == y.harm == 0 && y.history == [FIRST_A, THEN_PUT, THEN_B]
    ensures y.server == Tables(map["k" := "b"], map[])
    ensures y.callers == map[1 := Caller(1, Calling(PUT_A, 0, true, Awaited)), 2 := Caller(3, Idle)]
  {
    trace, y := [], Init(IDS);
    assert Reaches(trace, y);
    hide IsRun, After, Apply, Reaches;
    trace, y := LosesReply(trace, y);
    trace, y := Completes(trace, y, 2, GET);
    assert y.history == [FIRST_A];
    trace, y := Completes(trace, y, 2, PUT_B);
    assert y.history == [FIRST_A, THEN_PUT] && y.server.data == map["k" := "b"];
    trace, y := Completes(trace, y, 2, GET);
  }

  /** Then clerk 1 tries again, and clerk 2 reads. */
  lemma RetriedPut() returns (trace: seq<Event>)
    ensures IsRun(IDS, trace) && After(IDS, trace).again == After(IDS, trace).harm == 1
    ensures After(IDS, trace).history == [FIRST_A, THEN_PUT, THEN_B, SLOW_PUT, AGAIN_A]
    ensures forall c :: c in After(IDS, trace).callers ==> After(IDS, trace).callers[c].state.Idle?
  {
    hide IsRun, After, Apply;
    var y;
    trace, y := Meanwhile();
    trace, y := Retries(trace, y);
    assert y.history == [FIRST_A, THEN_PUT, THEN_B, SLOW_PUT];
    trace, y := Completes(trace, y, 2, GET);
  }

  lemma LosesReply(trace: seq<Event>, y: System) returns (trace': seq<Event>, y': System)
    requires Reaches(trace, y) && y == Init(IDS)
    ensures Reaches(trace', y') && y'.clock == 3 && y'.server == Tables(map["k" := "a"], map[])
    ensures y'.again == y'.harm == 0 && y'.history == []
    ensures y'.callers == map[1 := Caller(1, Calling(PUT_A, 0, true, Awaited)), 2 := Caller(0, Idle)]
  {
    hide IsRun, After, Reaches;
    Next(trace, y, Begin(1, PUT_A));
    var y1 := Apply(y, Begin(1, PUT_A));
    Next(trace + [Begin(1, PUT_A)], y1, Execute(1));
    var y2 := Apply(y1, Execute(1));
    Next(trace + [Begin(1, PUT_A)] + [Execute(1)], y2, Fail(1));
    trace', y' := trace + [Begin(1, PUT_A)] + [Execute(1)] + [Fail(1)], Apply(y2, Fail(1));
  }

  lemma Retries(trace: seq<Event>, y: System) returns (trace': seq<Event>, y': System)
    requires Reaches(trace, y) && y.server.table == map[] && Lookup(y.server.data, "k") == "b" && 1 in y.callers &&
             y.callers[1] == Caller(1, Calling(PUT_A, 0, true, Awaited))
    ensures Reaches(trace', y') && y'.clock == y.clock + 2 && y'.again == y.again + 1 && y'.harm == y.harm + 1
    ensures y'.server == Tables(y.server.data["k" := "a"], map[]) && y'.callers == y.callers[1 := Caller(1, Idle)]
    ensures y'.history == y.history + [Operation(1, PUT_A, 0, KvOutput(""), y.clock + 1)]
  {
    hide IsRun, After, Reaches;
    Next(trace, y, Execute(1));
    var y1 := Apply(y, Execute(1));
    Next(trace + [Execute(1)], y1, Return(1));
    trace', y' := trace + [Execute(1)] + [Return(1)], Apply(y1, Return(1));
  }

  // ---- and no order of its operations explains it ----

  ghost function Value(p: seq<KvOp>, i: nat): string
    requires i <= |p|
  {
    Lookup(Run(STORE_MODEL, p[..i]), "k")
  }

  /** The value of the key after one more operation, and what a get among them says of it. */
  lemma ValueNext(p: seq<KvOp>, i: nat)
    requires i < |p| && Accepts(STORE_MODEL, p) && p[i].input.key == "k" && p[i].input.op <= 1
    ensures Value(p, i + 1) == if p[i].input.op == 0 then Value(p, i) else p[i].input.value
    ensures p[i].input.op == 0 ==> p[i].output.value == Value(p, i)
  {
    hide Run, Accepts;
    AcceptsPrefix(p, i + 1);
    assert p[..i + 1] == p[..i] + [p[i]];
    OneMore(p[..i], p[i]);
  }

  lemma {:induction false} AcceptsPrefix(p: seq<KvOp>, i: nat)
    requires Accepts(STORE_MODEL, p) && i <= |p|
    ensures Accepts(STORE_MODEL, p[..i])
  {
    if i == |p| {
      assert p[..i] == p;
    } else {
      AcceptsPrefix(p[..|p| - 1], i);
      assert p[..|p| - 1][..i] == p[..i];
    }
  }

  /** Clerk 2 has its own operations in order, so only the place of the slow Put is open. */
  lemma Places(p: seq<KvOp>) returns (at: nat)
    requires multiset(p) == multiset([FIRST_A, THEN_PUT, THEN_B, SLOW_PUT, AGAIN_A]) && RealTime(p)
    ensures |p| == 5 && at < 4 && p[at] == SLOW_PUT
    ensures p[if at < 1 then 1 else 0] == FIRST_A && p[if at < 2 then 2 else 1] == THEN_PUT
    ensures p[if at < 3 then 3 else 2] == THEN_B && p[4] == AGAIN_A
  {
    assert |p| == |multiset(p)| == |[FIRST_A, THEN_PUT, THEN_B, SLOW_PUT, AGAIN_A]|;
    var first := At(p, FIRST_A);
    var put := At(p, THEN_PUT);
    var second := At(p, THEN_B);
    var third := At(p, AGAIN_A);
    at := At(p, SLOW_PUT);
  }

  lemma At(p: seq<KvOp>, op: KvOp) returns (i: nat)
    requires op in multiset(p)
    ensures i < |p| && p[i] == op
  {
    i :| 0 <= i < |p| && p[i] == op;
  }

  /** After clerk 2 has read its own value back, nothing is left to bring the other back. */
  lemma RetriedPutIsNotLinearizable()
    ensures !Linearizable(STORE_MODEL, multiset([FIRST_A, THEN_PUT, THEN_B, SLOW_PUT, AGAIN_A]))
  {
    forall p ensures !Linearization(STORE_MODEL, multiset([FIRST_A, THEN_PUT, THEN_B, SLOW_PUT, AGAIN_A]), p) {
      if Linearization(STORE_MODEL, multiset([FIRST_A, THEN_PUT, THEN_B, SLOW_PUT, AGAIN_A]), p) {
        Unexplained(p);
      }
    }
  }

  lemma Unexplained(p: seq<KvOp>)
    requires multiset(p) == multiset([FIRST_A, THEN_PUT, THEN_B, SLOW_PUT, AGAIN_A]) && RealTime(p)
    ensures !Accepts(STORE_MODEL, p)
  {
    var at := Places(p);
    if Accepts(STORE_MODEL, p) {
      assert Value(p, 0) == "";
      ValueNext(p, 0);
      ValueNext(p, 1);
      ValueNext(p, 2);
      ValueNext(p, 3);
      ValueNext(p, 4);
    }
  }
}
