module KvProtocol {
  // Clerks and the key/value server over a network that loses requests and replies, as a state
  // machine.  A clerk makes one call at a time, and a call that fails leaves no request of its own
  // still to be handled.  `history` is what a tester would record, with the steps of the run as its
  // clock; `again` counts how often a Put was executed once more for want of a record of it, and
  // `harm` how often it found another value than its own stored by then.

  import opened Histories
  import opened KvModel
  import opened KvServer

  datatype Answer = Awaited | Arriving(value: string)

  datatype State = Idle | Calling(input: KvInput, since: nat, ran: bool, answer: Answer)

  datatype Caller = Caller(num: int, state: State)

  datatype System = System(server: Tables, callers: map<int, Caller>, clock: nat, history: seq<KvOp>, again: nat,
    harm: nat)

  datatype Event = Begin(c: int, input: KvInput) | Execute(c: int) | Fail(c: int) | Return(c: int)

  function Init(ids: set<int>): System {
    System(Tables(map[], map[]), map c | c in ids :: Caller(0, Idle), 0, [], 0, 0)
  }

  predicate Enabled(y: System, ev: Event) {
    ev.c in y.callers &&
    var s := y.callers[ev.c].state;
    match ev
    case Begin(_, input) => s.Idle? && input.op in {0, 1, 3}
    case Execute(_) => s.Calling? && s.answer.Awaited?
    case Fail(_) => s.Calling?
    case Return(_) => s.Calling? && s.answer.Arriving?
  }

  function RequestOf(c: int, k: Caller): Request
    requires k.state.Calling?
  {
    Request(c, k.num, k.state.input)
  }

  /** The server has no record by which to tell that it has executed this Put before. */
  predicate PutsAgain(y: System, c: int)
    requires c in y.callers && y.callers[c].state.Calling?
  {
    y.callers[c].state.ran && y.callers[c].state.input.op == 1 && c !in y.server.table
  }

  /** And another value has been stored since. */
  predicate Harms(y: System, c: int)
    requires c in y.callers && y.callers[c].state.Calling?
  {
    PutsAgain(y, c) && Lookup(y.server.data, y.callers[c].state.input.key) != y.callers[c].state.input.value
  }

  function Apply(y: System, ev: Event): System
    requires Enabled(y, ev)
  {
    var c, k := ev.c, y.callers[ev.c];
    var y1 := y.(clock := y.clock + 1);
    match ev
    case Begin(_, input) => y1.(callers := y.callers[c := Caller(k.num + 1, Calling(input, y.clock, false, Awaited))])
    case Execute(_) =>
      var r := Handle(y.server, RequestOf(c, k));
      y1.(server := r.0, callers := y.callers[c := k.(state := k.state.(ran := true, answer := Arriving(r.1)))],
          again := if PutsAgain(y, c) then y.again + 1 else y.again,
          harm := if Harms(y, c) then y.harm + 1 else y.harm)
    case Fail(_) => y1.(callers := y.callers[c := k.(state := k.state.(answer := Awaited))])
    case Return(_) =>
      var s := k.state;
      y1.(callers := y.callers[c := k.(state := Idle)],
          history := y.history + [Operation(c, s.input, s.since, KvOutput(s.answer.value), y.clock)])
  }

  predicate IsRun(ids: set<int>, trace: seq<Event>)
    decreases |trace|, 0
  {
    trace == [] ||
    (var before := trace[..|trace| - 1];
     IsRun(ids, before) && Enabled(After(ids, before), trace[|trace| - 1]))
  }

  function After(ids: set<int>, trace: seq<Event>): System
    requires IsRun(ids, trace)
    decreases |trace|, 1
  {
    if trace == [] then Init(ids) else Apply(After(ids, trace[..|trace| - 1]), trace[|trace| - 1])
  }

  // ---- what the store makes of a sequence of operations ----

  ghost predicate Alike(m: map<string, string>, n: map<string, string>) {
    forall key :: Lookup(m, key) == Lookup(n, key)
  }

  lemma AlikeStep(m: map<string, string>, n: map<string, string>, inp: KvInput, out: KvOutput)
    requires Alike(m, n)
    ensures StoreStep(m, inp, out).0 == StoreStep(n, inp, out).0 &&
            Alike(StoreStep(m, inp, out).1, StoreStep(n, inp, out).1)
  {
    var m', n' := StoreStep(m, inp, out).1, StoreStep(n, inp, out).1;
    assert Lookup(m, inp.key) == Lookup(n, inp.key);
    forall key ensures Lookup(m', key) == Lookup(n', key) {
      assert Lookup(m, key) == Lookup(n, key);
    }
  }

  lemma AlikeOn(m: map<string, string>, n: map<string, string>, o: map<string, string>)
    requires Alike(m, n) && Alike(n, o)
    ensures Alike(m, o)
  {
    forall key ensures Lookup(m, key) == Lookup(o, key) {
      assert Lookup(m, key) == Lookup(n, key) && Lookup(n, key) == Lookup(o, key);
    }
  }

  /** Some operation more. */
  lemma OneMore(p: seq<KvOp>, op: KvOp)
    ensures Run(STORE_MODEL, p + [op]) == StoreStep(Run(STORE_MODEL, p), op.input, op.output).1
    ensures Accepts(STORE_MODEL, p + [op]) <==>
            Accepts(STORE_MODEL, p) && StoreStep(Run(STORE_MODEL, p), op.input, op.output).0
  {
    assert (p + [op])[..|p|] == p;
  }

  /** When operations were called and returned does not matter to the store. */
  lemma {:induction false} SameSteps(p: seq<KvOp>, q: seq<KvOp>)
    requires |p| == |q| && forall i :: 0 <= i < |p| ==> p[i].input == q[i].input && p[i].output == q[i].output
    ensures Run(STORE_MODEL, p) == Run(STORE_MODEL, q) && (Accepts(STORE_MODEL, p) <==> Accepts(STORE_MODEL, q))
  {
    if p != [] {
      SameSteps(p[..|p| - 1], q[..|q| - 1]);
    }
  }

  /** A get may be left out. */
  lemma {:induction false} WithoutGet(a: seq<KvOp>, g: KvOp, b: seq<KvOp>)
    requires g.input.op == 0 && Accepts(STORE_MODEL, a + [g] + b)
    ensures Accepts(STORE_MODEL, a + b) && Alike(Run(STORE_MODEL, a + [g] + b), Run(STORE_MODEL, a + b))
    decreases |b|
  {
    if b == [] {
      assert a + [g] + b == a + [g] && a + b == a;
      OneMore(a, g);
    } else {
      var b', z := b[..|b| - 1], b[|b| - 1];
      assert a + [g] + b == a + [g] + b' + [z] && a + b == a + b' + [z];
      OneMore(a + [g] + b', z);
      OneMore(a + b', z);
      WithoutGet(a, g, b');
      AlikeStep(Run(STORE_MODEL, a + [g] + b'), Run(STORE_MODEL, a + b'), z.input, z.output);
    }
  }

  // ---- the order in which operations take effect ----

  /** Open: executed, and its call has not returned.  Repeated: an execution of a Put that another followed. */
  datatype Kind = Open | Closed | Repeated

  datatype Entry = Entry(op: KvOp, at: nat, kind: Kind)

  /** An operation under way is taken to return at `end`. */
  function View(e: Entry, end: nat): KvOp {
    if e.kind == Open then e.op.(ret := end) else e.op
  }

  function Views(lin: seq<Entry>, end: nat): (p: seq<KvOp>)
    ensures |p| == |lin| && forall i :: 0 <= i < |lin| ==> p[i] == View(lin[i], end)
  {
    seq(|lin|, i requires 0 <= i < |lin| => View(lin[i], end))
  }

  function Of(lin: seq<Entry>, kind: Kind, end: nat): seq<KvOp> {
    if lin == [] then []
    else
      var e := lin[|lin| - 1];
      Of(lin[..|lin| - 1], kind, end) + if e.kind == kind then [View(e, end)] else []
  }

  lemma {:induction false} OfJoined(a: seq<Entry>, b: seq<Entry>, kind: Kind, end: nat)
    ensures Of(a + b, kind, end) == Of(a, kind, end) + Of(b, kind, end)
    decreases |b|
  {
    if b == [] {
      assert a + b == a;
    } else {
      assert (a + b)[..|a + b| - 1] == a + b[..|b| - 1];
      OfJoined(a, b[..|b| - 1], kind, end);
    }
  }

  lemma OfOne(e: Entry, kind: Kind, end: nat)
    ensures Of([e], kind, end) == if e.kind == kind then [View(e, end)] else []
  {
    assert [e][..0] == [];
  }

  lemma OfParts(a: seq<Entry>, e: Entry, b: seq<Entry>, kind: Kind, end: nat)
    ensures Of(a + [e] + b, kind, end) == Of(a, kind, end) + (if e.kind == kind then [View(e, end)] else []) +
            Of(b, kind, end)
  {
    OfJoined(a + [e], b, kind, end);
    OfJoined(a, [e], kind, end);
    OfOne(e, kind, end);
  }

  lemma CountLast(lin: seq<Entry>, kind: Kind, end: nat, op: KvOp)
    requires lin != []
    ensures var rest, e := lin[..|lin| - 1], lin[|lin| - 1];
            multiset(Of(lin, kind, end))[op] == multiset(Of(rest, kind, end))[op] + if e.kind == kind &&
                View(e, end) == op then 1 else 0
  {}

  lemma {:induction false} ViewCounts(lin: seq<Entry>, end: nat, op: KvOp)
    ensures multiset(Views(lin, end))[op] ==
            multiset(Of(lin, Closed, end))[op] + multiset(Of(lin, Open, end))[op] + multiset(Of(lin, Repeated, end))[op]
  {
    if lin == [] {
      assert Views(lin, end) == [];
    } else {
      assert Views(lin, end) == Views(lin[..|lin| - 1], end) + [View(lin[|lin| - 1], end)];
      hide Of, Views, View;
      ViewCounts(lin[..|lin| - 1], end, op);
      CountLast(lin, Closed, end, op);
      CountLast(lin, Open, end, op);
      CountLast(lin, Repeated, end, op);
    }
  }

  /** Every entry is of one kind. */
  lemma ViewsByKind(lin: seq<Entry>, end: nat)
    ensures multiset(Views(lin, end)) == multiset(Of(lin, Closed, end)) + multiset(Of(lin, Open, end)) +
            multiset(Of(lin, Repeated, end))
  {
    forall op ensures multiset(Views(lin, end))[op] ==
                      (multiset(Of(lin, Closed, end)) + multiset(Of(lin, Open, end)) +
                          multiset(Of(lin, Repeated, end)))[op]
    {
      ViewCounts(lin, end, op);
    }
  }

  // ---- the invariant ----

  ghost predicate InTime(e: Entry, clock: nat) {
    e.op.call < e.at < clock && if e.kind == Open then e.op.ret == 0 else e.at < e.op.ret < clock
  }

  ghost predicate AllInTime(lin: seq<Entry>, clock: nat) {
    forall e {:trigger InTime(e, clock)} :: e in lin ==> InTime(e, clock)
  }

  /** Entries are in the order of their execution, and no clerk has two calls under way. */
  ghost predicate Apart(x: Entry, y: Entry) {
    x.at < y.at && !(x.kind == y.kind == Open && x.op.clientId == y.op.clientId)
  }

  ghost predicate Ordered(lin: seq<Entry>) {
    forall i, j {:trigger Apart(lin[i], lin[j])} :: 0 <= i < j < |lin| ==> Apart(lin[i], lin[j])
  }

  /** The server holds what the entries, in order, make of an empty store. */
  ghost predicate Effects(data: map<string, string>, lin: seq<Entry>) {
    Accepts(STORE_MODEL, Views(lin, 0)) && Alike(Run(STORE_MODEL, Views(lin, 0)), data)
  }

  function OpOf(c: int, k: Caller, v: string): KvOp
    requires k.state.Calling?
  {
    Operation(c, k.state.input, k.state.since, KvOutput(v), 0)
  }

  ghost predicate HasOpen(lin: seq<Entry>, op: KvOp) {
    exists e :: e in lin && e.kind == Open && e.op == op
  }

  ghost predicate NoOpen(lin: seq<Entry>, c: int) {
    forall e :: e in lin && e.kind == Open ==> e.op.clientId != c
  }

  /** A call that was executed answers `v`, now or whenever it is executed again by the record. */
  ghost predicate RanOk(table: map<int, Dup>, k: Caller, lin: seq<Entry>, c: int, v: string)
    requires k.state.Calling?
  {
    && HasOpen(lin, OpOf(c, k, v)) && (k.state.answer.Arriving? ==> k.state.answer.value == v)
    && (c in table ==> table[c] == Dup(k.num, v)) && (k.state.input.op == 3 ==> c in table)
    && (k.state.input.op == 1 ==> v == "")
  }

  ghost predicate CallerOk(table: map<int, Dup>, k: Caller, lin: seq<Entry>, c: int, clock: nat) {
    && k.num >= 0 && (c in table ==> table[c].num <= k.num)
    && match k.state
       case Idle => NoOpen(lin, c)
       case Calling(input, since, ran, answer) =>
         && input.op in {0, 1, 3} && since < clock && k.num >= 1
         && if ran then exists v :: RanOk(table, k, lin, c, v)
            else NoOpen(lin, c) && answer.Awaited? && (c in table ==> table[c].num < k.num)
  }

  ghost predicate RepeatedPuts(lin: seq<Entry>) {
    forall e :: e in lin && e.kind == Repeated ==> e.op.input.op == 1
  }

  /** `x` is the call that `e` was an execution of, for which it was executed once more, later. */
  ghost predicate Redone(e: Entry, x: Entry) {
    && x.kind != Repeated && e.at < x.at && (x.kind == Closed ==> e.op.ret <= x.op.ret)
    && x.op.clientId == e.op.clientId && x.op.input == e.op.input && x.op.call == e.op.call
  }

  ghost predicate Stems(lin: seq<Entry>, e: Entry) {
    exists x {:trigger Redone(e, x)} :: x in lin && Redone(e, x)
  }

  /** No Append of its clerk comes before an execution that another followed. */
  ghost predicate Unrecorded(x: Entry, e: Entry) {
    e.kind == Repeated && x.op.clientId == e.op.clientId ==> x.op.input.op != 3
  }

  ghost predicate Traced(lin: seq<Entry>) {
    && (forall e {:trigger Stems(lin, e)} :: e in lin && e.kind == Repeated ==> Stems(lin, e))
    && (forall i, j {:trigger Unrecorded(lin[i], lin[j])} :: 0 <= i < j < |lin| ==> Unrecorded(lin[i], lin[j]))
  }

  /** Every clerk that has appended has a record. */
  ghost predicate Recorded(table: map<int, Dup>, lin: seq<Entry>) {
    forall e :: e in lin && e.op.input.op == 3 ==> e.op.clientId in table
  }

  /** The executions too many: all of them, or those that did harm. */
  function TooMany(y: System, all: bool): nat {
    if all then y.again else y.harm
  }

  ghost predicate Inv(y: System, lin: seq<Entry>, all: bool) {
    && AllInTime(lin, y.clock) && Ordered(lin)
    && Effects(y.server.data, lin)
    && (forall c {:trigger y.callers[c]} :: c in y.callers ==> CallerOk(y.server.table, y.callers[c], lin, c, y.clock))
    && (forall e :: e in lin && e.kind == Open ==> e.op.clientId in y.callers)
    && multiset(y.history) == multiset(Of(lin, Closed, 0)) && |Of(lin, Repeated, 0)| == TooMany(y, all)
    && RepeatedPuts(lin) && Complete(y.history) && Traced(lin) && Recorded(y.server.table, lin)
  }

  // ---- pieces of steps ----

  /** The entries of clerks other than `c` that are open are the same. */
  ghost predicate SameOpen(lin: seq<Entry>, lin': seq<Entry>, c: int) {
    forall e: Entry {:trigger e in lin} {:trigger e in lin'} :: e.kind == Open && e.op.clientId != c ==>
        (e in lin <==> e in lin')
  }

  lemma OtherCaller(table: map<int, Dup>, table': map<int, Dup>, k: Caller, lin: seq<Entry>, lin': seq<Entry>, c: int,
      d: int, clock: nat)
    requires CallerOk(table, k, lin, d, clock) && d != c && SameOpen(lin, lin', c)
    requires (d in table <==> d in table') && (d in table ==> table'[d] == table[d])
    ensures CallerOk(table', k, lin', d, clock + 1)
  {
    if k.state.Calling? && k.state.ran {
      var v :| RanOk(table, k, lin, d, v);
      assert RanOk(table', k, lin', d, v);
    }
  }

  /** A request the server has no record of takes effect as the model says. */
  lemma Fresh(st: Tables, r: Request)
    requires r.num != -1 && (r.client in st.table ==> st.table[r.client].num != r.num) && r.input.op in {0, 1, 3}
    ensures var (st', v) := Handle(st, r);
            && StoreStep(st.data, r.input, KvOutput(v)).0 && Alike(StoreStep(st.data, r.input, KvOutput(v)).1, st'.data)
            && (r.client in st'.table ==> st'.table[r.client] == Dup(r.num, v)) &&
                (r.input.op == 3 || r.client in st.table ==> r.client in st'.table)
            && (forall d :: d != r.client ==>
                  (d in st'.table <==> d in st.table) && (d in st.table ==> st'.table[d] == st.table[d]))
  {}

  lemma Takes(st: Tables, r: Request, lin: seq<Entry>, e: Entry)
    requires Effects(st.data, lin) && r.input.op in {0, 1, 3}
    requires r.num != -1 && (r.client in st.table ==> st.table[r.client].num != r.num)
    requires e.op.input == r.input && e.op.output == KvOutput(Handle(st, r).1)
    ensures Effects(Handle(st, r).0.data, lin + [e])
  {
    Fresh(st, r);
    hide Handle, StoreStep, Alike, Accepts, Run;
    var v := View(e, 0);
    TakesOn(st.data, Handle(st, r).0.data, Views(lin, 0), v);
    ViewsMore(lin, e);
  }

  lemma ViewsMore(lin: seq<Entry>, e: Entry)
    ensures Views(lin + [e], 0) == Views(lin, 0) + [View(e, 0)]
  {}

  /** One operation more, from a store that is like what the others leave to one that is like what it leaves. */
  lemma TakesOn(data: map<string, string>, data': map<string, string>, p: seq<KvOp>, op: KvOp)
    requires Accepts(STORE_MODEL, p) && Alike(Run(STORE_MODEL, p), data)
    requires StoreStep(data, op.input, op.output).0 && Alike(StoreStep(data, op.input, op.output).1, data')
    ensures Accepts(STORE_MODEL, p + [op]) && Alike(Run(STORE_MODEL, p + [op]), data')
  {
    hide StoreStep, Alike, Accepts, Run;
    OneMore(p, op);
    AlikeStep(Run(STORE_MODEL, p), data, op.input, op.output);
    AlikeOn(StoreStep(Run(STORE_MODEL, p), op.input, op.output).1, StoreStep(data, op.input, op.output).1, data');
  }

  lemma OrderedWith(lin: seq<Entry>, e: Entry)
    requires Ordered(lin) && (forall x :: x in lin ==> x.at < e.at) && NoOpen(lin, e.op.clientId)
    ensures Ordered(lin + [e])
  {
    var more := lin + [e];
    forall i, j | 0 <= i < j < |more| ensures Apart(more[i], more[j]) {
      assert more[i] in lin;
      if j < |lin| {
        assert Apart(lin[i], lin[j]);
      }
    }
  }

  lemma OrderedWithout(a: seq<Entry>, x: Entry, b: seq<Entry>)
    requires Ordered(a + [x] + b)
    ensures Ordered(a + b)
  {
    var lin, less := a + [x] + b, a + b;
    forall i, j | 0 <= i < j < |less| ensures Apart(less[i], less[j]) {
      var i', j' := if i < |a| then i else i + 1, if j < |a| then j else j + 1;
      assert less[i] == lin[i'] && less[j] == lin[j'];
      assert Apart(lin[i'], lin[j']);
    }
  }

  lemma OrderedClosed(a: seq<Entry>, x: Entry, b: seq<Entry>, x': Entry)
    requires Ordered(a + [x] + b) && x'.at == x.at && x'.kind != Open
    ensures Ordered(a + [x'] + b)
  {
    var lin, lin' := a + [x] + b, a + [x'] + b;
    forall i, j | 0 <= i < j < |lin'| ensures Apart(lin'[i], lin'[j]) {
      assert Apart(lin[i], lin[j]);
      assert i != |a| ==> lin'[i] == lin[i];
      assert j != |a| ==> lin'[j] == lin[j];
    }
  }

  /** No other entry of the clerk is open. */
  lemma OnlyOpen(a: seq<Entry>, x: Entry, b: seq<Entry>)
    requires Ordered(a + [x] + b) && x.kind == Open
    ensures NoOpen(a + b, x.op.clientId)
  {
    var lin := a + [x] + b;
    forall e | e in a + b && e.kind == Open ensures e.op.clientId != x.op.clientId {
      var m :| 0 <= m < |a + b| && (a + b)[m] == e;
      var i := if m < |a| then m else m + 1;
      assert lin[i] == e && lin[|a|] == x;
      if i < |a| {
        assert Apart(lin[i], lin[|a|]);
      } else {
        assert Apart(lin[|a|], lin[i]);
      }
    }
  }

  /** Closing or leaving out the clerk's own entry. */
  lemma OpenElsewhere(a: seq<Entry>, x: Entry, b: seq<Entry>, x': Entry)
    requires Ordered(a + [x] + b) && x.kind == Open != x'.kind
    ensures SameOpen(a + [x] + b, a + b, x.op.clientId) && SameOpen(a + [x] + b, a + [x'] + b, x.op.clientId)
    ensures NoOpen(a + b, x.op.clientId) && NoOpen(a + [x'] + b, x.op.clientId)
  {
    OnlyOpen(a, x, b);
    forall e: Entry | e.kind == Open
      ensures e in a + [x] + b <==> e in a + b || e == x
      ensures e in a + [x'] + b <==> e in a + b
    {}
  }

  lemma Stays(a: seq<Entry>, x: Entry, b: seq<Entry>, x': Entry, clock: nat)
    requires AllInTime(a + [x] + b, clock) && InTime(x', clock + 1) && x'.at == x.at
    ensures AllInTime(a + [x'] + b, clock + 1)
    ensures forall e :: e in a + [x'] + b ==> e.at < clock
  {
    forall e | e in a + b ensures InTime(e, clock) && InTime(e, clock + 1) {
      assert e in a + [x] + b;
    }
    assert x in a + [x] + b && InTime(x, clock);
    forall e | e in a + [x'] + b ensures e in a + b || e == x' {}
  }

  lemma StaysWithout(a: seq<Entry>, x: Entry, b: seq<Entry>, clock: nat)
    requires AllInTime(a + [x] + b, clock)
    ensures AllInTime(a + b, clock + 1) && (forall e :: e in a + b ==> e.at < clock)
    ensures RepeatedPuts(a + [x] + b) ==> RepeatedPuts(a + b)
  {
    forall e | e in a + b ensures e in a + [x] + b && InTime(e, clock) {}
  }

  lemma SplitAt(lin: seq<Entry>, op: KvOp) returns (a: seq<Entry>, x: Entry, b: seq<Entry>)
    requires HasOpen(lin, op)
    ensures lin == a + [x] + b && x.kind == Open && x.op == op
  {
    var e :| e in lin && e.kind == Open && e.op == op;
    var i :| 0 <= i < |lin| && lin[i] == e;
    a, x, b := lin[..i], lin[i], lin[i + 1..];
  }

  // ---- where repeated executions come from ----

  lemma Stemming(lin: seq<Entry>, e: Entry, x: Entry)
    requires x in lin && Redone(e, x)
    ensures Stems(lin, e)
  {}

  lemma TracedMore(lin: seq<Entry>, z: Entry)
    requires Traced(lin) && z.kind == Open
    ensures Traced(lin + [z])
  {
    var more := lin + [z];
    forall e | e in more && e.kind == Repeated ensures Stems(more, e) {
      assert e in lin && Stems(lin, e);
      var x :| x in lin && Redone(e, x);
      Stemming(more, e, x);
    }
    forall i, j | 0 <= i < j < |more| ensures Unrecorded(more[i], more[j]) {
      if j < |lin| {
        assert Unrecorded(lin[i], lin[j]);
      }
    }
  }

  /** A get may be left out. */
  lemma TracedWithout(a: seq<Entry>, g: Entry, b: seq<Entry>)
    requires Traced(a + [g] + b) && RepeatedPuts(a + [g] + b) && g.op.input.op == 0
    ensures Traced(a + b)
  {
    var lin, less := a + [g] + b, a + b;
    forall e | e in less && e.kind == Repeated ensures Stems(less, e) {
      assert e in lin && Stems(lin, e);
      var x :| x in lin && Redone(e, x);
      Stemming(less, e, x);
    }
    forall i, j | 0 <= i < j < |less| ensures Unrecorded(less[i], less[j]) {
      var i', j' := if i < |a| then i else i + 1, if j < |a| then j else j + 1;
      assert less[i] == lin[i'] && less[j] == lin[j'];
      assert Unrecorded(lin[i'], lin[j']);
    }
  }

  lemma TracedClosed(a: seq<Entry>, x: Entry, b: seq<Entry>, x': Entry, clock: nat)
    requires Traced(a + [x] + b) && AllInTime(a + [x] + b, clock) && x.kind == Open &&
             x' == Entry(x.op.(ret := clock), x.at, Closed)
    ensures Traced(a + [x'] + b)
  {
    var lin, lin' := a + [x] + b, a + [x'] + b;
    forall e | e in lin' && e.kind == Repeated ensures Stems(lin', e) {
      assert e in lin && Stems(lin, e) && InTime(e, clock);
      var z :| z in lin && Redone(e, z);
      Stemming(lin', e, if z == x then x' else z);
    }
    UnrecordedClosed(a, x, b, x');
  }

  lemma UnrecordedClosed(a: seq<Entry>, x: Entry, b: seq<Entry>, x': Entry)
    requires forall i, j {:trigger Unrecorded((a + [x] + b)[i], (a + [x] + b)[j])} :: 0 <= i < j < |a + [x] + b| ==>
             Unrecorded((a + [x] + b)[i], (a + [x] + b)[j])
    requires x'.op.clientId == x.op.clientId && x'.op.input == x.op.input
    requires x'.kind == Repeated ==> forall e :: e in a && e.op.clientId == x.op.clientId ==> e.op.input.op != 3
    ensures var lin := a + [x'] + b; forall i, j {:trigger Unrecorded(lin[i], lin[j])} :: 0 <= i < j < |lin| ==>
            Unrecorded(lin[i], lin[j])
  {
    var lin, lin' := a + [x] + b, a + [x'] + b;
    forall i, j | 0 <= i < j < |lin'| ensures Unrecorded(lin'[i], lin'[j]) {
      assert Unrecorded(lin[i], lin[j]);
      assert i != |a| ==> lin'[i] == lin[i];
      assert j != |a| ==> lin'[j] == lin[j];
      assert j == |a| ==> lin'[i] in a;
    }
  }

  /** A Put of a clerk without a record is executed once more. */
  lemma TracedAgain(table: map<int, Dup>, a: seq<Entry>, x: Entry, b: seq<Entry>, x': Entry, z: Entry)
    requires Traced(a + [x] + b) && Recorded(table, a + [x] + b) && x.op.clientId !in table &&
             x.kind == z.kind == Open && x'.kind == Repeated
    requires x'.at == x.at && (forall e :: e in a + [x'] + b ==> e.at < z.at)
    requires z.op.clientId == x'.op.clientId == x.op.clientId && z.op.input == x'.op.input == x.op.input &&
             z.op.call == x'.op.call == x.op.call
    ensures Traced(a + [x'] + b + [z])
  {
    var lin, lin', more := a + [x] + b, a + [x'] + b, a + [x'] + b + [z];
    assert x' in lin';
    forall e | e in more && e.kind == Repeated ensures Stems(more, e) {
      if e == x' {
        Stemming(more, x', z);
      } else {
        assert e in lin && e in lin' && Stems(lin, e);
        var y :| y in lin && Redone(e, y);
        Stemming(more, e, if y == x then z else y);
      }
    }
    forall e | e in a && e.op.clientId == x.op.clientId ensures e.op.input.op != 3 {
      assert e in lin;
    }
    UnrecordedClosed(a, x, b, x');
    forall i, j | 0 <= i < j < |more| ensures Unrecorded(more[i], more[j]) {
      if j < |lin'| {
        assert Unrecorded(lin'[i], lin'[j]);
      }
    }
  }

  lemma RecordedParts(table: map<int, Dup>, a: seq<Entry>, x: Entry, b: seq<Entry>, x': Entry)
    requires Recorded(table, a + [x] + b) && x'.op.clientId == x.op.clientId && x'.op.input == x.op.input
    ensures Recorded(table, a + b) && Recorded(table, a + [x'] + b)
  {
    assert x in a + [x] + b;
    forall e | e in a + b ensures e in a + [x] + b {}
    forall e | e in a + [x'] + b ensures e == x' || e in a + b {}
  }

  // ---- steps ----

  /** A step of clerk `c`, put together. */
  lemma Assemble(y: System, lin: seq<Entry>, y': System, lin': seq<Entry>, c: int, all: bool)
    requires Inv(y, lin, all) && c in y.callers && c in y'.callers && y'.clock == y.clock + 1 &&
             y'.callers == y.callers[c := y'.callers[c]]
    requires forall d :: d != c ==>
               && (d in y'.server.table <==> d in y.server.table)
               && (d in y.server.table ==> y'.server.table[d] == y.server.table[d])
    requires AllInTime(lin', y'.clock) && Ordered(lin') && Effects(y'.server.data, lin') && SameOpen(lin, lin', c)
    requires CallerOk(y'.server.table, y'.callers[c], lin', c, y'.clock)
    requires multiset(y'.history) == multiset(Of(lin', Closed, 0)) && |Of(lin', Repeated, 0)| == TooMany(y', all)
    requires RepeatedPuts(lin') && Complete(y'.history) && Traced(lin') && Recorded(y'.server.table, lin')
    ensures Inv(y', lin', all)
  {
    hide Effects, Ordered, Of, Traced, Recorded;
    forall d | d in y'.callers ensures CallerOk(y'.server.table, y'.callers[d], lin', d, y'.clock) {
      if d != c {
        OtherCaller(y.server.table, y'.server.table, y.callers[d], lin, lin', c, d, y.clock);
      }
    }
    forall e | e in lin' && e.kind == Open ensures e.op.clientId in y'.callers {
      if e.op.clientId != c {
        assert e in lin;
      }
    }
  }

  /** Beginning a call and losing a message leave the entries as they are. */
  lemma QuietStep(y: System, lin: seq<Entry>, ev: Event, all: bool)
    requires Inv(y, lin, all) && Enabled(y, ev) && (ev.Begin? || ev.Fail?)
    ensures Inv(Apply(y, ev), lin, all)
  {
    hide Effects, Ordered, Of, Traced;
    var y', k := Apply(y, ev), y.callers[ev.c];
    assert CallerOk(y.server.table, k, lin, ev.c, y.clock);
    forall e | e in lin ensures InTime(e, y'.clock) {
      assert InTime(e, y.clock);
    }
    if ev.Fail? && k.state.ran {
      var v :| RanOk(y.server.table, k, lin, ev.c, v);
      assert RanOk(y'.server.table, y'.callers[ev.c], lin, ev.c, v);
    }
    Assemble(y, lin, y', lin, ev.c, all);
  }

  /** The entry of a call that was executed. */
  lemma OpenEntry(y: System, lin: seq<Entry>, c: int, all: bool) returns (a: seq<Entry>, x: Entry, b: seq<Entry>)
    requires Inv(y, lin, all) && c in y.callers && y.callers[c].state.Calling? && y.callers[c].state.ran
    ensures lin == a + [x] + b && x.kind == Open && InTime(x, y.clock) &&
            x.op == OpOf(c, y.callers[c], x.op.output.value)
    ensures y.callers[c].state.answer.Arriving? ==> y.callers[c].state.answer.value == x.op.output.value
    ensures AllInTime(a + [x] + b, y.clock) && Ordered(a + [x] + b) && Effects(y.server.data, a + [x] + b) &&
            RepeatedPuts(a + [x] + b)
    ensures Traced(a + [x] + b) && Recorded(y.server.table, a + [x] + b)
  {
    assert CallerOk(y.server.table, y.callers[c], lin, c, y.clock);
    var v :| RanOk(y.server.table, y.callers[c], lin, c, v);
    a, x, b := SplitAt(lin, OpOf(c, y.callers[c], v));
    assert x in lin;
  }

  /** A call returns: its entry gets the time. */
  lemma ReturnStep(y: System, lin: seq<Entry>, c: int, all: bool) returns (lin': seq<Entry>)
    requires Inv(y, lin, all) && Enabled(y, Return(c))
    ensures Inv(Apply(y, Return(c)), lin', all)
  {
    hide RanOk, HasOpen, Effects, Ordered, Of, SameOpen, NoOpen, RepeatedPuts, AllInTime, Apply, CallerOk, Complete,
        Traced, Recorded;
    AnswerRan(y, lin, c, all);
    var a, x, b := OpenEntry(y, lin, c, all);
    var x' := Entry(x.op.(ret := y.clock), x.at, Closed);
    OrderedClosed(a, x, b, x');
    OpenElsewhere(a, x, b, x');
    ClosedEffects(y.server.data, a, x, b, x');
    Stays(a, x, b, x', y.clock);
    OfClosed(a, x, b, x', Repeated);
    TracedClosed(a, x, b, x', y.clock);
    RecordedParts(y.server.table, a, x, b, x');
    lin' := a + [x'] + b;
    ReturnWith(y, lin, lin', c, x'.op, all);
  }

  lemma AnswerRan(y: System, lin: seq<Entry>, c: int, all: bool)
    requires Inv(y, lin, all) && Enabled(y, Return(c))
    ensures y.callers[c].state.ran && y.callers[c].state.since < y.clock &&
            CallerOk(y.server.table, y.callers[c], lin, c, y.clock)
  {
    assert CallerOk(y.server.table, y.callers[c], lin, c, y.clock);
  }

  lemma ReturnWith(y: System, lin: seq<Entry>, lin': seq<Entry>, c: int, op: KvOp, all: bool)
    requires Inv(y, lin, all) && Enabled(y, Return(c)) &&
             op == OpOf(c, y.callers[c], y.callers[c].state.answer.value).(ret := y.clock)
    requires AllInTime(lin', y.clock + 1) && Ordered(lin') && Effects(y.server.data, lin') && SameOpen(lin, lin', c) &&
             NoOpen(lin', c)
    requires multiset(Of(lin', Closed, 0)) == multiset(Of(lin, Closed, 0)) + multiset{op} &&
             |Of(lin', Repeated, 0)| == |Of(lin, Repeated, 0)|
    requires RepeatedPuts(lin') && Traced(lin') && Recorded(y.server.table, lin')
    ensures Inv(Apply(y, Return(c)), lin', all)
  {
    hide RanOk, HasOpen, Effects, Ordered, Of, SameOpen, NoOpen, RepeatedPuts, AllInTime, Apply, CallerOk, Complete,
        Traced, Recorded;
    var y' := Apply(y, Return(c));
    AnswerRan(y, lin, c, all);
    Returned(y, c, op);
    IdleCaller(y.server.table, y.callers[c], lin, lin', c, y.clock);
    Assemble(y, lin, y', lin', c, all);
  }

  lemma IdleCaller(table: map<int, Dup>, k: Caller, lin: seq<Entry>, lin': seq<Entry>, c: int, clock: nat)
    requires CallerOk(table, k, lin, c, clock) && NoOpen(lin', c)
    ensures CallerOk(table, k.(state := Idle), lin', c, clock + 1)
  {}

  lemma Returned(y: System, c: int, op: KvOp)
    requires Enabled(y, Return(c)) && op == OpOf(c, y.callers[c], y.callers[c].state.answer.value).(ret := y.clock)
    ensures var y' := Apply(y, Return(c));
            && y'.server == y.server && y'.again == y.again && y'.harm == y.harm && y'.clock == y.clock + 1
            && y'.callers == y.callers[c := y.callers[c].(state := Idle)] &&
                multiset(y'.history) == multiset(y.history) + multiset{op}
            && (Complete(y.history) && y.callers[c].state.since <= y.clock ==> Complete(y'.history))
  {}

  /** An entry that is closed has the same effect. */
  lemma ClosedEffects(data: map<string, string>, a: seq<Entry>, x: Entry, b: seq<Entry>, x': Entry)
    requires Effects(data, a + [x] + b) && x'.op.input == x.op.input && x'.op.output == x.op.output
    ensures Effects(data, a + [x'] + b)
  {
    var p, q := Views(a + [x] + b, 0), Views(a + [x'] + b, 0);
    forall i | 0 <= i < |p| ensures p[i].input == q[i].input && p[i].output == q[i].output {}
    SameSteps(p, q);
  }

  ghost predicate Repeats(lin: seq<Entry>, n: nat) {
    |Of(lin, Repeated, 0)| == n && RepeatedPuts(lin)
  }

  /** Closing an entry. */
  lemma OfClosed(a: seq<Entry>, x: Entry, b: seq<Entry>, x': Entry, other: Kind)
    requires x.kind == Open != x'.kind && other != Open && other != x'.kind
    ensures multiset(Of(a + [x'] + b, x'.kind, 0)) == multiset(Of(a + [x] + b, x'.kind, 0)) + multiset{x'.op}
    ensures |Of(a + [x'] + b, x'.kind, 0)| == |Of(a + [x] + b, x'.kind, 0)| + 1
    ensures Of(a + [x'] + b, other, 0) == Of(a + [x] + b, other, 0)
    ensures RepeatedPuts(a + [x] + b) && (x'.kind == Repeated ==> x'.op.input.op == 1) ==> RepeatedPuts(a + [x'] + b)
  {
    OfParts(a, x, b, x'.kind, 0);
    OfParts(a, x', b, x'.kind, 0);
    OfParts(a, x, b, other, 0);
    OfParts(a, x', b, other, 0);
    forall e | e in a + [x'] + b ensures e == x' || e in a + [x] + b {}
  }

  lemma OfOpen(a: seq<Entry>, x: Entry, b: seq<Entry>, kind: Kind)
    requires x.kind == Open != kind
    ensures Of(a + [x] + b, kind, 0) == Of(a + b, kind, 0)
  {
    OfParts(a, x, b, kind, 0);
    OfJoined(a, b, kind, 0);
  }

  /** The clerk whose call was executed as if for the first time. */
  lemma ExecutedCaller(y: System, lin: seq<Entry>, lin': seq<Entry>, c: int, e: Entry)
    requires c in y.callers && CallerOk(y.server.table, y.callers[c], lin, c, y.clock) && Enabled(y, Execute(c))
    requires c in y.server.table ==> y.server.table[c].num < y.callers[c].num
    requires e in lin' && e ==
             Entry(OpOf(c, y.callers[c], Handle(y.server, RequestOf(c, y.callers[c])).1), y.clock, Open)
    ensures var y' := Apply(y, Execute(c)); CallerOk(y'.server.table, y'.callers[c], lin', c, y'.clock)
  {
    var y', k := Apply(y, Execute(c)), y.callers[c];
    var r := RequestOf(c, k);
    Fresh(y.server, r);
    hide Handle;
    assert RanOk(y'.server.table, y'.callers[c], lin', c, Handle(y.server, r).1);
  }

  /** The entry of a call that is executed as if for the first time. */
  ghost function NewEntry(y: System, c: int): Entry
    requires c in y.callers && y.callers[c].state.Calling?
  {
    Entry(OpOf(c, y.callers[c], Handle(y.server, RequestOf(c, y.callers[c])).1), y.clock, Open)
  }

  /** A call is executed, and takes effect at the end of what has taken effect before. */
  lemma TakesEffect(y: System, lin: seq<Entry>, now: seq<Entry>, c: int, all: bool) returns (lin': seq<Entry>)
    requires Inv(y, lin, all) && Enabled(y, Execute(c))
    requires c in y.server.table ==> y.server.table[c].num < y.callers[c].num
    requires NoOpen(now, c) && Ordered(now) && AllInTime(now, y.clock + 1) && (forall e :: e in now ==> e.at < y.clock)
    requires Effects(y.server.data, now) && SameOpen(lin, now, c)
    requires multiset(Of(now, Closed, 0)) == multiset(y.history) && Repeats(now, TooMany(Apply(y, Execute(c)), all))
    requires Traced(now + [NewEntry(y, c)]) && Recorded(y.server.table, now)
    ensures Inv(Apply(y, Execute(c)), lin', all)
  {
    hide Effects, Ordered, Of, Handle, RanOk, Accepts, Views, Traced;
    var y', k := Apply(y, Execute(c)), y.callers[c];
    assert CallerOk(y.server.table, k, lin, c, y.clock);
    var r := RequestOf(c, k);
    var e := NewEntry(y, c);
    lin' := now + [e];
    Fresh(y.server, r);
    Takes(y.server, r, now, e);
    OrderedWith(now, e);
    assert now + [e] + [] == lin' && now + [] == now;
    OfOpen(now, e, [], Closed);
    OfOpen(now, e, [], Repeated);
    ExecutedCaller(y, lin, lin', c, e);
    hide CallerOk, Alike, StoreStep;
    forall x | x in lin' ensures InTime(x, y'.clock) && (x.op.input.op == 3 ==> x.op.clientId in y'.server.table) {
      assert x in now || x == e;
    }
    Assemble(y, lin, y', lin', c, all);
  }

  /** The server has a record of the call, and answers from it. */
  lemma Recalled(y: System, lin: seq<Entry>, c: int, all: bool)
    requires Inv(y, lin, all) && Enabled(y, Execute(c)) && y.callers[c].state.ran && c in y.server.table
    ensures Inv(Apply(y, Execute(c)), lin, all)
  {
    hide Effects, Ordered, Of, Traced;
    var y', k := Apply(y, Execute(c)), y.callers[c];
    assert CallerOk(y.server.table, k, lin, c, y.clock);
    var v :| RanOk(y.server.table, k, lin, c, v);
    assert Handle(y.server, RequestOf(c, k)) == (y.server, v);
    assert RanOk(y'.server.table, y'.callers[c], lin, c, v);
    forall e | e in lin ensures InTime(e, y'.clock) {
      assert InTime(e, y.clock);
    }
    Assemble(y, lin, y', lin, c, all);
  }

  /** A Get without a record is executed again, and takes effect only now. */
  lemma GetsAgain(y: System, lin: seq<Entry>, c: int, all: bool) returns (lin': seq<Entry>)
    requires Inv(y, lin, all) && Enabled(y, Execute(c)) && y.callers[c].state.ran && y.callers[c].state.input.op == 0 &&
             c !in y.server.table
    ensures Inv(Apply(y, Execute(c)), lin', all)
  {
    hide RanOk, HasOpen, Effects, Ordered, Of, SameOpen, NoOpen, RepeatedPuts, AllInTime, Traced, Recorded;
    var a, x, b := OpenEntry(y, lin, c, all);
    var now := a + b;
    OrderedWithout(a, x, b);
    OpenElsewhere(a, x, b, x.(kind := Closed));
    OfOpen(a, x, b, Closed);
    OfOpen(a, x, b, Repeated);
    GetEffects(y.server.data, a, x, b);
    StaysWithout(a, x, b, y.clock);
    TracedWithout(a, x, b);
    TracedMore(now, NewEntry(y, c));
    RecordedParts(y.server.table, a, x, b, x);
    lin' := TakesEffect(y, lin, now, c, all);
  }

  lemma GetEffects(data: map<string, string>, a: seq<Entry>, x: Entry, b: seq<Entry>)
    requires Effects(data, a + [x] + b) && x.op.input.op == 0
    ensures Effects(data, a + b)
  {
    assert Views(a + [x] + b, 0) == Views(a, 0) + [View(x, 0)] + Views(b, 0);
    assert Views(a + b, 0) == Views(a, 0) + Views(b, 0);
    WithoutGet(Views(a, 0), View(x, 0), Views(b, 0));
    AlikeOn(Run(STORE_MODEL, Views(a + b, 0)), Run(STORE_MODEL, Views(a + [x] + b, 0)), data);
  }

  /** A Put without a record is executed again, and takes effect once more. */
  lemma PutAgain(y: System, lin: seq<Entry>, c: int, all: bool) returns (lin': seq<Entry>)
    requires Inv(y, lin, all) && Enabled(y, Execute(c)) && PutsAgain(y, c) && (all || Harms(y, c))
    ensures Inv(Apply(y, Execute(c)), lin', all)
  {
    hide RanOk, HasOpen, Effects, Ordered, Of, SameOpen, NoOpen, RepeatedPuts, AllInTime, Traced, Recorded;
    var a, x, b := OpenEntry(y, lin, c, all);
    var x' := Entry(x.op.(ret := y.clock), x.at, Repeated);
    var now := a + [x'] + b;
    OrderedClosed(a, x, b, x');
    OpenElsewhere(a, x, b, x');
    ClosedEffects(y.server.data, a, x, b, x');
    Stays(a, x, b, x', y.clock);
    OfClosed(a, x, b, x', Closed);
    TracedAgain(y.server.table, a, x, b, x', NewEntry(y, c));
    RecordedParts(y.server.table, a, x, b, x');
    lin' := TakesEffect(y, lin, now, c, all);
  }

  /** A Put that finds its own value stored changes nothing, and need not take effect once more. */
  lemma PutInVain(y: System, lin: seq<Entry>, c: int, all: bool)
    requires Inv(y, lin, all) && Enabled(y, Execute(c)) && PutsAgain(y, c) && !Harms(y, c) && !all
    ensures Inv(Apply(y, Execute(c)), lin, all)
  {
    hide Ordered, Of, Traced, Accepts, Run;
    var y', k := Apply(y, Execute(c)), y.callers[c];
    assert CallerOk(y.server.table, k, lin, c, y.clock);
    var v :| RanOk(y.server.table, k, lin, c, v);
    assert RanOk(y'.server.table, y'.callers[c], lin, c, v);
    assert Alike(y.server.data, y'.server.data);
    AlikeOn(Run(STORE_MODEL, Views(lin, 0)), y.server.data, y'.server.data);
    forall e | e in lin ensures InTime(e, y'.clock) {
      assert InTime(e, y.clock);
    }
    hide Effects;
    Assemble(y, lin, y', lin, c, all);
  }

  lemma ExecuteStep(y: System, lin: seq<Entry>, c: int, all: bool) returns (lin': seq<Entry>)
    requires Inv(y, lin, all) && Enabled(y, Execute(c))
    ensures Inv(Apply(y, Execute(c)), lin', all)
  {
    assert CallerOk(y.server.table, y.callers[c], lin, c, y.clock);
    hide Effects, Ordered, Of, Apply, RanOk, Traced, Recorded;
    if !y.callers[c].state.ran {
      forall e | e in lin ensures InTime(e, y.clock + 1) && e.at < y.clock {
        assert InTime(e, y.clock);
      }
      NotAgain(y, c);
      TracedMore(lin, NewEntry(y, c));
      lin' := TakesEffect(y, lin, lin, c, all);
    } else if c in y.server.table {
      Recalled(y, lin, c, all);
      lin' := lin;
    } else if y.callers[c].state.input.op == 0 {
      lin' := GetsAgain(y, lin, c, all);
    } else {
      assert PutsAgain(y, c) by { NoRecordOfAppend(y, lin, c); }
      if all || Harms(y, c) {
        lin' := PutAgain(y, lin, c, all);
      } else {
        PutInVain(y, lin, c, all);
        lin' := lin;
      }
    }
  }

  lemma NotAgain(y: System, c: int)
    requires Enabled(y, Execute(c)) && !y.callers[c].state.ran
    ensures Apply(y, Execute(c)).again == y.again && Apply(y, Execute(c)).harm == y.harm
  {}

  /** An Append always leaves a record. */
  lemma NoRecordOfAppend(y: System, lin: seq<Entry>, c: int)
    requires c in y.callers && CallerOk(y.server.table, y.callers[c], lin, c, y.clock)
    requires y.callers[c].state.Calling? && y.callers[c].state.ran && c !in y.server.table
    ensures y.callers[c].state.input.op != 3
  {
    var v :| RanOk(y.server.table, y.callers[c], lin, c, v);
  }

  lemma {:induction false} RunInv(ids: set<int>, trace: seq<Event>, all: bool) returns (lin: seq<Entry>)
    requires IsRun(ids, trace)
    ensures Inv(After(ids, trace), lin, all)
  {
    if trace == [] {
      lin := [];
    } else {
      hide Inv;
      var before, ev := trace[..|trace| - 1], trace[|trace| - 1];
      lin := RunInv(ids, before, all);
      match ev
      case Begin(_, _) => QuietStep(After(ids, before), lin, ev, all);
      case Fail(_) => QuietStep(After(ids, before), lin, ev, all);
      case Execute(c) => lin := ExecuteStep(After(ids, before), lin, c, all);
      case Return(c) => lin := ReturnStep(After(ids, before), lin, c, all);
    }
  }

  // ---- the theorems ----

  /** Calls the server has executed and that have not returned, taken to return now; at most one of each clerk. */
  ghost predicate UnderWay(y: System, pending: seq<KvOp>) {
    && (forall i :: 0 <= i < |pending| ==>
          var op := pending[i];
          && op.clientId in y.callers && y.callers[op.clientId].state.Calling? && y.callers[op.clientId].state.ran
          && op.input == y.callers[op.clientId].state.input && op.call == y.callers[op.clientId].state.since &&
              op.ret == y.clock)
    && (forall i, j :: 0 <= i < j < |pending| ==> pending[i].clientId != pending[j].clientId)
  }

  lemma InRealTime(lin: seq<Entry>, clock: nat)
    requires AllInTime(lin, clock) && Ordered(lin)
    ensures RealTime(Views(lin, clock))
  {
    var p := Views(lin, clock);
    forall i, j | 0 <= i < j < |p| ensures !(p[j].ret < p[i].call) {
      assert Apart(lin[i], lin[j]) && InTime(lin[i], clock) && InTime(lin[j], clock);
    }
  }

  /** The entries under way are the calls under way. */
  lemma {:induction false} OpenUnderWay(y: System, lin: seq<Entry>)
    requires Ordered(lin) && forall e :: e in lin && e.kind == Open ==> ItsCall(y, e.op)
    ensures UnderWay(y, Of(lin, Open, y.clock))
    ensures forall i :: 0 <= i < |Of(lin, Open, y.clock)| ==> !NoOpen(lin, Of(lin, Open, y.clock)[i].clientId)
  {
    if lin != [] {
      var rest, z := lin[..|lin| - 1], lin[|lin| - 1];
      assert Ordered(rest) by {
        forall i, j | 0 <= i < j < |rest| ensures Apart(rest[i], rest[j]) {
          assert Apart(lin[i], lin[j]);
        }
      }
      forall e | e in rest ensures e in lin {}
      OpenUnderWay(y, rest);
      var p := Of(rest, Open, y.clock);
      forall i | 0 <= i < |p| ensures !NoOpen(lin, p[i].clientId) &&
          (z.kind == Open ==> p[i].clientId != z.op.clientId) {
        assert !NoOpen(rest, p[i].clientId);
        var e :| e in rest && e.kind == Open && e.op.clientId == p[i].clientId;
        var m :| 0 <= m < |rest| && rest[m] == e;
        assert e in lin && Apart(lin[m], lin[|lin| - 1]);
      }
      assert z in lin;
    }
  }

  ghost predicate ItsCall(y: System, op: KvOp) {
    && op.clientId in y.callers && y.callers[op.clientId].state.Calling? && y.callers[op.clientId].state.ran
    && op.input == y.callers[op.clientId].state.input && op.call == y.callers[op.clientId].state.since
  }

  lemma OpenIsCall(y: System, lin: seq<Entry>, e: Entry, all: bool)
    requires Inv(y, lin, all) && e in lin && e.kind == Open
    ensures ItsCall(y, e.op)
  {
    hide Effects, Of;
    var c := e.op.clientId;
    assert CallerOk(y.server.table, y.callers[c], lin, c, y.clock);
    var k := y.callers[c];
    if k.state.Calling? && k.state.ran {
      var v :| RanOk(y.server.table, k, lin, c, v);
      var x :| x in lin && x.kind == Open && x.op == OpOf(c, k, v);
      SameEntry(lin, x, e);
    }
  }

  lemma SameEntry(lin: seq<Entry>, x: Entry, e: Entry)
    requires Ordered(lin) && x in lin && e in lin && x.kind == e.kind == Open && x.op.clientId == e.op.clientId
    ensures x == e
  {
    var i :| 0 <= i < |lin| && lin[i] == x;
    var j :| 0 <= j < |lin| && lin[j] == e;
    if i < j {
      ApartFact(lin, i, j);
      assert false;
    } else if j < i {
      ApartFact(lin, j, i);
      assert false;
    }
  }

  lemma ApartFact(lin: seq<Entry>, i: nat, j: nat)
    requires Ordered(lin) && i < j < |lin|
    ensures Apart(lin[i], lin[j])
  {}

  lemma {:induction false} OfAnyEnd(lin: seq<Entry>, kind: Kind, end: nat)
    requires kind != Open
    ensures Of(lin, kind, end) == Of(lin, kind, 0)
  {
    if lin != [] {
      OfAnyEnd(lin[..|lin| - 1], kind, end);
    }
  }

  /** Where the executions are that another followed. */
  function Places(lin: seq<Entry>): seq<nat> {
    if lin == [] then []
    else Places(lin[..|lin| - 1]) + if lin[|lin| - 1].kind == Repeated then [|lin| - 1] else []
  }

  lemma {:induction false} PlacesOf(lin: seq<Entry>, end: nat)
    ensures |Places(lin)| == |Of(lin, Repeated, end)|
    ensures forall k :: 0 <= k < |Places(lin)| ==>
              Places(lin)[k] < |lin| && lin[Places(lin)[k]].kind == Repeated &&
                  Of(lin, Repeated, end)[k] == lin[Places(lin)[k]].op
    ensures forall k, l :: 0 <= k < l < |Places(lin)| ==> Places(lin)[k] < Places(lin)[l]
  {
    if lin != [] {
      PlacesOf(lin[..|lin| - 1], end);
    }
  }

  lemma {:induction false} OfHolds(lin: seq<Entry>, e: Entry, end: nat)
    requires e in lin
    ensures View(e, end) in Of(lin, e.kind, end)
  {
    var rest := lin[..|lin| - 1];
    assert lin == rest + [lin[|lin| - 1]];
    if e in rest {
      OfHolds(rest, e, end);
    }
  }

  /** `op` is the same call as `r`, and returned no earlier. */
  ghost predicate SameCall(r: KvOp, op: KvOp) {
    r.clientId == op.clientId && r.input == op.input && r.call == op.call && r.ret <= op.ret
  }

  /**
   The operation at `i` is one execution too many: of a Put, by a clerk no Append of which comes
   before, for a call that takes effect later and is recorded or under way.
   */
  ghost predicate Needless(history: seq<KvOp>, pending: seq<KvOp>, p: seq<KvOp>, i: nat)
    requires i < |p|
  {
    && p[i].input.op == 1 && (forall j :: 0 <= j < i && p[j].clientId == p[i].clientId ==> p[j].input.op != 3)
    && (exists m :: i < m < |p| && SameCall(p[i], p[m]) && (p[m] in history || p[m] in pending))
  }

  /** `places` says where in `p` the operations `repeats` are, each of them needless. */
  ghost predicate Accounted(history: seq<KvOp>, pending: seq<KvOp>, repeats: seq<KvOp>, p: seq<KvOp>,
      places: seq<nat>) {
    && |places| == |repeats| && (forall k, l :: 0 <= k < l < |places| ==> places[k] < places[l])
    && (forall k :: 0 <= k < |places| ==>
          places[k] < |p| && p[places[k]] == repeats[k] && Needless(history, pending, p, places[k]))
  }

  lemma NeedlessEntry(y: System, lin: seq<Entry>, i: nat, all: bool)
    requires Inv(y, lin, all) && i < |lin| && lin[i].kind == Repeated
    ensures Needless(Of(lin, Closed, y.clock), Of(lin, Open, y.clock), Views(lin, y.clock), i)
  {
    hide Effects, Of, CallerOk, Complete;
    var p, e := Views(lin, y.clock), lin[i];
    assert e in lin && Stems(lin, e) && InTime(e, y.clock);
    forall j | 0 <= j < i && p[j].clientId == p[i].clientId ensures p[j].input.op != 3 {
      assert Unrecorded(lin[j], lin[i]);
    }
    var x :| x in lin && Redone(e, x);
    var m :| 0 <= m < |lin| && lin[m] == x;
    OfHolds(lin, x, y.clock);
    LaterFirst(lin, m, i);
    assert SameCall(p[i], p[m]);
  }

  lemma LaterFirst(lin: seq<Entry>, m: nat, i: nat)
    requires Ordered(lin) && m < |lin| && i < |lin| && lin[i].at < lin[m].at
    ensures i < m
  {
    if m < i {
      ApartFact(lin, m, i);
      assert false;
    }
  }

  lemma AccountedFor(y: System, lin: seq<Entry>, all: bool)
    requires Inv(y, lin, all)
    ensures Accounted(y.history, Of(lin, Open, y.clock), Of(lin, Repeated, y.clock), Views(lin, y.clock), Places(lin))
  {
    PlacesOf(lin, y.clock);
    OfAnyEnd(lin, Closed, y.clock);
    var p, at, pending, closed := Views(lin, y.clock), Places(lin), Of(lin, Open, y.clock), Of(lin, Closed, y.clock);
    forall k | 0 <= k < |at| ensures Needless(y.history, pending, p, at[k]) {
      NeedlessEntry(y, lin, at[k], all);
      hide *;
      SameNeedless(closed, y.history, pending, p, at[k]);
    }
  }

  lemma SameNeedless(history: seq<KvOp>, history': seq<KvOp>, pending: seq<KvOp>, p: seq<KvOp>, i: nat)
    requires i < |p| && Needless(history, pending, p, i) && multiset(history) == multiset(history')
    ensures Needless(history', pending, p, i)
  {
    var m :| i < m < |p| && SameCall(p[i], p[m]) && (p[m] in history || p[m] in pending);
    assert p[m] in multiset(history) ==> p[m] in multiset(history');
  }

  /**
   Every run, however many requests and replies are lost: all that has returned, with some of what
   is under way and every needless execution of a Put, is linearizable, and the server holds what
   that order of operations leaves.  Everything else is in that order exactly once.  It is enough,
   without `all`, to take the needless executions that found another value stored.
   */
  lemma EveryRun(ids: set<int>, trace: seq<Event>, all: bool)
    returns (p: seq<KvOp>, pending: seq<KvOp>, repeats: seq<KvOp>, places: seq<nat>)
    requires IsRun(ids, trace)
    ensures var y := After(ids, trace);
            && Linearization(STORE_MODEL, multiset(y.history) + multiset(pending) + multiset(repeats), p)
            && Alike(Run(STORE_MODEL, p), y.server.data)
            && UnderWay(y, pending) && |repeats| == TooMany(y, all) && Accounted(y.history, pending, repeats, p, places)
  {
    var y := After(ids, trace);
    var lin := RunInv(ids, trace, all);
    AccountedFor(y, lin, all);
    hide IsRun, After, Of, Accounted, Traced, Recorded;
    p, pending, repeats, places := Views(lin, y.clock), Of(lin, Open, y.clock), Of(lin, Repeated, y.clock), Places(lin);
    forall e | e in lin && e.kind == Open ensures ItsCall(y, e.op) {
      OpenIsCall(y, lin, e, all);
    }
    OpenUnderWay(y, lin);
    OfAnyEnd(lin, Repeated, y.clock);
    OfAnyEnd(lin, Closed, y.clock);
    ViewsByKind(lin, y.clock);
    InRealTime(lin, y.clock);
    SameSteps(Views(lin, 0), p);
  }

  /** A call that a clerk makes after an Append of its own has returned is executed once. */
  lemma ExecutedOnce(history: seq<KvOp>, pending: seq<KvOp>, repeats: seq<KvOp>, p: seq<KvOp>, places: seq<nat>,
      first: KvOp, k: nat)
    requires Linearization(STORE_MODEL, multiset(history) + multiset(pending) + multiset(repeats), p)
    requires Accounted(history, pending, repeats, p, places) && k < |repeats|
    requires first in history && first.input.op == 3 && first.clientId == repeats[k].clientId
    ensures first.ret >= repeats[k].call
  {
    assert first in multiset(history) && first in multiset(p) && first in p;
    var i :| 0 <= i < |p| && p[i] == first;
    var j := places[k];
    assert Needless(history, pending, p, j) && p[j] == repeats[k];
    assert i >= j;
    if i > j {
      assert !(p[i].ret < p[j].call);
    }
  }

  lemma FirstUnderWay(y: System, pending: seq<KvOp>)
    requires UnderWay(y, pending) && pending != []
    ensures pending[0].clientId in y.callers && y.callers[pending[0].clientId].state.Calling?
  {}

  lemma RecordedComplete(ids: set<int>, trace: seq<Event>)
    requires IsRun(ids, trace)
    ensures Complete(After(ids, trace).history)
  {
    var lin := RunInv(ids, trace, true);
  }

  /**
   When every call has returned, and every Put that was executed again found its own value still
   stored, what was recorded is linearizable, key by key.
   */
  lemma RecordedIsLinearizable(ids: set<int>, trace: seq<Event>)
    requires IsRun(ids, trace) && After(ids, trace).harm == 0
    requires forall c :: c in After(ids, trace).callers ==> After(ids, trace).callers[c].state.Idle?
    ensures Linearizable(STORE_MODEL, multiset(After(ids, trace).history)) &&
            KeysLinearizable(After(ids, trace).history)
  {
    hide IsRun, After, Accepts, RealTime, Run, Accounted;
    var p, pending, repeats, _ := EveryRun(ids, trace, false);
    var y := After(ids, trace);
    if pending != [] {
      FirstUnderWay(y, pending);
      assert false;
    }
    assert multiset(y.history) + multiset(pending) + multiset(repeats) == multiset(y.history);
    assert Linearization(STORE_MODEL, multiset(y.history), p);
    RecordedComplete(ids, trace);
    PartitionExact(y.history);
  }

  // ---- clerks that append before they put ----

  /** Every Put is begun by a clerk that has seen an Append of its own return. */
  ghost predicate AppendsFirst(ids: set<int>, trace: seq<Event>)
    requires IsRun(ids, trace)
    decreases |trace|
  {
    trace == [] ||
    (var before, ev := trace[..|trace| - 1], trace[|trace| - 1];
     && AppendsFirst(ids, before)
     && (ev.Begin? && ev.input.op == 1 ==>
           exists op :: op in After(ids, before).history && op.clientId == ev.c && op.input.op == 3))
  }

  ghost predicate PutsRecorded(y: System) {
    forall c :: c in y.callers && y.callers[c].state.Calling? && y.callers[c].state.input.op == 1 ==>
        c in y.server.table
  }

  lemma HistoryRecorded(y: System, lin: seq<Entry>, op: KvOp, all: bool)
    requires Inv(y, lin, all) && op in y.history && op.input.op == 3
    ensures op.clientId in y.server.table
  {
    assert op in multiset(y.history) && op in multiset(Of(lin, Closed, 0));
    hide Of, Effects, Traced, CallerOk;
    var e := OfFrom(lin, Closed, 0, op);
    assert e.op.clientId in y.server.table;
  }

  lemma {:induction false} OfFrom(lin: seq<Entry>, kind: Kind, end: nat, op: KvOp) returns (e: Entry)
    requires op in Of(lin, kind, end)
    ensures e in lin && e.kind == kind && View(e, end) == op
  {
    var last := lin[|lin| - 1];
    if last.kind == kind && View(last, end) == op {
      e := last;
    } else {
      e := OfFrom(lin[..|lin| - 1], kind, end, op);
    }
  }

  lemma {:induction false} NeverAgain(ids: set<int>, trace: seq<Event>)
    requires IsRun(ids, trace) && AppendsFirst(ids, trace)
    ensures PutsRecorded(After(ids, trace)) && After(ids, trace).again == After(ids, trace).harm == 0
  {
    if trace != [] {
      var before, ev := trace[..|trace| - 1], trace[|trace| - 1];
      NeverAgain(ids, before);
      var y := After(ids, before);
      if ev.Begin? && ev.input.op == 1 {
        var op :| op in y.history && op.clientId == ev.c && op.input.op == 3;
        var lin := RunInv(ids, before, true);
        HistoryRecorded(y, lin, op, true);
      }
      hide IsRun, After;
      KeepsRecords(y, ev);
    }
  }

  lemma KeepsRecords(y: System, ev: Event)
    requires PutsRecorded(y) && Enabled(y, ev) && (ev.Begin? && ev.input.op == 1 ==> ev.c in y.server.table)
    ensures PutsRecorded(Apply(y, ev)) && Apply(y, ev).again == y.again && Apply(y, ev).harm == y.harm
  {
    assert ev.Execute? ==> forall c :: c in y.server.table ==>
        c in Handle(y.server, RequestOf(ev.c, y.callers[ev.c])).0.table;
  }

  /** Then no Put is executed twice, and when every call has returned, what was recorded is linearizable. */
  lemma AppendingFirstIsEnough(ids: set<int>, trace: seq<Event>)
    requires IsRun(ids, trace) && AppendsFirst(ids, trace)
    ensures After(ids, trace).again == 0
    ensures (forall c :: c in After(ids, trace).callers ==> After(ids, trace).callers[c].state.Idle?) ==>
              Linearizable(STORE_MODEL, multiset(After(ids, trace).history)) &&
                  KeysLinearizable(After(ids, trace).history)
  {
    NeverAgain(ids, trace);
    if forall c :: c in After(ids, trace).callers ==> After(ids, trace).callers[c].state.Idle? {
      RecordedIsLinearizable(ids, trace);
    }
  }
}
