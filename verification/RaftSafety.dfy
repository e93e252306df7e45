module RaftSafety {
  // Safety over whole runs of a cluster (Figure 3 of the extended Raft paper): Election Safety,
  // Leader Append-Only and Log Matching in every run in which votes of an earlier election are
  // counted as their guard allows; that no handler ever indexes out of range, with the guard on
  // rejections; Leader Completeness and State Machine Safety, with those on acknowledgements and order.

  import opened RaftLog
  import opened RaftServer
  import opened RaftCluster
  import opened RaftHistory
  import opened RaftSteps
  import opened RaftLink
  import opened RaftElection
  import opened RaftReplication
  import opened RaftCommit
  import opened RaftBounds

  ghost function FirstRecord(n: nat): Record {
    Record(History(seq(n, _ => 0), seq(n, _ => [PLACEHOLDER]), map[], map[], map[]), map[])
  }

  lemma InitBase(n: nat)
    ensures Base(Init(n), FirstRecord(n))
  {
    var c, k := Init(n), FirstRecord(n);
    forall i | 0 <= i < c.N() ensures ServerLink(k, c.servers[i], i) {}
    forall v | 0 <= v < k.h.N() ensures ServerOk(k.h, v) {}
  }

  lemma InitCommit(n: nat)
    ensures CommitLink(Init(n), FirstRecord(n))
  {
    InitBase(n);
    var c, k := Init(n), FirstRecord(n);
    forall i | 0 <= i < c.N() ensures PeerCommit(k.h, c.servers[i], i) {}
  }

  /** The hypotheses on runs that commitment needs besides that on votes. */
  predicate Committing(rules: Rules) {
    rules.acks && rules.order
  }

  /** What a step keeps: the link of logs to the history and, if requests come in order, of commit indexes. */
  ghost predicate Kept(rules: Rules, c: Cluster, k: Record, d: Cluster, l: Record) {
    Base(d, l) && Grows(k.h, l.h) && (Committing(rules) && CommitLink(c, k) ==> CommitOnward(c, k, d, l))
  }

  lemma DeliverKeeps(rules: Rules, c: Cluster, k: Record, id: nat) returns (l: Record)
    requires Base(c, k) && rules.votes && Enabled(rules, c, Deliver(id)) && NoPanic(c, Deliver(id))
    ensures Kept(rules, c, k, Apply(c, Deliver(id)), l)
  {
    hide Base, Apply, NoPanic, CommitLink, CommitOnward;
    SameReign(k.h, k.h);
    assert Dims(c, k) by { BaseDims(c, k); }
    match c.net[id]
    case VoteRequest(from, to, a) =>
      l := BallotKeeps(rules, c, k, id, from, to, a);
    case VoteAnswer(from, to, t, r) =>
      l := AnswerKeeps(rules, c, k, id, from, to, t, r);
    case AppendRequest(from, to, a) =>
      l := RequestKeeps(rules, c, k, id, from, to, a);
    case AppendAnswer(from, to, a, r) =>
      l := ResultKeeps(rules, c, k, id, from, to, a, r);
    case SnapshotRequest(from, to, a) =>
      SnapshotRequestKeeps(c, k, id, from, to, a);
      l := RaisedFor(c, k, to, a.term);
      if Committing(rules) && CommitLink(c, k) {
        SnapshotRequestCommit(c, k, id, from, to, a);
      }
    case SnapshotAnswer(from, to, a, t) =>
      SnapshotAnswerKeeps(c, k, id, from, to, a, t);
      l := SnapshotAnswerRecord(c, k, to, a, t);
      if Committing(rules) && CommitLink(c, k) {
        SnapshotAnswerCommit(c, k, id, from, to, a, t);
      }
  }

  lemma BallotKeeps(rules: Rules, c: Cluster, k: Record, id: nat, from: nat, to: nat, a: VoteArgs)
      returns (l: Record)
    requires Base(c, k) && Enabled(rules, c, Deliver(id)) && c.net[id] == VoteRequest(from, to, a)
    requires NoPanic(c, Deliver(id))
    ensures Kept(rules, c, k, Apply(c, Deliver(id)), l)
  {
    hide Base, Apply, NoPanic, CommitLink, CommitOnward;
    assert Dims(c, k) by { BaseDims(c, k); }
    VoteRequestKeeps(c, k, id, from, to, a);
    l := VoteRequestRecord(c, k, from, to, a);
    SameReign(k.h, l.h);
    if Committing(rules) && CommitLink(c, k) {
      VoteRequestCommit(c, k, id, from, to, a);
    }
  }

  lemma ResultKeeps(rules: Rules, c: Cluster, k: Record, id: nat, from: nat, to: nat, a: AppendArgs, r: AppendReply)
      returns (l: Record)
    requires Base(c, k) && Enabled(rules, c, Deliver(id)) && c.net[id] == AppendAnswer(from, to, a, r)
    requires NoPanic(c, Deliver(id))
    ensures Kept(rules, c, k, Apply(c, Deliver(id)), l)
  {
    hide Base, Apply, NoPanic, CommitLink, CommitOnward;
    assert Dims(c, k) by { BaseDims(c, k); }
    AppendAnswerKeeps(c, k, id, from, to, a, r);
    l := AppendAnswerRecord(c, k, to, r);
    SameReign(k.h, l.h);
    if Committing(rules) && CommitLink(c, k) {
      AppendAnswerCommit(c, k, id, from, to, a, r);
    }
  }

  lemma AnswerKeeps(rules: Rules, c: Cluster, k: Record, id: nat, from: nat, to: nat, t: nat, r: VoteReply)
      returns (l: Record)
    requires Base(c, k) && rules.votes && Enabled(rules, c, Deliver(id)) && c.net[id] == VoteAnswer(from, to, t, r)
    requires NoPanic(c, Deliver(id))
    ensures Kept(rules, c, k, Apply(c, Deliver(id)), l)
  {
    hide Base, Apply, NoPanic, CommitLink, CommitOnward;
    assert Dims(c, k) by { BaseDims(c, k); }
    BaseMessage(c, k, id);
    VoteAnswerKeeps(c, k, id, from, to, t, r);
    VoteAnswerGrows(c, k, from, to, t, r);
    l := VoteAnswerRecord(c, k, from, to, t, r);
    if Committing(rules) && CommitLink(c, k) {
      VoteAnswerCommit(c, k, id, from, to, t, r);
    }
  }

  lemma RequestKeeps(rules: Rules, c: Cluster, k: Record, id: nat, from: nat, to: nat, a: AppendArgs)
      returns (l: Record)
    requires Base(c, k) && Enabled(rules, c, Deliver(id)) && c.net[id] == AppendRequest(from, to, a)
    requires NoPanic(c, Deliver(id))
    ensures Kept(rules, c, k, Apply(c, Deliver(id)), l)
  {
    hide Base, Apply, NoPanic, CommitLink, CommitOnward;
    assert Dims(c, k) by { BaseDims(c, k); }
    AppendKeeps(c, k, id, from, to, a);
    BaseMessage(c, k, id);
    AppendPeer(c, k, from, to, a);
    AppendRecordFacts(c, k, to, a);
    l := AppendRecord(c, k, to, a);
    SameReign(k.h, l.h);
    if Committing(rules) && CommitLink(c, k) {
      AppendCommit(c, k, id, from, to, a);
    }
  }

  ghost predicate Dims(c: Cluster, k: Record) {
    c.N() == |k.h.term| == |k.h.log| && forall i :: 0 <= i < c.N() ==> c.servers[i].log != []
  }

  lemma BaseDims(c: Cluster, k: Record)
    requires Base(c, k)
    ensures Dims(c, k)
  {
    forall i | 0 <= i < c.N() ensures c.servers[i].log != [] {
      assert ServerLink(k, c.servers[i], i) && ServerOk(k.h, i);
    }
  }

  lemma BaseMessage(c: Cluster, k: Record, id: nat)
    requires Base(c, k) && id in c.net
    ensures c.N() == |k.h.term| == |k.h.log| && MessageOk(c, k, c.net[id])
  {}

  lemma StepKeeps(rules: Rules, c: Cluster, k: Record, ev: Event) returns (l: Record)
    requires Base(c, k) && rules.votes && Enabled(rules, c, ev) && NoPanic(c, ev)
    ensures Kept(rules, c, k, Apply(c, ev), l)
  {
    hide Base, Apply, NoPanic, CommitLink, CommitOnward;
    assert Dims(c, k) by { BaseDims(c, k); }
    SameReign(k.h, k.h);
    match ev
    case Timeout(i) =>
      TimeoutKeeps(c, k, i);
      l := TimeoutRecord(c, k, i);
      if Committing(rules) && CommitLink(c, k) {
        TimeoutCommit(c, k, i);
      }
    case Submit(i, command) =>
      SubmitKeeps(c, k, i, command);
      l := SubmitRecord(c, k, i, command);
      if Committing(rules) && CommitLink(c, k) {
        SubmitCommit(c, k, i, command);
      }
    case Send(i, to) =>
      SendKeeps(c, k, i, to);
      l := k;
      if Committing(rules) && CommitLink(c, k) {
        SendCommit(c, k, i, to);
      }
    case Deliver(id) =>
      l := DeliverKeeps(rules, c, k, id);
  }

  ghost predicate Linked(rules: Rules, c: Cluster, k: Record) {
    Base(c, k) && (Committing(rules) ==> CommitLink(c, k))
  }

  lemma {:induction false} RunKeeps(rules: Rules, n: nat, trace: seq<Event>) returns (k: Record)
    requires rules.votes && IsRun(rules, n, trace)
    ensures Linked(rules, After(rules, n, trace), k)
  {
    if trace == [] {
      InitBase(n);
      InitCommit(n);
      k := FirstRecord(n);
    } else {
      hide Base, CommitLink, Apply;
      var before, ev := trace[..|trace| - 1], trace[|trace| - 1];
      var b := RunKeeps(rules, n, before);
      k := StepKeeps(rules, After(rules, n, before), b, ev);
    }
  }

  /** What only grows from one point of a run to another. */
  ghost predicate Later(rules: Rules, c: Cluster, b: Record, d: Cluster, k: Record) {
    && Grows(b.h, k.h)
    && (Committing(rules) ==> MoreAcked(b.h, k.h) && c.N() == d.N() && forall i {:trigger d.servers[i]} ::
        0 <= i < c.N() ==> c.servers[i].commit <= d.servers[i].commit)
  }

  lemma LaterStill(rules: Rules, c: Cluster, b: Record, d: Cluster, k: Record, e: Cluster, l: Record)
    requires Later(rules, c, b, d, k) && Later(rules, d, k, e, l)
    ensures Later(rules, c, b, e, l)
  {
    forall t | t in b.h.reign
      ensures t in l.h.reign && l.h.reign[t].first == b.h.reign[t].first && b.h.reign[t].log <= l.h.reign[t].log
              && l.h.reign[t].who == b.h.reign[t].who && l.h.reign[t].voters == b.h.reign[t].voters
    {
      assert t in k.h.reign;
    }
    if Committing(rules) {
      forall x | x in b.h.acked ensures x in l.h.acked && b.h.acked[x] <= l.h.acked[x] {
        assert x in k.h.acked;
      }
      forall i | 0 <= i < c.N() ensures c.servers[i].commit <= e.servers[i].commit {
        assert c.servers[i].commit <= d.servers[i].commit;
      }
    }
  }

  /** Going on from a point of a run. */
  lemma {:induction false} RunGoesOn(rules: Rules, n: nat, trace: seq<Event>, m: nat, b: Record) returns (k: Record)
    requires rules.votes && IsRun(rules, n, trace) && m <= |trace|
    requires IsRun(rules, n, trace[..m]) && Linked(rules, After(rules, n, trace[..m]), b)
    ensures Linked(rules, After(rules, n, trace), k) &&
            Later(rules, After(rules, n, trace[..m]), b, After(rules, n, trace), k)
    decreases |trace|
  {
    if m == |trace| {
      assert trace[..m] == trace;
      k := b;
      SameReign(b.h, b.h);
    } else {
      hide Base, CommitLink, Apply;
      var before, ev := trace[..|trace| - 1], trace[|trace| - 1];
      assert before[..m] == trace[..m];
      var a := RunGoesOn(rules, n, before, m, b);
      k := StepKeeps(rules, After(rules, n, before), a, ev);
      LaterStill(rules, After(rules, n, trace[..m]), b, After(rules, n, before), a, After(rules, n, trace), k);
    }
  }

  // ---- the theorems ----

  /** In no run, at no two moments, do two peers lead the same term. */
  lemma ElectionSafety(rules: Rules, n: nat, trace: seq<Event>, m: nat, i: nat, j: nat)
    requires rules.votes && IsRun(rules, n, trace) && m <= |trace| && IsRun(rules, n, trace[..m])
    requires i < |After(rules, n, trace[..m]).servers| && After(rules, n, trace[..m]).servers[i].role == Leader
    requires j < |After(rules, n, trace).servers| && After(rules, n, trace).servers[j].role == Leader
    requires After(rules, n, trace[..m]).servers[i].term == After(rules, n, trace).servers[j].term
    ensures i == j
  {
    var b := RunKeeps(rules, n, trace[..m]);
    var k := RunGoesOn(rules, n, trace, m, b);
    LeaderIsRecorded(After(rules, n, trace[..m]), b, i);
    LeaderIsRecorded(After(rules, n, trace), k, j);
  }

  /** A leader never overwrites or deletes entries of its log in its term. */
  lemma LeaderAppendOnly(rules: Rules, n: nat, trace: seq<Event>, m: nat, i: nat)
    requires rules.votes && IsRun(rules, n, trace) && m <= |trace| && IsRun(rules, n, trace[..m])
    requires i < |After(rules, n, trace[..m]).servers| && After(rules, n, trace[..m]).servers[i].role == Leader
    requires i < |After(rules, n, trace).servers| && After(rules, n, trace).servers[i].role == Leader
    requires After(rules, n, trace[..m]).servers[i].term == After(rules, n, trace).servers[i].term
    ensures After(rules, n, trace[..m]).servers[i].log <= After(rules, n, trace).servers[i].log
  {
    var b := RunKeeps(rules, n, trace[..m]);
    var k := RunGoesOn(rules, n, trace, m, b);
    assert ServerLink(b, After(rules, n, trace[..m]).servers[i], i);
    assert ServerLink(k, After(rules, n, trace).servers[i], i);
  }

  /** Logs that have the same term at an index are the same up to it. */
  lemma LogMatching(rules: Rules, n: nat, trace: seq<Event>, i: nat, j: nat, x: nat)
    requires rules.votes && IsRun(rules, n, trace)
    requires var c := After(rules, n, trace);
             i < c.N() && j < c.N() && x < |c.servers[i].log| && x < |c.servers[j].log| &&
                 c.servers[i].log[x].term == c.servers[j].log[x].term
    ensures Agree(After(rules, n, trace).servers[i].log, After(rules, n, trace).servers[j].log, x)
  {
    var k := RunKeeps(rules, n, trace);
    var c := After(rules, n, trace);
    assert ServerLink(k, c.servers[i], i) && ServerLink(k, c.servers[j], j);
    assert ServerOk(k.h, i) && ServerOk(k.h, j);
    Matching(k.h, c.servers[i].log, c.servers[j].log, x);
  }

  /** The same of a log and the entries of a request under way. */
  lemma RequestMatching(rules: Rules, n: nat, trace: seq<Event>, i: nat, id: nat, e: nat)
    requires rules.votes && IsRun(rules, n, trace)
    requires var c := After(rules, n, trace);
             i < c.N() && id in c.net && c.net[id].AppendRequest? && SharesTerm(c.servers[i].log, c.net[id].append, e)
    ensures var c := After(rules, n, trace);
            var l, a := c.servers[i].log, c.net[id].append;
            l[a.prev].term == a.prevTerm && l[a.prev + 1..a.prev + 2 + e] == a.entries[..e + 1]
  {
    hide IsRun, After;
    var k := RunKeeps(rules, n, trace);
    var c := After(rules, n, trace);
    BaseMessage(c, k, id);
    assert ServerLink(k, c.servers[i], i) && ServerOk(k.h, i);
    EntriesMatch(k, c.servers[i].log, c.net[id].from, c.net[id].append, e);
  }

  /** The log and the request have an entry of the same term at the place of the request's entry `e`. */
  predicate SharesTerm(l: Log, a: AppendArgs, e: nat) {
    e < |a.entries| && 0 <= a.prev && a.prev + 1 + e < |l| && l[a.prev + 1 + e].term == a.entries[e].term
  }

  lemma EntriesMatch(k: Record, l: Log, from: nat, a: AppendArgs, e: nat)
    requires MatchInv(k.h) && LogOk(k.h, l) && AppendRequestOk(k, from, a) && SharesTerm(l, a, e)
    ensures l[a.prev].term == a.prevTerm && l[a.prev + 1..a.prev + 2 + e] == a.entries[..e + 1]
  {
    var r, x := k.h.reign[a.term], a.prev + 1 + e;
    assert ReignOk(k.h, a.term);
    hide LogOk, MatchInv, ReignOk;
    assert a.entries[e] == r.log[x];
    Matching(k.h, l, r.log, x);
    AgreeBelow(l, r.log, x, a.prev);
    assert l[a.prev + 1..x + 1] == l[..x + 1][a.prev + 1..];
    assert r.log[a.prev + 1..x + 1] == r.log[..x + 1][a.prev + 1..];
    assert a.entries[..e + 1] == r.log[a.prev + 1..x + 1];
  }

  /** In every run with the guard on rejections, whatever may happen next goes through. */
  lemma NothingPanics(rules: Rules, n: nat, trace: seq<Event>, ev: Event)
    requires rules.votes && rules.hints && IsRun(rules, n, trace) && Enabled(rules, After(rules, n, trace), ev)
    ensures NoPanic(After(rules, n, trace), ev)
  {
    var k := RunKeeps(rules, n, trace);
    RunBounded(rules, n, trace);
    BoundedStep(rules, After(rules, n, trace), k, ev);
  }

  lemma {:induction false} RunBounded(rules: Rules, n: nat, trace: seq<Event>)
    requires rules.votes && rules.hints && IsRun(rules, n, trace)
    ensures AllBounded(After(rules, n, trace))
  {
    if trace != [] {
      hide Base, AllBounded, Apply, Enabled;
      var before, ev := trace[..|trace| - 1], trace[|trace| - 1];
      RunBounded(rules, n, before);
      var k := RunKeeps(rules, n, before);
      BoundedStep(rules, After(rules, n, before), k, ev);
    }
  }

  // ---- and of what is committed ----

  /** What backs a commit index at one point of a run still does, later on. */
  lemma Evidence(h: History, g: History, s: Server, i: nat) returns (t: nat, j: nat)
    requires MoreAcked(h, g) && CommitBacked(h, s, i) && s.commit > 0
    ensures Backs(g, t, j, s.log, s.commit) && t <= s.term
  {
    t, j :| Backs(h, t, j, s.log, s.commit) && t <= s.term && (t == s.term ==> s.commit <= Acked(h, i, t));
    BacksStays(h, g, t, j, s.log, s.log, s.commit);
  }

  /** Two logs with backed commit indexes agree as far as both are committed. */
  lemma BackedAgree(h: History, l: Log, c: nat, t: nat, j: nat, m: Log, d: nat, u: nat, k: nat, x: nat)
    requires CommitInv(h) && Backs(h, t, j, l, c) && Backs(h, u, k, m, d) && x <= c && x <= d
    ensures Agree(l, m, x)
  {
    if t < u {
      LeaderCompleteness(h, t, j, u);
      Inherited(h, t, j, u, x);
    } else if u < t {
      LeaderCompleteness(h, u, k, t);
      Inherited(h, u, k, t, x);
    }
    AgreeBelow(l, h.reign[t].log, c, x);
    AgreeBelow(m, h.reign[u].log, d, x);
    AgreeTransitive(m, h.reign[u].log, h.reign[u].log, x);
    AgreeTransitive(l, h.reign[t].log, h.reign[u].log, x);
    AgreeTransitive(l, h.reign[u].log, m, x);
  }

  lemma Inherited(h: History, t: nat, k: nat, u: nat, x: nat)
    requires MatchInv(h) && t in h.reign && u in h.reign && Agree(h.reign[u].first, h.reign[t].log, k) && x <= k
    ensures Agree(h.reign[t].log, h.reign[u].log, x) && Agree(h.reign[u].log, h.reign[t].log, x)
  {
    assert ReignOk(h, u);
    var f := h.reign[u].first;
    AgreeBelow(f, h.reign[t].log, k, x);
    AgreePrefix(f, h.reign[u].log, x);
    AgreeTransitive(f, h.reign[t].log, h.reign[t].log, x);
    AgreeTransitive(h.reign[t].log, f, h.reign[u].log, x);
  }

  ghost predicate Committed(rules: Rules, n: nat, trace: seq<Event>, i: nat, x: int)
    requires IsRun(rules, n, trace)
  {
    var c := After(rules, n, trace);
    i < c.N() && 1 <= x <= c.servers[i].commit
  }

  /**
   State Machine Safety: what one peer takes for committed at one time, and another at another,
   is the same entry, and so is all that comes before it.
   */
  lemma StateMachineSafety(rules: Rules, n: nat, trace: seq<Event>, m: nat, i: nat, j: nat, x: nat)
    requires rules.votes && Committing(rules) && IsRun(rules, n, trace) && m <= |trace| && IsRun(rules, n, trace[..m])
    requires Committed(rules, n, trace[..m], i, x) && Committed(rules, n, trace, j, x)
    ensures Agree(After(rules, n, trace[..m]).servers[i].log, After(rules, n, trace).servers[j].log, x)
  {
    hide IsRun, After;
    var b := RunKeeps(rules, n, trace[..m]);
    var k := RunGoesOn(rules, n, trace, m, b);
    var c, d := After(rules, n, trace[..m]), After(rules, n, trace);
    assert PeerCommit(b.h, c.servers[i], i) && PeerCommit(k.h, d.servers[j], j);
    SameReign(k.h, k.h);
    var t, e := Evidence(b.h, k.h, c.servers[i], i);
    var u, f := Evidence(k.h, k.h, d.servers[j], j);
    BackedAgree(k.h, c.servers[i].log, c.servers[i].commit, t, e, d.servers[j].log, d.servers[j].commit, u, f, x);
  }

  /** What is committed stays committed, and the same. */
  lemma CommittedForever(rules: Rules, n: nat, trace: seq<Event>, m: nat, i: nat, x: nat)
    requires rules.votes && Committing(rules) && IsRun(rules, n, trace) && m <= |trace| && IsRun(rules, n, trace[..m])
    requires Committed(rules, n, trace[..m], i, x)
    ensures Committed(rules, n, trace, i, x) &&
            Agree(After(rules, n, trace[..m]).servers[i].log, After(rules, n, trace).servers[i].log, x)
  {
    hide IsRun, After;
    var b := RunKeeps(rules, n, trace[..m]);
    var k := RunGoesOn(rules, n, trace, m, b);
    assert After(rules, n, trace[..m]).servers[i].commit <= After(rules, n, trace).servers[i].commit;
    StateMachineSafety(rules, n, trace, m, i, i, x);
  }

  /** Leader Completeness: a leader of the same or a later term has whatever a peer takes for committed. */
  lemma LeadersHaveCommitted(rules: Rules, n: nat, trace: seq<Event>, m: nat, i: nat, j: nat, x: nat)
    requires rules.votes && Committing(rules) && IsRun(rules, n, trace) && m <= |trace| && IsRun(rules, n, trace[..m])
    requires Committed(rules, n, trace[..m], i, x) && j < After(rules, n, trace).N()
    requires After(rules, n, trace).servers[j].role == Leader
    requires After(rules, n, trace[..m]).servers[i].term <= After(rules, n, trace).servers[j].term
    ensures Agree(After(rules, n, trace[..m]).servers[i].log, After(rules, n, trace).servers[j].log, x)
  {
    hide IsRun, After;
    var b := RunKeeps(rules, n, trace[..m]);
    var k := RunGoesOn(rules, n, trace, m, b);
    var c, d := After(rules, n, trace[..m]), After(rules, n, trace);
    assert PeerCommit(b.h, c.servers[i], i) && ServerLink(k, d.servers[j], j);
    var t, e := Evidence(b.h, k.h, c.servers[i], i);
    LeaderHas(k.h, c.servers[i].log, c.servers[i].commit, t, e, d.servers[j].term, x);
  }

  lemma LeaderHas(h: History, l: Log, c: nat, t: nat, j: nat, u: nat, x: nat)
    requires CommitInv(h) && Backs(h, t, j, l, c) && u in h.reign && t <= u && x <= c
    ensures Agree(l, h.reign[u].log, x)
  {
    AgreeBelow(l, h.reign[t].log, c, x);
    if t < u {
      LeaderCompleteness(h, t, j, u);
      Inherited(h, t, j, u, x);
      AgreeTransitive(l, h.reign[t].log, h.reign[u].log, x);
    }
  }
}
