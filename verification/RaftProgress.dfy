module RaftProgress {
  // That a cluster can get on, from wherever a run has brought it: of any two peers one may be
  // elected by the other, every run of at least two peers can go on to a leader, and a leader that
  // reaches a majority commits all of its log.

  import opened RaftLog
  import opened RaftServer
  import opened RaftCluster
  import opened RaftHistory
  import opened RaftLink
  import opened RaftCommit
  import opened RaftRuns
  import opened RaftSafety
  import opened RaftRepair
  import opened RaftVoting

  // ---- the commit index of a leader ----

  /** The peers besides the leader that it knows to hold index `n`. */
  ghost function Holding(s: Server, n: int): set<nat> {
    set j: nat | j < |s.matchIndex| && j != s.me && s.matchIndex[j] >= n
  }

  /** With the leader itself they are more than half of the peers, and the entry is of its term. */
  ghost predicate Counted(s: Server, n: int) {
    && 0 <= ToStorage(s, n) < |s.log| && s.log[ToStorage(s, n)].term == s.term
    && 1 + |Holding(s, n)| > |s.nextIndex| / 2
  }

  lemma CountIsCounted(s: Server, n: int)
    requires 0 <= ToStorage(s, n) < |s.log| && |s.nextIndex| > 1
    ensures CountFor(s, n) > |s.nextIndex| / 2 <==> Counted(s, n)
  {
    assert Holding(s, n) == Holders(s, n, |s.matchIndex|);
  }

  /** Nothing above the commit index is held by a majority and of the leader's term. */
  ghost predicate CaughtUp(s: Server) {
    forall n {:trigger Counted(s, n)} :: s.commit < n ==> !Counted(s, n)
  }

  /** An acknowledgement raises the commit index to the highest index that a majority is known to hold, if to any. */
  lemma CommitIsHighest(s: Server, from: nat, a: AppendArgs, r: AppendReply)
    requires from < |s.nextIndex| == |s.matchIndex| && |s.nextIndex| > 1 && s.commit >= s.lastIncludedIndex
    requires s.role == Leader && ToStorage(s, s.nextIndex[from]) <= |s.log| && r.success && r.term <= s.term
    ensures var s' := HandleAppendReply(s, from, a, r);
            && s'.matchIndex == s.matchIndex[from := LastOf(a)]
            && s'.nextIndex == s.nextIndex[from := LastLogical(s) + 1]
            && s' == s.(matchIndex := s'.matchIndex, nextIndex := s'.nextIndex, commit := s'.commit) && CaughtUp(s')
            && (s'.commit == s.commit || (s'.commit > s.commit && Counted(s', s'.commit)))
  {
    var s1 := s.(nextIndex := s.nextIndex[from := LastLogical(s) + 1], matchIndex := s.matchIndex[from := LastOf(a)]);
    var s' := HandleAppendReply(s, from, a, r);
    assert s' == s1.(commit := LeaderCommit(s1, LastLogical(s1)));
    hide HandleAppendReply, Retreat;
    forall n | s.lastIncludedIndex <= n <= LastLogical(s)
      ensures Counted(s', n) <==> CountFor(s1, n) > |s1.nextIndex| / 2
    {
      CountIsCounted(s1, n);
      assert Holding(s1, n) == Holding(s', n);
    }
  }

  /** A commit index that a follower learns of is raised to the smaller of it and the follower's last index. */
  lemma FollowerCommitIs(s: Server, leaderCommit: int)
    ensures var c := FollowerCommit(s, leaderCommit);
            && (leaderCommit <= s.commit ==> c == s.commit)
            && (leaderCommit > s.commit ==>
                  c <= leaderCommit && c <= LastLogical(s) && (c == leaderCommit || c == LastLogical(s)))
  {}

  // ---- rounds with one follower ----

  /** Only what the leader knows of the one follower changes, and its commit index. */
  lemma RoundKeepsOthers(p: Pair, to: nat)
    requires Ready(p.s, p.f, to)
    ensures var r := Round(p, to);
            && r.s == p.s.(nextIndex := r.s.nextIndex, matchIndex := r.s.matchIndex, commit := r.s.commit)
            && |r.s.nextIndex| == |p.s.nextIndex| && |r.s.matchIndex| == |p.s.matchIndex| && p.s.commit <= r.s.commit
            && (forall j {:trigger r.s.nextIndex[j]} ::
                  0 <= j < |p.s.nextIndex| && j != to ==> r.s.nextIndex[j] == p.s.nextIndex[j])
            && (forall j {:trigger r.s.matchIndex[j]} ::
                  0 <= j < |p.s.matchIndex| && j != to ==> r.s.matchIndex[j] == p.s.matchIndex[j])
            && p.f.term <= r.f.term
  {
    hide ConflictStart, FollowerCommit, TermSearch, CountFor;
  }

  lemma {:induction false} RoundsKeepOthers(p: Pair, to: nat, n: nat)
    requires Ready(p.s, p.f, to)
    ensures var r := Rounds(p, to, n);
            && r.s == p.s.(nextIndex := r.s.nextIndex, matchIndex := r.s.matchIndex, commit := r.s.commit)
            && |r.s.nextIndex| == |p.s.nextIndex| && |r.s.matchIndex| == |p.s.matchIndex| && p.s.commit <= r.s.commit
            && (forall j {:trigger r.s.nextIndex[j]} ::
                  0 <= j < |p.s.nextIndex| && j != to ==> r.s.nextIndex[j] == p.s.nextIndex[j])
            && (forall j {:trigger r.s.matchIndex[j]} ::
                  0 <= j < |p.s.matchIndex| && j != to ==> r.s.matchIndex[j] == p.s.matchIndex[j])
    decreases n
  {
    hide Round, Ready;
    if n > 0 {
      RoundKeepsOthers(p, to);
      RoundsKeepOthers(Round(p, to), to, n - 1);
    }
  }

  /** A round that leaves the follower repaired leaves the leader caught up. */
  lemma RoundCatchesUp(p: Pair, to: nat)
    requires Ready(p.s, p.f, to) && |p.s.nextIndex| > 1 && Repaired(Round(p, to).s, Round(p, to).f, to)
    ensures CaughtUp(Round(p, to).s)
    ensures LastLogical(p.s) > p.s.lastIncludedIndex ==>
              Round(p, to).f.commit >= p.s.commit || Round(p, to).f.commit >= LastLogical(p.s)
  {
    var r := Round(p, to);
    if p.s.nextIndex[to] > p.s.lastIncludedIndex {
      var a := GenAppend(p.s, to).args;
      if AppendEntries(p.f, a).1.success {
        hide LeaderCommit, ConflictStart, Repaired;
        CommitIsHighest(p.s, to, a, AppendEntries(p.f, a).1);
      } else {
        RejectedRound(p, to);
        assert false;
      }
    }
  }

  lemma {:induction false} RoundsLast(p: Pair, to: nat, n: nat)
    requires Ready(p.s, p.f, to) && n > 0
    ensures Rounds(p, to, n) == Round(Rounds(p, to, n - 1), to)
    decreases n
  {
    hide Round, Ready;
    if n > 1 {
      RoundsLast(Round(p, to), to, n - 1);
    }
  }

  // ---- exchanges in a run ----

  /** The same leader, of the same term with the same log, as far as anybody but peers `q` can tell. */
  ghost predicate StillLeads(s: Server, r: Server, q: set<nat>) {
    && r == s.(nextIndex := r.nextIndex, matchIndex := r.matchIndex, commit := r.commit)
    && |r.nextIndex| == |s.nextIndex| && |r.matchIndex| == |s.matchIndex| && s.commit <= r.commit
    && (forall j: nat {:trigger r.nextIndex[j]} :: j < |s.nextIndex| && j !in q ==> r.nextIndex[j] == s.nextIndex[j])
    && (forall j: nat {:trigger r.matchIndex[j]} ::
          j < |s.matchIndex| && j !in q ==> r.matchIndex[j] == s.matchIndex[j])
  }

  /** Peer `j` can be brought up to date by leader `i`. */
  ghost predicate Follows(c: Cluster, i: nat, j: nat) {
    && i < c.N() && j < c.N() && i != j && c.servers[i].role == Leader && c.servers[j].term <= c.servers[i].term
    && j < |c.servers[i].nextIndex| && ToStorage(c.servers[i], c.servers[i].nextIndex[j]) <= |c.servers[i].log|
  }

  /** Peer `j` has the log of leader `i`, which knows, and takes all of it up to `commit` for committed. */
  ghost predicate UpWith(c: Cluster, i: nat, j: nat, commit: int) {
    && Follows(c, i, j) && c.servers[j].log == c.servers[i].log && c.servers[i].lastIncludedIndex == 0
    && Repaired(c.servers[i], c.servers[j], j)
    && (c.servers[j].commit >= commit || c.servers[j].commit >= LastLogical(c.servers[i]))
  }

  /** Only leader `i` and peers `q` have changed, and the leader leads still. */
  ghost predicate Among(c: Cluster, d: Cluster, i: nat, q: set<nat>) {
    && c.N() == d.N() && i < c.N() && i !in q && StillLeads(c.servers[i], d.servers[i], q)
    && (forall j: nat {:trigger d.servers[j]} :: j < c.N() && j != i && j !in q ==> d.servers[j] == c.servers[j])
  }

  lemma BringUp(rules: Rules, n: nat, trace: seq<Event>, i: nat, j: nat) returns (more: seq<Event>)
    requires rules.votes && IsRun(rules, n, trace) && Follows(After(rules, n, trace), i, j)
    ensures IsRun(rules, n, trace + more) && Exchange(more, i, j)
    ensures var c, d := After(rules, n, trace), After(rules, n, trace + more);
            Among(c, d, i, {j}) && UpWith(d, i, j, c.servers[i].commit) && CaughtUp(d.servers[i])
  {
    hide IsRun, After;
    var c := After(rules, n, trace);
    var k := RunKeeps(rules, n, trace);
    RunHandled(rules, n, trace);
    PeersMatch(c, k, i, j);
    PeersSeveral(c, k, i, j);
    var p := Pair(c.servers[i], c.servers[j], 0);
    var m := Left(p.s.nextIndex[j]);
    hide Match, Base, Rounds, CaughtUp, Ready, BroughtUp, Linked, Follows, StillLeads;
    Brings(p, j, m);
    var d;
    more, d := RoundsRun(rules, n, trace, c, i, j, m);
    var l := RunKeeps(rules, n, trace + more);
    Arrives(c, d, l, i, j);
  }

  /** What the rounds leave. */
  ghost predicate BroughtUp(p: Pair, r: Pair, to: nat) {
    && StillLeads(p.s, r.s, {to}) && CaughtUp(r.s) && Repaired(r.s, r.f, to) && Ready(r.s, r.f, to)
    && (LastLogical(p.s) > 0 ==> r.f.commit >= p.s.commit || r.f.commit >= LastLogical(p.s))
  }

  lemma Brings(p: Pair, to: nat, m: nat)
    requires Ready(p.s, p.f, to) && Match(p.s, p.f) && |p.s.nextIndex| > 1 && p.s.lastIncludedIndex == 0
    requires m == Left(p.s.nextIndex[to])
    ensures BroughtUp(p, Rounds(p, to, m), to)
  {
    hide Match, Round, Rounds, Repaired, CaughtUp;
    RepairConverges(p, to, m);
    CaughtInTheEnd(p, to, m);
    RoundsKeepOthers(p, to, m);
  }

  lemma Arrives(c: Cluster, d: Cluster, l: Record, i: nat, j: nat)
    requires Base(d, l) && Follows(c, i, j) && c.servers[i].lastIncludedIndex == 0 && d.N() == c.N()
    requires d.servers == c.servers[i := d.servers[i]][j := d.servers[j]]
    requires BroughtUp(Pair(c.servers[i], c.servers[j], 0), Pair(d.servers[i], d.servers[j], 0), j)
    ensures Among(c, d, i, {j}) && UpWith(d, i, j, c.servers[i].commit) && CaughtUp(d.servers[i])
  {
    SameLogs(d, l, i, j);
    assert ServerLink(l, d.servers[j], j);
    hide Base, CaughtUp, Repaired;
  }

  lemma PeersSeveral(c: Cluster, k: Record, i: nat, j: nat)
    requires Base(c, k) && i < c.N() && j < c.N() && i != j
    ensures |c.servers[i].nextIndex| == c.N() > 1 && c.servers[i].commit >= 0
  {
    assert ServerLink(k, c.servers[i], i);
  }

  lemma CaughtInTheEnd(p: Pair, to: nat, n: nat)
    requires Ready(p.s, p.f, to) && |p.s.nextIndex| > 1 && n > 0
    requires Repaired(Rounds(p, to, n).s, Rounds(p, to, n).f, to)
    ensures CaughtUp(Rounds(p, to, n).s)
    ensures LastLogical(p.s) > p.s.lastIncludedIndex ==>
              Rounds(p, to, n).f.commit >= p.s.commit || Rounds(p, to, n).f.commit >= LastLogical(p.s)
  {
    hide Round, Repaired, CaughtUp;
    RoundsLast(p, to, n);
    RoundsKeepOthers(p, to, n - 1);
    RoundCatchesUp(Rounds(p, to, n - 1), to);
  }

  // ---- and with several ----

  ghost predicate Distinct(js: seq<nat>) {
    forall x, y :: 0 <= x < y < |js| ==> js[x] != js[y]
  }

  ghost predicate AllFollow(c: Cluster, i: nat, js: seq<nat>) {
    Distinct(js) && forall x {:trigger js[x]} :: 0 <= x < |js| ==> Follows(c, i, js[x])
  }

  ghost predicate AllUpWith(c: Cluster, i: nat, js: seq<nat>, commit: int) {
    forall x {:trigger js[x]} :: 0 <= x < |js| ==> UpWith(c, i, js[x], commit)
  }

  ghost function Members(js: seq<nat>): set<nat> {
    set j | j in js
  }

  lemma StillFollows(c: Cluster, d: Cluster, i: nat, q: set<nat>, j: nat)
    requires Among(c, d, i, q) && Follows(c, i, j) && j !in q
    ensures Follows(d, i, j)
  {
    hide CaughtUp;
  }

  lemma StillUpWith(c: Cluster, d: Cluster, i: nat, q: set<nat>, j: nat, commit: int)
    requires Among(c, d, i, q) && UpWith(c, i, j, commit) && j !in q
    ensures UpWith(d, i, j, commit)
  {
    assert d.servers[j] == c.servers[j];
    var s, r := c.servers[i], d.servers[i];
    assert r.nextIndex[j] == s.nextIndex[j] && r.matchIndex[j] == s.matchIndex[j];
  }

  lemma AmongBoth(c: Cluster, d: Cluster, e: Cluster, i: nat, p: set<nat>, q: set<nat>)
    requires Among(c, d, i, p) && Among(d, e, i, q)
    ensures Among(c, e, i, p + q)
  {
    forall j: nat | j < c.N() && j != i && j !in p + q ensures e.servers[j] == c.servers[j] {
      assert d.servers[j] == c.servers[j];
    }
  }

  /** Nothing but requests of leader `i`, and deliveries. */
  ghost predicate Exchanges(events: seq<Event>, i: nat) {
    forall x {:trigger events[x]} :: 0 <= x < |events| ==> (events[x].Send? && events[x].i == i) || events[x].Deliver?
  }

  /** Leader `i` brings peers `js` up to date, one after the other. */
  lemma {:induction false} BringAll(rules: Rules, n: nat, trace: seq<Event>, i: nat, js: seq<nat>)
      returns (more: seq<Event>)
    requires rules.votes && IsRun(rules, n, trace) && i < After(rules, n, trace).N()
    requires AllFollow(After(rules, n, trace), i, js)
    ensures IsRun(rules, n, trace + more) && Exchanges(more, i)
    ensures var c, d := After(rules, n, trace), After(rules, n, trace + more);
            && Among(c, d, i, Members(js)) && AllUpWith(d, i, js, c.servers[i].commit)
            && (js != [] ==> CaughtUp(d.servers[i]))
    decreases |js|
  {
    hide IsRun, After, CaughtUp, Among, UpWith, Follows;
    var c := After(rules, n, trace);
    if js == [] {
      more := [];
      assert trace + more == trace;
      NobodyMoves(c, i);
    } else {
      var rest, j := js[..|js| - 1], js[|js| - 1];
      assert js == rest + [j];
      var first := BringAll(rules, n, trace, i, rest);
      var d := After(rules, n, trace + first);
      Onwards(c, d, i, rest, j);
      var second := BringUp(rules, n, trace + first, i, j);
      more := first + second;
      assert trace + first + second == trace + more;
      Grown(c, d, i, Members(rest));
      Together(c, d, After(rules, n, trace + more), i, rest, j);
    }
  }

  lemma Grown(c: Cluster, d: Cluster, i: nat, q: set<nat>)
    requires Among(c, d, i, q)
    ensures c.N() == d.N() && c.servers[i].commit <= d.servers[i].commit
  {}

  lemma NobodyMoves(c: Cluster, i: nat)
    requires i < c.N()
    ensures Among(c, c, i, Members([]))
  {}

  lemma Onwards(c: Cluster, d: Cluster, i: nat, js: seq<nat>, j: nat)
    requires AllFollow(c, i, js + [j]) && Among(c, d, i, Members(js))
    ensures Follows(d, i, j)
  {
    assert (js + [j])[|js|] == j;
    forall x | 0 <= x < |js| ensures js[x] != j {
      assert (js + [j])[x] == js[x];
    }
    StillFollows(c, d, i, Members(js), j);
  }

  lemma Together(c: Cluster, d: Cluster, e: Cluster, i: nat, js: seq<nat>, j: nat)
    requires Among(c, d, i, Members(js)) && AllUpWith(d, i, js, c.servers[i].commit) && j !in js
    requires Among(d, e, i, {j}) && UpWith(e, i, j, d.servers[i].commit) && c.servers[i].commit <= d.servers[i].commit
    ensures Among(c, e, i, Members(js + [j])) && AllUpWith(e, i, js + [j], c.servers[i].commit)
  {
    AmongBoth(c, d, e, i, Members(js), {j});
    assert Members(js + [j]) == Members(js) + {j};
    hide Among, Follows, Repaired;
    forall x | 0 <= x < |js + [j]| ensures UpWith(e, i, (js + [j])[x], c.servers[i].commit) {
      if x < |js| {
        StillUpWith(d, e, i, {j}, js[x], c.servers[i].commit);
      }
    }
  }

  lemma {:induction false} DistinctSize(js: seq<nat>, q: set<nat>)
    requires Distinct(js) && forall x {:trigger js[x]} :: 0 <= x < |js| ==> js[x] in q
    ensures |js| <= |q|
  {
    if js != [] {
      DistinctSize(js[..|js| - 1], q - {js[|js| - 1]});
    }
  }

  /** A leader that knows of a majority holding its whole log, which ends in its term, has committed all of it. */
  lemma AllCommitted(c: Cluster, i: nat, js: seq<nat>, commit: int)
    requires i < c.N() && CaughtUp(c.servers[i]) && Distinct(js) && AllUpWith(c, i, js, commit)
    requires c.servers[i].me == i && |c.servers[i].matchIndex| == |c.servers[i].nextIndex| == c.N()
    requires js != [] && 1 + |js| > c.N() / 2 && c.servers[i].log != []
    requires LastTerm(c.servers[i].log) == c.servers[i].term
    ensures c.servers[i].commit >= LastLogical(c.servers[i])
  {
    var s := c.servers[i];
    var last := LastLogical(s);
    assert UpWith(c, i, js[0], commit);
    forall x | 0 <= x < |js| ensures js[x] in Holding(s, last) {
      assert UpWith(c, i, js[x], commit);
    }
    DistinctSize(js, Holding(s, last));
    assert Counted(s, last);
  }

  /**
   Every run can go on to commit: a leader whose last entry is of its own term, and peers that are
   with it a majority and not past its term, get by exchanges alone to where the leader has
   committed all of its log and those peers have the same log.
   */
  lemma MajorityCommits(rules: Rules, n: nat, trace: seq<Event>, i: nat, js: seq<nat>) returns (more: seq<Event>)
    requires rules.votes && IsRun(rules, n, trace) && i < After(rules, n, trace).N()
    requires AllFollow(After(rules, n, trace), i, js) && js != [] && 1 + |js| > n / 2
    requires var s := After(rules, n, trace).servers[i]; s.log != [] && LastTerm(s.log) == s.term
    ensures IsRun(rules, n, trace + more) && Exchanges(more, i)
    ensures var c, d := After(rules, n, trace), After(rules, n, trace + more);
            && Among(c, d, i, Members(js)) && AllUpWith(d, i, js, c.servers[i].commit)
            && d.servers[i].commit >= LastLogical(d.servers[i])
            && (Committing(rules) ==> d.servers[i].commit == LastLogical(d.servers[i]))
  {
    hide IsRun, After;
    more := BringAll(rules, n, trace, i, js);
    var d := After(rules, n, trace + more);
    var l := RunKeeps(rules, n, trace + more);
    Size(rules, n, trace + more);
    PeerShape(rules, d, l, i);
    hide Linked, CaughtUp, AllUpWith, Follows;
    AllCommitted(d, i, js, After(rules, n, trace).servers[i].commit);
  }

  lemma PeerShape(rules: Rules, c: Cluster, k: Record, i: nat)
    requires Linked(rules, c, k) && i < c.N()
    ensures var s := c.servers[i];
            && s.me == i && |s.matchIndex| == |s.nextIndex| == c.N() && s.lastIncludedIndex == 0 && s.log != []
            && (Committing(rules) ==> s.commit <= LastLogical(s))
  {
    assert ServerLink(k, c.servers[i], i) && ServerOk(k.h, i);
    if Committing(rules) {
      assert PeerCommit(k.h, c.servers[i], i);
    }
  }

  // ---- from wherever a run has got to ----

  /** All peers but `i`. */
  function Rest(n: nat, i: nat): (js: seq<nat>)
    requires i < n
    ensures |js| == n - 1 && forall x {:trigger js[x]} :: 0 <= x < n - 1 ==> js[x] == if x < i then x else x + 1
  {
    seq(n - 1, x requires 0 <= x < n - 1 => if x < i then x else x + 1)
  }

  /** Every peer has the log of leader `i`, and takes all of it for committed. */
  ghost predicate Agreed(d: Cluster, i: nat) {
    && i < d.N() && d.servers[i].role == Leader
    && forall j: nat {:trigger d.servers[j]} :: j < d.N() ==>
         d.servers[j].log == d.servers[i].log && d.servers[j].commit >= |d.servers[i].log| - 1
  }

  lemma Confirmed(d: Cluster, i: nat, js: seq<nat>, commit: int)
    requires AllUpWith(d, i, js, commit) && Distinct(js)
    ensures AllFollow(d, i, js)
  {
    forall x | 0 <= x < |js| ensures Follows(d, i, js[x]) {
      assert UpWith(d, i, js[x], commit);
    }
  }

  lemma AgreedInTheEnd(c: Cluster, d: Cluster, i: nat)
    requires i < c.N() && c.servers[i].role == Leader && c.servers[i].lastIncludedIndex == 0
    requires c.servers[i].commit >= LastLogical(c.servers[i])
    requires Among(c, d, i, Members(Rest(c.N(), i))) && AllUpWith(d, i, Rest(c.N(), i), c.servers[i].commit)
    ensures Agreed(d, i)
  {
    hide CaughtUp, Repaired;
    var js := Rest(c.N(), i);
    forall j: nat | j < c.N()
      ensures d.servers[j].log == d.servers[i].log && d.servers[j].commit >= |d.servers[i].log| - 1
    {
      if j != i {
        assert js[if j < i then j else j - 1] == j;
        assert UpWith(d, i, j, c.servers[i].commit);
      }
    }
  }

  /** A leader whose last entry is of its term, followed by all others, can get all of them to agree on its log. */
  lemma AllCommit(rules: Rules, n: nat, trace: seq<Event>, i: nat) returns (more: seq<Event>)
    requires rules.votes && IsRun(rules, n, trace) && i < After(rules, n, trace).N() == n && n >= 2
    requires AllFollow(After(rules, n, trace), i, Rest(n, i))
    requires var s := After(rules, n, trace).servers[i];
             s.role == Leader && s.log != [] && LastTerm(s.log) == s.term && s.lastIncludedIndex == 0
    ensures IsRun(rules, n, trace + more) && Exchanges(more, i)
    ensures var c, d := After(rules, n, trace), After(rules, n, trace + more);
            d.N() == n && d.servers[i].log == c.servers[i].log && d.servers[i].term == c.servers[i].term && Agreed(d, i)
  {
    hide IsRun, After, Agreed, AllUpWith, CaughtUp, Follows;
    var c, js := After(rules, n, trace), Rest(n, i);
    var first := MajorityCommits(rules, n, trace, i, js);
    var d := After(rules, n, trace + first);
    Confirmed(d, i, js, c.servers[i].commit);
    var second := BringAll(rules, n, trace + first, i, js);
    more := first + second;
    assert trace + first + second == trace + more;
    AgreedInTheEnd(d, After(rules, n, trace + more), i);
  }

  lemma Commanded(c: Cluster, d: Cluster, i: nat, command: Command)
    requires Won(c, d, i) && c.N() > 1
    ensures var e := Apply(d, Submit(i, command));
            && e.N() == c.N() && e.servers[i].log == c.servers[i].log + [LogEntry(e.servers[i].term, command)]
            && e.servers[i].role == Leader && LastTerm(e.servers[i].log) == e.servers[i].term
            && e.servers[i].lastIncludedIndex == 0 && AllFollow(e, i, Rest(c.N(), i))
  {
    var e, js := Apply(d, Submit(i, command)), Rest(c.N(), i);
    forall x | 0 <= x < |js| ensures Follows(e, i, js[x]) {
      var j := js[x];
      assert d.servers[j].term == d.servers[i].term && d.servers[i].nextIndex[j] == |d.servers[i].log|;
    }
  }

  lemma TakesCommand(rules: Rules, n: nat, trace: seq<Event>, c: Cluster, i: nat, command: Command)
    requires IsRun(rules, n, trace) && Won(c, After(rules, n, trace), i) && c.N() == n > 1
    ensures IsRun(rules, n, trace + [Submit(i, command)])
    ensures var e := After(rules, n, trace + [Submit(i, command)]);
            && e.N() == n && e.servers[i].log == c.servers[i].log + [LogEntry(e.servers[i].term, command)]
            && e.servers[i].role == Leader && LastTerm(e.servers[i].log) == e.servers[i].term
            && e.servers[i].lastIncludedIndex == 0 && AllFollow(e, i, Rest(n, i))
  {
    hide IsRun, After, Apply;
    var d := After(rules, n, trace);
    Commanded(c, d, i, command);
    Next(rules, n, trace, d, Submit(i, command));
  }

  /**
   Every run of at least two peers can go on to agree on a command: to elect a leader, give it the
   command, and have every peer hold the leader's log with the command at its end, committed.
   */
  lemma EveryRunCanCommit(rules: Rules, n: nat, trace: seq<Event>, command: Command)
      returns (more: seq<Event>, i: nat)
    requires rules.votes && IsRun(rules, n, trace) && n >= 2
    ensures IsRun(rules, n, trace + more)
    ensures var c, d := After(rules, n, trace), After(rules, n, trace + more);
            && i < c.N() == d.N() == n && Agreed(d, i)
            && d.servers[i].log == c.servers[i].log + [LogEntry(d.servers[i].term, command)]
  {
    Size(rules, n, trace);
    hide IsRun, After, Agreed, Won, Elective;
    var first, rest;
    first, i := LeaderCanBeElected(rules, n, trace);
    rest := LeaderAgrees(rules, n, trace + first, After(rules, n, trace), i, command);
    more := first + rest;
    Join(trace, first, rest);
  }

  lemma Join(a: seq<Event>, b: seq<Event>, c: seq<Event>)
    ensures a + b + c == a + (b + c)
  {}

  lemma LeaderAgrees(rules: Rules, n: nat, trace: seq<Event>, c: Cluster, i: nat, command: Command)
      returns (more: seq<Event>)
    requires rules.votes && IsRun(rules, n, trace) && Won(c, After(rules, n, trace), i) && c.N() == n > 1
    ensures IsRun(rules, n, trace + more)
    ensures var d := After(rules, n, trace + more);
            && i < d.N() == n && Agreed(d, i)
            && d.servers[i].log == c.servers[i].log + [LogEntry(d.servers[i].term, command)]
  {
    TakesCommand(rules, n, trace, c, i, command);
    hide IsRun, After, Agreed, Won, AllFollow, Rest, Exchanges;
    var rest := AllCommit(rules, n, trace + [Submit(i, command)], i);
    more := [Submit(i, command)] + rest;
    Join(trace, [Submit(i, command)], rest);
  }
}
