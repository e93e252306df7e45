module RaftVoting {
  // Elections that succeed (section 5.2 and 5.4.1 of the extended Raft paper): exactly when a vote is
  // granted, and that every run of at least two peers can go on, by timeouts and deliveries alone, to
  // one with a leader.

  import opened RaftLog
  import opened RaftServer
  import opened RaftCluster
  import opened RaftHistory
  import opened RaftLink
  import opened RaftRuns
  import opened RaftSafety

  // ---- when a vote is granted ----

  /** Of any two logs one is at least as up to date as the other, so of two peers one can vote for the other. */
  lemma OneIsUpToDate(l: Log, m: Log)
    requires l != [] && m != []
    ensures UpToDate(l, m) || UpToDate(m, l)
  {}

  lemma UpToDateOn(l: Log, m: Log, o: Log)
    requires l != [] && m != [] && o != [] && UpToDate(l, m) && UpToDate(m, o)
    ensures UpToDate(l, o)
  {}

  /** A candidate of no past term gets the vote of a voter free to give it iff its log is up to date. */
  lemma GrantedIff(s: Server, cand: Server)
    requires s.log != [] && cand.log != [] && s.lastIncludedIndex == cand.lastIncludedIndex == 0
    ensures RequestVote(s, VoteArgsOf(cand)).1.granted <==>
            && (cand.term > s.term || (cand.term == s.term && (s.votedFor == -1 || s.votedFor == cand.me)))
            && UpToDate(cand.log, s.log)
  {}

  /** Afterwards the peer has voted for the candidate, in the term of the request, iff it answers so. */
  lemma VotedIffGranted(s: Server, a: VoteArgs)
    requires s.log != []
    ensures var (r, reply) := RequestVote(s, a);
            && (reply.granted <==> r.term == a.term && r.votedFor == a.cand) && reply.term == r.term
            && r.term == (if a.term > s.term then a.term else s.term)
            && (r.term > s.term ==> r.role == Follower) && (r.term == s.term ==> r.role == s.role)
            && r == s.(term := r.term, role := r.role, votedFor := r.votedFor)
            && (!reply.granted && r.votedFor != s.votedFor ==> r.votedFor == -1)
  {}

  /** In every run, of every request for a vote while its candidate still stands. */
  lemma VoteIsGrantedIff(rules: Rules, n: nat, trace: seq<Event>, id: nat)
    requires rules.votes && IsRun(rules, n, trace) && id in After(rules, n, trace).net
    requires var c := After(rules, n, trace);
             var m := c.net[id];
             m.VoteRequest? && Addressed(c, m) && Standing(c.servers[m.from], m.vote.term)
    ensures var c := After(rules, n, trace);
            var m := c.net[id];
            var s, cand := c.servers[m.to], c.servers[m.from];
            && s.log != [] && cand.log != []
            && (RequestVote(s, m.vote).1.granted <==>
                && (cand.term > s.term || (cand.term == s.term && (s.votedFor == -1 || s.votedFor == m.from)))
                && UpToDate(cand.log, s.log))
  {
    hide IsRun, After;
    var c := After(rules, n, trace);
    var k := RunKeeps(rules, n, trace);
    var m := c.net[id];
    BaseMessage(c, k, id);
    Shape(c, k, m.to);
    Shape(c, k, m.from);
    GrantedIff(c.servers[m.to], c.servers[m.from]);
  }

  lemma Shape(c: Cluster, k: Record, i: nat)
    requires Base(c, k) && i < c.N()
    ensures var s := c.servers[i];
            s.me == i && s.log != [] && s.lastIncludedIndex == 0 && |s.nextIndex| == |s.matchIndex| == c.N()
  {
    assert ServerLink(k, c.servers[i], i) && ServerOk(k.h, i);
  }

  // ---- the peer to elect ----

  /** Peers that no run has compacted anything of. */
  ghost predicate Plain(c: Cluster) {
    forall i: nat {:trigger c.servers[i]} :: i < c.N() ==>
      var s := c.servers[i];
      s.me == i && s.log != [] && s.lastIncludedIndex == 0 && |s.nextIndex| == |s.matchIndex| == c.N()
  }

  lemma PlainRun(rules: Rules, n: nat, trace: seq<Event>)
    requires rules.votes && IsRun(rules, n, trace)
    ensures Plain(After(rules, n, trace))
  {
    hide IsRun, After;
    var c := After(rules, n, trace);
    var k := RunKeeps(rules, n, trace);
    forall i: nat | i < c.N()
      ensures c.servers[i].me == i && c.servers[i].log != [] && c.servers[i].lastIncludedIndex == 0
      ensures |c.servers[i].nextIndex| == |c.servers[i].matchIndex| == c.N()
    {
      Shape(c, k, i);
    }
  }

  /** Among the first `x` peers, one whose log is up to date beside all of theirs. */
  lemma {:induction false} Best(c: Cluster, x: nat) returns (i: nat)
    requires Plain(c) && 0 < x <= c.N()
    ensures i < x && forall j: nat {:trigger c.servers[j]} :: j < x ==> UpToDate(c.servers[i].log, c.servers[j].log)
  {
    if x == 1 {
      i := 0;
      OneIsUpToDate(c.servers[0].log, c.servers[0].log);
    } else {
      i := Best(c, x - 1);
      OneIsUpToDate(c.servers[i].log, c.servers[x - 1].log);
      if !UpToDate(c.servers[i].log, c.servers[x - 1].log) {
        forall j: nat | j < x ensures UpToDate(c.servers[x - 1].log, c.servers[j].log) {
          if j < x - 1 {
            UpToDateOn(c.servers[x - 1].log, c.servers[i].log, c.servers[j].log);
          } else {
            OneIsUpToDate(c.servers[j].log, c.servers[j].log);
          }
        }
        i := x - 1;
      }
    }
  }

  lemma {:induction false} HighestTerm(c: Cluster, x: nat) returns (t: nat)
    requires x <= c.N()
    ensures forall j: nat {:trigger c.servers[j]} :: j < x ==> c.servers[j].term <= t
  {
    t := 0;
    if x > 0 {
      t := HighestTerm(c, x - 1);
      if c.servers[x - 1].term > t {
        t := c.servers[x - 1].term;
      }
    }
  }

  // ---- the election ----

  /** Timeouts and deliveries alone. */
  ghost predicate Elective(events: seq<Event>) {
    forall x {:trigger events[x]} :: 0 <= x < |events| ==> events[x].Timeout? || events[x].Deliver?
  }

  /** Peer `i` times out until its term is `t`. */
  lemma {:induction false} Raises(rules: Rules, n: nat, trace: seq<Event>, c: Cluster, i: nat, t: nat)
      returns (more: seq<Event>, d: Cluster)
    requires Reaches(rules, n, trace, c) && Plain(c) && i < c.N() && c.servers[i].term <= t
    ensures Reaches(rules, n, trace + more, d) && Plain(d) && Elective(more)
    ensures d.N() == c.N() && d.servers == c.servers[i := d.servers[i]]
    ensures d.servers[i].term == t && d.servers[i].log == c.servers[i].log
    decreases t - c.servers[i].term
  {
    hide IsRun, After, Reaches;
    if c.servers[i].term == t {
      more, d := [], c;
      assert trace + more == trace;
    } else {
      Next(rules, n, trace, c, Timeout(i));
      var c1 := Apply(c, Timeout(i));
      var rest;
      rest, d := Raises(rules, n, trace + [Timeout(i)], c1, i, t);
      more := [Timeout(i)] + rest;
      assert trace + more == trace + [Timeout(i)] + rest;
    }
  }

  /** The candidate with `votes` votes, its own included, among `n` peers. */
  function WithVotes(s: Server, votes: nat): Server {
    var n, t := |s.nextIndex|, s.term;
    if votes <= n / 2 then s.(count := s.count[t := votes])
    else ConvertRole(s.(count := s.count[t := n / 2 + 1]), Leader)
  }

  lemma OneVote(s: Server, votes: nat)
    requires s.role == Candidate && 0 < votes
    ensures var r := WithVotes(s, votes);
            && s.term in r.count && r.term == s.term
            && HandleVoteReply(r, s.term, VoteReply(s.term, true)) == WithVotes(s, votes + 1)
  {
    var n, t, r := |s.nextIndex|, s.term, WithVotes(s, votes);
    if votes <= n / 2 {
      assert s.count[t := votes][t := votes + 1] == s.count[t := votes + 1];
    }
  }

  /** How many of the first `x` peers are not `i`. */
  function Besides(i: nat, x: nat): nat {
    if i < x then x - 1 else x
  }

  function Voted(s: Server, t: nat, i: nat): Server {
    StepDown(s, t).(votedFor := i)
  }

  /** Where an election stands: the first `x` peers have voted for `i`, who has got their replies. */
  ghost predicate Polled(b: Cluster, d: Cluster, i: nat, x: nat, at: nat)
    requires i < b.N() && b.servers[i].log != []
  {
    var s := b.servers[i];
    && d.N() == b.N() && d.clock >= at + b.N() && d.servers[i] == WithVotes(s, 1 + Besides(i, x))
    && (forall j: nat {:trigger d.servers[j]} ::
          j < x && j < b.N() && j != i ==> d.servers[j] == Voted(b.servers[j], s.term, i))
    && (forall j: nat {:trigger d.servers[j]} :: x <= j < b.N() && j != i ==> d.servers[j] == b.servers[j])
    && (forall j: nat {:trigger Asked(d, i, j, s, at)} :: x <= j < b.N() && j != i ==> Asked(d, i, j, s, at))
  }

  ghost predicate Asked(d: Cluster, i: nat, j: nat, s: Server, at: nat)
    requires s.log != []
  {
    Holds(d.net, at + j, VoteRequest(i, j, VoteArgsOf(s)))
  }

  /** The candidate may get the vote of every other peer. */
  ghost predicate Electable(b: Cluster, i: nat) {
    && Plain(b) && i < b.N() && b.servers[i].role == Candidate
    && (forall j: nat {:trigger b.servers[j]} :: j < b.N() && j != i ==>
          b.servers[j].term < b.servers[i].term && UpToDate(b.servers[i].log, b.servers[j].log))
  }

  lemma Opens(rules: Rules, n: nat, trace: seq<Event>, c: Cluster, i: nat) returns (b: Cluster)
    requires Reaches(rules, n, trace, c) && Plain(c) && i < c.N() && c.N() > 1
    ensures Reaches(rules, n, trace + [Timeout(i)], b) && Plain(b) && b.N() == c.N()
    ensures b.servers == c.servers[i := StartElection(c.servers[i])] && Polled(b, b, i, 0, c.clock)
  {
    hide IsRun, After, Reaches;
    Next(rules, n, trace, c, Timeout(i));
    b := Apply(c, Timeout(i));
    var s := b.servers[i];
    forall j: nat | j < b.N() && j != i ensures Asked(b, i, j, s, c.clock) {
      assert c.clock + j in Numbers(c.clock, c.N());
    }
    assert WithVotes(s, 1) == s;
  }

  lemma Polls(rules: Rules, n: nat, trace: seq<Event>, b: Cluster, c: Cluster, i: nat, x: nat, at: nat)
      returns (more: seq<Event>, d: Cluster)
    requires Reaches(rules, n, trace, c) && Electable(b, i) && x < b.N() && Polled(b, c, i, x, at)
    ensures Reaches(rules, n, trace + more, d) && Polled(b, d, i, x + 1, at) && Elective(more)
  {
    hide IsRun, After, Reaches, RequestVote, HandleVoteReply, WithVotes, Holds;
    if x == i {
      more, d := [], c;
      assert trace + more == trace;
    } else {
      var s, v := b.servers[i], b.servers[x];
      assert Asked(c, i, x, s, at) && c.servers[x] == v;
      GrantedIff(v, s);
      Grants(v, s, i);
      var c1 := DeliversVoteRequest(rules, n, trace, c, at + x, i, x, VoteArgsOf(s));
      OneVote(s, 1 + Besides(i, x));
      Awaits(c1, c.clock, x, i, s.term);
      d := DeliversVoteAnswer(rules, n, trace + [Deliver(at + x)], c1, c.clock, x, i, s.term, VoteReply(s.term, true));
      more := [Deliver(at + x), Deliver(c.clock)];
      assert trace + more == trace + [Deliver(at + x)] + [Deliver(c.clock)];
      forall j: nat | x + 1 <= j < b.N() && j != i ensures Asked(d, i, j, s, at) {
        assert Asked(c, i, j, s, at);
        assert Holds(c1.net, at + j, VoteRequest(i, j, VoteArgsOf(s)));
      }
    }
  }

  lemma Grants(v: Server, s: Server, i: nat)
    requires v.log != [] && s.log != [] && s.me == i && v.lastIncludedIndex == s.lastIncludedIndex == 0
    requires v.term < s.term && UpToDate(s.log, v.log)
    ensures RequestVote(v, VoteArgsOf(s)) == (Voted(v, s.term, i), VoteReply(s.term, true))
  {}

  lemma Awaits(c: Cluster, id: nat, from: nat, to: nat, t: nat)
    requires Holds(c.net, id, VoteAnswer(from, to, t, VoteReply(t, true))) && from < c.N() && to < c.N()
    requires c.servers[to].term == t
    ensures forall rules :: Enabled(rules, c, Deliver(id))
  {}

  lemma {:induction false} PollsAll(rules: Rules, n: nat, trace: seq<Event>, b: Cluster, i: nat, x: nat, at: nat)
      returns (more: seq<Event>, d: Cluster)
    requires Reaches(rules, n, trace, b) && Electable(b, i) && x <= b.N() && Polled(b, b, i, 0, at)
    ensures Reaches(rules, n, trace + more, d) && Polled(b, d, i, x, at) && Elective(more)
    decreases x
  {
    hide IsRun, After, Reaches, Electable, Polled;
    if x == 0 {
      more, d := [], b;
      assert trace + more == trace;
    } else {
      var first, c := PollsAll(rules, n, trace, b, i, x - 1, at);
      var second;
      second, d := Polls(rules, n, trace + first, b, c, i, x - 1, at);
      more := first + second;
      assert trace + first + second == trace + more;
    }
  }

  /** Peer `i` leads, with its log and all of nextIndex behind it; the others keep their logs and follow. */
  ghost predicate Won(c: Cluster, d: Cluster, i: nat) {
    && d.N() == c.N() && i < c.N() && d.servers[i].role == Leader && d.servers[i].log == c.servers[i].log
    && d.servers[i].lastIncludedIndex == 0 && |d.servers[i].nextIndex| == |d.servers[i].matchIndex| == c.N()
    && (forall j: nat {:trigger d.servers[i].matchIndex[j]} :: j < c.N() ==> d.servers[i].matchIndex[j] == -1)
    && (forall j: nat {:trigger d.servers[i].nextIndex[j]} ::
          j < c.N() ==> d.servers[i].nextIndex[j] == |d.servers[i].log|)
    && (forall j: nat {:trigger d.servers[j]} :: j < c.N() && j != i ==>
          && d.servers[j].role == Follower && d.servers[j].term == d.servers[i].term
          && d.servers[j].log == c.servers[j].log)
  }

  lemma PolledWon(c: Cluster, b: Cluster, d: Cluster, i: nat, at: nat)
    requires Plain(b) && i < b.N() == c.N() && b.N() > 1 && Polled(b, d, i, b.N(), at)
    requires forall j: nat {:trigger b.servers[j]} :: j < c.N() ==> b.servers[j].log == c.servers[j].log
    ensures Won(c, d, i)
  {
    assert b.servers[i].me == i;
    forall j: nat | j < c.N() && j != i
      ensures d.servers[j].role == Follower && d.servers[j].term == d.servers[i].term
      ensures d.servers[j].log == c.servers[j].log
    {
      assert b.servers[j].log == c.servers[j].log;
      assert d.servers[j] == Voted(b.servers[j], b.servers[i].term, i);
    }
  }

  ghost predicate MostUpToDate(c: Cluster, i: nat) {
    && i < c.N() && c.servers[i].log != []
    && (forall j: nat {:trigger c.servers[j]} ::
          j < c.N() ==> c.servers[j].log != [] && UpToDate(c.servers[i].log, c.servers[j].log))
  }

  /**
   Every run of at least two peers can go on, by timeouts and deliveries alone, to one with a leader,
   whose log is up to date with respect to every other.
   */
  lemma LeaderCanBeElected(rules: Rules, n: nat, trace: seq<Event>) returns (more: seq<Event>, i: nat)
    requires rules.votes && IsRun(rules, n, trace) && After(rules, n, trace).N() > 1
    ensures IsRun(rules, n, trace + more) && Elective(more)
    ensures Won(After(rules, n, trace), After(rules, n, trace + more), i) && MostUpToDate(After(rules, n, trace), i)
  {
    hide IsRun, After, Won;
    var c := After(rules, n, trace);
    PlainRun(rules, n, trace);
    i := Best(c, c.N());
    assert MostUpToDate(c, i);
    var t := HighestTerm(c, c.N());
    var first, c1 := Raises(rules, n, trace, c, i, t);
    var b := Opens(rules, n, trace + first, c1, i);
    MayWin(c, b, i, t);
    hide Plain, Electable, Polled;
    var third, d := PollsAll(rules, n, trace + first + [Timeout(i)], b, i, b.N(), c1.clock);
    PolledWon(c, b, d, i, c1.clock);
    more := first + [Timeout(i)] + third;
    assert trace + more == trace + first + [Timeout(i)] + third;
  }

  lemma MayWin(c: Cluster, b: Cluster, i: nat, t: nat)
    requires Plain(b) && i < c.N() == b.N() && b.servers[i].role == Candidate && b.servers[i].term > t
    requires b.servers[i].log == c.servers[i].log && b.servers == c.servers[i := b.servers[i]]
    requires forall j: nat {:trigger c.servers[j]} :: j < c.N() ==>
               && c.servers[j].term <= t && c.servers[i].log != [] && c.servers[j].log != []
               && UpToDate(c.servers[i].log, c.servers[j].log)
    ensures Electable(b, i)
    ensures forall j: nat {:trigger b.servers[j]} :: j < c.N() ==> b.servers[j].log == c.servers[j].log
  {
    forall j: nat | j < b.N() && j != i
      ensures b.servers[j].term < b.servers[i].term && UpToDate(b.servers[i].log, b.servers[j].log)
    {
      assert b.servers[j] == c.servers[j];
    }
    assert c.servers[i].log != [];
  }

  // ---- one peer alone ----

  /** A peer without others votes for itself, but counts votes only when a reply comes in: it never leads. */
  lemma {:induction false} NeverLeadsAlone(rules: Rules, n: nat, trace: seq<Event>)
    requires rules.votes && IsRun(rules, n, trace) && n <= 1
    ensures var c := After(rules, n, trace); c.N() == n && c.net == map[] && (n == 1 ==> c.servers[0].role != Leader)
  {
    if trace != [] {
      var before, ev := trace[..|trace| - 1], trace[|trace| - 1];
      NeverLeadsAlone(rules, n, before);
      if ev.Timeout? {
        Nobody(After(rules, n, before), ev.i);
      }
    }
  }

  lemma Nobody(c: Cluster, i: nat)
    requires c.N() == 1 && i == 0 && c.net == map[] && c.servers[0].log != []
    ensures var d := Apply(c, Timeout(i)); d.N() == 1 && d.net == map[] && d.servers[0].role == Candidate
  {
    var d := Apply(c, Timeout(i));
    assert forall id: nat :: id in Numbers(c.clock, 1) <==> id == c.clock;
    assert d.net.Keys == {};
  }

  ghost predicate LeadsTo(rules: Rules, n: nat, trace: seq<Event>, more: seq<Event>) {
    IsRun(rules, n, trace + more) && exists i {:trigger After(rules, n, trace + more).servers[i]} ::
      0 <= i < After(rules, n, trace + more).N() && After(rules, n, trace + more).servers[i].role == Leader
  }

  /** A run can go on to one with a leader iff there are at least two peers. */
  lemma LeaderIffTwo(rules: Rules, n: nat, trace: seq<Event>)
    requires rules.votes && IsRun(rules, n, trace)
    ensures (exists more :: LeadsTo(rules, n, trace, more)) <==> n >= 2
  {
    hide IsRun, After, UpToDate;
    if n >= 2 {
      Size(rules, n, trace);
      var more, i := LeaderCanBeElected(rules, n, trace);
      assert After(rules, n, trace + more).servers[i].role == Leader;
      assert LeadsTo(rules, n, trace, more);
    } else {
      forall more | IsRun(rules, n, trace + more) ensures !LeadsTo(rules, n, trace, more) {
        NeverLeadsAlone(rules, n, trace + more);
      }
    }
  }

  lemma {:induction false} Size(rules: Rules, n: nat, trace: seq<Event>)
    requires IsRun(rules, n, trace)
    ensures After(rules, n, trace).N() == n
  {
    if trace != [] {
      Size(rules, n, trace[..|trace| - 1]);
      SizeStep(After(rules, n, trace[..|trace| - 1]), trace[|trace| - 1]);
    }
  }

  lemma SizeStep(c: Cluster, ev: Event)
    requires Enabled(ANY, c, ev) && NoPanic(c, ev)
    ensures Apply(c, ev).N() == c.N()
  {
    hide RequestVote, AppendEntries, HandleAppendReply, HandleVoteReply, InstallSnapshot, HandleSnapshotReply,
        GenAppend;
  }
}
