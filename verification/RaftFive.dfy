/**
 Elections in a cluster of five, one event at a time.
 */
module RaftFive {
  import opened RaftLog
  import opened RaftServer
  import opened RaftCluster
  import opened RaftRuns

  /** A candidate that has got two votes besides its own. */
  function Won(s: Server): Server {
    ConvertRole(StartElection(s).(count := s.count[s.term + 1 := 3]), Leader)
  }

  function Voted(s: Server, term: nat, cand: nat): Server {
    s.(term := term, role := Follower, votedFor := cand)
  }

  lemma VoterFacts(i: nat)
    ensures var s := Voted(Fresh(i, 5), 1, 0);
            s.log == [PLACEHOLDER] && s.lastIncludedIndex == 0 && s.commit == 0 && s.term == 1 && s.role == Follower
  {}

  ghost predicate Grants(s: Server, cand: Server) {
    s.log != [] && cand.log != [] && cand.term >= s.term && IsUpToDate(s, LastTerm(cand.log), LastLogical(cand))
  }

  /** Peer `i` times out and is elected by `j` and `k`. */
  lemma Wins(rules: Rules, trace: seq<Event>, c: Cluster, i: nat, j: nat, k: nat)
      returns (trace': seq<Event>, d: Cluster)
    requires Reaches(rules, 5, trace, c) && c.N() == 5 && i < 5 && j < 5 && k < 5 && i != j && i != k && j != k
    requires c.servers[i].me == i && |c.servers[i].nextIndex| == 5 && Grants(c.servers[j], c.servers[i]) &&
             Grants(c.servers[k], c.servers[i])
    ensures Reaches(rules, 5, trace', d) && d.N() == 5 && d.clock == c.clock + 7 && d.handled == c.handled &&
            Others(c, d, -1)
    ensures var t := c.servers[i].term + 1;
            d.servers ==
            c.servers[i := Won(c.servers[i])][j := Voted(c.servers[j], t, i)][k := Voted(c.servers[k], t, i)]
  {
    hide IsRun, After, Reaches, IsUpToDate, RequestVote, HandleVoteReply;
    var s, t := c.servers[i], c.servers[i].term + 1;
    trace', d := Stands(rules, trace, c, i, j, k);
    d := DeliversVoteAnswer(rules, 5, trace', d, c.clock + 5, j, i, t, VoteReply(t, true));
    trace' := trace' + [Deliver(c.clock + 5)];
    TwoVotes(s);
    d := DeliversVoteAnswer(rules, 5, trace', d, c.clock + 6, k, i, t, VoteReply(t, true));
    trace' := trace' + [Deliver(c.clock + 6)];
  }

  /** Peer `i` times out, and `j` and `k` vote for it. */
  lemma Stands(rules: Rules, trace: seq<Event>, c: Cluster, i: nat, j: nat, k: nat)
      returns (trace': seq<Event>, d: Cluster)
    requires Reaches(rules, 5, trace, c) && c.N() == 5 && i < 5 && j < 5 && k < 5 && i != j && i != k && j != k
    requires c.servers[i].me == i && Grants(c.servers[j], c.servers[i]) && Grants(c.servers[k], c.servers[i])
    ensures Reaches(rules, 5, trace', d) && d.N() == 5 && d.clock == c.clock + 7 && d.handled == c.handled &&
            Others(c, d, -1)
    ensures var t := c.servers[i].term + 1;
            && d.servers ==
               c.servers[i := StartElection(c.servers[i])]
                        [j := Voted(c.servers[j], t, i)][k := Voted(c.servers[k], t, i)]
            && Holds(d.net, c.clock + 5, VoteAnswer(j, i, t, VoteReply(t, true)))
            && Holds(d.net, c.clock + 6, VoteAnswer(k, i, t, VoteReply(t, true)))
  {
    hide IsRun, After, Reaches, IsUpToDate, RequestVote;
    var s, t := c.servers[i], c.servers[i].term + 1;
    var a := VoteArgs(t, i, LastLogical(s), LastTerm(s.log));
    d := Times(rules, 5, trace, c, i, j, k);
    trace' := trace + [Timeout(i)];
    SameTest(c.servers[j], s, t);
    SameTest(c.servers[k], s, t);
    d := DeliversVoteRequest(rules, 5, trace', d, c.clock + j, i, j, a);
    trace' := trace' + [Deliver(c.clock + j)];
    d := DeliversVoteRequest(rules, 5, trace', d, c.clock + k, i, k, a);
    trace' := trace' + [Deliver(c.clock + k)];
  }

  lemma TwoVotes(s: Server)
    requires |s.nextIndex| == 5
    ensures var t, r := s.term + 1, VoteReply(s.term + 1, true);
            && t in HandleVoteReply(StartElection(s), t, r).count && HandleVoteReply(StartElection(s), t, r).term == t
            && HandleVoteReply(HandleVoteReply(StartElection(s), t, r), t, r) == Won(s)
  {
    var t := s.term + 1;
    assert s.count[t := 1][t := 2][t := 3] == s.count[t := 3];
  }

  lemma SameTest(s: Server, cand: Server, t: nat)
    requires Grants(s, cand) && t == cand.term + 1
    ensures RequestVote(s, VoteArgs(t, cand.me, LastLogical(cand), LastTerm(cand.log))) ==
            (Voted(s, t, cand.me), VoteReply(t, true))
  {}

  lemma Begins(rules: Rules) returns (c: Cluster)
    ensures Reaches(rules, 5, [], c) && c.N() == 5 && c.clock == 0 && c.handled == map[]
    ensures forall i: nat {:trigger c.servers[i]} :: i < 5 ==> c.servers[i] == Fresh(i, 5)
  {
    c := Init(5);
  }

  lemma FirstElection(rules: Rules) returns (trace: seq<Event>, c: Cluster)
    ensures Reaches(rules, 5, trace, c) && c.N() == 5 && c.clock == 7 && c.handled == map[]
    ensures c.servers[0] == Won(Fresh(0, 5)) && c.servers[1] == Voted(Fresh(1, 5), 1, 0) &&
            c.servers[2] == Voted(Fresh(2, 5), 1, 0)
    ensures c.servers[3] == Fresh(3, 5) && c.servers[4] == Fresh(4, 5)
  {
    hide IsRun, After, Reaches;
    c := Begins(rules);
    trace, c := Wins(rules, [], c, 0, 1, 2);
  }
}
