/**
 Concrete runs of a cluster, one event at a time: what each kind of event does to the peers and
 to the messages under way.
 */
module RaftRuns {
  import opened RaftLog
  import opened RaftServer
  import opened RaftCluster

  ghost predicate Reaches(rules: Rules, n: nat, trace: seq<Event>, c: Cluster) {
    IsRun(rules, n, trace) && After(rules, n, trace) == c
  }

  ghost predicate Holds(net: map<nat, Message>, id: nat, m: Message) {
    id in net && net[id] == m
  }

  /** Of the messages before `c.clock`, only `id` may be gone. */
  ghost predicate Others(c: Cluster, d: Cluster, id: int) {
    forall x: nat, m {:trigger Holds(c.net, x, m)} :: Holds(c.net, x, m) && x < c.clock && x != id ==>
        Holds(d.net, x, m)
  }

  lemma Next(rules: Rules, n: nat, trace: seq<Event>, c: Cluster, ev: Event)
    requires Reaches(rules, n, trace, c) && Enabled(rules, c, ev) && NoPanic(c, ev)
    ensures Reaches(rules, n, trace + [ev], Apply(c, ev))
  {
    assert (trace + [ev])[..|trace|] == trace;
  }

  /** The requests to peers `j` and `k` are among those sent. */
  lemma Times(rules: Rules, n: nat, trace: seq<Event>, c: Cluster, i: nat, j: nat, k: nat) returns (d: Cluster)
    requires Reaches(rules, n, trace, c) && i < c.N() && c.servers[i].log != [] && j < c.N() && j != i && k < c.N() &&
             k != i
    ensures Reaches(rules, n, trace + [Timeout(i)], d) && Others(c, d, -1) && d.clock == c.clock + c.N() &&
            d.handled == c.handled
    ensures d.servers == c.servers[i := StartElection(c.servers[i])]
    ensures Holds(d.net, c.clock + j, VoteRequest(i, j, VoteArgsOf(d.servers[i])))
    ensures Holds(d.net, c.clock + k, VoteRequest(i, k, VoteArgsOf(d.servers[i])))
  {
    hide IsRun, After;
    Next(rules, n, trace, c, Timeout(i));
    d := Apply(c, Timeout(i));
    assert c.clock + j in Numbers(c.clock, c.N()) && c.clock + k in Numbers(c.clock, c.N());
  }

  lemma Submits(rules: Rules, n: nat, trace: seq<Event>, c: Cluster, i: nat, command: Command) returns (d: Cluster)
    requires Reaches(rules, n, trace, c) && i < c.N()
    ensures Reaches(rules, n, trace + [Submit(i, command)], d) &&
            d == c.(servers := c.servers[i := Start(c.servers[i], command)])
  {
    hide IsRun, After;
    Next(rules, n, trace, c, Submit(i, command));
    d := Apply(c, Submit(i, command));
  }

  lemma Sends(rules: Rules, n: nat, trace: seq<Event>, c: Cluster, i: nat, to: nat, a: AppendArgs) returns (d: Cluster)
    requires Reaches(rules, n, trace, c) && i < c.N() && to < c.N() && i != to && c.servers[i].role == Leader &&
             NoPanic(c, Send(i, to))
    requires GenAppend(c.servers[i], to) == Append(a)
    ensures Reaches(rules, n, trace + [Send(i, to)], d) && Others(c, d, -1) && d.clock == c.clock + 1 &&
            d.handled == c.handled
    ensures d.servers == c.servers && Holds(d.net, c.clock, AppendRequest(i, to, a))
  {
    hide IsRun, After;
    Next(rules, n, trace, c, Send(i, to));
    d := Apply(c, Send(i, to));
  }

  lemma DeliversVoteRequest(rules: Rules, n: nat, trace: seq<Event>, c: Cluster, id: nat, from: nat, to: nat,
      a: VoteArgs) returns (d: Cluster)
    requires Reaches(rules, n, trace, c) && Holds(c.net, id, VoteRequest(from, to, a)) && from < c.N() && to < c.N() &&
             c.servers[to].log != []
    ensures Reaches(rules, n, trace + [Deliver(id)], d) && Others(c, d, id) && d.clock == c.clock + 1 &&
            d.handled == c.handled
    ensures var r := RequestVote(c.servers[to], a);
            d.servers == c.servers[to := r.0] && Holds(d.net, c.clock, VoteAnswer(to, from, a.term, r.1))
  {
    hide IsRun, After, RequestVote;
    Next(rules, n, trace, c, Deliver(id));
    d := Apply(c, Deliver(id));
  }

  lemma DeliversVoteAnswer(rules: Rules, n: nat, trace: seq<Event>, c: Cluster, id: nat, from: nat, to: nat, t: nat,
      r: VoteReply) returns (d: Cluster)
    requires Reaches(rules, n, trace, c) && Holds(c.net, id, VoteAnswer(from, to, t, r)) &&
             Enabled(rules, c, Deliver(id)) && t in c.servers[to].count
    ensures Reaches(rules, n, trace + [Deliver(id)], d) && Others(c, d, id) && d.clock == c.clock &&
            d.handled == c.handled
    ensures d.servers == c.servers[to := HandleVoteReply(c.servers[to], t, r)]
  {
    hide IsRun, After, HandleVoteReply;
    Next(rules, n, trace, c, Deliver(id));
    d := Apply(c, Deliver(id));
  }

  lemma DeliversAppend(rules: Rules, n: nat, trace: seq<Event>, c: Cluster, id: nat, from: nat, to: nat, a: AppendArgs)
      returns (d: Cluster)
    requires Reaches(rules, n, trace, c) && Holds(c.net, id, AppendRequest(from, to, a)) &&
             Enabled(rules, c, Deliver(id)) && NoPanic(c, Deliver(id))
    ensures Reaches(rules, n, trace + [Deliver(id)], d) && Others(c, d, id) && d.clock == c.clock + 1
    ensures d.handled == Latest(c.handled, (from, to), id)
    ensures var r := AppendEntries(c.servers[to], a);
            d.servers == c.servers[to := r.0] && Holds(d.net, c.clock, AppendAnswer(to, from, a, r.1))
  {
    hide IsRun, After, AppendEntries;
    Next(rules, n, trace, c, Deliver(id));
    d := Apply(c, Deliver(id));
  }

  lemma DeliversAppendAnswer(rules: Rules, n: nat, trace: seq<Event>, c: Cluster, id: nat, from: nat, to: nat,
      a: AppendArgs, r: AppendReply)
    returns (d: Cluster)
    requires Reaches(rules, n, trace, c) && Holds(c.net, id, AppendAnswer(from, to, a, r)) &&
             Enabled(rules, c, Deliver(id)) && NoPanic(c, Deliver(id))
    ensures Reaches(rules, n, trace + [Deliver(id)], d) && Others(c, d, id) && d.clock == c.clock &&
            d.handled == c.handled
    ensures d.servers == c.servers[to := HandleAppendReply(c.servers[to], from, a, r)]
  {
    hide IsRun, After, HandleAppendReply;
    Next(rules, n, trace, c, Deliver(id));
    d := Apply(c, Deliver(id));
  }

  /** A request from the start of the log is taken by any peer not past its term. */
  lemma TakesAll(s: Server, a: AppendArgs)
    requires s.log != [] && s.lastIncludedIndex == 0 && a.prev == 0 && a.term >= s.term && a.leaderCommit <= s.commit
    ensures var s1 := if a.term > s.term then StepDown(s, a.term) else ConvertRole(s, Follower);
            AppendEntries(s, a) == (s1.(log := s.log[..1] + a.entries), AppendReply(a.term, true, 0, 0))
  {}

  /** A follower without entries takes one in its own term. */
  lemma TakesOne(s: Server, a: AppendArgs, e: LogEntry)
    requires s.log == [PLACEHOLDER] && s.lastIncludedIndex == 0 && s.role == Follower && a.leaderCommit <= s.commit
    requires a.prev == 0 && a.term == s.term && a.entries == [e]
    ensures AppendEntries(s, a) == (s.(log := [PLACEHOLDER, e]), AppendReply(a.term, true, 0, 0))
  {
    TakesAll(s, a);
    hide AppendEntries;
    OneEntry(s.log, e);
  }

  lemma OneEntry(l: Log, e: LogEntry)
    requires l == [PLACEHOLDER]
    ensures l[..1] + [e] == [PLACEHOLDER, e]
  {}
}
