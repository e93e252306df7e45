/**
 What goes wrong in a cluster of three when a run is not restricted: raft.go does not look at the
 term a reply belongs to, and replaces the tail of a log by whatever an older request carries.
 */
module RaftExamples {
  import opened RaftLog
  import opened RaftServer
  import opened RaftCluster
  import opened RaftRuns

  // ---- a reply from an earlier election makes a second leader ----

  const ANY_TERM := Rules(false, true, true, true)

  /** Peers 0 and 2 stand in term 2; peer 1 has voted for 0 in term 1, and its reply is still under way. */
  ghost predicate BothStand(c: Cluster) {
    && c.servers == [StartElection(StartElection(Fresh(0, 3))), Fresh(1, 3).(term := 1, votedFor := 0),
        StartElection(StartElection(Fresh(2, 3)))]
    && c.clock == 13
    && Holds(c.net, 3, VoteAnswer(1, 0, 1, VoteReply(1, true)))
    && Holds(c.net, 11, VoteRequest(2, 1, VoteArgs(2, 2, 0, 0)))
  }

  lemma Votes(rules: Rules) returns (trace: seq<Event>, c: Cluster)
    ensures Reaches(rules, 3, trace, c) && c.clock == 4 && c.handled == map[] &&
            Holds(c.net, 3, VoteAnswer(1, 0, 1, VoteReply(1, true)))
    ensures c.servers == [StartElection(Fresh(0, 3)), Fresh(1, 3).(term := 1, votedFor := 0), Fresh(2, 3)]
  {
    trace, c := [], Init(3);
    assert Reaches(rules, 3, trace, c);
    hide IsRun, After, Reaches;
    c := Times(rules, 3, trace, c, 0, 1, 2);
    assert c.servers == [StartElection(Fresh(0, 3)), Fresh(1, 3), Fresh(2, 3)];
    c := DeliversVoteRequest(rules, 3, trace + [Timeout(0)], c, 1, 0, 1, VoteArgs(1, 0, 0, 0));
    trace := trace + [Timeout(0)] + [Deliver(1)];
  }

  lemma Standing() returns (trace: seq<Event>, c: Cluster)
    ensures Reaches(ANY_TERM, 3, trace, c) && BothStand(c)
  {
    hide IsRun, After, Reaches;
    trace, c := Votes(ANY_TERM);
    c := Times(ANY_TERM, 3, trace, c, 0, 1, 2);
    trace := trace + [Timeout(0)];
    c := Times(ANY_TERM, 3, trace, c, 2, 1, 0);
    trace := trace + [Timeout(2)];
    c := Times(ANY_TERM, 3, trace, c, 2, 1, 0);
    trace := trace + [Timeout(2)];
  }

  /** Without the hypothesis on replies, Election Safety fails. */
  lemma TwoLeaders() returns (trace: seq<Event>)
    ensures IsRun(ANY_TERM, 3, trace)
    ensures var c := After(ANY_TERM, 3, trace);
            c.N() == 3 && c.servers[0].role == c.servers[2].role == Leader && c.servers[0].term == c.servers[2].term
  {
    hide IsRun, After;
    var c;
    trace, c := Standing();
    var s := c.servers[0];
    assert s.role == Candidate && s.term == 2 && s.count == map[1 := 1, 2 := 1] && |s.nextIndex| == 3;
    var c1 := DeliversVoteRequest(ANY_TERM, 3, trace, c, 11, 2, 1, VoteArgs(2, 2, 0, 0));
    var c2 := DeliversVoteAnswer(ANY_TERM, 3, trace + [Deliver(11)], c1, 13, 1, 2, 2, VoteReply(2, true));
    assert c2.servers[2].role == Leader && c2.servers[2].term == 2 && c2.servers[0] == s;
    hide Fresh, StartElection, RequestVote;
    var c3 := DeliversVoteAnswer(ANY_TERM, 3, trace + [Deliver(11)] + [Deliver(13)], c2, 3, 1, 0, 1,
        VoteReply(1, true));
    trace := trace + [Deliver(11)] + [Deliver(13)] + [Deliver(3)];
  }

  // ---- an overtaken request takes back what was acknowledged ----

  const ANY_ORDER := Rules(true, true, true, false)

  const B := Command("b")
  const X := Command("x")
  const BEAT := AppendArgs(1, 0, 0, 0, [], 0)
  const WITH_B := AppendArgs(1, 0, 0, 0, [LogEntry(1, B)], 0)
  const WITH_X := AppendArgs(2, 1, 0, 0, [LogEntry(2, X)], 0)

  function Led(i: nat, term: nat, log: Log): Server {
    ConvertRole(StartElection(Fresh(i, 3).(term := term, log := log)).(count := map[term + 1 := 2]), Leader)
  }

  lemma Elects()
    ensures var s := StartElection(Fresh(0, 3));
            1 in s.count && s.term == 1 && HandleVoteReply(s, 1, VoteReply(1, true)) == Led(0, 0, [PLACEHOLDER])
  {
    assert StartElection(Fresh(0, 3)).count[1 := 2] == map[1 := 2];
  }

  /** What the leader owes peer 1 before and after it takes a command. */
  lemma Owes()
    ensures var s := Led(0, 0, [PLACEHOLDER]);
            && |s.nextIndex| == 3 && ToStorage(s, s.nextIndex[1]) <= |s.log| && s.role == Leader
            && GenAppend(s, 1) == Append(BEAT)
    ensures var s := Leads();
            && |s.nextIndex| == 3 && ToStorage(s, s.nextIndex[1]) <= |s.log| && s.role == Leader
            && GenAppend(s, 1) == Append(WITH_B)
  {
    assert [PLACEHOLDER, LogEntry(1, B)][1..] == [LogEntry(1, B)];
  }

  /** Peer 0 leads term 1; a heartbeat to peer 1 is under way, and after it a request with an entry. */
  lemma Leading() returns (trace: seq<Event>, c: Cluster)
    ensures Reaches(ANY_ORDER, 3, trace, c) && c.clock == 6 && Holds(c.net, 4, AppendRequest(0, 1, BEAT)) &&
            Holds(c.net, 5, AppendRequest(0, 1, WITH_B))
    ensures c.servers == [Leads(), Voter(), Fresh(2, 3)]
  {
    hide IsRun, After, Reaches, HandleVoteReply, GenAppend, Fresh, Led, Start, StartElection;
    trace, c := Votes(ANY_ORDER);
    Elects();
    Owes();
    c := DeliversVoteAnswer(ANY_ORDER, 3, trace, c, 3, 1, 0, 1, VoteReply(1, true));
    trace := trace + [Deliver(3)];
    c := Sends(ANY_ORDER, 3, trace, c, 0, 1, BEAT);
    trace := trace + [Send(0, 1)];
    c := Submits(ANY_ORDER, 3, trace, c, 0, B);
    trace := trace + [Submit(0, B)];
    c := Sends(ANY_ORDER, 3, trace, c, 0, 1, WITH_B);
    trace := trace + [Send(0, 1)];
  }

  /** Peer 0 has committed entry 1, and then the heartbeat has removed it from the log of peer 1. */
  ghost predicate TakenBack(c: Cluster) {
    && c.N() == 3 && c.clock == 8
    && c.servers[0].commit == 1 && c.servers[0].log == [PLACEHOLDER, LogEntry(1, B)]
    && c.servers[1] == Fresh(1, 3).(term := 1, votedFor := 0) && c.servers[2] == Fresh(2, 3)
  }

  /** Peer 1 after it has voted, and peer 0 after it has taken a command. */
  function Voter(): Server {
    Fresh(1, 3).(term := 1, votedFor := 0)
  }

  function WithB(s: Server): Server {
    s.(log := [PLACEHOLDER, LogEntry(1, B)])
  }

  function Leads(): Server {
    Start(Led(0, 0, [PLACEHOLDER]), B)
  }

  /** Peer 0 has committed entry 1, and the heartbeat is still under way. */
  lemma Committing() returns (trace: seq<Event>, c: Cluster)
    ensures Reaches(ANY_ORDER, 3, trace, c) && c.N() == 3 && c.clock == 7 && Holds(c.net, 4, AppendRequest(0, 1, BEAT))
    ensures c.servers[0].commit == 1 && c.servers[0].log == [PLACEHOLDER, LogEntry(1, B)]
    ensures c.servers[1] == WithB(Voter()) && c.servers[2] == Fresh(2, 3)
  {
    hide IsRun, After, Reaches, HandleAppendReply, AppendEntries, Leads, Voter, WithB, Fresh, Led, Start;
    trace, c := Leading();
    TakesB();
    c := DeliversAppend(ANY_ORDER, 3, trace, c, 5, 0, 1, WITH_B);
    trace := trace + [Deliver(5)];
    FirstCommit();
    c := DeliversAppendAnswer(ANY_ORDER, 3, trace, c, 6, 1, 0, WITH_B, AppendReply(1, true, 0, 0));
    trace := trace + [Deliver(6)];
  }

  lemma TakesB()
    ensures var s := Voter();
            && s.log != [] && ToStorage(s, 0) >= -1
            && AppendEntries(s, WITH_B) == (WithB(s), AppendReply(1, true, 0, 0))
  {
    hide AppendEntries;
    TakesOne(Voter(), WITH_B, LogEntry(1, B));
  }

  /** What the overtaken heartbeat makes of a log with an entry. */
  lemma TakesBack()
    ensures var s := WithB(Voter());
            s.log != [] && ToStorage(s, 0) >= -1 && s.term == 1 && AppendEntries(s, BEAT).0 == Voter()
  {
    hide AppendEntries;
    var s := WithB(Voter());
    TakesAll(s, BEAT);
    assert s.log[..1] + [] == [PLACEHOLDER];
  }

  lemma TakingBack() returns (trace: seq<Event>, c: Cluster)
    ensures Reaches(ANY_ORDER, 3, trace, c) && TakenBack(c)
  {
    TakesBack();
    hide IsRun, After, Reaches, AppendEntries, WithB, Fresh;
    trace, c := Committing();
    c := DeliversAppend(ANY_ORDER, 3, trace, c, 4, 0, 1, BEAT);
    trace := trace + [Deliver(4)];
  }

  lemma FirstCommit()
    ensures var s := Leads();
            && s.role == Leader && s.term == 1 && s.commit == 0 && s.lastIncludedIndex == 0
            && |s.nextIndex| == |s.matchIndex| == 3 && s.nextIndex[1] <= |s.log|
            && var r := HandleAppendReply(s, 1, WITH_B, AppendReply(1, true, 0, 0));
               r.commit == 1 && r.log == s.log == [PLACEHOLDER, LogEntry(1, B)]
  {
    var s := Start(Led(0, 0, [PLACEHOLDER]), B);
    var s1 := s.(nextIndex := s.nextIndex[1 := 2], matchIndex := s.matchIndex[1 := 1]);
    assert s1.matchIndex == [-1, 1, -1];
    MatchedByOne(s1);
  }

  lemma MatchedByOne(s: Server)
    requires s.me == 0 && s.matchIndex == [-1, 1, -1]
    ensures Matched(s, 1, 3) == 1
  {
    assert Matched(s, 1, 1) == 0;
    assert Matched(s, 1, 2) == 1;
  }

  lemma Deposing() returns (trace: seq<Event>, c: Cluster)
    ensures Reaches(ANY_ORDER, 3, trace, c) && c.N() == 3 && c.clock == 12
    ensures c.servers[0].commit == 1 && c.servers[0].log == [PLACEHOLDER, LogEntry(1, B)]
    ensures c.servers[1] == Led(1, 1, [PLACEHOLDER]) && c.servers[2] == Fresh(2, 3).(term := 2, votedFor := 1)
  {
    hide IsRun, After, Reaches;
    trace, c := TakingBack();
    c := Times(ANY_ORDER, 3, trace, c, 1, 2, 0);
    trace := trace + [Timeout(1)];
    c := DeliversVoteRequest(ANY_ORDER, 3, trace, c, 10, 1, 2, VoteArgs(2, 1, 0, 0));
    trace := trace + [Deliver(10)];
    c := DeliversVoteAnswer(ANY_ORDER, 3, trace, c, 11, 2, 1, 2, VoteReply(2, true));
    trace := trace + [Deliver(11)];
  }

  /** Without the hypothesis on the order of requests, State Machine Safety fails. */
  lemma TwoEntriesCommitted() returns (trace: seq<Event>)
    ensures IsRun(ANY_ORDER, 3, trace)
    ensures var c := After(ANY_ORDER, 3, trace);
            && c.N() == 3 && c.servers[0].commit == c.servers[1].commit == 1
            && |c.servers[0].log| == |c.servers[1].log| == 2 && c.servers[0].log[1] != c.servers[1].log[1]
  {
    var c;
    trace, c := Deposing();
    var old0 := c.servers[0];
    assert Reaches(ANY_ORDER, 3, trace, c);
    trace, c := Overwriting(trace, c);
    assert c.servers[0] == old0;
  }

  lemma Overwriting(before: seq<Event>, b: Cluster) returns (trace: seq<Event>, c: Cluster)
    requires Reaches(ANY_ORDER, 3, before, b) && b.N() == 3 && b.clock == 12
    requires b.servers[1] == Led(1, 1, [PLACEHOLDER]) && b.servers[2] == Fresh(2, 3).(term := 2, votedFor := 1)
    ensures Reaches(ANY_ORDER, 3, trace, c) && c.N() == 3 && c.servers[0] == b.servers[0]
    ensures c.servers[1].commit == 1 && c.servers[1].log == [PLACEHOLDER, LogEntry(2, X)]
  {
    SecondCommit();
    var s := Fresh(2, 3).(term := 2, votedFor := 1);
    assert s.log == [PLACEHOLDER] && s.lastIncludedIndex == 0 && s.role == Follower && s.commit == 0;
    TakesOne(s, WITH_X, LogEntry(2, X));
    hide IsRun, After, Reaches, AppendEntries, HandleAppendReply, GenAppend, Start, Led, Fresh;
    trace, c := before, b;
    c := Submits(ANY_ORDER, 3, trace, c, 1, X);
    trace := trace + [Submit(1, X)];
    c := Sends(ANY_ORDER, 3, trace, c, 1, 2, WITH_X);
    trace := trace + [Send(1, 2)];
    c := DeliversAppend(ANY_ORDER, 3, trace, c, 12, 1, 2, WITH_X);
    trace := trace + [Deliver(12)];
    c := DeliversAppendAnswer(ANY_ORDER, 3, trace, c, 13, 2, 1, WITH_X, AppendReply(2, true, 0, 0));
    trace := trace + [Deliver(13)];
  }

  lemma SecondCommit()
    ensures var s := Start(Led(1, 1, [PLACEHOLDER]), X);
            && s.role == Leader && s.term == 2 && s.lastIncludedIndex == 0 && s.log == [PLACEHOLDER, LogEntry(2, X)]
            && |s.nextIndex| == |s.matchIndex| == 3 && s.nextIndex[2] <= |s.log| && s.commit == 0
            && GenAppend(s, 2) == Append(WITH_X)
            && var r := HandleAppendReply(s, 2, WITH_X, AppendReply(2, true, 0, 0));
               r.commit == 1 && r.log == s.log
  {
    var s := Start(Led(1, 1, [PLACEHOLDER]), X);
    var s1 := s.(nextIndex := s.nextIndex[2 := 2], matchIndex := s.matchIndex[2 := 1]);
    assert s1.matchIndex == [-1, -1, 1];
    assert Matched(s1, 1, 2) == 0;
    assert Matched(s1, 1, 3) == 1;
  }
}
