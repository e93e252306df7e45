/**
 What goes wrong when a leader believes an acknowledgement from its earlier reign: in a cluster of
 five it counts an entry for committed that two peers hold, and a leader without it is elected.
 */
module RaftStaleAck {
  import opened RaftLog
  import opened RaftServer
  import opened RaftCluster
  import opened RaftRuns
  import opened RaftFive

  const ANY_ACK := Rules(true, true, false, true)

  const B := Command("b")
  const X := Command("x")
  const WITH_B := AppendArgs(1, 0, 0, 0, [LogEntry(1, B)], 0)
  const BEAT := AppendArgs(2, 2, 0, 0, [], 0)
  const WITH_X := AppendArgs(3, 0, 0, 0, [LogEntry(3, X)], 0)
  const DONE := AppendReply(1, true, 0, 0)
  const DONE_X := AppendReply(3, true, 0, 0)

  /** Peer 1 after it has voted for peer 0 and taken its entry. */
  function HasB(): Server {
    Voted(Fresh(1, 5), 1, 0).(log := [PLACEHOLDER, LogEntry(1, B)])
  }

  /** Peer 0 leads term 1; peer 1 has taken its entry, and the reply is under way. */
  ghost predicate First(c: Cluster) {
    && c.N() == 5 && c.clock == 9 && c.handled == map[(0, 1) := 7] && Holds(c.net, 8, AppendAnswer(1, 0, WITH_B, DONE))
    && c.servers[0] == Start(Won(Fresh(0, 5)), B)
    && c.servers[1] == HasB()
    && c.servers[2] == Voted(Fresh(2, 5), 1, 0) && c.servers[3] == Fresh(3, 5) && c.servers[4] == Fresh(4, 5)
  }

  lemma OwesB()
    ensures var s := Start(Won(Fresh(0, 5)), B);
            && |s.nextIndex| == 5 && ToStorage(s, s.nextIndex[1]) <= |s.log| && s.role == Leader
            && GenAppend(s, 1) == Append(WITH_B)
  {
    assert [PLACEHOLDER, LogEntry(1, B)][1..] == [LogEntry(1, B)];
  }

  lemma TakesB()
    ensures var s := Voted(Fresh(1, 5), 1, 0);
            && s.log != [] && ToStorage(s, 0) >= -1
            && AppendEntries(s, WITH_B) == (HasB(), DONE)
  {
    VoterFacts(1);
    hide AppendEntries, Fresh, Voted;
    TakesOne(Voted(Fresh(1, 5), 1, 0), WITH_B, LogEntry(1, B));
  }

  lemma FirstReign() returns (trace: seq<Event>, c: Cluster)
    ensures Reaches(ANY_ACK, 5, trace, c) && First(c)
  {
    hide IsRun, After, Reaches, Won, Voted, Fresh, Start, AppendEntries, GenAppend;
    trace, c := FirstElection(ANY_ACK);
    OwesB();
    TakesB();
    c := Submits(ANY_ACK, 5, trace, c, 0, B);
    trace := trace + [Submit(0, B)];
    c := Sends(ANY_ACK, 5, trace, c, 0, 1, WITH_B);
    trace := trace + [Send(0, 1)];
    c := DeliversAppend(ANY_ACK, 5, trace, c, 7, 0, 1, WITH_B);
    trace := trace + [Deliver(7)];
  }

  /** Peer 0 when it leads term 3, after peer 2 has made its log empty in term 2. */
  function LeadsAgain(): Server {
    Won(StepDown(Start(Won(Fresh(0, 5)), B), 2).(log := [PLACEHOLDER]))
  }

  /** Peer 2 has led term 2 and has made the log of peer 0 empty; peer 0 leads again, term 3. */
  ghost predicate Second(c: Cluster) {
    && c.N() == 5 && c.clock == 25 && c.handled == map[(0, 1) := 7, (2, 0) := 16] &&
        Holds(c.net, 8, AppendAnswer(1, 0, WITH_B, DONE))
    && c.servers[0] == LeadsAgain()
    && c.servers[1] == HasB()
    && c.servers[2] == Won(Voted(Fresh(2, 5), 1, 0))
    && c.servers[3] == Voted(Fresh(3, 5), 3, 0) && c.servers[4] == Voted(Fresh(4, 5), 3, 0)
  }

  lemma SecondReign() returns (trace: seq<Event>, c: Cluster)
    ensures Reaches(ANY_ACK, 5, trace, c) && Second(c)
  {
    hide IsRun, After, Reaches;
    trace, c := FirstReign();
    trace, c := Wins(ANY_ACK, trace, c, 2, 3, 4);
    c := Sends(ANY_ACK, 5, trace, c, 2, 0, BEAT);
    trace := trace + [Send(2, 0)];
    c := DeliversAppend(ANY_ACK, 5, trace, c, 16, 2, 0, BEAT);
    trace := trace + [Deliver(16)];
    trace, c := Wins(ANY_ACK, trace, c, 0, 3, 4);
  }

  /** Peer 0 has committed its new entry, which peer 3 holds besides; peer 1 was counted for the old one. */
  ghost predicate Miscounted(c: Cluster) {
    && c.N() == 5 && c.servers[0].commit == 1 && c.servers[0].term == 3 &&
        c.servers[0].log == [PLACEHOLDER, LogEntry(3, X)]
    && c.servers[1] == HasB()
    && c.servers[2] == Won(Voted(Fresh(2, 5), 1, 0)) && c.servers[4] == Voted(Fresh(4, 5), 3, 0)
  }

  /** The leader of term 3 before and after the two replies. */
  lemma Counts(s: Server)
    requires s == Start(LeadsAgain(), X)
    ensures var s1 := HandleAppendReply(s, 1, WITH_B, DONE);
            && s1.commit == 0 && s1.log == s.log && s1.role == Leader && s1.term == 3 &&
                |s1.nextIndex| == |s1.matchIndex| == 5
            && s1.nextIndex[3] == 1 && s1.lastIncludedIndex == 0 && s1.me == 0 &&
                s1.log == [PLACEHOLDER, LogEntry(3, X)]
            && GenAppend(s1, 3) == Append(WITH_X)
            && var s2 := HandleAppendReply(s1, 3, WITH_X, DONE_X); s2.commit == 1 && s2.log == s.log && s2.term == 3
  {
    LedAgain(s);
    hide LeadsAgain, Start, Matched;
    var m := s.(nextIndex := s.nextIndex[1 := 2], matchIndex := s.matchIndex[1 := 1]);
    assert m.matchIndex == [-1, 1, -1, -1, -1];
    CountsOne(m);
    var k := m.(nextIndex := m.nextIndex[3 := 2], matchIndex := m.matchIndex[3 := 1]);
    assert k.matchIndex == [-1, 1, -1, 1, -1];
    CountsTwo(k);
  }

  lemma LedAgain(s: Server)
    requires s == Start(LeadsAgain(), X)
    ensures s.log == [PLACEHOLDER, LogEntry(3, X)] && s.term == 3 && s.role == Leader && s.me == 0 && s.commit == 0
    ensures s.lastIncludedIndex == 0 && s.nextIndex == [1, 1, 1, 1, 1] && s.matchIndex == [-1, -1, -1, -1, -1]
  {}

  lemma CountsOne(s: Server)
    requires s.me == 0 && s.matchIndex == [-1, 1, -1, -1, -1]
    ensures Matched(s, 1, 5) == 1
  {
    assert Matched(s, 1, 2) == 1 && Matched(s, 1, 3) == 1;
  }

  lemma CountsTwo(s: Server)
    requires s.me == 0 && s.matchIndex == [-1, 1, -1, 1, -1]
    ensures Matched(s, 1, 5) == 2
  {
    assert Matched(s, 1, 2) == 1 && Matched(s, 1, 3) == 1;
  }

  /** Peer 0 has counted peer 1 for the old entry. */
  ghost predicate Believes(c: Cluster) {
    && c.N() == 5 && c.clock == 25 && c.handled == map[(0, 1) := 7, (2, 0) := 16]
    && c.servers[0] == HandleAppendReply(Start(LeadsAgain(), X), 1, WITH_B, DONE)
    && c.servers[1] == HasB()
    && c.servers[2] == Won(Voted(Fresh(2, 5), 1, 0))
    && c.servers[3] == Voted(Fresh(3, 5), 3, 0) && c.servers[4] == Voted(Fresh(4, 5), 3, 0)
  }

  lemma Believing() returns (trace: seq<Event>, c: Cluster)
    ensures LeadsAgain().nextIndex == [1, 1, 1, 1, 1] && LeadsAgain().matchIndex == [-1, -1, -1, -1, -1]
    ensures Reaches(ANY_ACK, 5, trace, c) && Believes(c)
  {
    hide IsRun, After, Reaches, HandleAppendReply;
    trace, c := SecondReign();
    c := Submits(ANY_ACK, 5, trace, c, 0, X);
    trace := trace + [Submit(0, X)];
    c := DeliversAppendAnswer(ANY_ACK, 5, trace, c, 8, 1, 0, WITH_B, DONE);
    trace := trace + [Deliver(8)];
  }

  lemma TakesX()
    ensures var s := Voted(Fresh(3, 5), 3, 0);
            s.log != [] && ToStorage(s, 0) >= -1 && AppendEntries(s, WITH_X).1 == DONE_X
  {}

  lemma Miscounting() returns (trace: seq<Event>, c: Cluster)
    ensures Reaches(ANY_ACK, 5, trace, c) && Miscounted(c)
  {
    hide IsRun, After, Reaches, HandleAppendReply, LeadsAgain, Won, AppendEntries, GenAppend, Fresh;
    trace, c := Believing();
    Counts(Start(LeadsAgain(), X));
    TakesX();
    c := Sends(ANY_ACK, 5, trace, c, 0, 3, WITH_X);
    trace := trace + [Send(0, 3)];
    c := DeliversAppend(ANY_ACK, 5, trace, c, 25, 0, 3, WITH_X);
    trace := trace + [Deliver(25)];
    c := DeliversAppendAnswer(ANY_ACK, 5, trace, c, 26, 3, 0, WITH_X, DONE_X);
    trace := trace + [Deliver(26)];
  }

  /** Without the hypothesis on acknowledgements, Leader Completeness fails: a later leader lacks a committed entry. */
  lemma CommittedEntryLost() returns (trace: seq<Event>)
    ensures IsRun(ANY_ACK, 5, trace)
    ensures var c := After(ANY_ACK, 5, trace);
            && c.N() == 5 && c.servers[0].commit == 1 && c.servers[1].role == Leader &&
                c.servers[1].term > c.servers[0].term
            && |c.servers[0].log| == |c.servers[1].log| == 2 && c.servers[0].log[1] != c.servers[1].log[1]
  {
    var c;
    trace, c := Miscounting();
    trace, c := Deposing(trace, c);
  }

  lemma Deposing(before: seq<Event>, b: Cluster) returns (trace: seq<Event>, c: Cluster)
    requires Reaches(ANY_ACK, 5, before, b) && Miscounted(b)
    ensures Reaches(ANY_ACK, 5, trace, c) && c.N() == 5 && c.servers[0] == b.servers[0]
    ensures c.servers[1].role == Leader && c.servers[1].term == 4 && c.servers[1].log == [PLACEHOLDER, LogEntry(1, B)]
  {
    hide IsRun, After, Reaches;
    trace, c := before, b;
    c := Times(ANY_ACK, 5, trace, c, 1, 2, 4);
    trace := trace + [Timeout(1)];
    c := Times(ANY_ACK, 5, trace, c, 1, 2, 4);
    trace := trace + [Timeout(1)];
    trace, c := Wins(ANY_ACK, trace, c, 1, 2, 4);
  }
}
