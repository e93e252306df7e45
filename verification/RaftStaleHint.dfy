/**
 What goes wrong when a leader believes a rejection from its earlier reign: in a cluster of five its
 log has become shorter since, and the hint leads past the end, where the next request is generated.
 */
module RaftStaleHint {
  import opened RaftLog
  import opened RaftServer
  import opened RaftCluster
  import opened RaftRuns
  import opened RaftFive

  const ANY_HINT := Rules(true, false, true, true)

  const B := Command("b")
  const E := LogEntry(1, B)
  const TWO := AppendArgs(1, 0, 0, 0, [E, E], 0)
  const NEXT := AppendArgs(2, 0, 3, 1, [], 0)
  const BEAT := AppendArgs(3, 3, 0, 0, [], 0)
  const TOO_SHORT := AppendReply(2, false, 2, 0)

  function WithLog(s: Server, log: Log): Server {
    s.(log := log)
  }

  /** Peer 0 leads term 1 and has three entries; peer 1 has two of them. */
  ghost predicate First(c: Cluster) {
    && c.N() == 5 && c.clock == 9 && c.handled == map[(0, 1) := 7]
    && c.servers[0] == WithLog(Won(Fresh(0, 5)), [PLACEHOLDER, E, E, E])
    && c.servers[1] == WithLog(Voted(Fresh(1, 5), 1, 0), [PLACEHOLDER, E, E])
    && c.servers[2] == Voted(Fresh(2, 5), 1, 0) && c.servers[3] == Fresh(3, 5) && c.servers[4] == Fresh(4, 5)
  }

  lemma Fills() returns (trace: seq<Event>, c: Cluster)
    ensures Reaches(ANY_HINT, 5, trace, c) && c.N() == 5 && c.clock == 7 && c.handled == map[]
    ensures c.servers[0] == WithLog(Won(Fresh(0, 5)), [PLACEHOLDER, E, E])
    ensures c.servers[1] == Voted(Fresh(1, 5), 1, 0) && c.servers[2] == Voted(Fresh(2, 5), 1, 0)
    ensures c.servers[3] == Fresh(3, 5) && c.servers[4] == Fresh(4, 5)
  {
    hide IsRun, After, Reaches;
    trace, c := FirstElection(ANY_HINT);
    c := Submits(ANY_HINT, 5, trace, c, 0, B);
    trace := trace + [Submit(0, B)];
    c := Submits(ANY_HINT, 5, trace, c, 0, B);
    trace := trace + [Submit(0, B)];
  }

  lemma Generates()
    ensures var s := WithLog(Won(Fresh(0, 5)), [PLACEHOLDER, E, E]);
            && s.log != [] && |s.nextIndex| == 5 && ToStorage(s, s.nextIndex[1]) <= |s.log| && s.role == Leader
            && GenAppend(s, 1) == Append(TWO)
  {
    assert [PLACEHOLDER, E, E][1..] == [E, E];
  }

  lemma Takes()
    ensures var s := Voted(Fresh(1, 5), 1, 0);
            && s.log != [] && ToStorage(s, 0) >= -1
            && AppendEntries(s, TWO).0 == WithLog(s, [PLACEHOLDER, E, E])
  {
    var s := Voted(Fresh(1, 5), 1, 0);
    VoterFacts(1);
    hide AppendEntries, Fresh, Voted;
    TakesAll(s, TWO);
    assert s.log[..1] + TWO.entries == [PLACEHOLDER, E, E];
  }

  lemma FirstReign() returns (trace: seq<Event>, c: Cluster)
    ensures Reaches(ANY_HINT, 5, trace, c) && First(c)
  {
    hide IsRun, After, Reaches, Won, AppendEntries, GenAppend, WithLog, Voted, Fresh, Start;
    trace, c := Fills();
    Generates();
    Takes();
    c := Sends(ANY_HINT, 5, trace, c, 0, 1, TWO);
    trace := trace + [Send(0, 1)];
    c := DeliversAppend(ANY_HINT, 5, trace, c, 7, 0, 1, TWO);
    trace := trace + [Deliver(7)];
    c := Submits(ANY_HINT, 5, trace, c, 0, B);
    trace := trace + [Submit(0, B)];
    StartsThird();
  }

  lemma StartsThird()
    ensures Start(WithLog(Won(Fresh(0, 5)), [PLACEHOLDER, E, E]), B) ==
            WithLog(Won(Fresh(0, 5)), [PLACEHOLDER, E, E, E])
  {}

  /** Peer 0, elected again in term 2. */
  function LeadsAgain(): Server {
    Won(WithLog(Won(Fresh(0, 5)), [PLACEHOLDER, E, E, E]))
  }

  /** Peer 1 has rejected its request, and the rejection is under way. */
  ghost predicate Second(c: Cluster) {
    && c.N() == 5 && c.clock == 18 && c.handled == map[(0, 1) := 16]
    && Holds(c.net, 17, AppendAnswer(1, 0, NEXT, TOO_SHORT)) && c.servers[0] == LeadsAgain()
    && c.servers[2] == Voted(Voted(Fresh(2, 5), 1, 0), 2, 0) && c.servers[3] == Voted(Fresh(3, 5), 2, 0)
    && c.servers[4] == Fresh(4, 5)
  }

  lemma GeneratesNext()
    ensures var s := LeadsAgain();
            && s.log != [] && |s.nextIndex| == 5 && ToStorage(s, s.nextIndex[1]) <= |s.log| && s.role == Leader
            && GenAppend(s, 1) == Append(NEXT)
  {
    assert [PLACEHOLDER, E, E, E][4..] == [];
  }

  lemma Rejects()
    ensures var s := WithLog(Voted(Fresh(1, 5), 1, 0), [PLACEHOLDER, E, E]);
            s.log != [] && ToStorage(s, 3) >= -1 && AppendEntries(s, NEXT).1 == TOO_SHORT
  {}

  lemma SecondElection() returns (trace: seq<Event>, c: Cluster)
    ensures Reaches(ANY_HINT, 5, trace, c) && c.N() == 5 && c.clock == 16 && c.handled == map[(0, 1) := 7]
    ensures c.servers[0] == LeadsAgain() && c.servers[1] == WithLog(Voted(Fresh(1, 5), 1, 0), [PLACEHOLDER, E, E])
    ensures c.servers[2] == Voted(Voted(Fresh(2, 5), 1, 0), 2, 0) && c.servers[3] == Voted(Fresh(3, 5), 2, 0)
    ensures c.servers[4] == Fresh(4, 5)
  {
    hide IsRun, After, Reaches;
    trace, c := FirstReign();
    trace, c := Wins(ANY_HINT, trace, c, 0, 2, 3);
  }

  lemma SecondReign() returns (trace: seq<Event>, c: Cluster)
    ensures Reaches(ANY_HINT, 5, trace, c) && Second(c)
  {
    hide IsRun, After, Reaches, Won, AppendEntries, GenAppend, LeadsAgain, WithLog, Voted, Fresh;
    trace, c := SecondElection();
    GeneratesNext();
    Rejects();
    c := Sends(ANY_HINT, 5, trace, c, 0, 1, NEXT);
    trace := trace + [Send(0, 1)];
    c := DeliversAppend(ANY_HINT, 5, trace, c, 16, 0, 1, NEXT);
    trace := trace + [Deliver(16)];
  }

  /** Peer 3 leads term 3, with an empty log. */
  ghost predicate Third(c: Cluster) {
    && c.N() == 5 && c.clock == 25 && c.handled == map[(0, 1) := 16]
    && Holds(c.net, 17, AppendAnswer(1, 0, NEXT, TOO_SHORT)) && c.servers[0] == LeadsAgain()
    && c.servers[2] == Voted(Voted(Voted(Fresh(2, 5), 1, 0), 2, 0), 3, 3)
    && c.servers[3] == Won(Voted(Fresh(3, 5), 2, 0)) && c.servers[4] == Voted(Fresh(4, 5), 3, 3)
  }

  lemma ThirdElection() returns (trace: seq<Event>, c: Cluster)
    ensures Reaches(ANY_HINT, 5, trace, c) && Third(c)
  {
    hide IsRun, After, Reaches, LeadsAgain;
    trace, c := SecondReign();
    trace, c := Wins(ANY_HINT, trace, c, 3, 2, 4);
  }

  /** It makes the log of peer 0 empty. */
  function Emptied(): Server {
    StepDown(LeadsAgain(), 3).(log := [PLACEHOLDER])
  }

  lemma Beats()
    ensures var s := Won(Voted(Fresh(3, 5), 2, 0));
            && s.log != [] && |s.nextIndex| == 5 && ToStorage(s, s.nextIndex[0]) <= |s.log| && s.role == Leader
            && GenAppend(s, 0) == Append(BEAT)
  {}

  lemma LeadsAgainFacts()
    ensures var s := LeadsAgain();
            s.log != [] && s.log[0] == PLACEHOLDER && s.lastIncludedIndex == 0 && s.commit == 0 && s.term == 2
  {}

  lemma Empties()
    ensures var s := LeadsAgain(); s.log != [] && ToStorage(s, 0) >= -1 && AppendEntries(s, BEAT).0 == Emptied()
  {
    hide AppendEntries, LeadsAgain;
    var s := LeadsAgain();
    LeadsAgainFacts();
    TakesAll(s, BEAT);
    assert s.log[..1] + BEAT.entries == [PLACEHOLDER];
  }

  lemma ThirdReign() returns (trace: seq<Event>, c: Cluster)
    ensures Reaches(ANY_HINT, 5, trace, c) && c.N() == 5 && c.clock == 27
    ensures Holds(c.net, 17, AppendAnswer(1, 0, NEXT, TOO_SHORT)) && c.servers[0] == Emptied()
    ensures c.servers[2] == Voted(Voted(Voted(Fresh(2, 5), 1, 0), 2, 0), 3, 3)
    ensures c.servers[4] == Voted(Fresh(4, 5), 3, 3)
  {
    hide IsRun, After, Reaches, Won, AppendEntries, GenAppend, LeadsAgain, Emptied, Voted, Fresh;
    trace, c := ThirdElection();
    Beats();
    Empties();
    c := Sends(ANY_HINT, 5, trace, c, 3, 0, BEAT);
    trace := trace + [Send(3, 0)];
    c := DeliversAppend(ANY_HINT, 5, trace, c, 25, 3, 0, BEAT);
    trace := trace + [Deliver(25)];
  }

  lemma FourthElection() returns (trace: seq<Event>, c: Cluster)
    ensures Reaches(ANY_HINT, 5, trace, c) && c.N() == 5
    ensures Holds(c.net, 17, AppendAnswer(1, 0, NEXT, TOO_SHORT)) && c.servers[0] == Won(Emptied())
  {
    hide IsRun, After, Reaches, LeadsAgain, Won, Emptied;
    trace, c := ThirdReign();
    EmptiedFacts();
    trace, c := Wins(ANY_HINT, trace, c, 0, 2, 4);
  }

  lemma EmptiedFacts()
    ensures var s := Emptied();
            && s.me == 0 && s.term == 3 && s.log == [PLACEHOLDER] && s.lastIncludedIndex == 0
            && |s.nextIndex| == |s.matchIndex| == 5
    ensures var s := Won(Emptied());
            && s.role == Leader && s.term == 4 && s.log == [PLACEHOLDER] && s.lastIncludedIndex == 0 && s.commit == 0
            && |s.nextIndex| == |s.matchIndex| == 5 && s.nextIndex[1] == 1
  {}

  /**
   Without the hypothesis on rejections: the rejection of term 2 reaches the leader of term 4, and
   what is due to that follower can no longer be generated.
   */
  lemma HintPastTheLog() returns (trace: seq<Event>)
    ensures IsRun(ANY_HINT, 5, trace)
    ensures var c := After(ANY_HINT, 5, trace); Enabled(ANY_HINT, c, Send(0, 1)) && !NoPanic(c, Send(0, 1))
  {
    hide IsRun, After, Won, Emptied;
    var c;
    trace, c := FourthElection();
    EmptiedFacts();
    c := DeliversAppendAnswer(ANY_HINT, 5, trace, c, 17, 1, 0, NEXT, TOO_SHORT);
    trace := trace + [Deliver(17)];
  }
}
