module RaftHints {
  // A rejection, as a follower of raft.go gives it, on which a leader that has compacted its log and
  // one that has not go back to different places.

  import opened RaftLog
  import opened RaftServer
  import opened RaftCompaction

  ghost predicate Through(s: Server, ops: seq<Op>, s': Server) {
    IsLife(s, ops) && Lives(s, ops) == s'
  }

  lemma Then(s: Server, op: Op, mid: Server, rest: seq<Op>, s': Server)
    requires Goes(s, op) && Does(s, op) == mid && Through(mid, rest, s')
    ensures Through(s, [op] + rest, s')
  {
    assert ([op] + rest)[1..] == rest;
  }

  /** Peer 0 of three takes two entries of term 1, and one of term 2. */
  ghost function First(x: Command): AppendArgs { AppendArgs(1, 1, 0, 0, [LogEntry(1, x), LogEntry(1, x)], 1) }

  ghost function Second(x: Command): AppendArgs { AppendArgs(2, 2, 2, 1, [LogEntry(2, x)], 1) }

  ghost function Behind(x: Command): Server {
    Fresh(0, 3).(term := 1, log := [PLACEHOLDER, LogEntry(1, x), LogEntry(1, x)], commit := 1)
  }

  ghost function Full(x: Command): Server {
    Behind(x).(term := 2, log := [PLACEHOLDER, LogEntry(1, x), LogEntry(1, x), LogEntry(2, x)])
  }

  ghost function Compacted(x: Command): Server {
    Full(x).(log := [LogEntry(1, NoCommand), LogEntry(1, x), LogEntry(2, x)], lastIncludedIndex :=
        1, lastIncludedTerm := 1)
  }

  /** Elected by one vote beside its own. */
  ghost function Elected(s: Server): Server {
    ConvertRole(StartElection(s).(count := s.count[s.term + 1 := 1][s.term + 1 := 2]), Leader)
  }

  ghost function Votes(t: nat): seq<Op> { [Stand, Count(t, VoteReply(t, true))] }

  lemma TakesFirst(x: Command)
    ensures Goes(Fresh(0, 3), Receive(First(x))) && Does(Fresh(0, 3), Receive(First(x))) == Behind(x)
  {
    assert [PLACEHOLDER][..1] == [PLACEHOLDER];
  }

  lemma TakesSecond(x: Command)
    ensures Goes(Behind(x), Receive(Second(x))) && Does(Behind(x), Receive(Second(x))) == Full(x)
  {
    var l := Behind(x).log;
    assert l[..3] == l;
    assert l + [LogEntry(2, x)] == Full(x).log;
  }

  lemma DropsFirst(l: Log, e: LogEntry)
    requires |l| == 4
    ensures |l[1..]| == 3 && l[1..][0 := e] == [e, l[2], l[3]]
  {}

  lemma Compacts(x: Command)
    ensures Goes(Full(x), Compact(1)) && Does(Full(x), Compact(1)) == Compacted(x)
  {
    var s, l := Full(x), Full(x).log;
    assert s.lastIncludedIndex == 0 && |l| == 4 && l[1].term == 1 && l[2] == LogEntry(1, x) && l[3] == LogEntry(2, x);
    hide Full, Behind;
    DropsFirst(l, LogEntry(1, NoCommand));
  }

  lemma Wins(s: Server)
    requires s.log != [] && |s.nextIndex| == 3
    ensures Through(s, Votes(s.term + 1), Elected(s))
  {
    var s1, count := StartElection(s), Count(s.term + 1, VoteReply(s.term + 1, true));
    assert Through(Elected(s), [], Elected(s));
    assert Does(s1, count) == Elected(s);
    Then(s1, count, Elected(s), [], Elected(s));
    Then(s, Stand, s1, [count], Elected(s));
    assert [Stand] + [count] == Votes(s.term + 1) && [count] + [] == [count];
  }

  ghost function Life(x: Command): seq<Op> {
    [Receive(First(x))] + ([Receive(Second(x))] + ([Compact(1)] + Votes(3)))
  }

  ghost function Uncompacted(x: Command): seq<Op> {
    [Receive(First(x))] + ([Receive(Second(x))] + Votes(3))
  }

  lemma KeepingLife(x: Command)
    ensures Keeping(Life(x)) == Uncompacted(x)
  {
    var v := Votes(3);
    assert v == [v[0]] + ([v[1]] + []);
    KeepingFirst(v[1], []);
    KeepingFirst(v[0], [v[1]] + []);
    KeepingFirst(Compact(1), v);
    KeepingFirst(Receive(Second(x)), [Compact(1)] + v);
    KeepingFirst(Receive(First(x)), [Receive(Second(x))] + ([Compact(1)] + v));
  }

  lemma KeepingFirst(op: Op, rest: seq<Op>)
    ensures Keeping([op] + rest) == (if op.Compact? then [] else [op]) + Keeping(rest)
  {
    assert ([op] + rest)[1..] == rest;
  }

  lemma LeaderLives(x: Command)
    ensures Through(Fresh(0, 3), Life(x), Elected(Compacted(x)))
    ensures Through(Fresh(0, 3), Uncompacted(x), Elected(Full(x)))
  {
    TakesFirst(x);
    TakesSecond(x);
    Compacts(x);
    Wins(Compacted(x));
    Wins(Full(x));
    hide Through, Goes, Does;
    Then(Full(x), Compact(1), Compacted(x), Votes(3), Elected(Compacted(x)));
    Then(Behind(x), Receive(Second(x)), Full(x), [Compact(1)] + Votes(3), Elected(Compacted(x)));
    Then(Behind(x), Receive(Second(x)), Full(x), Votes(3), Elected(Full(x)));
    Then(Fresh(0, 3), Receive(First(x)), Behind(x), [Receive(Second(x))] + ([Compact(1)] + Votes(3)),
        Elected(Compacted(x)));
    Then(Fresh(0, 3), Receive(First(x)), Behind(x), [Receive(Second(x))] + Votes(3), Elected(Full(x)));
  }

  /** Peer 1 led term 1, and has an entry of it that nobody else has. */
  ghost function Old(x: Command, n: nat): Server {
    Elected(Fresh(1, 3)).(log := [PLACEHOLDER] + seq(n, _ => LogEntry(1, x)))
  }

  lemma Begins(x: Command, n: nat)
    ensures Goes(Old(x, n), Begin(x)) && Does(Old(x, n), Begin(x)) == Old(x, n + 1)
  {
    assert Old(x, n).log + [LogEntry(1, x)] == Old(x, n + 1).log;
  }

  ghost function OldLife(x: Command): seq<Op> {
    [Stand] + ([Count(1, VoteReply(1, true))] + ([Begin(x)] + ([Begin(x)] + ([Begin(x)] + []))))
  }

  lemma OldLives(x: Command)
    ensures Through(Fresh(1, 3), OldLife(x), Old(x, 3))
  {
    var s1, count := StartElection(Fresh(1, 3)), Count(1, VoteReply(1, true));
    assert Old(x, 0).log == [PLACEHOLDER];
    assert Goes(s1, count) && Does(s1, count) == Old(x, 0);
    assert Goes(Fresh(1, 3), Stand) && Does(Fresh(1, 3), Stand) == s1;
    assert Through(Old(x, 3), [], Old(x, 3));
    Begins(x, 0);
    Begins(x, 1);
    Begins(x, 2);
    hide Through, Goes, Does;
    Then(Old(x, 2), Begin(x), Old(x, 3), [], Old(x, 3));
    Then(Old(x, 1), Begin(x), Old(x, 2), [Begin(x)] + [], Old(x, 3));
    Then(Old(x, 0), Begin(x), Old(x, 1), [Begin(x)] + ([Begin(x)] + []), Old(x, 3));
    Then(s1, count, Old(x, 0), [Begin(x)] + ([Begin(x)] + ([Begin(x)] + [])), Old(x, 3));
    Then(Fresh(1, 3), Stand, s1, [count] + ([Begin(x)] + ([Begin(x)] + ([Begin(x)] + []))), Old(x, 3));
  }

  /** The leader's first request to peer 1, and the answer. */
  ghost function Request(): AppendArgs { AppendArgs(3, 0, 3, 2, [], 1) }

  ghost function Answer(): AppendReply { AppendReply(3, false, 1, 1) }

  lemma Asks(x: Command)
    ensures var s, full := Elected(Compacted(x)), Elected(Full(x));
            && |s.nextIndex| == 3 && s.nextIndex[1] == 4 && |full.nextIndex| == 3 && full.nextIndex[1] == 4
            && GenAppend(s, 1) == GenAppend(full, 1) == Append(Request())
  {
    var s, full := Elected(Compacted(x)), Elected(Full(x));
    assert s.log[3..] == [] && full.log[4..] == [];
  }

  lemma Rejects(x: Command)
    ensures ToStorage(Old(x, 3), 3) >= -1 && AppendEntries(Old(x, 3), Request()).1 == Answer()
  {
    var l := Old(x, 3).log;
    assert l[3].term == l[2].term == l[1].term == 1;
    assert ConflictStart(l, 3, 1) == 0;
  }

  lemma GoesBack(x: Command)
    ensures var s, full := Elected(Compacted(x)), Elected(Full(x));
            && ReplyGoes(s, 1) && ReplyGoes(full, 1) && s.role == full.role == Leader
            && Retreat(s, 1, Answer()) == 2 && Retreat(full, 1, Answer()) == 3
            && SearchDiffers(s, full, 1, Answer())
  {
    var s, full := Elected(Compacted(x)), Elected(Full(x));
    Asks(x);
    assert s.log[2].term == 2 && s.log[1].term == 1 && full.log[3].term == 2 && full.log[2].term == 1;
    assert TermSearch(s.log, 2, 1) == 1 && TermSearch(full.log, 3, 1) == 2;
  }

  /** Every peer does as raft.go has it do, and the compacted leader goes back too far. */
  lemma HintMisread(x: Command)
    ensures Through(Fresh(0, 3), Life(x), Elected(Compacted(x)))
    ensures Through(Fresh(0, 3), Keeping(Life(x)), Elected(Full(x)))
    ensures Through(Fresh(1, 3), OldLife(x), Old(x, 3))
    ensures var s, full := Elected(Compacted(x)), Elected(Full(x));
            && |s.nextIndex| == 3 && s.nextIndex[1] == 4 && GenAppend(s, 1) == Append(Request())
            && Old(x, 3).log != [] && ToStorage(Old(x, 3), 3) >= -1 && AppendEntries(Old(x, 3), Request()).1 == Answer()
            && ReplyGoes(s, 1) && ReplyGoes(full, 1) && SearchDiffers(s, full, 1, Answer())
            && HandleAppendReply(s, 1, Request(), Answer()).nextIndex[1] == 2
            && HandleAppendReply(full, 1, Request(), Answer()).nextIndex[1] == 3
  {
    LeaderLives(x);
    KeepingLife(x);
    OldLives(x);
    Asks(x);
    Rejects(x);
    GoesBack(x);
    hide Through, Retreat, SearchDiffers, Life, Uncompacted, OldLife, AppendEntries;
  }
}
