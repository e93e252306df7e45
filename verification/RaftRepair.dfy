module RaftRepair {
  // Log repair (sections 5.3 and 7 of the extended Raft paper): a leader and one follower, round by
  // round, either of which may have compacted its log.  A round is what the leader owes the follower,
  // handled by the follower, and the reply handled by the leader.  In a cluster it is three events, so
  // that any run can go on to repair any follower.

  import opened RaftLog
  import opened RaftServer
  import opened RaftCluster
  import opened RaftHistory
  import opened RaftLink
  import opened RaftReplication
  import opened RaftRuns
  import opened RaftSafety
  import opened RaftCompaction

  /** The follower has not compacted more than the leader: then no request reaches below its log. */
  ghost predicate Ready(s: Server, f: Server, to: nat) {
    && s.role == Leader && s.log != [] && f.log != [] && 0 <= f.lastIncludedIndex <= s.lastIncludedIndex
    && to < |s.nextIndex| == |s.matchIndex| && ToStorage(s, s.nextIndex[to]) <= |s.log|
    && s.commit >= s.lastIncludedIndex && f.term <= s.term
  }

  /** What a leader offers a follower it has nothing else for. */
  function OwnSnapshot(s: Server): SnapshotArgs {
    SnapshotArgs(s.term, s.me, s.lastIncludedIndex, s.lastIncludedTerm)
  }

  datatype Pair = Pair(s: Server, f: Server, applied: int)

  /** `applied` is the follower's lastApplied. */
  ghost function Round(p: Pair, to: nat): (r: Pair)
    requires Ready(p.s, p.f, to)
    ensures Ready(r.s, r.f, to) && r.s.log == p.s.log && r.s.lastIncludedIndex == p.s.lastIncludedIndex
  {
    match GenAppend(p.s, to)
    case Append(a) =>
      var (f, reply) := AppendEntries(p.f, a);
      Pair(HandleAppendReply(p.s, to, a, reply), f, p.applied)
    case NeedSnapshot =>
      var a := OwnSnapshot(p.s);
      var (f, t) := InstallSnapshot(p.f, a, p.applied);
      Pair(HandleSnapshotReply(p.s, to, a, t), f,
           if Installs(p.f, a, p.applied) then a.lastIncludedIndex else p.applied)
  }

  ghost function Rounds(p: Pair, to: nat, n: nat): (r: Pair)
    requires Ready(p.s, p.f, to)
    ensures Ready(r.s, r.f, to) && r.s.log == p.s.log && r.s.lastIncludedIndex == p.s.lastIncludedIndex
    decreases n
  {
    if n == 0 then p else Rounds(Round(p, to), to, n - 1)
  }

  /** How many more entries the leader has compacted. */
  function Gap(s: Server, f: Server): int {
    s.lastIncludedIndex - f.lastIncludedIndex
  }

  /** Log Matching, of what the leader has not compacted. */
  ghost predicate Match(s: Server, f: Server) {
    && 0 <= Gap(s, f)
    && (forall i: nat {:trigger s.log[i]} ::
          1 <= i < |s.log| && Gap(s, f) + i < |f.log| && s.log[i].term == f.log[Gap(s, f) + i].term ==>
            s.log[1..i + 1] == f.log[Gap(s, f) + 1..Gap(s, f) + i + 1])
  }

  /** The follower has the entry that the leader's snapshot ends with, or a snapshot up to it. */
  predicate Meets(s: Server, f: Server) {
    Gap(s, f) > 0 ==> Gap(s, f) < |f.log| && s.log != [] && f.log[Gap(s, f)].term == s.log[0].term
  }

  /** A follower that would refuse the leader's snapshot, since it has applied as much, has what it ends with. */
  predicate Fits(p: Pair) {
    p.s.lastIncludedIndex <= p.applied ==> Meets(p.s, p.f)
  }

  /** The follower has all that the leader has and has not compacted, and the leader knows. */
  ghost predicate Repaired(s: Server, f: Server, to: nat) {
    && to < |s.nextIndex| == |s.matchIndex| && 0 <= Gap(s, f) && s.log != [] && |f.log| == Gap(s, f) + |s.log|
    && f.log[Gap(s, f) + 1..] == s.log[1..] && (|s.log| == 1 ==> Meets(s, f))
    && s.nextIndex[to] == LastLogical(s) + 1 && s.matchIndex[to] == LastLogical(s)
  }

  // ---- what one round does ----

  /** A leader that owes its own snapshot goes on behind it: what is due next is the rest of its log. */
  lemma SnapshotReplyMovesOn(s: Server, to: nat, t: nat)
    requires s.role == Leader && s.log != [] && to < |s.nextIndex| == |s.matchIndex|
    requires s.nextIndex[to] <= s.lastIncludedIndex && t <= s.term
    ensures GenAppend(s, to) == NeedSnapshot
    ensures var r := HandleSnapshotReply(s, to, OwnSnapshot(s), t);
            && r == s.(nextIndex := r.nextIndex, matchIndex := r.matchIndex) && |r.nextIndex| == |s.nextIndex|
            && r.matchIndex == s.matchIndex[to := s.lastIncludedIndex]
            && (forall j {:trigger r.nextIndex[j]} ::
                  0 <= j < |s.nextIndex| && j != to ==> r.nextIndex[j] == s.nextIndex[j])
            && ToStorage(r, r.nextIndex[to]) <= |r.log|
            && GenAppend(r, to) ==
               Append(AppendArgs(s.term, s.me, s.lastIncludedIndex, s.log[0].term, s.log[1..], s.commit))
  {}

  /** The reply to any snapshot the leader sent in its term: nextIndex never goes down, and ends up behind it. */
  lemma SnapshotReplyRaises(s: Server, to: nat, a: SnapshotArgs, t: nat)
    requires s.role == Leader && s.term == a.term && to < |s.nextIndex| == |s.matchIndex| && t <= s.term
    ensures var r := HandleSnapshotReply(s, to, a, t);
            && |r.nextIndex| == |r.matchIndex| == |s.nextIndex|
            && s.nextIndex[to] <= r.nextIndex[to] && a.lastIncludedIndex < r.nextIndex[to]
            && (r.nextIndex[to] == s.nextIndex[to] ==> r == s)
            && (r.nextIndex[to] != s.nextIndex[to] ==>
                  r.nextIndex[to] == a.lastIncludedIndex + 1 && r.matchIndex[to] == a.lastIncludedIndex)
  {}

  /** The reply to a snapshot of another term, or that comes to a peer that does not lead, changes nothing. */
  lemma StaleSnapshotReply(s: Server, to: nat, a: SnapshotArgs, t: nat)
    requires to < |s.nextIndex| == |s.matchIndex| && (s.role != Leader || s.term != a.term)
    ensures HandleSnapshotReply(s, to, a, t) == s
  {}

  /** What the follower takes leaves it with all that the leader has not compacted. */
  lemma TakenOver(s: Server, f: Server, to: nat)
    requires Ready(s, f, to) && (Match(s, f) || Repaired(s, f, to)) && s.nextIndex[to] > s.lastIncludedIndex
    ensures var a := GenAppend(s, to).args;
            AppendEntries(f, a).1.success ==>
              Repaired(HandleAppendReply(s, to, a, AppendEntries(f, a).1), AppendEntries(f, a).0, to)
  {
    hide ConflictStart, FollowerCommit, LeaderCommit, Match, Repaired;
    var a := GenAppend(s, to).args;
    var (f', reply) := AppendEntries(f, a);
    if reply.success {
      var g, x := Gap(s, f), a.prev - s.lastIncludedIndex;
      SharedPrefix(s, f, to, x);
      Joined(s.log, f.log, g, x);
      assert f'.log == f.log[..g + x + 1] + s.log[x + 1..];
      assert x == 0 ==> Meets(s, f');
      Known(s, f', to, a, reply);
    }
  }

  lemma Known(s: Server, f: Server, to: nat, a: AppendArgs, r: AppendReply)
    requires s.role == Leader && s.log != [] && to < |s.nextIndex| == |s.matchIndex|
    requires ToStorage(s, s.nextIndex[to]) <= |s.log| && s.commit >= s.lastIncludedIndex
    requires r.success && r.term <= s.term && LastOf(a) == LastLogical(s)
    requires 0 <= Gap(s, f) && |f.log| == Gap(s, f) + |s.log| && f.log[Gap(s, f) + 1..] == s.log[1..]
    requires |s.log| == 1 ==> Meets(s, f)
    ensures Repaired(HandleAppendReply(s, to, a, r), f, to)
  {
    hide LeaderCommit;
  }

  lemma SharedPrefix(s: Server, f: Server, to: nat, x: nat)
    requires 0 <= Gap(s, f) && (Match(s, f) || Repaired(s, f, to)) && x < |s.log| && Gap(s, f) + x < |f.log|
    requires x > 0 ==> s.log[x].term == f.log[Gap(s, f) + x].term
    ensures s.log[1..x + 1] == f.log[Gap(s, f) + 1..Gap(s, f) + x + 1]
  {
    if Repaired(s, f, to) {
      assert f.log[Gap(s, f) + 1..][..x] == f.log[Gap(s, f) + 1..Gap(s, f) + x + 1];
      assert s.log[1..][..x] == s.log[1..x + 1];
    }
  }

  lemma Joined(l: Log, m: Log, g: nat, x: nat)
    requires x < |l| && g + x < |m| && l[1..x + 1] == m[g + 1..g + x + 1]
    ensures var r := m[..g + x + 1] + l[x + 1..];
            |r| == g + |l| && r[g + 1..] == l[1..] && r[g] == m[g]
  {
    var r := m[..g + x + 1] + l[x + 1..];
    assert r[g + 1..] == m[g + 1..g + x + 1] + l[x + 1..];
    assert l[1..] == l[1..x + 1] + l[x + 1..];
  }

  // ---- how many rounds it takes ----

  /** The leader has just offered its snapshot, and the follower has, or has now, what it ends with. */
  ghost predicate Settled(p: Pair, to: nat) {
    && to < |p.s.nextIndex| && p.s.nextIndex[to] == p.s.lastIncludedIndex + 1
    && p.s.lastIncludedIndex <= LastLogical(p.f) && Meets(p.s, p.f)
  }

  /** A rejection lowers nextIndex and leaves the follower's log alone. */
  lemma RejectedRound(p: Pair, to: nat)
    requires Ready(p.s, p.f, to) && p.s.nextIndex[to] > p.s.lastIncludedIndex
    requires !AppendEntries(p.f, GenAppend(p.s, to).args).1.success
    ensures var r := Round(p, to);
            && r.s.nextIndex[to] < p.s.nextIndex[to] && r.applied == p.applied
            && r.f.log == p.f.log && r.f.lastIncludedIndex == p.f.lastIncludedIndex
    ensures !Settled(p, to)
  {
    hide LeaderCommit, FollowerCommit;
  }

  /** A snapshot is taken, or refused for good reason; either way the leader goes on behind it. */
  lemma SnapshotRoundSettles(p: Pair, to: nat)
    requires Ready(p.s, p.f, to) && p.s.nextIndex[to] <= p.s.lastIncludedIndex
    ensures var r := Round(p, to);
            && r.s.nextIndex[to] == r.s.lastIncludedIndex + 1
            && (Fits(p) ==> Settled(r, to) && Fits(r))
            && (Match(p.s, p.f) ==> Match(r.s, r.f))
            && (!Fits(p) ==> r.f.log == p.f.log && r.applied == p.applied)
            && (!Fits(p) ==> r.f.lastIncludedIndex == p.f.lastIncludedIndex)
  {
    var r, a := Round(p, to), OwnSnapshot(p.s);
    hide Match;
    if Installs(p.f, a, p.applied) {
      InstalledEnds(p.f, a, p.applied);
      if Match(p.s, p.f) {
        InstallMatches(p, to);
        SameMatch(p.s, r.f, r.s, r.f);
      }
    } else {
      SameMatch(p.s, p.f, r.s, r.f);
    }
    hide InstallSnapshot;
  }

  lemma InstalledEnds(f: Server, a: SnapshotArgs, applied: int)
    requires f.log != [] && Installs(f, a, applied)
    ensures var r := InstallSnapshot(f, a, applied).0;
            r.lastIncludedIndex == a.lastIncludedIndex <= LastLogical(r) && r.log != []
  {}

  lemma InstallMatches(p: Pair, to: nat)
    requires Ready(p.s, p.f, to) && Match(p.s, p.f) && Installs(p.f, OwnSnapshot(p.s), p.applied)
    ensures Match(p.s, InstallSnapshot(p.f, OwnSnapshot(p.s), p.applied).0)
  {
    var s, f, g := p.s, p.f, Gap(p.s, p.f);
    var f' := InstallSnapshot(f, OwnSnapshot(s), p.applied).0;
    assert Gap(s, f') == 0 && (|f'.log| == 1 || f'.log == f.log[g..][0 := PLACEHOLDER]);
    hide InstallSnapshot;
    forall i: nat | 1 <= i < |s.log| && i < |f'.log| && s.log[i].term == f'.log[i].term
      ensures s.log[1..i + 1] == f'.log[1..i + 1]
    {
      KeptRest(f.log, g, f'.log, i);
    }
  }

  lemma KeptRest(m: Log, g: nat, m': Log, i: nat)
    requires g < |m| && m' == m[g..][0 := PLACEHOLDER] && 1 <= i < |m'|
    ensures m'[i] == m[g + i] && m'[1..i + 1] == m[g + 1..g + i + 1]
  {}

  /** How many more rounds it may take, by how far nextIndex is behind the leader's snapshot. */
  function Left(next: int): nat {
    if next <= 0 then 2 else next + 2
  }

  /** However the logs differ, after so many rounds the follower has all that the leader has not compacted, for good. */
  lemma {:induction false} RepairConverges(p: Pair, to: nat, n: nat)
    requires Ready(p.s, p.f, to)
    requires || Repaired(p.s, p.f, to)
             || (Match(p.s, p.f) && Settled(p, to) && n >= 1)
             || (Match(p.s, p.f) && Fits(p) && n >= Left(ToStorage(p.s, p.s.nextIndex[to])))
    ensures Repaired(Rounds(p, to, n).s, Rounds(p, to, n).f, to)
    decreases n
  {
    hide Round, Match, AppendEntries, Fits, Settled, Repaired;
    if n > 0 {
      if p.s.nextIndex[to] > p.s.lastIncludedIndex {
        AppendRoundConverges(p, to);
      } else {
        LateRound(p, to);
        SnapshotRoundSettles(p, to);
      }
      RepairConverges(Round(p, to), to, n - 1);
    }
  }

  lemma LateRound(p: Pair, to: nat)
    requires Ready(p.s, p.f, to) && p.s.nextIndex[to] <= p.s.lastIncludedIndex
    ensures !Repaired(p.s, p.f, to) && !Settled(p, to)
  {}

  lemma AppendRoundConverges(p: Pair, to: nat)
    requires Ready(p.s, p.f, to) && p.s.nextIndex[to] > p.s.lastIncludedIndex
    requires (Match(p.s, p.f) || Repaired(p.s, p.f, to))
    ensures var r := Round(p, to);
            || Repaired(r.s, r.f, to)
            || (!Settled(p, to) && !Repaired(p.s, p.f, to) && Match(r.s, r.f) && (Fits(p) ==> Fits(r))
                && r.s.nextIndex[to] < p.s.nextIndex[to])
  {
    hide Match, Settled;
    TakenOver(p.s, p.f, to);
    if !AppendEntries(p.f, GenAppend(p.s, to).args).1.success {
      RejectedRound(p, to);
      RepairedTakes(p, to);
      hide AppendEntries, HandleAppendReply, Repaired;
      SameMatch(p.s, p.f, Round(p, to).s, Round(p, to).f);
    }
  }

  lemma SameMatch(s: Server, f: Server, s': Server, f': Server)
    requires s'.log == s.log && f'.log == f.log && Gap(s', f') == Gap(s, f)
    ensures Match(s, f) ==> Match(s', f')
  {}

  lemma RepairedTakes(p: Pair, to: nat)
    requires Ready(p.s, p.f, to) && p.s.nextIndex[to] > p.s.lastIncludedIndex
    ensures Repaired(p.s, p.f, to) ==> AppendEntries(p.f, GenAppend(p.s, to).args).1.success
  {
    var s, f := p.s, p.f;
    if Repaired(s, f, to) && |s.log| > 1 {
      assert f.log[Gap(s, f) + 1..][|s.log| - 2] == s.log[1..][|s.log| - 2];
    }
  }

  // ---- when it does not work ----

  /** What is due to a follower that refuses the snapshot and lacks what it ends with goes round in a circle. */
  lemma {:induction false} NeverRepaired(p: Pair, to: nat, n: nat)
    requires Ready(p.s, p.f, to) && !Fits(p) && p.s.nextIndex[to] <= p.s.lastIncludedIndex + 1
    ensures !Repaired(Rounds(p, to, n).s, Rounds(p, to, n).f, to)
    decreases n
  {
    hide Round, Match;
    if n > 0 {
      if p.s.nextIndex[to] <= p.s.lastIncludedIndex {
        SnapshotRoundSettles(p, to);
      } else {
        Refused(p, to);
        RejectedRound(p, to);
      }
      NeverRepaired(Round(p, to), to, n - 1);
    }
  }

  lemma Refused(p: Pair, to: nat)
    requires Ready(p.s, p.f, to) && !Fits(p) && p.s.nextIndex[to] == p.s.lastIncludedIndex + 1
    ensures !AppendEntries(p.f, GenAppend(p.s, to).args).1.success
  {
    hide ConflictStart, FollowerCommit;
  }

  ghost predicate RepairedAfter(p: Pair, to: nat, n: nat)
    requires Ready(p.s, p.f, to)
  {
    Repaired(Rounds(p, to, n).s, Rounds(p, to, n).f, to)
  }

  /** From a snapshot on, repair comes to its end iff the follower takes the snapshot or has what it ends with. */
  lemma RepairIsExact(p: Pair, to: nat)
    requires Ready(p.s, p.f, to) && Match(p.s, p.f) && p.s.nextIndex[to] <= p.s.lastIncludedIndex + 1
    ensures (exists n: nat :: RepairedAfter(p, to, n)) <==> Fits(p)
  {
    hide Match, Repaired, Rounds;
    if Fits(p) {
      var n := Left(ToStorage(p.s, p.s.nextIndex[to]));
      RepairConverges(p, to, n);
      assert RepairedAfter(p, to, n);
    } else {
      forall n: nat ensures !RepairedAfter(p, to, n) {
        NeverRepaired(p, to, n);
      }
    }
  }

  /**
   Such a leader there is: InstallSnapshot leaves a placeholder of term 0 in a log it trims, and a
   follower that has applied and kept the entry itself never accepts what that leader sends.
   */
  lemma TrimmedLeaderIsStuck(p: Pair, to: nat, n: nat)
    requires Ready(p.s, p.f, to) && p.s.nextIndex[to] <= p.s.lastIncludedIndex + 1
    requires p.s.log[0] == PLACEHOLDER && Gap(p.s, p.f) > 0 && p.s.lastIncludedIndex <= p.applied
    requires p.s.lastIncludedIndex <= LastLogical(p.f) && p.f.log[Gap(p.s, p.f)].term > 0
    ensures !Repaired(Rounds(p, to, n).s, Rounds(p, to, n).f, to)
  {
    hide Rounds, Repaired;
    NeverRepaired(p, to, n);
  }

  /** A request to a follower that has compacted more goes through iff nextIndex is not below its snapshot. */
  lemma AheadOfLeader(s: Server, f: Server, to: nat)
    requires s.log != [] && to < |s.nextIndex| && s.lastIncludedIndex < s.nextIndex[to]
    requires ToStorage(s, s.nextIndex[to]) <= |s.log|
    ensures ToStorage(f, GenAppend(s, to).args.prev) >= -1 <==> f.lastIncludedIndex <= s.nextIndex[to]
  {}

  // ---- beside peers that never compact ----

  /** Log Matching, of two whole logs. */
  ghost predicate LogsMatch(l: Log, m: Log) {
    forall i: nat {:trigger Agree(l, m, i)} :: i < |l| && i < |m| && l[i].term == m[i].term ==> Agree(l, m, i)
  }

  /** What is left of a log, at an index of the whole. */
  lemma LeftAt(l: Log, base: nat, tail: Log, x: nat)
    requires base < x < |l| && tail == Tail(l, base)
    ensures |tail| == |l| - base && tail[x - base] == l[x]
  {}

  lemma LeftAgree(l: Log, m: Log, a: nat, b: nat, i: nat)
    requires b <= a < i && Agree(l, m, i)
    ensures |Tail(l, a)| == |l| - a && |Tail(m, b)| == |m| - b
    ensures Tail(l, a)[1..i - a + 1] == Tail(m, b)[a - b + 1..i - b + 1]
  {
    var p, q := Tail(l, a), Tail(m, b);
    LeftAt(l, a, p, i);
    LeftAt(m, b, q, i);
    forall y | 1 <= y <= i - a ensures p[y] == q[a - b + y] {
      LeftAt(l, a, p, a + y);
      LeftAt(m, b, q, a + y);
      assert l[..i + 1][a + y] == m[..i + 1][a + y];
    }
  }

  lemma TailsMatch(s: Server, full: Server, f: Server, other: Server)
    requires Refines(s, full) && Refines(f, other) && LogsMatch(full.log, other.log)
    requires f.lastIncludedIndex <= s.lastIncludedIndex
    ensures Match(s, f)
  {
    var b, a, g := s.lastIncludedIndex, f.lastIncludedIndex, Gap(s, f);
    var l, m := full.log, other.log;
    forall i: nat | 1 <= i < |s.log| && g + i < |f.log| && s.log[i].term == f.log[g + i].term
      ensures s.log[1..i + 1] == f.log[g + 1..g + i + 1]
    {
      LeftAt(l, b, s.log, b + i);
      LeftAt(m, a, f.log, b + i);
      assert Agree(l, m, b + i);
      hide Tail, LogsMatch, Agree;
      LeftAgree(l, m, b, a, b + i);
    }
  }

  lemma TailsFit(s: Server, full: Server, f: Server, other: Server, applied: int)
    requires Refines(s, full) && Refines(f, other) && f.lastIncludedIndex <= s.lastIncludedIndex
    requires s.lastIncludedIndex <= applied ==> Agree(full.log, other.log, s.lastIncludedIndex)
    ensures Fits(Pair(s, f, applied))
  {
    var b := s.lastIncludedIndex;
    SameEnds(f, other);
    if b <= applied {
      assert full.log[..b + 1][b] == other.log[..b + 1][b];
    }
  }

  /**
   Whatever the leader and a follower that has compacted no more have compacted of logs that match:
   if the follower agrees with the leader on what it has applied, then after so many rounds it has
   all that the leader's whole log has beyond the leader's snapshot.
   */
  lemma CompactedFollowerIsRepaired(s: Server, full: Server, f: Server, other: Server, applied: int, to: nat, n: nat)
    requires Refines(s, full) && Refines(f, other) && LogsMatch(full.log, other.log) && Ready(s, f, to)
    requires s.lastIncludedIndex <= applied ==> Agree(full.log, other.log, s.lastIncludedIndex)
    requires n >= Left(ToStorage(s, s.nextIndex[to]))
    ensures var r, b := Rounds(Pair(s, f, applied), to, n), s.lastIncludedIndex;
            && 0 <= Gap(r.s, r.f) < |r.f.log| && r.f.log[Gap(r.s, r.f) + 1..] == full.log[b + 1..]
            && LastLogical(r.f) == LastLogical(full) == r.s.matchIndex[to]
  {
    TailsMatch(s, full, f, other);
    TailsFit(s, full, f, other, applied);
    SameEnds(s, full);
    assert s.log[1..] == full.log[s.lastIncludedIndex + 1..];
    hide Refines, Match, Fits, Rounds, Left, LogsMatch;
    RepairConverges(Pair(s, f, applied), to, n);
  }

  // ---- in a cluster ----

  ghost predicate HandledBefore(c: Cluster) {
    forall x {:trigger c.handled[x]} :: x in c.handled ==> c.handled[x] < c.clock
  }

  lemma {:induction false} RunHandled(rules: Rules, n: nat, trace: seq<Event>)
    requires rules.votes && IsRun(rules, n, trace)
    ensures HandledBefore(After(rules, n, trace))
  {
    if trace != [] {
      var before, ev := trace[..|trace| - 1], trace[|trace| - 1];
      RunHandled(rules, n, before);
      var k := RunKeeps(rules, n, before);
      var c := After(rules, n, before);
      if ev.Deliver? {
        BaseClock(c, k, ev.id);
      }
      hide IsRun, After, Linked;
      HandledStep(c, ev);
    }
  }

  lemma BaseClock(c: Cluster, k: Record, id: nat)
    requires Base(c, k) && id in c.net
    ensures id < c.clock
  {}

  lemma HandledStep(c: Cluster, ev: Event)
    requires HandledBefore(c) && Enabled(ANY, c, ev) && NoPanic(c, ev) && (ev.Deliver? ==> ev.id < c.clock)
    ensures HandledBefore(Apply(c, ev))
  {
    hide RequestVote, AppendEntries, HandleAppendReply, HandleVoteReply, InstallSnapshot, HandleSnapshotReply,
        GenAppend;
  }

  /** What one round makes of the cluster. */
  ghost predicate AfterRound(c: Cluster, d: Cluster, i: nat, j: nat)
    requires i < c.N() && j < c.N() && Ready(c.servers[i], c.servers[j], j)
  {
    var r := Round(Pair(c.servers[i], c.servers[j], 0), j);
    d.servers == c.servers[i := r.s][j := r.f] && HandledBefore(d)
  }

  lemma RoundRuns(rules: Rules, n: nat, trace: seq<Event>, c: Cluster, i: nat, j: nat) returns (d: Cluster)
    requires Reaches(rules, n, trace, c) && HandledBefore(c) && i < c.N() && j < c.N() && i != j
    requires c.servers[i].me == i && c.servers[i].lastIncludedIndex == 0 && Ready(c.servers[i], c.servers[j], j)
    ensures Reaches(rules, n, trace + [Send(i, j)] + [Deliver(c.clock)] + [Deliver(c.clock + 1)], d)
    ensures AfterRound(c, d, i, j)
  {
    hide IsRun, After, Reaches, AppendEntries, HandleAppendReply;
    Next(rules, n, trace, c, Send(i, j));
    var c1 := Apply(c, Send(i, j));
    if GenAppend(c.servers[i], j).Append? {
      d := AppendRound(rules, n, trace, c, c1, i, j);
    } else {
      d := SnapshotRound(rules, n, trace, c, c1, i, j);
    }
  }

  lemma AppendRound(rules: Rules, n: nat, trace: seq<Event>, c: Cluster, c1: Cluster, i: nat, j: nat)
      returns (d: Cluster)
    requires HandledBefore(c) && i < c.N() && j < c.N() && i != j
    requires c.servers[i].me == i && c.servers[i].lastIncludedIndex == 0 && Ready(c.servers[i], c.servers[j], j)
    requires GenAppend(c.servers[i], j).Append?
    requires Reaches(rules, n, trace + [Send(i, j)], c1) && c1 == Apply(c, Send(i, j))
    ensures Reaches(rules, n, trace + [Send(i, j)] + [Deliver(c.clock)] + [Deliver(c.clock + 1)], d)
    ensures AfterRound(c, d, i, j)
  {
    hide IsRun, After, Reaches, AppendEntries, HandleAppendReply;
    var a := GenAppend(c.servers[i], j).args;
    assert c1.net[c.clock] == AppendRequest(i, j, a) && c1.servers == c.servers && InOrder(c1, c.clock, i, j);
    Next(rules, n, trace + [Send(i, j)], c1, Deliver(c.clock));
    var c2 := Apply(c1, Deliver(c.clock));
    var (f, reply) := AppendEntries(c.servers[j], a);
    assert c2.net[c.clock + 1] == AppendAnswer(j, i, a, reply) && c2.servers == c.servers[j := f];
    Next(rules, n, trace + [Send(i, j)] + [Deliver(c.clock)], c2, Deliver(c.clock + 1));
    d := Apply(c2, Deliver(c.clock + 1));
    assert d.servers == c.servers[j := f][i := HandleAppendReply(c.servers[i], j, a, reply)];
  }

  lemma SnapshotRound(rules: Rules, n: nat, trace: seq<Event>, c: Cluster, c1: Cluster, i: nat, j: nat)
      returns (d: Cluster)
    requires HandledBefore(c) && i < c.N() && j < c.N() && i != j
    requires c.servers[i].me == i && c.servers[i].lastIncludedIndex == 0 && Ready(c.servers[i], c.servers[j], j)
    requires GenAppend(c.servers[i], j).NeedSnapshot?
    requires Reaches(rules, n, trace + [Send(i, j)], c1) && c1 == Apply(c, Send(i, j))
    ensures Reaches(rules, n, trace + [Send(i, j)] + [Deliver(c.clock)] + [Deliver(c.clock + 1)], d)
    ensures AfterRound(c, d, i, j)
  {
    hide IsRun, After, Reaches, InstallSnapshot, HandleSnapshotReply;
    var s := c.servers[i];
    var a := SnapshotArgs(s.term, i, s.lastIncludedIndex, s.lastIncludedTerm);
    assert c1.net[c.clock] == SnapshotRequest(i, j, a) && c1.servers == c.servers;
    Next(rules, n, trace + [Send(i, j)], c1, Deliver(c.clock));
    var c2 := Apply(c1, Deliver(c.clock));
    var (f, t) := InstallSnapshot(c.servers[j], a, 0);
    assert c2.net[c.clock + 1] == SnapshotAnswer(j, i, a, t) && c2.servers == c.servers[j := f];
    Next(rules, n, trace + [Send(i, j)] + [Deliver(c.clock)], c2, Deliver(c.clock + 1));
    d := Apply(c2, Deliver(c.clock + 1));
    assert d.servers == c.servers[j := f][i := HandleSnapshotReply(s, j, a, t)];
  }

  lemma RoundKeepsMe(p: Pair, to: nat)
    requires Ready(p.s, p.f, to)
    ensures Round(p, to).s.me == p.s.me && Round(p, to).s.term == p.s.term
    ensures p.s.lastIncludedIndex == 0 ==> Round(p, to).applied == p.applied && Round(p, to).f.lastIncludedIndex == 0
  {}

  /** The events of `m` rounds between peers `i` and `j`. */
  ghost predicate Exchange(events: seq<Event>, i: nat, j: nat) {
    forall x {:trigger events[x]} :: 0 <= x < |events| ==> events[x] == Send(i, j) || events[x].Deliver?
  }

  lemma {:induction false} RoundsRun(rules: Rules, n: nat, trace: seq<Event>, c: Cluster, i: nat, j: nat, m: nat)
      returns (more: seq<Event>, d: Cluster)
    requires Reaches(rules, n, trace, c) && HandledBefore(c) && i < c.N() && j < c.N() && i != j
    requires c.servers[i].me == i && c.servers[i].lastIncludedIndex == 0 && Ready(c.servers[i], c.servers[j], j)
    ensures Reaches(rules, n, trace + more, d) && |more| == 3 * m && Exchange(more, i, j)
    ensures var r := Rounds(Pair(c.servers[i], c.servers[j], 0), j, m); d.servers == c.servers[i := r.s][j := r.f]
    decreases m
  {
    hide IsRun, After, Reaches, Round;
    if m == 0 {
      more, d := [], c;
      assert trace + [] == trace;
    } else {
      var d1 := RoundRuns(rules, n, trace, c, i, j);
      RoundKeepsMe(Pair(c.servers[i], c.servers[j], 0), j);
      var first := [Send(i, j), Deliver(c.clock), Deliver(c.clock + 1)];
      assert trace + first == trace + [Send(i, j)] + [Deliver(c.clock)] + [Deliver(c.clock + 1)];
      var rest;
      rest, d := RoundsRun(rules, n, trace + first, d1, i, j, m - 1);
      more := first + rest;
      assert trace + first + rest == trace + more;
    }
  }

  /**
   Every run can go on to repair any follower that has not gone past the leader's term, if what is
   due to it can be generated at all: by `m` exchanges between the two and nothing else, for every
   `m` that is large enough.
   */
  lemma FollowersCanBeRepaired(rules: Rules, n: nat, trace: seq<Event>, i: nat, j: nat, m: nat)
      returns (more: seq<Event>)
    requires rules.votes && IsRun(rules, n, trace)
    requires var c := After(rules, n, trace);
             && i < c.N() && j < c.N() && i != j && c.servers[i].role == Leader
             && c.servers[j].term <= c.servers[i].term && NoPanic(c, Send(i, j)) && m >= c.servers[i].nextIndex[j] + 2
    requires m >= 2
    ensures |more| == 3 * m && Exchange(more, i, j) && IsRun(rules, n, trace + more)
    ensures var c, d := After(rules, n, trace), After(rules, n, trace + more);
            && d.N() == c.N() && d.servers == c.servers[i := d.servers[i]][j := d.servers[j]]
            && d.servers[i].role == Leader && d.servers[i].log == c.servers[i].log
            && d.servers[j].log == d.servers[i].log && Repaired(d.servers[i], d.servers[j], j)
  {
    hide IsRun, After;
    var c := After(rules, n, trace);
    var k := RunKeeps(rules, n, trace);
    RunHandled(rules, n, trace);
    var s, f := c.servers[i], c.servers[j];
    PeersMatch(c, k, i, j);
    hide Match, Base, Round;
    RepairConverges(Pair(s, f, 0), j, m);
    var d;
    more, d := RoundsRun(rules, n, trace, c, i, j, m);
    var l := RunKeeps(rules, n, trace + more);
    SameLogs(d, l, i, j);
  }

  lemma SameLogs(c: Cluster, k: Record, i: nat, j: nat)
    requires Base(c, k) && i < c.N() && j < c.N() && Repaired(c.servers[i], c.servers[j], j)
    ensures c.servers[j].log == c.servers[i].log
  {
    var l, m := c.servers[i].log, c.servers[j].log;
    assert ServerLink(k, c.servers[i], i) && ServerLink(k, c.servers[j], j) && ServerOk(k.h, i) && ServerOk(k.h, j);
    assert l == [l[0]] + l[1..] && m == [m[0]] + m[1..];
  }

  lemma PeersMatch(c: Cluster, k: Record, i: nat, j: nat)
    requires Base(c, k) && i < c.N() && j < c.N() && i != j && c.servers[i].role == Leader
    requires c.servers[j].term <= c.servers[i].term && NoPanic(c, Send(i, j))
    ensures var s, f := c.servers[i], c.servers[j];
            s.me == i && s.lastIncludedIndex == 0 && Ready(s, f, j) && Match(s, f)
  {
    hide Match, NetOk;
    var s, f := c.servers[i], c.servers[j];
    assert ServerLink(k, s, i) && ServerLink(k, f, j) && ServerOk(k.h, i) && ServerOk(k.h, j);
    WholeMatch(k.h, s, f);
  }

  lemma WholeMatch(h: History, s: Server, f: Server)
    requires MatchInv(h) && LogOk(h, s.log) && LogOk(h, f.log) && s.lastIncludedIndex == f.lastIncludedIndex == 0
    ensures Match(s, f)
  {
    hide MatchInv, LogOk;
    var g := Gap(s, f);
    forall x: nat | 1 <= x < |s.log| && g + x < |f.log| && s.log[x].term == f.log[g + x].term
      ensures s.log[1..x + 1] == f.log[g + 1..g + x + 1]
    {
      hide Agree;
      Matching(h, s.log, f.log, x);
      Sliced(s.log, f.log, x);
    }
  }

  lemma Sliced(l: Log, m: Log, x: nat)
    requires Agree(l, m, x)
    ensures l[1..x + 1] == m[1..x + 1]
  {
    assert l[1..x + 1] == l[..x + 1][1..] && m[1..x + 1] == m[..x + 1][1..];
  }

  /** What a request that is accepted late costs: exactly the acknowledged entries beyond its own end. */
  lemma AcceptedKeeps(k: Record, f: Server, from: nat, a: AppendArgs, x: nat)
    requires MatchInv(k.h) && LogOk(k.h, f.log) && AppendRequestOk(k, from, a) && f.lastIncludedIndex == 0
    requires AppendEntries(f, a).1.success && Agree(f.log, k.h.reign[a.term].log, x)
    ensures Agree(AppendEntries(f, a).0.log, k.h.reign[a.term].log, x) <==> x <= LastOf(a)
  {
    ReplacedLog(k.h, f.log, from, a, k);
    var l := k.h.reign[a.term].log;
    assert AppendEntries(f, a).0.log == l[..LastOf(a) + 1];
    if x <= LastOf(a) {
      AgreePrefix(l[..LastOf(a) + 1], l, x);
    }
  }
}
