module RaftLaws {
  // What the handlers of one peer promise whoever talks to it: that it tells its term, so that
  // leaders and candidates of the past give up; and that its rejections point a leader past a whole
  // term at a time (the last paragraphs of section 5.3 of the extended Raft paper).

  import opened RaftLog
  import opened RaftServer
  import opened RaftBounds
  import opened RaftRepair

  // ---- terms ----

  /** A reply to AppendEntries tells the term the peer is in from then on, the later of its own and the request's. */
  lemma AppendTellsTerm(s: Server, a: AppendArgs)
    requires s.log != [] && ToStorage(s, a.prev) >= -1
    ensures var (r, reply) := AppendEntries(s, a);
            && reply.term == r.term == (if a.term > s.term then a.term else s.term)
            && (a.term >= s.term ==> r.role == Follower) && (a.term < s.term ==> r == s && !reply.success)
            && (r.term > s.term ==> r.votedFor == -1) && (r.term == s.term ==> r.votedFor == s.votedFor)
  {
    hide ConflictStart, FollowerCommit;
  }

  /** A reply to a snapshot tells the term whenever it differs from the leader's own idea of it. */
  lemma SnapshotTellsTerm(s: Server, a: SnapshotArgs, lastApplied: int)
    ensures var (r, t) := InstallSnapshot(s, a, lastApplied);
            && r.term == (if a.term > s.term then a.term else s.term)
            && (a.term != s.term ==> t == r.term) && (a.term == s.term ==> t == 0)
            && (r.term > s.term ==> r.role == Follower && r.votedFor == -1)
            && (r.term == s.term ==> r.role == s.role && r.votedFor == s.votedFor)
            && (a.term < s.term ==> r == s)
  {}

  /** A leader that talks to a peer of a later term follows from then on, in that term and without a vote. */
  lemma LateLeaderLearns(s: Server, f: Server, to: nat, lastApplied: int)
    requires s.role == Leader && s.log != [] && f.log != [] && s.term < f.term
    requires to < |s.nextIndex| == |s.matchIndex| && ToStorage(s, s.nextIndex[to]) <= |s.log|
    requires s.commit >= s.lastIncludedIndex
    ensures match GenAppend(s, to)
            case Append(a) =>
              ToStorage(f, a.prev) >= -1 ==> HandleAppendReply(s, to, a, AppendEntries(f, a).1) == StepDown(s, f.term)
            case NeedSnapshot =>
              var a := OwnSnapshot(s);
              HandleSnapshotReply(s, to, a, InstallSnapshot(f, a, lastApplied).1) == StepDown(s, f.term)
    ensures var r := StepDown(s, f.term); r == s.(term := f.term, role := Follower, votedFor := -1)
  {}

  /** So does a candidate that asks for the vote of a peer of a later term. */
  lemma LateCandidateLearns(s: Server, f: Server)
    requires s.log != [] && f.log != [] && s.term < f.term && s.term in s.count
    ensures HandleVoteReply(s, s.term, RequestVote(f, VoteArgsOf(s)).1) == StepDown(s, f.term)
  {}

  // ---- rejections ----

  /** A request is taken iff it is not of an earlier term, and the log has an entry of the right term at `prev`. */
  lemma TakenIff(s: Server, a: AppendArgs)
    requires s.log != [] && ToStorage(s, a.prev) >= -1
    ensures AppendEntries(s, a).1.success <==>
            && a.term >= s.term && a.prev <= LastLogical(s)
            && (a.prev > s.lastIncludedIndex ==> s.log[ToStorage(s, a.prev)].term == a.prevTerm)
  {
    hide ConflictStart, FollowerCommit;
  }

  /**
   A rejection points at the last entry if `prev` is behind it, and else at the first of the entries
   before `prev` whose terms are not below that of the entry there, which it names.
   */
  lemma HintsAreRight(s: Server, a: AppendArgs)
    requires s.log != [] && ToStorage(s, a.prev) >= -1 && a.term >= s.term && !AppendEntries(s, a).1.success
    ensures var r, b := AppendEntries(s, a).1, s.lastIncludedIndex;
            && (a.prev > LastLogical(s) ==> r.conflictIndex == LastLogical(s) && r.conflictTerm == 0)
            && (a.prev <= LastLogical(s) ==>
                  && b < r.conflictIndex <= a.prev && r.conflictTerm == s.log[a.prev - b].term
                  && (forall x {:trigger s.log[x]} ::
                        r.conflictIndex - b <= x <= a.prev - b ==> s.log[x].term >= r.conflictTerm)
                  && (r.conflictIndex > b + 1 ==> s.log[r.conflictIndex - 1 - b].term < r.conflictTerm))
  {}

  /** The leader goes back behind its last entry of that term, if it has one before what was due, and else as told. */
  lemma RetreatIs(s: Server, from: nat, r: AppendReply, i: int)
    requires Ascending(s.log) && from < |s.nextIndex| && ToStorage(s, s.nextIndex[from]) <= |s.log|
    requires -1 <= i < ToStorage(s, s.nextIndex[from])
    requires i >= 0 ==> s.log[i].term == r.conflictTerm != 0
    requires forall j {:trigger s.log[j]} :: i < j < ToStorage(s, s.nextIndex[from]) ==>
               s.log[j].term != r.conflictTerm || r.conflictTerm == 0
    ensures Retreat(s, from, r) == if i >= 0 then i + 1 else r.conflictIndex
  {
    var t := TermSearch(s.log, ToStorage(s, s.nextIndex[from] - 1), r.conflictTerm);
    assert i >= 0 ==> i <= t && s.log[i].term <= s.log[t].term;
  }

  // ---- a term at a time ----

  /** Logs as they are without compaction: terms ascend, from that of the placeholder. */
  ghost predicate Whole(s: Server) {
    && s.log != [] && s.lastIncludedIndex == 0 && Ascending(s.log) && s.log[0].term == 0
    && forall i {:trigger s.log[i]} :: 1 <= i < |s.log| ==> s.log[i].term > 0
  }

  /** The terms of the entries up to `k`. */
  ghost function TermsUpTo(l: Log, k: int): set<nat> {
    set x | 1 <= x <= k && x < |l| :: l[x].term
  }

  lemma MoreTerms(l: Log, j: int, k: int)
    requires j <= k
    ensures |TermsUpTo(l, j)| <= |TermsUpTo(l, k)|
  {
    Subset(TermsUpTo(l, j), TermsUpTo(l, k));
  }

  lemma SomeTerm(l: Log, k: int)
    requires 1 <= k < |l|
    ensures |TermsUpTo(l, k)| >= 1
  {
    assert l[k].term in TermsUpTo(l, k);
  }

  lemma FewerTerms(l: Log, j: int, k: int)
    requires Ascending(l) && j < k < |l| && 1 <= k && (j >= 1 ==> l[j].term < l[k].term)
    ensures |TermsUpTo(l, j)| < |TermsUpTo(l, k)|
  {
    var p, q := TermsUpTo(l, j), TermsUpTo(l, k);
    assert l[k].term in q;
    forall t | t in p ensures t in q && t != l[k].term {
      var x :| 1 <= x <= j && x < |l| && l[x].term == t;
      assert l[x].term <= l[j].term;
      assert l[x].term in q;
    }
    Smaller(p, q, l[k].term);
  }

  lemma Smaller(p: set<nat>, q: set<nat>, t: nat)
    requires p <= q && t in q && t !in p
    ensures |p| < |q|
  {
    assert p <= q - {t};
    Subset(p, q - {t});
  }

  lemma {:induction false} Subset(p: set<nat>, q: set<nat>)
    requires p <= q
    ensures |p| <= |q|
  {
    if p != {} {
      var x :| x in p;
      Subset(p - {x}, q - {x});
    }
  }

  /** Exchanges still to come: one for each term of the follower up to what is due, and one that is taken. */
  ghost function Steps(p: Pair, to: nat): nat
    requires to < |p.s.nextIndex|
  {
    var prev := p.s.nextIndex[to] - 1;
    if prev < 0 then 2
    else if prev > LastLogical(p.f) then |TermsUpTo(p.f.log, LastLogical(p.f))| + 3
    else |TermsUpTo(p.f.log, prev)| + 1
  }

  /** What is due to the follower will be taken. */
  ghost predicate Due(p: Pair, to: nat)
    requires Ready(p.s, p.f, to)
  {
    p.s.nextIndex[to] > p.s.lastIncludedIndex && AppendEntries(p.f, GenAppend(p.s, to).args).1.success
  }

  /** Where a rejection leaves the leader. */
  lemma RejectedLeads(p: Pair, to: nat)
    requires Ready(p.s, p.f, to) && Whole(p.s) && Whole(p.f) && p.s.nextIndex[to] > 0 && !Due(p, to)
    ensures var r, l, last := Round(p, to), p.f.log, LastLogical(p.f);
            var prev, next := p.s.nextIndex[to] - 1, r.s.nextIndex[to] - 1;
            && r.f.log == l && r.f.lastIncludedIndex == 0 && next < prev
            && if prev > last then next == last - 1
               else
                 && 0 <= next && 1 <= prev
                 && (next >= 1 ==> p.s.log[next].term == l[prev].term || l[next].term < l[prev].term)
  {
    var a := GenAppend(p.s, to).args;
    var r, reply := Round(p, to), AppendEntries(p.f, a).1;
    RejectedRound(p, to);
    HintsAreRight(p.f, a);
    RejectedTerm(p, to);
    TakenIff(p.f, a);
    assert r.s.nextIndex[to] == Retreat(p.s, to, reply);
    hide AppendEntries, HandleAppendReply, Round;
    if a.prev <= LastLogical(p.f) {
      BackATerm(p.s, p.f, to, a.prev, reply);
    }
  }

  /** After a rejection there is a term less to go, or the next request is taken. */
  lemma RejectionSkipsTerm(p: Pair, to: nat)
    requires Ready(p.s, p.f, to) && Whole(p.s) && Whole(p.f) && p.s.nextIndex[to] > 0 && !Due(p, to)
    ensures var r := Round(p, to);
            && r.f.log == p.f.log && r.f.lastIncludedIndex == 0 && Steps(p, to) >= 2
            && (Due(r, to) || Steps(r, to) < Steps(p, to))
  {
    RejectedLeads(p, to);
    var r, l, last := Round(p, to), p.f.log, LastLogical(p.f);
    var prev, next := p.s.nextIndex[to] - 1, r.s.nextIndex[to] - 1;
    assert last == |l| - 1 == LastLogical(r.f) && Ascending(l) && prev < |p.s.log|;
    hide AppendEntries, Round, Due, Ready, Whole, Ascending, TermsUpTo;
    if prev > last {
      MoreTerms(l, last - 1, last);
    } else {
      SomeTerm(l, prev);
      if next < 1 || l[next].term < l[prev].term {
        FewerTerms(l, next, prev);
      } else {
        InOrder(l, next, prev);
        NextIsDue(r, to);
      }
    }
  }

  lemma InOrder(l: Log, i: nat, j: nat)
    requires Ascending(l) && i <= j < |l|
    ensures l[i].term <= l[j].term
  {}

  lemma NextIsDue(p: Pair, to: nat)
    requires Ready(p.s, p.f, to) && p.s.lastIncludedIndex == p.f.lastIncludedIndex == 0
    requires 1 <= p.s.nextIndex[to] - 1 <= LastLogical(p.f)
    requires p.s.log[p.s.nextIndex[to] - 1].term == p.f.log[p.s.nextIndex[to] - 1].term
    ensures Due(p, to)
  {
    TakenIff(p.f, GenAppend(p.s, to).args);
  }

  lemma RejectedTerm(p: Pair, to: nat)
    requires Ready(p.s, p.f, to) && p.s.nextIndex[to] > p.s.lastIncludedIndex
    ensures Round(p, to).f.term == p.s.term && Round(p, to).s.term == p.s.term
    ensures AppendEntries(p.f, GenAppend(p.s, to).args).1.term == p.s.term
  {
    hide ConflictStart, FollowerCommit, LeaderCommit;
  }

  /** A conflict takes the leader to an entry of the same term of its own, or where the follower's terms are lower. */
  lemma BackATerm(s: Server, f: Server, to: nat, prev: int, r: AppendReply)
    requires Whole(s) && Whole(f) && to < |s.nextIndex| && s.nextIndex[to] <= |s.log| && prev == s.nextIndex[to] - 1
    requires 1 <= prev < |f.log| && 1 <= r.conflictIndex <= prev
    requires r.conflictTerm == f.log[prev].term != s.log[prev].term
    requires r.conflictIndex > 1 ==> f.log[r.conflictIndex - 1].term < r.conflictTerm
    ensures var next := Retreat(s, to, r) - 1;
            && 0 <= next < prev
            && (next >= 1 ==> s.log[next].term == r.conflictTerm || f.log[next].term < f.log[prev].term)
  {}

  /**
   Logs that were never compacted are repaired a term at a time: whatever their length, one exchange for each term
   in the follower's log, and three more, are enough.
   */
  lemma {:induction false} RepairByTerms(p: Pair, to: nat, n: nat)
    requires Ready(p.s, p.f, to) && Whole(p.s)
    requires || Repaired(p.s, p.f, to)
             || (Match(p.s, p.f) && Due(p, to) && n >= 1)
             || (Match(p.s, p.f) && Whole(p.f) && n >= Steps(p, to))
    ensures Repaired(Rounds(p, to, n).s, Rounds(p, to, n).f, to)
    decreases n
  {
    hide Round, Match, Whole, Repaired, Due, Steps;
    if n > 0 {
      StepByTerm(p, to);
      RepairByTerms(Round(p, to), to, n - 1);
    } else {
      NoneLeft(p, to);
    }
  }

  lemma NoneLeft(p: Pair, to: nat)
    requires to < |p.s.nextIndex|
    ensures Steps(p, to) > 0
  {}

  lemma StepByTerm(p: Pair, to: nat)
    requires Ready(p.s, p.f, to) && Whole(p.s)
    requires Repaired(p.s, p.f, to) || (Match(p.s, p.f) && Due(p, to)) || (Match(p.s, p.f) && Whole(p.f))
    ensures var r := Round(p, to);
            && Whole(r.s)
            && (Repaired(r.s, r.f, to)
                || (!Repaired(p.s, p.f, to) && !Due(p, to) && Steps(p, to) >= 2 && Match(r.s, r.f)
                    && (Due(r, to) || (Whole(r.f) && Steps(r, to) < Steps(p, to)))))
  {
    hide Match, AppendEntries, HandleAppendReply;
    if p.s.nextIndex[to] > 0 {
      AppendRoundConverges(p, to);
      TakenOver(p.s, p.f, to);
      RepairedTakes(p, to);
      if !Due(p, to) {
        RejectionSkipsTerm(p, to);
      }
    } else {
      LateRound(p, to);
      SnapshotRoundSettles(p, to);
      SettledIsDue(Round(p, to), to);
    }
  }

  lemma SettledIsDue(p: Pair, to: nat)
    requires Ready(p.s, p.f, to) && p.s.nextIndex[to] == 1 && p.s.lastIncludedIndex == 0
    ensures Due(p, to)
  {
    TakenIff(p.f, GenAppend(p.s, to).args);
  }
}
