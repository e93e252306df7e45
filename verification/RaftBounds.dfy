/**
 What a leader takes to be due to its followers lies within its log, so that no handler indexes out
 of range: kept by every step if rejections of an earlier term are handled as their guard allows.
 */
module RaftBounds {
  import opened RaftLog
  import opened RaftServer
  import opened RaftCluster
  import opened RaftHistory
  import opened RaftLink

  predicate Bounded(s: Server) {
    s.role == Leader ==> forall j {:trigger s.nextIndex[j]} :: 0 <= j < |s.nextIndex| ==> 0 <= s.nextIndex[j] <= |s.log|
  }

  ghost predicate AllBounded(c: Cluster) {
    forall i {:trigger c.servers[i]} :: 0 <= i < c.N() ==> Bounded(c.servers[i])
  }

  // ---- rejections ----

  ghost predicate Ascending(l: Log) {
    forall i, j {:trigger l[i], l[j]} :: 0 <= i <= j < |l| ==> l[i].term <= l[j].term
  }

  /** Going back ends within the log exactly if the hint fits. */
  lemma RetreatFits(s: Server, from: nat, r: AppendReply)
    requires Ascending(s.log) && s.lastIncludedIndex >= 0
    requires from < |s.nextIndex| && ToStorage(s, s.nextIndex[from]) <= |s.log|
    ensures Retreat(s, from, r) <= LastLogical(s) + 1 <==> HintFits(s, from, r)
  {
    var t := TermSearch(s.log, ToStorage(s, s.nextIndex[from] - 1), r.conflictTerm);
    if i :| 0 <= i < |s.log| && i < ToStorage(s, s.nextIndex[from]) && s.log[i].term == r.conflictTerm {
      assert i <= t && s.log[i].term <= s.log[t].term;
    }
  }

  lemma LogsAscend(h: History, l: Log)
    requires MatchInv(h) && LogOk(h, l)
    ensures Ascending(l)
  {
    forall i, j | 0 <= i <= j < |l| ensures l[i].term <= l[j].term {
      Monotone(h, l, i, j);
    }
  }

  // ---- one peer ----

  lemma VoteBounded(s: Server, a: VoteArgs)
    requires Bounded(s) && s.log != []
    ensures Bounded(RequestVote(s, a).0)
  {}

  lemma AnswerBounded(s: Server, t: nat, r: VoteReply)
    requires Bounded(s) && t in s.count && s.lastIncludedIndex == 0
    ensures Bounded(HandleVoteReply(s, t, r))
  {}

  lemma AppendBounded(s: Server, a: AppendArgs)
    requires Bounded(s) && s.log != [] && ToStorage(s, a.prev) >= -1
    ensures Bounded(AppendEntries(s, a).0)
  {
    hide ConflictStart, FollowerCommit;
  }

  lemma ReplyBounded(s: Server, from: nat, a: AppendArgs, r: AppendReply)
    requires Bounded(s) && s.lastIncludedIndex == 0 && Ascending(s.log) && s.log != []
    requires from < |s.nextIndex| == |s.matchIndex| && s.commit >= s.lastIncludedIndex
    requires s.role == Leader && r.term <= s.term && !r.success ==> r.conflictIndex >= 0 && HintFits(s, from, r)
    ensures s.role == Leader ==> ToStorage(s, s.nextIndex[from]) <= |s.log|
    ensures Bounded(HandleAppendReply(s, from, a, r))
  {
    if s.role == Leader {
      assert 0 <= s.nextIndex[from] <= |s.log|;
      RetreatFits(s, from, r);
    }
    hide LeaderCommit, HintFits, Ascending, TermSearch;
  }

  lemma SnapshotBounded(s: Server, a: SnapshotArgs)
    requires Bounded(s) && a.lastIncludedIndex <= s.lastIncludedIndex
    ensures Bounded(InstallSnapshot(s, a, 0).0)
  {}

  lemma SnapshotReplyBounded(s: Server, from: nat, a: SnapshotArgs, t: nat)
    requires Bounded(s) && s.log != [] && a.lastIncludedIndex == 0 && from < |s.nextIndex| == |s.matchIndex|
    ensures Bounded(HandleSnapshotReply(s, from, a, t))
  {}

  // ---- the cluster ----

  lemma PeerFacts(c: Cluster, k: Record, i: nat)
    requires Base(c, k) && i < c.N()
    ensures var s := c.servers[i];
            && s.log != [] && s.lastIncludedIndex == 0 && s.commit >= 0 && Ascending(s.log)
            && |s.nextIndex| == |s.matchIndex| == c.N()
            && (s.role == Leader ==> s.term in k.h.reign && k.h.reign[s.term].log == s.log)
  {
    assert ServerLink(k, c.servers[i], i) && ServerOk(k.h, i);
    LogsAscend(k.h, c.servers[i].log);
  }

  lemma MessageFacts(c: Cluster, k: Record, id: nat)
    requires Base(c, k) && id in c.net
    ensures c.N() == |k.h.term| == |k.h.log| && MessageOk(c, k, c.net[id])
  {}

  /** A rejection of the leader's own term always fits. */
  lemma OwnHintFits(c: Cluster, k: Record, id: nat)
    requires Base(c, k) && id in c.net && c.net[id].AppendAnswer? && Addressed(c, c.net[id])
    ensures var m := c.net[id];
            var s := c.servers[m.to];
            && (!m.result.success ==> m.result.conflictIndex >= 0)
            && (s.role == Leader && s.term == m.append.term && !m.result.success ==> HintFits(s, m.from, m.result))
  {
    MessageFacts(c, k, id);
    PeerFacts(c, k, c.net[id].to);
    hide Base, Ascending;
  }

  /** Every enabled event goes through, and leaves every leader within its log. */
  lemma BoundedStep(rules: Rules, c: Cluster, k: Record, ev: Event)
    requires Base(c, k) && AllBounded(c) && rules.hints && Enabled(rules, c, ev)
    ensures NoPanic(c, ev) && AllBounded(Apply(c, ev))
  {
    hide Base, RequestVote, AppendEntries, HandleAppendReply, HandleVoteReply, InstallSnapshot, HandleSnapshotReply,
        HintFits, Ascending, GenAppend;
    match ev
    case Timeout(i) => PeerFacts(c, k, i);
    case Submit(i, _) =>
      assert Bounded(c.servers[i]);
    case Send(i, to) =>
      PeerFacts(c, k, i);
      assert Bounded(c.servers[i]);
    case Deliver(id) => BoundedDelivery(rules, c, k, id);
  }

  lemma BoundedDelivery(rules: Rules, c: Cluster, k: Record, id: nat)
    requires Base(c, k) && AllBounded(c) && rules.hints && Enabled(rules, c, Deliver(id))
    ensures NoPanic(c, Deliver(id)) && AllBounded(Apply(c, Deliver(id)))
  {
    MessageFacts(c, k, id);
    PeerFacts(c, k, c.net[id].to);
    hide Base, RequestVote, AppendEntries, HandleAppendReply, HandleVoteReply, InstallSnapshot, HandleSnapshotReply,
        HintFits, Ascending;
    var s := c.servers[c.net[id].to];
    assert Bounded(s);
    match c.net[id]
    case VoteRequest(_, _, a) => VoteBounded(s, a);
    case VoteAnswer(_, _, t, r) => AnswerBounded(s, t, r);
    case AppendRequest(_, _, a) => AppendBounded(s, a);
    case AppendAnswer(from, _, a, r) =>
      OwnHintFits(c, k, id);
      ReplyBounded(s, from, a, r);
    case SnapshotRequest(_, _, a) => SnapshotBounded(s, a);
    case SnapshotAnswer(from, _, a, t) => SnapshotReplyBounded(s, from, a, t);
  }
}
