module RaftGuards {
  // The guards on replies of an earlier term: what they keep out does harm.

  import opened RaftServer
  import opened RaftCluster
  import opened RaftHistory
  import opened RaftLink
  import opened RaftCommit
  import opened RaftBounds
  import opened RaftSafety

  /** A leader has counted the votes of a majority in its own term. */
  predicate Earned(s: Server) {
    s.role == Leader ==> s.term in s.count && s.count[s.term] > |s.nextIndex| / 2
  }

  /** A candidate among several peers has not, in its term. */
  predicate Tallied(s: Server) {
    Earned(s) && (s.role == Candidate && |s.nextIndex| > 1 ==>
        s.term in s.count && s.count[s.term] <= |s.nextIndex| / 2)
  }

  ghost predicate AllTallied(c: Cluster) {
    forall i {:trigger c.servers[i]} :: 0 <= i < c.N() ==> Tallied(c.servers[i])
  }

  lemma VoteTallied(s: Server, t: nat, r: VoteReply)
    requires Tallied(s) && t in s.count && |s.nextIndex| > 1
    ensures Tallied(HandleVoteReply(s, t, r)) <==> VoteGuard(s, t, r)
    ensures Earned(HandleVoteReply(s, t, r)) <==> VoteGuard(s, t, r)
  {}

  lemma TalliedStep(rules: Rules, c: Cluster, ev: Event)
    requires AllTallied(c) && Enabled(rules, c, ev) && rules.votes && NoPanic(c, ev)
    requires ev.Deliver? && c.net[ev.id].VoteAnswer? ==> |c.servers[c.net[ev.id].to].nextIndex| > 1
    ensures AllTallied(Apply(c, ev))
  {
    hide RequestVote, AppendEntries, HandleAppendReply, HandleVoteReply, InstallSnapshot, HandleSnapshotReply,
        VoteGuard, HintGuard, AckGuard;
    var d := Apply(c, ev);
    match ev
    case Timeout(i) =>
    case Submit(i, _) =>
    case Send(_, _) =>
    case Deliver(id) =>
      var s := c.servers[c.net[id].to];
      assert Tallied(s);
      match c.net[id] {
        case VoteRequest(_, _, a) => RequestTallied(s, a);
        case VoteAnswer(_, _, t, r) => VoteTallied(s, t, r);
        case AppendRequest(_, _, a) => AppendTallied(s, a);
        case AppendAnswer(from, _, a, r) => ReplyTallied(s, from, a, r);
        case SnapshotRequest(_, _, a) => SnapshotTallied(s, a, 0);
        case SnapshotAnswer(from, _, a, t) => SnapshotReplyTallied(s, from, a, t);
      }
  }

  lemma RequestTallied(s: Server, a: VoteArgs)
    requires Tallied(s) && s.log != []
    ensures Tallied(RequestVote(s, a).0)
  {}

  lemma AppendTallied(s: Server, a: AppendArgs)
    requires Tallied(s) && s.log != [] && ToStorage(s, a.prev) >= -1
    ensures Tallied(AppendEntries(s, a).0)
  {}

  lemma ReplyTallied(s: Server, from: nat, a: AppendArgs, r: AppendReply)
    requires Tallied(s) && from < |s.nextIndex| == |s.matchIndex| && s.commit >= s.lastIncludedIndex
    requires s.role == Leader ==> ToStorage(s, s.nextIndex[from]) <= |s.log|
    ensures Tallied(HandleAppendReply(s, from, a, r))
  {
    hide LeaderCommit, Retreat;
  }

  lemma SnapshotTallied(s: Server, a: SnapshotArgs, lastApplied: int)
    requires Tallied(s)
    ensures Tallied(InstallSnapshot(s, a, lastApplied).0)
  {}

  lemma SnapshotReplyTallied(s: Server, from: nat, a: SnapshotArgs, t: nat)
    requires Tallied(s) && from < |s.nextIndex| == |s.matchIndex|
    ensures Tallied(HandleSnapshotReply(s, from, a, t))
  {}

  /** In a run, who gets a reply is one of several. */
  lemma Several(rules: Rules, n: nat, trace: seq<Event>, id: nat)
    requires rules.votes && IsRun(rules, n, trace) && id in After(rules, n, trace).net
    ensures var c := After(rules, n, trace); Addressed(c, c.net[id]) && |c.servers[c.net[id].to].nextIndex| > 1
  {
    hide IsRun, After;
    var k := RunKeeps(rules, n, trace);
    var c := After(rules, n, trace);
    BaseMessage(c, k, id);
    assert ServerLink(k, c.servers[c.net[id].to], c.net[id].to);
  }

  lemma {:induction false} RunTallied(rules: Rules, n: nat, trace: seq<Event>)
    requires rules.votes && IsRun(rules, n, trace)
    ensures AllTallied(After(rules, n, trace))
  {
    if trace != [] {
      hide Apply, NoPanic;
      var before, ev := trace[..|trace| - 1], trace[|trace| - 1];
      RunTallied(rules, n, before);
      if ev.Deliver? && ev.id in After(rules, n, before).net {
        Several(rules, n, before, ev.id);
      }
      TalliedStep(rules, After(rules, n, before), ev);
    }
  }

  /** In every run, every leader has counted a majority for its own term. */
  lemma LeadersAreEarned(rules: Rules, n: nat, trace: seq<Event>, i: nat)
    requires rules.votes && IsRun(rules, n, trace) && i < After(rules, n, trace).N()
    ensures Earned(After(rules, n, trace).servers[i])
  {
    RunTallied(rules, n, trace);
  }

  /** And the guard is exact: it lets a vote be counted iff that leaves no leader without a majority in its term. */
  lemma VoteGuardIsExact(rules: Rules, n: nat, trace: seq<Event>, id: nat)
    requires rules.votes && IsRun(rules, n, trace) && id in After(rules, n, trace).net &&
             After(rules, n, trace).net[id].VoteAnswer?
    ensures var c := After(rules, n, trace); Enabled(ANY, c, Deliver(id)) && NoPanic(c, Deliver(id))
    ensures var c := After(rules, n, trace);
            Enabled(rules, c, Deliver(id)) <==> forall i {:trigger Apply(c, Deliver(id)).servers[i]} ::
                0 <= i < c.N() ==> Earned(Apply(c, Deliver(id)).servers[i])
  {
    var c := After(rules, n, trace);
    var m := c.net[id];
    Several(rules, n, trace, id);
    RunTallied(rules, n, trace);
    var k := RunKeeps(rules, n, trace);
    BaseMessage(c, k, id);
    hide IsRun, After, HandleVoteReply, VoteGuard;
    assert Tallied(c.servers[m.to]);
    VoteTallied(c.servers[m.to], m.election, m.granted);
    assert Apply(c, Deliver(id)).servers[m.to] == HandleVoteReply(c.servers[m.to], m.election, m.granted);
  }

  /**
   The guard on rejections is exact: after a rejection the leader can generate what is due to that
   follower iff the hint fits what the leader holds before.
   */
  lemma RejectionGuardIsExact(rules: Rules, n: nat, trace: seq<Event>, id: nat)
    requires rules.votes && IsRun(rules, n, trace) && id in After(rules, n, trace).net
    requires After(rules, n, trace).net[id].AppendAnswer?
    requires var c := After(rules, n, trace);
             var m := c.net[id];
             && Addressed(c, m) && c.servers[m.to].role == Leader
             && !m.result.success && m.result.term <= c.servers[m.to].term && NoPanic(c, Deliver(id))
    ensures var c := After(rules, n, trace);
            var m, d := c.net[id], Apply(c, Deliver(id));
            && Enabled(ANY, d, Send(m.to, m.from))
            && (NoPanic(d, Send(m.to, m.from)) <==> HintFits(c.servers[m.to], m.from, m.result))
            && (rules.hints ==> (Enabled(rules, c, Deliver(id)) <==> HintFits(c.servers[m.to], m.from, m.result)))
  {
    hide IsRun, After;
    var c := After(rules, n, trace);
    var m := c.net[id];
    var s := c.servers[m.to];
    var k := RunKeeps(rules, n, trace);
    BaseMessage(c, k, id);
    PeerFacts(c, k, m.to);
    OwnHintFits(c, k, id);
    RetreatFits(s, m.from, m.result);
    hide Base, HintFits, Retreat;
    var d := Apply(c, Deliver(id));
    assert d.servers[m.to] == s.(nextIndex := s.nextIndex[m.from := Retreat(s, m.from, m.result)]);
    assert d.servers[m.to].nextIndex[m.from] == Retreat(s, m.from, m.result);
  }

  /** Peer `j` has acknowledged every index, of the leader's term or yet to come, that the leader takes it to have. */
  ghost predicate RightlyCounted(h: History, s: Server, j: nat)
    requires j < |s.matchIndex|
  {
    forall n: nat {:trigger Earlier(s, n)} :: n <= s.matchIndex[j] && !Earlier(s, n) ==> n <= Acked(h, j, s.term)
  }

  /** In every run with the guard on acknowledgements, every leader counts every peer rightly. */
  lemma LeadersCountRightly(rules: Rules, n: nat, trace: seq<Event>) returns (k: Record)
    requires rules.votes && Committing(rules) && IsRun(rules, n, trace)
    ensures var c := After(rules, n, trace);
            && Linked(rules, c, k)
            && forall i: nat, j: nat {:trigger RightlyCounted(k.h, c.servers[i], j)} ::
                 i < c.N() && c.servers[i].role == Leader && j < |c.servers[i].matchIndex| && j != i ==>
                   RightlyCounted(k.h, c.servers[i], j)
  {
    hide IsRun, After;
    k := RunKeeps(rules, n, trace);
    var c := After(rules, n, trace);
    forall i: nat, j: nat | i < c.N() && c.servers[i].role == Leader && j < |c.servers[i].matchIndex| && j != i
      ensures RightlyCounted(k.h, c.servers[i], j)
    {
      var s := c.servers[i];
      assert ServerLink(k, s, i) && ServerOk(k.h, i) && PeerCommit(k.h, s, i);
      assert Known(k.h, s, j, s.matchIndex[j]);
      CountedRightly(k.h, s, j, s.matchIndex[j]);
    }
  }

  /**
   Handling an acknowledgement, stale or not, leaves the peer counted rightly iff it has acknowledged
   as much to this leader, or all it tells of is of earlier terms.  A leader sees the first only
   from its matchIndex, which is what the guard asks.
   */
  lemma SuccessIsCountedRightly(rules: Rules, n: nat, trace: seq<Event>, id: nat) returns (k: Record)
    requires rules.votes && IsRun(rules, n, trace) && id in After(rules, n, trace).net
    requires After(rules, n, trace).net[id].AppendAnswer?
    requires var c := After(rules, n, trace);
             var m := c.net[id];
             && Addressed(c, m) && c.servers[m.to].role == Leader
             && m.result.success && m.result.term <= c.servers[m.to].term && NoPanic(c, Deliver(id))
    ensures var c := After(rules, n, trace);
            var m := c.net[id];
            var s := Apply(c, Deliver(id)).servers[m.to];
            && Linked(rules, c, k) && m.from < |s.matchIndex|
            && (RightlyCounted(k.h, s, m.from) <==>
                LastOf(m.append) <= Acked(k.h, m.from, s.term) || Earlier(s, LastOf(m.append)))
  {
    hide IsRun, After, LeaderCommit;
    k := RunKeeps(rules, n, trace);
    var c := After(rules, n, trace);
    var m := c.net[id];
    BaseMessage(c, k, id);
    var s := c.servers[m.to];
    assert ServerLink(k, s, m.to) && ServerOk(k.h, m.to);
    CountedRightly(k.h, Apply(c, Deliver(id)).servers[m.to], m.from, LastOf(m.append));
  }

  lemma CountedRightly(h: History, s: Server, j: nat, m: int)
    requires MatchInv(h) && LogOk(h, s.log) && s.lastIncludedIndex == 0 && j < |s.matchIndex| && s.matchIndex[j] == m
    ensures RightlyCounted(h, s, j) <==> m <= Acked(h, j, s.term) || Earlier(s, m)
  {
    if Earlier(s, m) {
      forall n: nat | n <= m ensures Earlier(s, n) {
        NotEarlier(h, s, n, m);
      }
    }
  }
}
