/**
 Replication (section 5.3 of the extended Raft paper): commands, AppendEntries and its replies
 keep the relation of the cluster to its history, and so logs match.

 Steps are treated as in elections: `...Record` is what a step adds to the history, `...Keeps`
 that the relation holds afterwards.
 */
module RaftReplication {
  import opened RaftLog
  import opened RaftServer
  import opened RaftCluster
  import opened RaftHistory
  import opened RaftSteps
  import opened RaftLink
  import opened RaftElection

  // ---- a step that changes neither terms, logs, votes nor reigns ----

  /** Peer `i` keeps its part of the history. */
  lemma QuietPeer(c: Cluster, k: Record, d: Cluster, i: nat)
    requires Base(c, k) && i < c.N() && d.N() == c.N() && ServerLink(k, d.servers[i], i)
    requires PeerOnward(c.servers[i], d.servers[i])
    requires forall j {:trigger d.servers[j]} :: 0 <= j < c.N() && j != i ==> d.servers[j] == c.servers[j]
    ensures Onward(c, k, d, k) && ServersOk(d, k)
  {
    SameReign(k.h, k.h);
    forall j | 0 <= j < c.N() ensures PeerOnward(c.servers[j], d.servers[j]) {}
    assert Onward(c, k, d, k);
    forall j | 0 <= j < c.N() && j != i ensures d.servers[j] == c.servers[j] && Untouched(k, k, c.servers[j], j) {}
    PeersAfter(c, k, d, k, i);
  }

  lemma Unvoted(m: Message)
    requires !m.VoteRequest? && !m.VoteAnswer?
    ensures forall cand, voter, t :: !AboutVote(m, cand, voter, t)
  {}

  // ---- a command ----

  ghost function SubmitRecord(c: Cluster, k: Record, i: nat, command: Command): Record
    requires i < c.N()
  {
    var s := c.servers[i];
    var e := LogEntry(s.term, command);
    if s.role == Leader && CanExtend(k.h, s.term, e) then k.(h := Extend(k.h, s.term, e)) else k
  }

  lemma SubmitPeers(c: Cluster, k: Record, i: nat, command: Command)
    requires Base(c, k) && i < c.N() && c.servers[i].role == Leader
    ensures CanExtend(k.h, c.servers[i].term, LogEntry(c.servers[i].term, command))
    ensures var d, l := Apply(c, Submit(i, command)), SubmitRecord(c, k, i, command);
            MatchInv(l.h) && Onward(c, k, d, l) && ServersOk(d, l)
  {
    hide MatchInv, NetOk, LogOk, CandidateOk;
    var s := c.servers[i];
    var d, l, e := Apply(c, Submit(i, command)), SubmitRecord(c, k, i, command), LogEntry(s.term, command);
    assert ServerLink(k, s, i);
    ExtendMatch(k.h, s.term, e);
    assert ServerLink(l, d.servers[i], i);
    forall j | 0 <= j < c.N() ensures PeerOnward(c.servers[j], d.servers[j]) {}
    assert Onward(c, k, d, l);
    forall j | 0 <= j < c.N() && j != i ensures d.servers[j] == c.servers[j] && Untouched(k, l, c.servers[j], j) {
      assert k.h.reign[s.term].who == i;
    }
    PeersAfter(c, k, d, l, i);
  }

  lemma SubmitKeeps(c: Cluster, k: Record, i: nat, command: Command)
    requires Base(c, k) && i < c.N()
    ensures Base(Apply(c, Submit(i, command)), SubmitRecord(c, k, i, command))
    ensures c.servers[i].role == Leader ==> CanExtend(k.h, c.servers[i].term, LogEntry(c.servers[i].term, command))
  {
    hide MatchInv, NetOk, LogOk, CandidateOk;
    var d, l := Apply(c, Submit(i, command)), SubmitRecord(c, k, i, command);
    if c.servers[i].role == Leader {
      SubmitPeers(c, k, i, command);
    } else {
      assert ServerLink(k, c.servers[i], i);
      QuietPeer(c, k, d, i);
    }
    hide Onward, ServersOk;
    CarriedSame(c, k, l, d.net);
    NetAfter(c, k, d, l);
  }

  // ---- sending ----

  /** What a leader generates is a stretch of its log, up to its end. */
  lemma GeneratedOk(k: Record, s: Server, to: nat)
    requires LeaderOk(k, s) && |k.h.reign[s.term].first| <= |s.log| && s.lastIncludedIndex == 0 && s.log != []
    requires to < |s.nextIndex| && s.nextIndex[to] <= |s.log|
    ensures GenAppend(s, to).Append? ==> AppendRequestOk(k, s.me, GenAppend(s, to).args)
  {
    if GenAppend(s, to).Append? {
      var next := s.nextIndex[to];
      assert s.log[next..] == s.log[next..|s.log|];
    }
  }

  lemma SentOk(c: Cluster, k: Record, i: nat, to: nat)
    requires Base(c, k) && i < c.N() && to < c.N() && i != to && c.servers[i].role == Leader
    requires NoPanic(c, Send(i, to))
    ensures GenAppend(c.servers[i], to).Append? ==> AppendRequestOk(k, i, GenAppend(c.servers[i], to).args)
  {
    var s := c.servers[i];
    assert ServerLink(k, s, i) && ReignOk(k.h, s.term);
    hide MatchInv, NetOk, ReignOk, LogOk, AppendRequestOk;
    GeneratedOk(k, s, to);
  }

  lemma SendKeeps(c: Cluster, k: Record, i: nat, to: nat)
    requires Base(c, k) && i < c.N() && to < c.N() && i != to && c.servers[i].role == Leader
    requires NoPanic(c, Send(i, to))
    ensures Base(Apply(c, Send(i, to)), k)
  {
    SentOk(c, k, i, to);
    var d := Apply(c, Send(i, to));
    assert ServerLink(k, c.servers[i], i);
    QuietPeer(c, k, d, i);
    CarriedSame(c, k, k, c.net);
    var m := d.net[c.clock];
    Unvoted(m);
    NetPosted(c, k, d, k, c.net, m);
  }

  // ---- AppendEntries ----

  ghost function AppendRecord(c: Cluster, k: Record, to: nat, a: AppendArgs): Record
    requires to < c.N() == |k.h.term| == |k.h.log| && c.servers[to].log != [] && ToStorage(c.servers[to], a.prev) >= -1
  {
    var k1 := RaisedFor(c, k, to, a.term);
    var m := a.prev + |a.entries|;
    if AppendEntries(c.servers[to], a).1.success && m >= 0 && CanAccept(k1.h, to, m) then k1.(h := Accept(k1.h, to, m))
        else k1
  }

  /** What an accepted request leaves is the leader's log, up to where the request goes. */
  lemma ReplacedLog(h: History, l: Log, from: nat, a: AppendArgs, k: Record)
    requires MatchInv(h) && h == k.h && LogOk(h, l) && AppendRequestOk(k, from, a) && a.prev < |l|
    requires a.prev > 0 ==> l[a.prev].term == a.prevTerm
    ensures l[..a.prev + 1] + a.entries == h.reign[a.term].log[..a.prev + |a.entries| + 1]
  {
    var r := h.reign[a.term];
    assert ReignOk(h, a.term);
    Matching(h, l, r.log, a.prev);
    assert r.log[..a.prev + |a.entries| + 1] == r.log[..a.prev + 1] + a.entries;
  }

  lemma AppendTarget(c: Cluster, k: Record, from: nat, to: nat, a: AppendArgs)
    requires Base(c, k) && to < c.N() && AppendRequestOk(k, from, a)
    ensures c.servers[to].log != [] && ToStorage(c.servers[to], a.prev) >= -1
    ensures ServerLink(k, c.servers[to], to) && ServerOk(k.h, to) && MatchInv(k.h)
  {
    hide NetOk;
    assert ServerLink(k, c.servers[to], to) && ServerOk(k.h, to);
  }

  lemma AppendRejected(c: Cluster, k: Record, from: nat, to: nat, a: AppendArgs)
    requires Base(c, k) && to < c.N() && from != to && AppendRequestOk(k, from, a)
    requires c.servers[to].log != [] && ToStorage(c.servers[to], a.prev) >= -1
    requires !AppendEntries(c.servers[to], a).1.success
    ensures MatchInv(AppendRecord(c, k, to, a).h) &&
            ServerLink(AppendRecord(c, k, to, a), AppendEntries(c.servers[to], a).0, to)
    ensures AppendAnswerOk(AppendRecord(c, k, to, a), from, a, AppendEntries(c.servers[to], a).1)
  {
    var s := c.servers[to];
    AppendTarget(c, k, from, to, a);
    hide Base, MatchInv, CandidateOk, LeaderOk, ReignOk;
    if a.term > s.term {
      SteppedDown(k, s, to, a.term);
      RaiseMatch(k.h, to, a.term);
    }
  }

  lemma AppendAccepted(c: Cluster, k: Record, from: nat, to: nat, a: AppendArgs)
    requires Base(c, k) && to < c.N() && from != to && AppendRequestOk(k, from, a)
    requires c.servers[to].log != [] && ToStorage(c.servers[to], a.prev) >= -1
    requires AppendEntries(c.servers[to], a).1.success
    ensures MatchInv(AppendRecord(c, k, to, a).h) &&
            ServerLink(AppendRecord(c, k, to, a), AppendEntries(c.servers[to], a).0, to)
    ensures CanAccept(RaisedFor(c, k, to, a.term).h, to, a.prev + |a.entries|)
    ensures AppendAnswerOk(AppendRecord(c, k, to, a), from, a, AppendEntries(c.servers[to], a).1)
  {
    var s := c.servers[to];
    AppendTarget(c, k, from, to, a);
    hide Base, MatchInv, CandidateOk, LeaderOk, ReignOk, ConflictStart;
    var k1 := RaisedFor(c, k, to, a.term);
    if a.term > s.term {
      SteppedDown(k, s, to, a.term);
      RaiseMatch(k.h, to, a.term);
    }
    ReplacedLog(k.h, s.log, from, a, k);
    var m := a.prev + |a.entries|;
    assert CanAccept(k1.h, to, m);
    AcceptMatch(k1.h, to, m);
    assert ServerOk(Accept(k1.h, to, m), to);
  }

  lemma AppendPeer(c: Cluster, k: Record, from: nat, to: nat, a: AppendArgs)
    requires Base(c, k) && to < c.N() && from != to && AppendRequestOk(k, from, a)
    ensures c.servers[to].log != [] && ToStorage(c.servers[to], a.prev) >= -1
    ensures MatchInv(AppendRecord(c, k, to, a).h) &&
            ServerLink(AppendRecord(c, k, to, a), AppendEntries(c.servers[to], a).0, to)
    ensures AppendEntries(c.servers[to], a).1.success ==>
            CanAccept(RaisedFor(c, k, to, a.term).h, to, a.prev + |a.entries|)
    ensures AppendAnswerOk(AppendRecord(c, k, to, a), from, a, AppendEntries(c.servers[to], a).1)
  {
    hide Base, AppendEntries, AppendRecord, ServerLink, MatchInv, AppendAnswerOk, CanAccept, AppendRequestOk;
    AppendTarget(c, k, from, to, a);
    if AppendEntries(c.servers[to], a).1.success {
      AppendAccepted(c, k, from, to, a);
    } else {
      AppendRejected(c, k, from, to, a);
    }
  }

  lemma AppendRecordFacts(c: Cluster, k: Record, to: nat, a: AppendArgs)
    requires to < c.N() == |k.h.term| == |k.h.log| && c.servers[to].log != [] && ToStorage(c.servers[to], a.prev) >= -1
    ensures var l := AppendRecord(c, k, to, a);
            && l.h.reign == k.h.reign && l.h.vote == k.h.vote && l.counted == k.counted
            && |l.h.term| == |l.h.log| == c.N()
            && (forall j :: 0 <= j < c.N() && j != to ==> l.h.term[j] == k.h.term[j] && l.h.log[j] == k.h.log[j])
            && (AppendEntries(c.servers[to], a).0.role == Candidate ==> l == k)
    ensures PeerOnward(c.servers[to], AppendEntries(c.servers[to], a).0)
  {
    AppendStands(c.servers[to], a);
    hide AppendEntries;
  }

  /** Only a peer that refuses an old leader goes on standing. */
  lemma AppendStands(s: Server, a: AppendArgs)
    requires s.log != [] && ToStorage(s, a.prev) >= -1
    ensures PeerOnward(s, AppendEntries(s, a).0)
    ensures AppendEntries(s, a).0.role == Candidate ==> a.term < s.term && !AppendEntries(s, a).1.success
  {
    hide ConflictStart, FollowerCommit;
  }

  lemma AppendPeers(c: Cluster, k: Record, d: Cluster, from: nat, to: nat, a: AppendArgs)
    requires Base(c, k) && to < c.N() && from != to && AppendRequestOk(k, from, a)
    requires c.servers[to].log != [] && ToStorage(c.servers[to], a.prev) >= -1
    requires d.servers == c.servers[to := AppendEntries(c.servers[to], a).0]
    ensures Onward(c, k, d, AppendRecord(c, k, to, a)) && ServersOk(d, AppendRecord(c, k, to, a))
  {
    hide NetOk, LogOk, MatchInv, AppendRecord, AppendEntries;
    var l := AppendRecord(c, k, to, a);
    AppendPeer(c, k, from, to, a);
    AppendRecordFacts(c, k, to, a);
    SameReign(k.h, l.h);
    forall j | 0 <= j < c.N() ensures PeerOnward(c.servers[j], d.servers[j]) {}
    assert Onward(c, k, d, l);
    forall j | 0 <= j < c.N() && j != to ensures d.servers[j] == c.servers[j] && Untouched(k, l, c.servers[j], j) {}
    PeersAfter(c, k, d, l, to);
  }

  lemma AppendKeeps(c: Cluster, k: Record, id: nat, from: nat, to: nat, a: AppendArgs)
    requires Base(c, k) && id in c.net && c.net[id] == AppendRequest(from, to, a)
    ensures Addressed(c, c.net[id]) && NoPanic(c, Deliver(id))
    ensures Base(Apply(c, Deliver(id)), AppendRecord(c, k, to, a))
  {
    hide MatchInv, Onward, ServerLink, OneAboutEachVote;
    assert MessageOk(c, k, c.net[id]);
    AppendPeer(c, k, from, to, a);
    var d, l := Apply(c, Deliver(id)), AppendRecord(c, k, to, a);
    AppendPeers(c, k, d, from, to, a);
    var net := Taken(c, id).net;
    CarriedSame(c, k, l, net);
    var m := AppendAnswer(to, from, a, AppendEntries(c.servers[to], a).1);
    Unvoted(m);
    assert MessageOk(d, l, m);
    NetPosted(c, k, d, l, net, m);
  }

  // ---- the reply to AppendEntries ----

  ghost function AppendAnswerRecord(c: Cluster, k: Record, to: nat, r: AppendReply): Record
    requires to < c.N() && to < k.h.N()
  {
    if c.servers[to].role == Leader then RaisedFor(c, k, to, r.term) else k
  }

  lemma AppendAnswerKeeps(c: Cluster, k: Record, id: nat, from: nat, to: nat, a: AppendArgs, r: AppendReply)
    requires Base(c, k) && id in c.net && c.net[id] == AppendAnswer(from, to, a, r)
    requires Addressed(c, c.net[id]) && NoPanic(c, Deliver(id))
    ensures Base(Apply(c, Deliver(id)), AppendAnswerRecord(c, k, to, r))
  {
    hide MatchInv, OneAboutEachVote, LeaderCommit, Retreat;
    assert MessageOk(c, k, c.net[id]);
    var s := c.servers[to];
    assert ServerLink(k, s, to);
    var d, l := Apply(c, Deliver(id)), AppendAnswerRecord(c, k, to, r);
    if s.role == Leader && r.term > s.term {
      StepDownOnward(c, k, d, to, r.term);
    } else {
      QuietPeer(c, k, d, to);
    }
    CarriedSame(c, k, l, d.net);
    NetAfter(c, k, d, l);
  }

  // ---- snapshots nobody needs: terms, and the step from index 0 to 1 ----

  lemma SnapshotRequestKeeps(c: Cluster, k: Record, id: nat, from: nat, to: nat, a: SnapshotArgs)
    requires Base(c, k) && id in c.net && c.net[id] == SnapshotRequest(from, to, a)
    ensures Addressed(c, c.net[id]) && NoPanic(c, Deliver(id))
    ensures Base(Apply(c, Deliver(id)), RaisedFor(c, k, to, a.term))
  {
    hide MatchInv, OneAboutEachVote;
    assert MessageOk(c, k, c.net[id]);
    assert ServerLink(k, c.servers[to], to);
    var d, l := Apply(c, Deliver(id)), RaisedFor(c, k, to, a.term);
    if a.term > c.servers[to].term {
      StepDownOnward(c, k, d, to, a.term);
    } else {
      QuietPeer(c, k, d, to);
    }
    var net := Taken(c, id).net;
    CarriedSame(c, k, l, net);
    var m := SnapshotAnswer(to, from, a, InstallSnapshot(c.servers[to], a, 0).1);
    Unvoted(m);
    NetPosted(c, k, d, l, net, m);
  }

  ghost function SnapshotAnswerRecord(c: Cluster, k: Record, to: nat, a: SnapshotArgs, t: nat): Record
    requires to < c.N() && to < k.h.N()
  {
    if c.servers[to].role == Leader && c.servers[to].term == a.term then RaisedFor(c, k, to, t) else k
  }

  lemma SnapshotAnswerKeeps(c: Cluster, k: Record, id: nat, from: nat, to: nat, a: SnapshotArgs, t: nat)
    requires Base(c, k) && id in c.net && c.net[id] == SnapshotAnswer(from, to, a, t)
    ensures Addressed(c, c.net[id]) && NoPanic(c, Deliver(id))
    ensures Base(Apply(c, Deliver(id)), SnapshotAnswerRecord(c, k, to, a, t))
  {
    hide OneAboutEachVote;
    assert MessageOk(c, k, c.net[id]);
    var s := c.servers[to];
    assert ServerLink(k, s, to) && ServerOk(k.h, to);
    var d, l := Apply(c, Deliver(id)), SnapshotAnswerRecord(c, k, to, a, t);
    if s.role == Leader && s.term == a.term && t > s.term {
      StepDownOnward(c, k, d, to, t);
    } else {
      QuietPeer(c, k, d, to);
    }
    CarriedSame(c, k, l, d.net);
    NetAfter(c, k, d, l);
  }
}
