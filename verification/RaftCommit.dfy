/**
 Commitment (section 5.4 of the extended Raft paper): every commit index, and every leaderCommit
 under way, is backed by an entry that a majority has acknowledged to the leader of its term.

 For each step there is a lemma `...Commit`: after the step commit indexes are backed again, no
 acknowledgement is forgotten, and no commit index has gone back.
 */
module RaftCommit {
  import opened RaftLog
  import opened RaftServer
  import opened RaftCluster
  import opened RaftHistory
  import opened RaftSteps
  import opened RaftLink
  import opened RaftElection
  import opened RaftReplication

  ghost function Acked(h: History, v: nat, t: nat): nat {
    if (v, t) in h.acked then h.acked[(v, t)] else 0
  }

  /** Entry `j` of the leader of `t` is replicated, and `l` has the leader's entries up to `c <= j`. */
  ghost predicate Backs(h: History, t: nat, j: nat, l: Log, c: nat) {
    Replicated(h, t, j) && c <= j && Agree(l, h.reign[t].log, c)
  }

  ghost predicate CommitBacked(h: History, s: Server, i: nat) {
    && s.commit >= 0
    && (s.commit == 0 || exists t: nat, j: nat {:trigger Backs(h, t, j, s.log, s.commit)} ::
          Backs(h, t, j, s.log, s.commit) && t <= s.term && (t == s.term ==> s.commit <= Acked(h, i, t)))
  }

  /** What the leader takes peer `j` to have, it has acknowledged, or it is of earlier terms and does not count. */
  ghost predicate Known(h: History, s: Server, j: nat, n: int) {
    n <= Acked(h, j, s.term) || Earlier(s, n)
  }

  ghost predicate LeaderAcks(h: History, s: Server, i: nat) {
    && (i, s.term) in h.acked && h.acked[(i, s.term)] == |s.log| - 1
    && (forall j: nat {:trigger s.matchIndex[j]} :: j < |s.matchIndex| && j != i ==> Known(h, s, j, s.matchIndex[j]))
  }

  ghost predicate PeerCommit(h: History, s: Server, i: nat) {
    CommitBacked(h, s, i) && (s.role == Leader ==> LeaderAcks(h, s, i))
  }

  ghost predicate RequestBacked(h: History, a: AppendArgs)
    requires a.term in h.reign
  {
    a.leaderCommit <= 0 || exists t: nat, j: nat {:trigger Backs(h, t, j, h.reign[a.term].log, a.leaderCommit)} ::
      Backs(h, t, j, h.reign[a.term].log, a.leaderCommit) && t <= a.term && a.leaderCommit <= LastOf(a)
  }

  ghost predicate MessageCommit(c: Cluster, h: History, id: nat, m: Message) {
    match m
    case AppendRequest(from, to, a) =>
      a.term in h.reign && RequestBacked(h, a) && (InOrder(c, id, from, to) ==> Acked(h, to, a.term) <= LastOf(a))
    case AppendAnswer(from, _, a, r) => r.success ==> LastOf(a) <= Acked(h, from, a.term)
    case _ => true
  }

  /** Of two requests of one leader, the later one reaches as far. */
  ghost predicate Increasing(net: map<nat, Message>) {
    forall x, y {:trigger net[x], net[y]} ::
      x in net && y in net && x < y && net[x].AppendRequest? && net[y].AppendRequest? &&
          net[x].append.term == net[y].append.term ==>
        LastOf(net[x].append) <= LastOf(net[y].append)
  }

  ghost predicate CommitLink(c: Cluster, k: Record) {
    && CommitInv(k.h)
    && (forall i {:trigger PeerCommit(k.h, c.servers[i], i)} :: 0 <= i < c.N() ==> PeerCommit(k.h, c.servers[i], i))
    && (forall id {:trigger MessageCommit(c, k.h, id, c.net[id])} :: id in c.net ==>
        MessageCommit(c, k.h, id, c.net[id]))
    && Increasing(c.net)
    && (forall x {:trigger c.handled[x]} :: x in c.handled ==> c.handled[x] < c.clock)
  }

  // ---- nothing replicated is ever taken back ----

  ghost predicate MoreAcked(h: History, g: History) {
    && Grows(h, g) && |g.term| == |h.term|
    && (forall x {:trigger x in h.acked} :: x in h.acked ==> x in g.acked && h.acked[x] <= g.acked[x])
  }

  lemma ReplicatedStays(h: History, g: History, t: nat, j: nat)
    requires MoreAcked(h, g) && Replicated(h, t, j)
    ensures Replicated(g, t, j)
  {
    var q :| Majority(h.N(), q) && AckedBy(h, t, j, q);
    assert AckedBy(g, t, j, q);
  }

  lemma BacksStays(h: History, g: History, t: nat, j: nat, l: Log, m: Log, c: nat)
    requires MoreAcked(h, g) && Backs(h, t, j, l, c) && l <= m
    ensures Backs(g, t, j, m, c)
  {
    ReplicatedStays(h, g, t, j);
    var r, q := h.reign[t].log, g.reign[t].log;
    AgreePrefix(l, m, c);
    AgreeTransitive(l, m, m, c);
    AgreeTransitive(m, l, r, c);
    AgreePrefix(r, q, c);
    AgreeTransitive(m, r, q, c);
  }

  /** The commit index stays backed while the log keeps what is committed and the term moves on. */
  lemma CommitStays(h: History, g: History, s: Server, r: Server, i: nat)
    requires MoreAcked(h, g) && CommitBacked(h, s, i) && r.commit == s.commit && s.log <= r.log && s.term <= r.term
    ensures CommitBacked(g, r, i)
  {
    if s.commit > 0 {
      var t: nat, j: nat :| Backs(h, t, j, s.log, s.commit) && t <= s.term &&
          (t == s.term ==> s.commit <= Acked(h, i, t));
      BacksStays(h, g, t, j, s.log, r.log, s.commit);
    }
  }

  /** Peers that do nothing. */
  lemma OtherCommit(h: History, g: History, s: Server, i: nat)
    requires MoreAcked(h, g) && PeerCommit(h, s, i)
    requires s.role == Leader ==> Acked(g, i, s.term) == Acked(h, i, s.term)
    ensures PeerCommit(g, s, i)
  {
    CommitStays(h, g, s, s, i);
    if s.role == Leader {
      forall j: nat | j < |s.matchIndex| && j != i ensures Known(g, s, j, s.matchIndex[j]) {
        assert Known(h, s, j, s.matchIndex[j]);
      }
    }
  }

  lemma RequestStays(h: History, g: History, a: AppendArgs)
    requires MoreAcked(h, g) && a.term in h.reign && RequestBacked(h, a)
    ensures a.term in g.reign && RequestBacked(g, a)
  {
    if a.leaderCommit > 0 {
      var t: nat, j: nat :| Backs(h, t, j, h.reign[a.term].log, a.leaderCommit) && t <= a.term &&
          a.leaderCommit <= LastOf(a);
      BacksStays(h, g, t, j, h.reign[a.term].log, g.reign[a.term].log, a.leaderCommit);
    }
  }

  /** A message under way; `d` may have handled one more request, if the message is still not too late then. */
  lemma MessageStays(c: Cluster, h: History, d: Cluster, g: History, id: nat, m: Message)
    requires MoreAcked(h, g) && MessageCommit(c, h, id, m)
    requires m.AppendRequest? && InOrder(d, id, m.from, m.to) ==>
               InOrder(c, id, m.from, m.to) &&
                   (Acked(g, m.to, m.append.term) == Acked(h, m.to, m.append.term) ||
                   Acked(g, m.to, m.append.term) <= LastOf(m.append))
    ensures MessageCommit(d, g, id, m)
  {
    match m
    case AppendRequest(from, to, a) => RequestStays(h, g, a);
    case AppendAnswer(from, to, a, r) =>
    case VoteRequest(_, _, _) =>
    case VoteAnswer(_, _, _, _) =>
    case SnapshotRequest(_, _, _) =>
    case SnapshotAnswer(_, _, _, _) =>
  }

  // ---- putting a step together ----

  /** Acknowledgements changed at most of server `v` to the leader of `t`, and only to more. */
  ghost predicate AckedElsewhere(h: History, g: History, v: nat, t: nat) {
    MoreAcked(h, g) && forall w: nat, u: nat {:trigger Acked(g, w, u)} :: (w, u) != (v, t) ==>
        Acked(g, w, u) == Acked(h, w, u)
  }

  ghost predicate PeersCommit(c: Cluster, h: History) {
    forall i {:trigger PeerCommit(h, c.servers[i], i)} :: 0 <= i < c.N() ==> PeerCommit(h, c.servers[i], i)
  }

  ghost predicate MessagesCommit(c: Cluster, h: History, net: map<nat, Message>) {
    forall id {:trigger MessageCommit(c, h, id, net[id])} :: id in net ==> MessageCommit(c, h, id, net[id])
  }

  lemma PeersCommitAfter(c: Cluster, h: History, d: Cluster, g: History, i: nat, t: nat)
    requires PeersCommit(c, h) && AckedElsewhere(h, g, i, t) && i < c.N() == d.N() && PeerCommit(g, d.servers[i], i)
    requires forall j {:trigger d.servers[j]} :: 0 <= j < c.N() && j != i ==> d.servers[j] == c.servers[j]
    ensures PeersCommit(d, g)
  {
    forall j | 0 <= j < d.N() ensures PeerCommit(g, d.servers[j], j) {
      if j != i {
        assert d.servers[j] == c.servers[j] && PeerCommit(h, c.servers[j], j);
        OtherCommit(h, g, c.servers[j], j);
      }
    }
  }

  predicate Plain(m: Message) {
    !m.AppendRequest? && !m.AppendAnswer?
  }

  /** What is new in `net` has nothing to do with AppendEntries. */
  ghost predicate OldOrPlain(c: Cluster, net: map<nat, Message>) {
    forall id {:trigger net[id]} :: id in net ==> Plain(net[id]) || (id in c.net && net[id] == c.net[id])
  }

  /**
   Messages stay right when no request was handled and nobody acknowledged more to a leader with
   requests to it under way.
   */
  lemma MessagesCommitAfter(c: Cluster, h: History, d: Cluster, g: History, net: map<nat, Message>, v: nat, t: nat)
    requires MessagesCommit(c, h, c.net) && AckedElsewhere(h, g, v, t) && d.handled == c.handled && OldOrPlain(c, net)
    requires forall id {:trigger net[id]} :: id in net && net[id].AppendRequest? ==>
             (net[id].to, net[id].append.term) != (v, t)
    ensures MessagesCommit(d, g, net)
  {
    forall id | id in net ensures MessageCommit(d, g, id, net[id]) {
      var m := net[id];
      if !Plain(m) {
        assert MessageCommit(c, h, id, c.net[id]);
        if m.AppendRequest? {
          assert Acked(g, m.to, m.append.term) == Acked(h, m.to, m.append.term);
        }
        MessageStays(c, h, d, g, id, m);
      }
    }
  }

  lemma IncreasingOld(c: Cluster, net: map<nat, Message>)
    requires Increasing(c.net) && OldOrPlain(c, net)
    ensures Increasing(net)
  {
    forall x, y | x in net && y in net && x < y && net[x].AppendRequest? && net[y].AppendRequest? &&
        net[x].append.term == net[y].append.term
      ensures LastOf(net[x].append) <= LastOf(net[y].append)
    {
      assert net[x] == c.net[x] && net[y] == c.net[y];
    }
  }

  lemma IncreasingPosted(net: map<nat, Message>, id: nat, m: Message)
    requires Increasing(net) && (forall x :: x in net ==> x < id)
    requires m.AppendRequest? ==> forall x {:trigger net[x]} ::
               x in net && net[x].AppendRequest? && net[x].append.term == m.append.term ==>
                 LastOf(net[x].append) <= LastOf(m.append)
    ensures Increasing(net[id := m])
  {
    var more := net[id := m];
    forall x, y | x in more && y in more && x < y && more[x].AppendRequest? && more[y].AppendRequest? &&
        more[x].append.term == more[y].append.term
      ensures LastOf(more[x].append) <= LastOf(more[y].append)
    {
      if y == id {
        assert more[x] == net[x];
      } else {
        assert more[x] == net[x] && more[y] == net[y];
      }
    }
  }

  /** The link is kept, nothing acknowledged is forgotten, and no commit index goes back. */
  ghost predicate CommitOnward(c: Cluster, k: Record, d: Cluster, l: Record) {
    && CommitLink(d, l) && MoreAcked(k.h, l.h) && c.N() == d.N()
    && (forall i {:trigger d.servers[i]} :: 0 <= i < c.N() ==> c.servers[i].commit <= d.servers[i].commit)
  }

  /** A step of peer `i` in which no AppendEntries request is sent or handled. */
  lemma QuietCommit(c: Cluster, k: Record, d: Cluster, l: Record, i: nat, t: nat)
    requires CommitLink(c, k) && CommitInv(l.h) && AckedElsewhere(k.h, l.h, i, t) && i < c.N() == d.N()
    requires PeerCommit(l.h, d.servers[i], i) && d.handled == c.handled && c.clock <= d.clock &&
             c.servers[i].commit <= d.servers[i].commit
    requires forall j {:trigger d.servers[j]} :: 0 <= j < c.N() && j != i ==> d.servers[j] == c.servers[j]
    requires OldOrPlain(c, d.net)
    requires forall id {:trigger d.net[id]} :: id in d.net && d.net[id].AppendRequest? ==>
             (d.net[id].to, d.net[id].append.term) != (i, t)
    ensures CommitOnward(c, k, d, l)
  {
    hide CommitInv, PeerCommit, MessageCommit;
    assert PeersCommit(c, k.h) && MessagesCommit(c, k.h, c.net);
    PeersCommitAfter(c, k.h, d, l.h, i, t);
    MessagesCommitAfter(c, k.h, d, l.h, d.net, i, t);
    IncreasingOld(c, d.net);
  }

  lemma NothingAcked(h: History, g: History, v: nat, t: nat)
    requires g.reign == h.reign && g.acked == h.acked && |g.term| == |h.term|
    ensures AckedElsewhere(h, g, v, t)
  {
    SameReign(h, g);
  }

  // ---- elections ----

  /** A peer that gets to a later term keeps its log and its commit index. */
  lemma LaterTerm(h: History, g: History, s: Server, r: Server, i: nat)
    requires MoreAcked(h, g) && PeerCommit(h, s, i) && r.commit == s.commit && r.log == s.log && s.term <= r.term &&
             r.role != Leader
    ensures PeerCommit(g, r, i)
  {
    CommitStays(h, g, s, r, i);
  }

  /** No request is to a peer that is its own leader: nobody sends to itself. */
  lemma NotToItself(c: Cluster, k: Record, i: nat, t: nat)
    requires Base(c, k) && (t !in k.h.reign || k.h.reign[t].who == i)
    ensures forall id {:trigger c.net[id]} :: id in c.net && c.net[id].AppendRequest? ==>
            (c.net[id].to, c.net[id].append.term) != (i, t)
  {
    forall id | id in c.net && c.net[id].AppendRequest? ensures (c.net[id].to, c.net[id].append.term) != (i, t) {
      assert MessageOk(c, k, c.net[id]);
    }
  }

  /** A step in which nobody acknowledges anything and no request is sent or handled. */
  lemma UnackedCommit(c: Cluster, k: Record, d: Cluster, l: Record, i: nat)
    requires Base(c, k) && CommitLink(c, k) && CommitInv(l.h) && i < c.N() == d.N()
    requires l.h.reign == k.h.reign && l.h.acked == k.h.acked && |l.h.term| == |k.h.term|
    requires PeerCommit(l.h, d.servers[i], i) && d.handled == c.handled && c.clock <= d.clock &&
             c.servers[i].commit <= d.servers[i].commit
    requires forall j {:trigger d.servers[j]} :: 0 <= j < c.N() && j != i ==> d.servers[j] == c.servers[j]
    requires OldOrPlain(c, d.net)
    ensures CommitOnward(c, k, d, l)
  {
    assert 0 !in k.h.reign by {
      if 0 in k.h.reign {
        ReignFact(k.h, 0, i);
        assert false;
      }
    }
    NothingAcked(k.h, l.h, i, 0);
    NotToItself(c, k, i, 0);
    hide CommitInv, PeerCommit, MessageCommit, MatchInv, ServersOk, MessageOk;
    QuietCommit(c, k, d, l, i, 0);
  }

  lemma TimeoutPeerCommit(c: Cluster, k: Record, i: nat)
    requires Base(c, k) && CommitLink(c, k) && i < c.N() && NoPanic(c, Timeout(i))
    ensures var l, s := TimeoutRecord(c, k, i), StartElection(c.servers[i]);
            && CommitInv(l.h) && l.h.reign == k.h.reign && l.h.acked == k.h.acked && |l.h.term| == |k.h.term|
            && PeerCommit(l.h, s, i)
  {
    hide MessageCommit, MessageOk, NetOk, Increasing, ServerClaims, BallotClaims;
    var l, t := TimeoutRecord(c, k, i), c.servers[i].term + 1;
    assert ServerLink(k, c.servers[i], i);
    SteppedDown(k, c.servers[i], i, t);
    RaiseCommit(k.h, i, t);
    CastVoteCommit(Raise(k.h, i, t), i, i);
    SameReign(k.h, l.h);
    assert PeerCommit(k.h, c.servers[i], i);
    LaterTerm(k.h, l.h, c.servers[i], StartElection(c.servers[i]), i);
  }

  lemma TimeoutCommit(c: Cluster, k: Record, i: nat)
    requires Base(c, k) && CommitLink(c, k) && i < c.N() == |k.h.term| == |k.h.log| && NoPanic(c, Timeout(i))
    ensures CommitOnward(c, k, Apply(c, Timeout(i)), TimeoutRecord(c, k, i))
  {
    hide Base, CommitLink, CommitOnward, CommitInv, PeerCommit, TimeoutRecord;
    TimeoutPeerCommit(c, k, i);
    var d, l := Apply(c, Timeout(i)), TimeoutRecord(c, k, i);
    forall id | id in d.net ensures Plain(d.net[id]) || (id in c.net && d.net[id] == c.net[id]) {}
    UnackedCommit(c, k, d, l, i);
  }

  lemma VoteRequestHistory(c: Cluster, k: Record, id: nat, from: nat, to: nat, a: VoteArgs)
    requires Base(c, k) && CommitLink(c, k) && id in c.net && c.net[id] == VoteRequest(from, to, a)
    requires Addressed(c, c.net[id]) && NoPanic(c, Deliver(id))
    ensures var l, s := VoteRequestRecord(c, k, from, to, a), RequestVote(c.servers[to], a).0;
            && CommitInv(l.h) && l.h.reign == k.h.reign && l.h.acked == k.h.acked && |l.h.term| == |k.h.term|
            && PeerCommit(l.h, s, to)
  {
    hide MessageCommit, Increasing, ServerClaims, BallotClaims;
    assert MessageOk(c, k, c.net[id]);
    var l, s := VoteRequestRecord(c, k, from, to, a), c.servers[to];
    assert ServerLink(k, s, to) && ServerLink(k, c.servers[from], from) && PeerCommit(k.h, s, to);
    var k1 := RaisedFor(c, k, to, a.term);
    if a.term > s.term {
      SteppedDown(k, s, to, a.term);
      RaiseCommit(k.h, to, a.term);
    }
    SameReign(k.h, l.h);
    if RequestVote(s, a).1.granted {
      if a.term == s.term {
        NotVotedYet(c, k, from, to, a);
      }
      CastVoteCommit(k1.h, to, from);
    }
    VoteRequestPeerCommit(k.h, l.h, s, a, to);
  }

  lemma VoteRequestCommit(c: Cluster, k: Record, id: nat, from: nat, to: nat, a: VoteArgs)
    requires Base(c, k) && CommitLink(c, k) && id in c.net && c.net[id] == VoteRequest(from, to, a)
    requires Addressed(c, c.net[id]) && c.N() == |k.h.term| == |k.h.log| && NoPanic(c, Deliver(id))
    ensures CommitOnward(c, k, Apply(c, Deliver(id)), VoteRequestRecord(c, k, from, to, a))
  {
    hide Base, CommitLink, CommitOnward, CommitInv, PeerCommit, VoteRequestRecord;
    VoteRequestHistory(c, k, id, from, to, a);
    var d, l := Apply(c, Deliver(id)), VoteRequestRecord(c, k, from, to, a);
    assert d.servers[to].commit == c.servers[to].commit;
    hide RequestVote;
    forall x | x in d.net ensures Plain(d.net[x]) || (x in c.net && d.net[x] == c.net[x]) {}
    UnackedCommit(c, k, d, l, to);
  }

  lemma VoteRequestPeerCommit(h: History, g: History, s: Server, a: VoteArgs, to: nat)
    requires MoreAcked(h, g) && g.acked == h.acked && PeerCommit(h, s, to) && s.log != []
    ensures PeerCommit(g, RequestVote(s, a).0, to)
  {
    var r := RequestVote(s, a).0;
    if r.role == Leader {
      assert r == s.(votedFor := r.votedFor);
      OtherCommit(h, g, s, to);
      CommitStays(h, g, s, r, to);
    } else {
      LaterTerm(h, g, s, r, to);
    }
  }

  // ---- the answer that makes a leader ----

  lemma ElectAcked(h: History, c: nat, q: set<nat>)
    requires MatchInv(h) && CanElect(h, c, q) && h.log[c] != []
    ensures AckedElsewhere(h, Elect(h, c, q), c, h.term[c])
  {
    if (c, h.term[c]) in h.acked {
      AckFact(h, c, h.term[c]);
      assert false;
    }
  }

  lemma WinnerCommit(c: Cluster, k: Record, d: Cluster, k1: Record, s1: Server, to: nat)
    requires Base(c, k) && CommitLink(c, k) && to < c.N() && k1.h == k.h && ServerLink(k1, s1, to) &&
             s1.role == Candidate
    requires CanElect(k.h, to, Counted(k1, to, s1.term)) && k.h.log[to] != []
    requires s1.commit == c.servers[to].commit && s1.log == c.servers[to].log && s1.term == c.servers[to].term
    requires d.servers == c.servers[to := ConvertRole(s1, Leader)] && d.handled == c.handled && d.clock == c.clock
    requires OldOrPlain(c, d.net)
    ensures CommitOnward(c, k, d, Elected(k1, to, s1.term))
  {
    hide MessageCommit, Increasing;
    var q := Counted(k1, to, s1.term);
    var l, r := Elected(k1, to, s1.term), ConvertRole(s1, Leader);
    ElectCommit(k.h, to, q);
    ElectAcked(k.h, to, q);
    assert PeerCommit(k.h, c.servers[to], to);
    CommitStays(k.h, l.h, c.servers[to], r, to);
    NotToItself(c, k, to, s1.term);
    QuietCommit(c, k, d, l, to, s1.term);
  }

  /** The vote completes a majority. */
  predicate Completes(s: Server, t: nat, r: VoteReply) {
    s.role == Candidate && r.granted && t == s.term && t in s.count && s.count[t] + 1 > |s.nextIndex| / 2
  }

  lemma VoteWonCommit(c: Cluster, k: Record, id: nat, from: nat, to: nat, t: nat, r: VoteReply)
    requires Base(c, k) && CommitLink(c, k) && id in c.net && c.net[id] == VoteAnswer(from, to, t, r)
    requires Addressed(c, c.net[id]) && c.N() == |k.h.term| == |k.h.log| && NoPanic(c, Deliver(id))
    requires Completes(c.servers[to], t, r)
    ensures CommitOnward(c, k, Apply(c, Deliver(id)), VoteAnswerRecord(c, k, from, to, t, r))
  {
    hide MessageCommit, Increasing, ServerClaims, BallotClaims, MatchInv, CandidateOk, LeaderOk, LogOk, CommitBacked,
        LeaderAcks, OneAboutEachVote;
    assert MessageOk(c, k, c.net[id]);
    var d, s := Apply(c, Deliver(id)), c.servers[to];
    assert ServerLink(k, s, to) && PeerCommit(k.h, s, to);
    forall x | x in d.net ensures Plain(d.net[x]) || (x in c.net && d.net[x] == c.net[x]) {}
    CountedLink(c, k, from, to, t, r);
    var k1, s1 := Count(k, to, t, from), s.(count := s.count[t := s.count[t] + 1]);
    ElectedLink(k1, s1, to);
    WinnerCommit(c, k, d, k1, s1, to);
  }

  /** Any other answer changes at most the term and the count of its receiver. */
  lemma VoteHeardPeer(c: Cluster, k: Record, from: nat, to: nat, t: nat, r: VoteReply)
    requires Base(c, k) && CommitLink(c, k) && from < c.N() && to < c.N() == |k.h.term| == |k.h.log|
    requires t in c.servers[to].count && VoteGuard(c.servers[to], t, r) && !Completes(c.servers[to], t, r)
    ensures var l, s := VoteAnswerRecord(c, k, from, to, t, r), HandleVoteReply(c.servers[to], t, r);
            && CommitInv(l.h) && l.h.reign == k.h.reign && l.h.acked == k.h.acked && |l.h.term| == |k.h.term|
            && PeerCommit(l.h, s, to) && s.commit == c.servers[to].commit
  {
    hide MessageCommit, Increasing, ServerClaims, BallotClaims, MatchInv, CandidateOk, LeaderOk, LogOk, CommitBacked,
        LeaderAcks, NetOk;
    var l, s := VoteAnswerRecord(c, k, from, to, t, r), c.servers[to];
    assert ServerLink(k, s, to) && PeerCommit(k.h, s, to);
    if s.role == Candidate && r.granted {
      SameReign(k.h, l.h);
      LaterTerm(k.h, l.h, s, HandleVoteReply(s, t, r), to);
    } else if r.term > s.term {
      RaiseCommit(k.h, to, r.term);
      SameReign(k.h, l.h);
      LaterTerm(k.h, l.h, s, HandleVoteReply(s, t, r), to);
    }
  }

  lemma VoteAnswerCommit(c: Cluster, k: Record, id: nat, from: nat, to: nat, t: nat, r: VoteReply)
    requires Base(c, k) && CommitLink(c, k) && id in c.net && c.net[id] == VoteAnswer(from, to, t, r)
    requires Addressed(c, c.net[id]) && c.N() == |k.h.term| == |k.h.log| && NoPanic(c, Deliver(id))
    requires VoteGuard(c.servers[to], t, r)
    ensures CommitOnward(c, k, Apply(c, Deliver(id)), VoteAnswerRecord(c, k, from, to, t, r))
  {
    hide Base, CommitLink, CommitOnward, CommitInv, PeerCommit, VoteAnswerRecord, HandleVoteReply, VoteGuard;
    if Completes(c.servers[to], t, r) {
      VoteWonCommit(c, k, id, from, to, t, r);
    } else {
      VoteHeardPeer(c, k, from, to, t, r);
      var d, l := Apply(c, Deliver(id)), VoteAnswerRecord(c, k, from, to, t, r);
      forall x | x in d.net ensures Plain(d.net[x]) || (x in c.net && d.net[x] == c.net[x]) {}
      UnackedCommit(c, k, d, l, to);
    }
  }

  // ---- commands and sending ----

  lemma ExtendAcked(h: History, t: nat, e: LogEntry)
    requires MatchInv(h) && CanExtend(h, t, e)
    ensures AckedElsewhere(h, Extend(h, t, e), h.reign[t].who, t)
  {
    var w := h.reign[t].who;
    if (w, t) in h.acked {
      assert AckOk(h, w, t);
    }
  }

  lemma SubmitCommit(c: Cluster, k: Record, i: nat, command: Command)
    requires Base(c, k) && CommitLink(c, k) && i < c.N()
    ensures CommitOnward(c, k, Apply(c, Submit(i, command)), SubmitRecord(c, k, i, command))
  {
    hide MessageCommit, Increasing, ServerClaims, BallotClaims;
    var d, l, s := Apply(c, Submit(i, command)), SubmitRecord(c, k, i, command), c.servers[i];
    assert ServerLink(k, s, i) && PeerCommit(k.h, s, i);
    SubmitKeeps(c, k, i, command);
    if s.role == Leader {
      var e := LogEntry(s.term, command);
      ExtendCommit(k.h, s.term, e);
      ExtendAcked(k.h, s.term, e);
      SubmitPeer(k.h, l.h, s, d.servers[i], i);
      NotToItself(c, k, i, s.term);
      QuietCommit(c, k, d, l, i, s.term);
    } else {
      UnackedCommit(c, k, d, l, i);
    }
  }

  lemma SubmitPeer(h: History, g: History, s: Server, r: Server, i: nat)
    requires MoreAcked(h, g) && PeerCommit(h, s, i) && s.role == Leader && s.log <= r.log && r == s.(log := r.log)
    requires (i, s.term) in g.acked && g.acked[(i, s.term)] == |r.log| - 1
    ensures PeerCommit(g, r, i)
  {
    CommitStays(h, g, s, r, i);
    forall j: nat | j < |r.matchIndex| && j != i ensures Known(g, r, j, r.matchIndex[j]) {
      assert Known(h, s, j, s.matchIndex[j]);
    }
  }

  /** A request that is sent reaches as far as anything acknowledged, and its commit index is backed. */
  lemma SentCommit(c: Cluster, k: Record, i: nat, to: nat)
    requires Base(c, k) && CommitLink(c, k) && i < c.N() && to < c.N() && i != to && c.servers[i].role == Leader &&
             NoPanic(c, Send(i, to))
    requires GenAppend(c.servers[i], to).Append?
    ensures var a := GenAppend(c.servers[i], to).args;
            && a.term in k.h.reign && RequestBacked(k.h, a) && Acked(k.h, to, a.term) <= LastOf(a)
            && LastOf(a) == |k.h.reign[a.term].log| - 1
  {
    var s := c.servers[i];
    assert ServerLink(k, s, i) && PeerCommit(k.h, s, i) && ReignOk(k.h, s.term);
    var a := GenAppend(s, to).args;
    if (to, a.term) in k.h.acked {
      assert AckOk(k.h, to, a.term);
    }
    if s.commit > 0 {
      var t: nat, j: nat :| Backs(k.h, t, j, s.log, s.commit) && t <= s.term &&
          (t == s.term ==> s.commit <= Acked(k.h, i, t));
      assert Backs(k.h, t, j, k.h.reign[a.term].log, a.leaderCommit);
    }
  }

  lemma SendIncreases(c: Cluster, k: Record, i: nat, to: nat)
    requires Base(c, k) && CommitLink(c, k) && i < c.N() && to < c.N() && i != to && c.servers[i].role == Leader
    requires NoPanic(c, Send(i, to))
    ensures Increasing(Apply(c, Send(i, to)).net)
  {
    hide CommitInv, MatchInv, PeerCommit, ServerLink, MessageCommit;
    var m := Apply(c, Send(i, to)).net[c.clock];
    forall id | id in c.net ensures id < c.clock && MessageOk(c, k, c.net[id]) {}
    if m.AppendRequest? {
      SentCommit(c, k, i, to);
      forall x | x in c.net && c.net[x].AppendRequest? && c.net[x].append.term == m.append.term
        ensures LastOf(c.net[x].append) <= LastOf(m.append)
      {
        assert MessageOk(c, k, c.net[x]);
      }
    }
    hide Increasing;
    IncreasingPosted(c.net, c.clock, m);
  }

  lemma SendCommit(c: Cluster, k: Record, i: nat, to: nat)
    requires Base(c, k) && CommitLink(c, k) && i < c.N() && to < c.N() && i != to && c.servers[i].role == Leader
    requires NoPanic(c, Send(i, to))
    ensures CommitOnward(c, k, Apply(c, Send(i, to)), k)
  {
    hide CommitInv, MatchInv, PeerCommit, ServerLink, Increasing;
    var d := Apply(c, Send(i, to));
    NothingAcked(k.h, k.h, i, 0);
    SendIncreases(c, k, i, to);
    if d.net[c.clock].AppendRequest? {
      SentCommit(c, k, i, to);
    }
    forall id | id in d.net ensures MessageCommit(d, k.h, id, d.net[id]) {
      if id != c.clock {
        assert id in c.net && d.net[id] == c.net[id];
        assert MessageOk(c, k, c.net[id]) && MessageCommit(c, k.h, id, c.net[id]);
        MessageStays(c, k.h, d, k.h, id, c.net[id]);
      }
    }
  }

  // ---- snapshots nobody needs ----

  lemma SnapshotRequestCommit(c: Cluster, k: Record, id: nat, from: nat, to: nat, a: SnapshotArgs)
    requires Base(c, k) && CommitLink(c, k) && id in c.net && c.net[id] == SnapshotRequest(from, to, a)
    requires Addressed(c, c.net[id]) && to < k.h.N() && NoPanic(c, Deliver(id))
    ensures CommitOnward(c, k, Apply(c, Deliver(id)), RaisedFor(c, k, to, a.term))
  {
    hide MessageCommit, Increasing, ServerClaims, BallotClaims, MessageOk, NetOk;
    var d, l, s := Apply(c, Deliver(id)), RaisedFor(c, k, to, a.term), c.servers[to];
    assert ServerLink(k, s, to) && PeerCommit(k.h, s, to);
    if a.term > s.term {
      RaiseCommit(k.h, to, a.term);
      SameReign(k.h, l.h);
      LaterTerm(k.h, l.h, s, d.servers[to], to);
    }
    forall x | x in d.net ensures Plain(d.net[x]) || (x in c.net && d.net[x] == c.net[x]) {}
    UnackedCommit(c, k, d, l, to);
  }

  lemma SnapshotAnswerPeer(c: Cluster, k: Record, id: nat, from: nat, to: nat, a: SnapshotArgs, t: nat)
    requires Base(c, k) && CommitLink(c, k) && id in c.net && c.net[id] == SnapshotAnswer(from, to, a, t)
    requires Addressed(c, c.net[id]) && to < k.h.N() && NoPanic(c, Deliver(id))
    ensures var l, s := SnapshotAnswerRecord(c, k, to, a, t), HandleSnapshotReply(c.servers[to], from, a, t);
            CommitInv(l.h) && PeerCommit(l.h, s, to) && c.servers[to].commit <= s.commit
  {
    hide MessageCommit, Increasing, ServerClaims, BallotClaims;
    assert MessageOk(c, k, c.net[id]);
    var l, s, s' := SnapshotAnswerRecord(c, k, to, a, t), c.servers[to], HandleSnapshotReply(c.servers[to], from, a, t);
    assert ServerLink(k, s, to) && PeerCommit(k.h, s, to);
    SameReign(k.h, l.h);
    if s.role == Leader && s.term == a.term && t > s.term {
      RaiseCommit(k.h, to, t);
      LaterTerm(k.h, l.h, s, s', to);
    } else if s.role == Leader {
      CommitStays(k.h, k.h, s, s', to);
      forall j: nat | j < |s'.matchIndex| && j != to ensures Known(k.h, s', j, s'.matchIndex[j]) {
        assert Known(k.h, s, j, s.matchIndex[j]);
      }
    }
  }

  lemma SnapshotAnswerCommit(c: Cluster, k: Record, id: nat, from: nat, to: nat, a: SnapshotArgs, t: nat)
    requires Base(c, k) && CommitLink(c, k) && id in c.net && c.net[id] == SnapshotAnswer(from, to, a, t)
    requires Addressed(c, c.net[id]) && to < k.h.N() && NoPanic(c, Deliver(id))
    ensures CommitOnward(c, k, Apply(c, Deliver(id)), SnapshotAnswerRecord(c, k, to, a, t))
  {
    SnapshotAnswerPeer(c, k, id, from, to, a, t);
    hide Base, CommitLink, CommitOnward, CommitInv, PeerCommit, HandleSnapshotReply;
    var d, l := Apply(c, Deliver(id)), SnapshotAnswerRecord(c, k, to, a, t);
    forall x | x in d.net ensures Plain(d.net[x]) || (x in c.net && d.net[x] == c.net[x]) {}
    UnackedCommit(c, k, d, l, to);
  }

  // ---- AppendEntries ----

  /** The log taken over from the leader of `later`, up to `m`, has what was committed before. */
  lemma AcceptBacks(h: History, t: nat, j: nat, later: nat, m: nat, c: nat)
    requires CommitInv(h) && Replicated(h, t, j) && c <= j && t <= later && later in h.reign
    requires |h.reign[later].first| <= m + 1 <= |h.reign[later].log| && (t == later ==> c <= m)
    ensures Backs(h, t, j, h.reign[later].log[..m + 1], c)
  {
    var r := h.reign[later];
    var l := r.log[..m + 1];
    if t == later {
      AgreePrefix(l, r.log, c);
    } else {
      LeaderCompleteness(h, t, j, later);
      assert ReignOk(h, later);
      assert r.first == l[..|r.first|];
      AgreeBelow(r.first, h.reign[t].log, j, c);
      AgreePrefix(r.first, l, c);
      AgreeTransitive(r.first, l, l, c);
      AgreeTransitive(l, r.first, h.reign[t].log, c);
    }
  }

  /** What an accepted request makes of the commit index is backed. */
  lemma AcceptedCommit(h: History, s: Server, i: nat, a: AppendArgs, m: nat, commit: int) returns (t: nat, j: nat)
    requires CommitInv(h) && CommitBacked(h, s, i) && s.term <= a.term && a.term in h.reign && RequestBacked(h, a)
    requires m == LastOf(a) && |h.reign[a.term].first| <= m + 1 <= |h.reign[a.term].log| && Acked(h, i, a.term) <= m
    requires commit > 0 && (commit == s.commit || (commit == a.leaderCommit && commit <= m))
    ensures Backs(h, t, j, h.reign[a.term].log[..m + 1], commit) && t <= a.term && (t == a.term ==> commit <= m)
  {
    if commit == s.commit {
      t, j :| Backs(h, t, j, s.log, s.commit) && t <= s.term && (t == s.term ==> s.commit <= Acked(h, i, t));
      AcceptBacks(h, t, j, a.term, m, commit);
    } else {
      t, j :| Backs(h, t, j, h.reign[a.term].log, a.leaderCommit) && t <= a.term && a.leaderCommit <= LastOf(a);
      AcceptBacks(h, t, j, a.term, m, commit);
    }
  }

  lemma LeaderCommitReached(h: History, s: Server, a: AppendArgs, m: nat)
    requires a.term in h.reign && RequestBacked(h, a) && m == LastOf(a) && s.commit >= 0 && LastLogical(s) == m
    ensures FollowerCommit(s, a.leaderCommit) == s.commit ||
            (FollowerCommit(s, a.leaderCommit) == a.leaderCommit && a.leaderCommit <= m)
  {}

  lemma AcceptAcked(h: History, v: nat, m: nat)
    requires CanAccept(h, v, m) && Acked(h, v, h.term[v]) <= m
    ensures AckedElsewhere(h, Accept(h, v, m), v, h.term[v])
  {
    SameReign(h, Accept(h, v, m));
  }

  /** Requests under way after one of them was handled: later ones of the same leader reach as far. */
  lemma RequestsAfter(c: Cluster, k: Record, d: Cluster, g: History, id: nat, from: nat, to: nat, a: AppendArgs)
    requires Base(c, k) && CommitLink(c, k) && id in c.net && c.net[id] == AppendRequest(from, to, a)
    requires AckedElsewhere(k.h, g, to, a.term) && d.handled == Latest(c.handled, (from, to), id)
    requires Acked(g, to, a.term) == Acked(k.h, to, a.term) || Acked(g, to, a.term) <= LastOf(a)
    ensures MessagesCommit(d, g, c.net - {id})
  {
    hide CommitInv, MatchInv, PeerCommit, ServerLink, RequestBacked;
    var net := c.net - {id};
    assert MessageOk(c, k, c.net[id]);
    forall x | x in net ensures MessageCommit(d, g, x, net[x]) {
      var m := net[x];
      assert m == c.net[x] && MessageCommit(c, k.h, x, c.net[x]) && MessageOk(c, k, m);
      if m.AppendRequest? && InOrder(d, x, m.from, m.to) {
        assert Acked(g, m.to, m.append.term) == Acked(k.h, m.to, m.append.term) ||
            (m.to, m.append.term) == (to, a.term);
      }
      MessageStays(c, k.h, d, g, x, m);
    }
  }

  /** What a peer has acknowledged in its present term is in its log. */
  lemma AckedHeld(h: History, v: nat)
    requires CommitInv(h) && v < h.N() && h.log[v] != []
    ensures Acked(h, v, h.term[v]) <= |h.log[v]| - 1
  {
    var t := h.term[v];
    var n := Acked(h, v, t);
    if n > 0 {
      assert AckOk(h, v, t) && ServerClaim(h, v, t);
      assert Held(h, h.log[v], t, n, h.term[v]);
    }
  }

  /** Nothing is acknowledged to the leader of a term the peer has not reached. */
  lemma NotYetAcked(h: History, v: nat, t: nat)
    requires MatchInv(h) && v < h.N() && t > h.term[v]
    ensures Acked(h, v, t) == 0
  {
    if (v, t) in h.acked {
      AckFact(h, v, t);
      assert false;
    }
  }

  /** A request that is accepted reaches what the peer has acknowledged to its leader. */
  lemma AcceptedReaches(c: Cluster, k: Record, id: nat, from: nat, to: nat, a: AppendArgs)
    requires Base(c, k) && CommitLink(c, k) && id in c.net && c.net[id] == AppendRequest(from, to, a) && to < c.N() &&
             OrderGuard(c, id, from, to, a)
    requires c.servers[to].log != [] && ToStorage(c.servers[to], a.prev) >= -1 &&
             AppendEntries(c.servers[to], a).1.success
    ensures Acked(k.h, to, a.term) <= LastOf(a)
  {
    assert MessageOk(c, k, c.net[id]) && MessageCommit(c, k.h, id, c.net[id]) && ServerLink(k, c.servers[to], to);
    if !InOrder(c, id, from, to) {
      if a.term == c.servers[to].term {
        AckedHeld(k.h, to);
      } else {
        NotYetAcked(k.h, to, a.term);
      }
    }
  }

  /** What AppendEntries leaves of the peer, as far as commitment is concerned. */
  lemma AppendCases(s: Server, a: AppendArgs)
    requires s.log != [] && ToStorage(s, a.prev) >= -1
    ensures var (r, reply) := AppendEntries(s, a);
            && (a.term < s.term ==> r == s && !reply.success)
            && (a.term >= s.term ==>
                  r.term == a.term && r.role == Follower && r.lastIncludedIndex == s.lastIncludedIndex)
            && (!reply.success ==> r.log == s.log && r.commit == s.commit)
            && (reply.success ==> r.commit == FollowerCommit(r.(commit := s.commit), a.leaderCommit))
  {}

  /** The peer that handles a request, and what becomes of the history. */
  lemma AppendPeerCommit(c: Cluster, k: Record, from: nat, to: nat, a: AppendArgs)
    requires Base(c, k) && CommitLink(c, k) && to < c.N() && from != to && AppendRequestOk(k, from, a)
    requires c.servers[to].log != [] && ToStorage(c.servers[to], a.prev) >= -1
    requires RequestBacked(k.h, a) &&
             (AppendEntries(c.servers[to], a).1.success ==> Acked(k.h, to, a.term) <= LastOf(a))
    ensures var g, r := AppendRecord(c, k, to, a).h, AppendEntries(c.servers[to], a);
            && CommitInv(g) && AckedElsewhere(k.h, g, to, a.term)
            && (Acked(g, to, a.term) == Acked(k.h, to, a.term) || Acked(g, to, a.term) <= LastOf(a))
            && PeerCommit(g, r.0, to) && c.servers[to].commit <= r.0.commit &&
                (r.1.success ==> LastOf(a) <= Acked(g, to, a.term))
  {
    hide CommitLink, NetOk, ServerClaims, BallotClaims, LogOk, AppendEntries, RequestBacked, ReignOk, ServerOk,
        FollowerCommit;
    var s := c.servers[to];
    assert CommitInv(k.h) && PeerCommit(k.h, s, to) by { LinkParts(c, k, to); }
    assert ServerLink(k, s, to);
    AppendPeer(c, k, from, to, a);
    AppendCases(s, a);
    var k1 := RaisedFor(c, k, to, a.term);
    NothingAcked(k.h, k1.h, to, a.term);
    if a.term > s.term {
      RaiseCommit(k.h, to, a.term);
    }
    var r := AppendEntries(s, a);
    if r.1.success {
      AcceptPeer(k.h, k1.h, s, r.0, to, a);
    } else if a.term < s.term {
      OtherCommit(k.h, k.h, s, to);
    } else {
      LaterTerm(k.h, k1.h, s, r.0, to);
    }
  }

  lemma LinkParts(c: Cluster, k: Record, i: nat)
    requires CommitLink(c, k) && i < c.N()
    ensures CommitInv(k.h) && PeerCommit(k.h, c.servers[i], i)
  {}

  lemma AcceptPeer(h: History, h1: History, s: Server, r: Server, i: nat, a: AppendArgs)
    requires CommitInv(h) && CommitInv(h1) && AckedElsewhere(h, h1, i, a.term) && h1.reign == h.reign &&
             h1.acked == h.acked
    requires CommitBacked(h, s, i) && s.term <= a.term && a.term in h.reign && RequestBacked(h, a) && 0 <= LastOf(a)
    requires i < h1.N() && h1.term[i] == a.term && CanAccept(h1, i, LastOf(a)) && Acked(h, i, a.term) <= LastOf(a)
    requires r.role == Follower && r.term == a.term && r.log == h.reign[a.term].log[..LastOf(a) + 1] &&
             r.lastIncludedIndex == 0
    requires r.commit == FollowerCommit(r.(commit := s.commit), a.leaderCommit)
    ensures var g := Accept(h1, i, LastOf(a));
            CommitInv(g) && AckedElsewhere(h, g, i, a.term) && Acked(g, i, a.term) == LastOf(a) &&
                PeerCommit(g, r, i) && s.commit <= r.commit
  {
    var m := LastOf(a);
    var g := Accept(h1, i, m);
    AcceptCommit(h1, i, m);
    AcceptAcked(h1, i, m);
    LeaderCommitReached(h, r.(commit := s.commit), a, m);
    if r.commit > 0 {
      var t, j := AcceptedCommit(h, s, i, a, m, r.commit);
      BacksStays(h, g, t, j, r.log, r.log, r.commit);
    }
  }

  lemma AppendCommit(c: Cluster, k: Record, id: nat, from: nat, to: nat, a: AppendArgs)
    requires Base(c, k) && CommitLink(c, k) && id in c.net && c.net[id] == AppendRequest(from, to, a)
    requires Addressed(c, c.net[id]) && to < k.h.N() == |k.h.log| && NoPanic(c, Deliver(id)) &&
             OrderGuard(c, id, from, to, a)
    ensures CommitOnward(c, k, Apply(c, Deliver(id)), AppendRecord(c, k, to, a))
  {
    hide CommitInv, PeerCommit, AppendRecord, AppendEntries, MatchInv, ServerLink, RequestBacked;
    assert MessageOk(c, k, c.net[id]) && MessageCommit(c, k.h, id, c.net[id]);
    var d, l := Apply(c, Deliver(id)), AppendRecord(c, k, to, a);
    if AppendEntries(c.servers[to], a).1.success {
      AcceptedReaches(c, k, id, from, to, a);
    }
    AppendPeerCommit(c, k, from, to, a);
    assert PeersCommit(c, k.h);
    PeersCommitAfter(c, k.h, d, l.h, to, a.term);
    RequestsAfter(c, k, d, l.h, id, from, to, a);
    var net := c.net - {id};
    IncreasingOld(c, net);
    var m := AppendAnswer(to, from, a, AppendEntries(c.servers[to], a).1);
    assert d.net == net[c.clock := m];
    IncreasingPosted(net, c.clock, m);
    forall x | x in d.net ensures MessageCommit(d, l.h, x, d.net[x]) {
      if x != c.clock {
        assert d.net[x] == net[x] && MessageCommit(d, l.h, x, net[x]);
      }
    }
  }

  // ---- the reply to AppendEntries ----

  /** The peers other than `me`, below `i`, that have matched index `n`. */
  ghost function Holders(s: Server, n: int, i: nat): (q: set<nat>)
    requires i <= |s.matchIndex|
    ensures forall j: nat :: j in q <==> j < i && j != s.me && s.matchIndex[j] >= n
    ensures |q| == Matched(s, n, i)
  {
    if i == 0 then {} else Holders(s, n, i - 1) + if i - 1 != s.me && s.matchIndex[i - 1] >= n then {i - 1} else {}
  }

  /** Before an entry of the leader's own term is none of an earlier term that comes after it. */
  lemma NotEarlier(h: History, s: Server, n: nat, m: int)
    requires MatchInv(h) && LogOk(h, s.log) && s.lastIncludedIndex == 0 && n < |s.log| && n <= m && Earlier(s, m)
    ensures s.log[n].term < s.term && Earlier(s, n)
  {
    Monotone(h, s.log, n, m);
  }

  /** An index of its own term that a leader counts more than half of the peers for is replicated. */
  lemma CountedReplicated(h: History, s: Server, i: nat, n: nat)
    requires s.me == i < h.N() == |s.matchIndex| == |s.nextIndex| && h.N() > 1 && s.lastIncludedIndex == 0
    requires LeaderAcks(h, s, i) && s.term in h.reign && h.reign[s.term].log == s.log && MatchInv(h) && LogOk(h, s.log)
    requires 1 <= n < |s.log| && CountFor(s, n) > |s.nextIndex| / 2
    ensures Replicated(h, s.term, n)
  {
    var others := Holders(s, n, |s.matchIndex|);
    var q := others + {i};
    forall v | v in q ensures (v, s.term) in h.acked && n <= h.acked[(v, s.term)] {
      if v != i {
        assert Known(h, s, v, s.matchIndex[v]);
        if Earlier(s, s.matchIndex[v]) {
          NotEarlier(h, s, n, s.matchIndex[v]);
        }
      }
    }
    assert Majority(h.N(), q) && AckedBy(h, s.term, n, q);
  }

  /** What a reply of the leader's own term, or one that the guard lets through, tells it is known. */
  lemma AnswerKnown(h: History, s: Server, from: nat, a: AppendArgs, r: AppendReply)
    requires MatchInv(h) && LogOk(h, s.log) && s.lastIncludedIndex == 0 && s.role == Leader &&
             from < |s.nextIndex| == |s.matchIndex|
    requires r.success && r.term <= s.term && 0 <= LastOf(a) <= Acked(h, from, a.term) && AckGuard(s, from, a, r)
    requires Known(h, s, from, s.matchIndex[from])
    ensures Known(h, s, from, LastOf(a))
  {
    if a.term != s.term && LastOf(a) <= s.matchIndex[from] && Earlier(s, s.matchIndex[from]) {
      NotEarlier(h, s, LastOf(a), s.matchIndex[from]);
    }
  }

  lemma AppendAnswerPeerCommit(h: History, s: Server, from: nat, i: nat, a: AppendArgs, r: AppendReply)
    requires MatchInv(h) && LogOk(h, s.log) && PeerCommit(h, s, i) && s.role == Leader && r.term <= s.term &&
             AckGuard(s, from, a, r)
    requires 0 <= LastOf(a) && (r.success ==> LastOf(a) <= Acked(h, from, a.term))
    requires s.me == i < h.N() == |s.matchIndex| == |s.nextIndex| && s.lastIncludedIndex == 0 && from < h.N() &&
             from != i
    requires s.term in h.reign && h.reign[s.term].log == s.log && ToStorage(s, s.nextIndex[from]) <= |s.log|
    ensures PeerCommit(h, HandleAppendReply(s, from, a, r), i) && s.commit <= HandleAppendReply(s, from, a, r).commit
  {
    hide MatchInv, LogOk, AckGuard, Retreat, Matched;
    SameReign(h, h);
    var r' := HandleAppendReply(s, from, a, r);
    if r.success {
      AnswerKnown(h, s, from, a, r);
    }
    forall j: nat | j < |r'.matchIndex| && j != i ensures Known(h, r', j, r'.matchIndex[j]) {
      assert Known(h, s, j, s.matchIndex[j]);
    }
    if r'.commit == s.commit {
      CommitStays(h, h, s, r', i);
    } else {
      var s1 := s.(nextIndex := s.nextIndex[from := LastLogical(s) + 1], matchIndex := s.matchIndex[from := LastOf(a)]);
      assert LeaderAcks(h, s1, i);
      CountedReplicated(h, s1, i, r'.commit);
      assert Backs(h, s.term, r'.commit, r'.log, r'.commit);
    }
  }

  lemma AppendAnswerCommit(c: Cluster, k: Record, id: nat, from: nat, to: nat, a: AppendArgs, r: AppendReply)
    requires Base(c, k) && CommitLink(c, k) && id in c.net && c.net[id] == AppendAnswer(from, to, a, r)
    requires Addressed(c, c.net[id]) && to < k.h.N() && NoPanic(c, Deliver(id)) &&
             AckGuard(c.servers[to], from, a, r)
    ensures CommitOnward(c, k, Apply(c, Deliver(id)), AppendAnswerRecord(c, k, to, r))
  {
    hide Increasing, ServerClaims, BallotClaims, HandleAppendReply;
    assert MessageOk(c, k, c.net[id]) && MessageCommit(c, k.h, id, c.net[id]);
    var d, l, s := Apply(c, Deliver(id)), AppendAnswerRecord(c, k, to, r), c.servers[to];
    assert ServerLink(k, s, to) && PeerCommit(k.h, s, to) && ServerOk(k.h, to);
    SameReign(k.h, l.h);
    forall x | x in d.net ensures x in c.net && d.net[x] == c.net[x] {}
    if s.role == Leader && r.term > s.term {
      RaiseCommit(k.h, to, r.term);
      SteppedReply(s, from, a, r);
      LaterTerm(k.h, l.h, s, d.servers[to], to);
    } else if s.role == Leader {
      AppendAnswerPeerCommit(k.h, s, from, to, a, r);
    } else {
      SteppedReply(s, from, a, r);
    }
    UnackedCommit(c, k, d, l, to);
  }

  lemma SteppedReply(s: Server, from: nat, a: AppendArgs, r: AppendReply)
    requires from < |s.nextIndex| == |s.matchIndex| && s.commit >= s.lastIncludedIndex
    requires s.role == Leader ==> ToStorage(s, s.nextIndex[from]) <= |s.log|
    ensures s.role != Leader ==> HandleAppendReply(s, from, a, r) == s
    ensures s.role == Leader && r.term > s.term ==> HandleAppendReply(s, from, a, r) == StepDown(s, r.term)
  {}
}
