/**
 How the state of a cluster and the messages under way relate to the history of the cluster,
 and that what one peer does leaves the other peers and messages in that relation.
 */
module RaftLink {
  import opened RaftServer
  import opened RaftCluster
  import opened RaftHistory
  import opened RaftSteps

  /** The history, and whose granted votes each candidate has counted in each of its elections. */
  datatype Record = Record(h: History, counted: map<(nat, nat), set<nat>>)

  ghost function Counted(k: Record, i: nat, t: nat): set<nat> {
    if (i, t) in k.counted then k.counted[(i, t)] else {}
  }

  // ---- peers ----

  ghost predicate LeaderOk(k: Record, s: Server) {
    s.term in k.h.reign && k.h.reign[s.term].who == s.me && k.h.reign[s.term].log == s.log
  }

  ghost predicate CandidateOk(k: Record, s: Server)
    requires s.me < |k.h.term| == |k.h.log|
  {
    && s.term > 0 && (s.term in k.h.reign ==> k.h.reign[s.term].who != s.me)
    && s.term in s.count && s.count[s.term] == |Counted(k, s.me, s.term)|
    && (forall v {:trigger Elects(k.h, s.me, v)} :: v in Counted(k, s.me, s.term) ==>
        v < k.h.N() && Elects(k.h, s.me, v))
  }

  ghost predicate ServerLink(k: Record, s: Server, i: nat)
    requires i < |k.h.term| == |k.h.log|
  {
    && s.me == i && |s.nextIndex| == |s.matchIndex| == k.h.N() && s.lastIncludedIndex == 0 && s.commit >= 0
    && s.term == k.h.term[i] && s.log == k.h.log[i]
    && (s.votedFor == -1 <==> (i, s.term) !in k.h.vote)
    && (s.votedFor != -1 ==> k.h.vote[(i, s.term)].cand == s.votedFor)
    && (s.role == Leader ==> LeaderOk(k, s))
    && (s.role == Candidate ==> CandidateOk(k, s))
  }

  ghost predicate ServersOk(c: Cluster, k: Record) {
    && |k.h.term| == |k.h.log| == c.N()
    && (forall i {:trigger ServerLink(k, c.servers[i], i)} :: 0 <= i < c.N() ==> ServerLink(k, c.servers[i], i))
  }

  // ---- messages ----

  predicate Standing(s: Server, t: nat) {
    s.role == Candidate && s.term == t
  }

  /** A request for a vote is not answered yet, and speaks of the candidate's log while it stands. */
  ghost predicate VoteRequestOk(c: Cluster, k: Record, from: nat, to: nat, a: VoteArgs)
    requires from < c.N()
  {
    && a.cand == from && 0 < a.term <= c.servers[from].term && a.term in c.servers[from].count
    && ((to, a.term) in k.h.vote ==> k.h.vote[(to, a.term)].cand != from)
    && to !in Counted(k, from, a.term)
    && (Standing(c.servers[from], a.term) ==> c.servers[from].log != [] && a == VoteArgsOf(c.servers[from]))
  }

  ghost predicate VoteAnswerOk(c: Cluster, k: Record, from: nat, to: nat, t: nat, r: VoteReply)
    requires to < c.N() == |k.h.term| == |k.h.log|
  {
    && t <= c.servers[to].term && t in c.servers[to].count && from !in Counted(k, to, t)
    && (r.granted ==> (from, t) in k.h.vote && k.h.vote[(from, t)].cand == to)
    && (r.granted && Standing(c.servers[to], t) ==> Elects(k.h, to, from))
  }

  /** The entries of a request are a stretch of its leader's log, up to its end when it was sent. */
  ghost predicate AppendRequestOk(k: Record, from: nat, a: AppendArgs) {
    && a.term in k.h.reign && k.h.reign[a.term].who == from == a.leader
    && var r := k.h.reign[a.term];
       && 0 <= a.prev && a.prev + |a.entries| < |r.log| && |r.first| <= a.prev + |a.entries| + 1
       && a.prevTerm == r.log[a.prev].term && a.entries == r.log[a.prev + 1..a.prev + |a.entries| + 1]
  }

  ghost predicate AppendAnswerOk(k: Record, to: nat, a: AppendArgs, r: AppendReply) {
    && a.term in k.h.reign && k.h.reign[a.term].who == to
    && 0 <= a.prev && a.prev + |a.entries| < |k.h.reign[a.term].log|
    && (!r.success ==> 0 <= r.conflictIndex <= a.prev)
  }

  ghost predicate MessageOk(c: Cluster, k: Record, m: Message)
    requires c.N() == |k.h.term| == |k.h.log|
  {
    && Addressed(c, m) && m.from != m.to
    && match m
       case VoteRequest(from, to, a) => VoteRequestOk(c, k, from, to, a)
       case VoteAnswer(from, to, t, r) => VoteAnswerOk(c, k, from, to, t, r)
       case AppendRequest(from, _, a) => AppendRequestOk(k, from, a)
       case AppendAnswer(_, to, a, r) => AppendAnswerOk(k, to, a, r)
       case SnapshotRequest(_, _, a) => a.lastIncludedIndex == 0
       case SnapshotAnswer(_, _, a, _) => a.lastIncludedIndex == 0
  }

  predicate AboutVote(m: Message, cand: nat, voter: nat, t: nat) {
    match m
    case VoteRequest(from, to, a) => from == cand && to == voter && a.term == t
    case VoteAnswer(from, to, e, _) => to == cand && from == voter && e == t
    case _ => false
  }

  /** About one vote, at most one message is under way. */
  ghost predicate OneAboutEachVote(net: map<nat, Message>) {
    forall x, y, cand, voter, t {:trigger AboutVote(net[x], cand, voter, t), AboutVote(net[y], cand, voter, t)} ::
      x in net && y in net && AboutVote(net[x], cand, voter, t) && AboutVote(net[y], cand, voter, t) ==> x == y
  }

  ghost predicate NetOk(c: Cluster, k: Record)
    requires c.N() == |k.h.term| == |k.h.log|
  {
    && (forall id {:trigger c.net[id]} :: id in c.net ==> id < c.clock && MessageOk(c, k, c.net[id]))
    && OneAboutEachVote(c.net)
  }

  ghost predicate Base(c: Cluster, k: Record) {
    MatchInv(k.h) && ServersOk(c, k) && NetOk(c, k)
  }

  // ---- what any step leaves as it was ----

  /** Histories and peers move on; a candidate still standing has the log it had. */
  ghost predicate Onward(c: Cluster, k: Record, d: Cluster, l: Record) {
    && c.N() == d.N() == |k.h.term| == |k.h.log| == |l.h.term| == |l.h.log|
    && Grows(k.h, l.h)
    && (forall x {:trigger x in k.h.vote} :: x in k.h.vote ==> x in l.h.vote && l.h.vote[x] == k.h.vote[x])
    && (forall j {:trigger PeerOnward(c.servers[j], d.servers[j])} :: 0 <= j < c.N() ==>
        PeerOnward(c.servers[j], d.servers[j]))
    && (forall j {:trigger l.h.log[j]} ::
          0 <= j < c.N() && Standing(c.servers[j], d.servers[j].term) && d.servers[j].role == Candidate ==>
            l.h.log[j] == k.h.log[j] && l.h.term[j] == k.h.term[j])
  }

  ghost predicate PeerOnward(s: Server, r: Server) {
    && s.term <= r.term && s.me == r.me && s.lastIncludedIndex == r.lastIncludedIndex
    && (forall t :: t in s.count ==> t in r.count)
    && (Standing(r, s.term) ==> Standing(s, s.term) && r.log == s.log)
  }

  lemma AppendOnward(k: Record, l: Record, from: nat, a: AppendArgs)
    requires Grows(k.h, l.h) && AppendRequestOk(k, from, a)
    ensures AppendRequestOk(l, from, a)
  {
    var r, q := k.h.reign[a.term], l.h.reign[a.term];
    assert r.log == q.log[..|r.log|];
  }

  /** A message stays right when the rest moves on, unless it is about a vote just cast or counted. */
  lemma MessageOnward(c: Cluster, k: Record, d: Cluster, l: Record, m: Message)
    requires Onward(c, k, d, l) && MessageOk(c, k, m)
    requires forall cand, voter, t :: AboutVote(m, cand, voter, t) ==> voter !in Counted(l, cand, t)
    requires m.VoteRequest? && (m.to, m.vote.term) in l.h.vote ==> l.h.vote[(m.to, m.vote.term)].cand != m.from
    ensures MessageOk(d, l, m)
  {
    match m
    case VoteRequest(from, to, a) =>
      assert AboutVote(m, from, to, a.term);
      assert PeerOnward(c.servers[from], d.servers[from]);
    case VoteAnswer(from, to, t, r) =>
      assert AboutVote(m, to, from, t);
      assert PeerOnward(c.servers[to], d.servers[to]);
      if r.granted && Standing(d.servers[to], t) {
        assert l.h.log[to] == k.h.log[to];
        assert Elects(k.h, to, from);
      }
    case AppendRequest(from, _, a) => AppendOnward(k, l, from, a);
    case AppendAnswer(_, to, a, r) =>
    case SnapshotRequest(_, _, _) =>
    case SnapshotAnswer(_, _, _, _) =>
  }

  /** A peer that does nothing stays linked. */
  ghost predicate Untouched(k: Record, l: Record, s: Server, j: nat)
    requires j < |k.h.term| == |k.h.log| && j < |l.h.term| == |l.h.log|
  {
    && l.h.term[j] == k.h.term[j] && l.h.log[j] == k.h.log[j] && l.h.N() == k.h.N()
    && ((j, s.term) in l.h.vote <==> (j, s.term) in k.h.vote)
    && (s.term in l.h.reign && s.term !in k.h.reign ==> l.h.reign[s.term].who != j)
    && (s.term in k.h.reign && k.h.reign[s.term].who == j ==>
        l.h.reign == k.h.reign || (s.term in l.h.reign && l.h.reign[s.term] == k.h.reign[s.term]))
    && Counted(l, j, s.term) == Counted(k, j, s.term)
  }

  lemma OtherPeer(k: Record, l: Record, s: Server, j: nat)
    requires j < |k.h.term| == |k.h.log| && j < |l.h.term| == |l.h.log|
    requires ServerLink(k, s, j) && Untouched(k, l, s, j) && Grows(k.h, l.h)
    requires forall x :: x in k.h.vote ==> x in l.h.vote && l.h.vote[x] == k.h.vote[x]
    ensures ServerLink(l, s, j)
  {
    if s.role == Candidate {
      forall v | v in Counted(l, j, s.term) ensures v < l.h.N() && Elects(l.h, j, v) {
        assert Elects(k.h, j, v);
      }
    }
  }
}
