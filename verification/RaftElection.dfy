/**
 Elections (section 5.2 of the extended Raft paper): every step of a cluster keeps the relation
 to its history, and so no term ever has two leaders.

 For each step there is a function named after it, `...Record`, which says what the step adds to
 the history, and a lemma `...Keeps`: the cluster after the step is related to the history with
 that addition.
 */
module RaftElection {
  import opened RaftLog
  import opened RaftServer
  import opened RaftCluster
  import opened RaftHistory
  import opened RaftSteps
  import opened RaftLink

  // ---- putting a step together ----

  /** A message about a vote that is neither cast nor counted by the step to `l`. */
  ghost predicate Clear(l: Record, m: Message) {
    && (forall cand, voter, t {:trigger AboutVote(m, cand, voter, t)} :: AboutVote(m, cand, voter, t) ==>
        voter !in Counted(l, cand, t))
    && (m.VoteRequest? && (m.to, m.vote.term) in l.h.vote ==> l.h.vote[(m.to, m.vote.term)].cand != m.from)
  }

  /** The messages of `net` were under way before and are clear of the step. */
  ghost predicate Carried(c: Cluster, l: Record, net: map<nat, Message>) {
    forall id {:trigger net[id]} :: id in net ==> id in c.net && net[id] == c.net[id] && Clear(l, net[id])
  }

  lemma ClearSame(c: Cluster, k: Record, l: Record, m: Message)
    requires c.N() == |k.h.term| == |k.h.log| && MessageOk(c, k, m) && l.counted == k.counted && l.h.vote == k.h.vote
    ensures Clear(l, m)
  {}

  lemma CarriedSame(c: Cluster, k: Record, l: Record, net: map<nat, Message>)
    requires ServersOk(c, k) && NetOk(c, k) && l.counted == k.counted && l.h.vote == k.h.vote
    requires forall id :: id in net ==> id in c.net && net[id] == c.net[id]
    ensures Carried(c, l, net)
  {
    forall id | id in net ensures Clear(l, net[id]) {
      assert MessageOk(c, k, c.net[id]);
      ClearSame(c, k, l, net[id]);
    }
  }

  /** Only peer `i` acted. */
  ghost predicate OnlyPeer(c: Cluster, k: Record, d: Cluster, l: Record, i: nat)
    requires Onward(c, k, d, l)
  {
    forall j {:trigger d.servers[j]} :: 0 <= j < c.N() && j != i ==>
        d.servers[j] == c.servers[j] && Untouched(k, l, c.servers[j], j)
  }

  lemma PeersAfter(c: Cluster, k: Record, d: Cluster, l: Record, i: nat)
    requires ServersOk(c, k) && Onward(c, k, d, l) && i < c.N() && OnlyPeer(c, k, d, l, i) &&
             ServerLink(l, d.servers[i], i)
    ensures ServersOk(d, l)
  {
    forall j | 0 <= j < d.N() ensures ServerLink(l, d.servers[j], j) {
      if j != i {
        assert d.servers[j] == c.servers[j] && Untouched(k, l, c.servers[j], j);
        assert ServerLink(k, c.servers[j], j);
        OtherPeer(k, l, c.servers[j], j);
      }
    }
  }

  lemma CarriedOk(c: Cluster, k: Record, d: Cluster, l: Record, net: map<nat, Message>, id: nat)
    requires NetOkWith(c, k) && Onward(c, k, d, l) && Carried(c, l, net) && id in net
    ensures id < c.clock && MessageOk(d, l, net[id])
  {
    assert MessageOk(c, k, c.net[id]) && Clear(l, net[id]);
    MessageOnward(c, k, d, l, net[id]);
  }

  ghost predicate NetOkWith(c: Cluster, k: Record) {
    c.N() == |k.h.term| == |k.h.log| && NetOk(c, k)
  }

  lemma UniqueSubset(net: map<nat, Message>, sub: map<nat, Message>)
    requires OneAboutEachVote(net) && forall id :: id in sub ==> id in net && sub[id] == net[id]
    ensures OneAboutEachVote(sub)
  {
    forall x, y, cand, voter, t | x in sub && y in sub && AboutVote(sub[x], cand, voter, t) &&
        AboutVote(sub[y], cand, voter, t) ensures x == y {
      assert AboutVote(net[x], cand, voter, t) && AboutVote(net[y], cand, voter, t);
    }
  }

  /** No new message. */
  lemma NetAfter(c: Cluster, k: Record, d: Cluster, l: Record)
    requires NetOkWith(c, k) && Onward(c, k, d, l) && Carried(c, l, d.net) && d.clock == c.clock
    ensures NetOk(d, l)
  {
    forall id | id in d.net ensures id < d.clock && MessageOk(d, l, d.net[id]) {
      CarriedOk(c, k, d, l, d.net, id);
    }
    UniqueSubset(c.net, d.net);
  }

  /** One new message, about no vote or about one no carried message is about. */
  lemma NetPosted(c: Cluster, k: Record, d: Cluster, l: Record, net: map<nat, Message>, m: Message)
    requires NetOkWith(c, k) && Onward(c, k, d, l) && Carried(c, l, net)
    requires d.net == net[c.clock := m] && d.clock == c.clock + 1 && MessageOk(d, l, m)
    requires forall cand, voter, t, id :: AboutVote(m, cand, voter, t) && id in net ==>
             !AboutVote(net[id], cand, voter, t)
    ensures NetOk(d, l)
  {
    forall id | id in d.net ensures id < d.clock && MessageOk(d, l, d.net[id]) {
      if id != c.clock {
        CarriedOk(c, k, d, l, net, id);
      }
    }
    UniqueSubset(c.net, net);
    assert c.clock !in net by {
      if c.clock in net {
        CarriedOk(c, k, d, l, net, c.clock);
      }
    }
    forall x, y, cand, voter, t | x in d.net && y in d.net && AboutVote(d.net[x], cand, voter, t) &&
        AboutVote(d.net[y], cand, voter, t) ensures x == y {
      if x != c.clock && y != c.clock {
        assert AboutVote(net[x], cand, voter, t) && AboutVote(net[y], cand, voter, t);
      }
    }
  }

  // ---- a peer learns of a later term ----

  ghost function RaiseTo(k: Record, i: nat, t: nat): Record
    requires i < k.h.N()
  {
    k.(h := Raise(k.h, i, t))
  }

  /** The same peer, in a later term, without a vote in it, and a follower. */
  lemma SteppedDown(k: Record, s: Server, i: nat, t: nat)
    requires MatchInv(k.h) && i < k.h.N() && ServerLink(k, s, i) && t > s.term
    ensures ServerLink(RaiseTo(k, i, t), StepDown(s, t), i) && (i, t) !in k.h.vote
  {
    if (i, t) in k.h.vote {
      VoteFact(k.h, i, t);
      assert false;
    }
  }

  lemma RaiseUntouched(k: Record, i: nat, t: nat, s: Server, j: nat)
    requires |k.h.term| == |k.h.log| && i < k.h.N() && j < k.h.N() && j != i
    ensures Untouched(k, RaiseTo(k, i, t), s, j)
  {}

  /** `d` differs from `c` in peer `i`, which has stepped down to term `t`, and perhaps in messages. */
  lemma StepDownOnward(c: Cluster, k: Record, d: Cluster, i: nat, t: nat)
    requires Base(c, k) && i < c.N() && t > c.servers[i].term
    requires d.servers == c.servers[i := StepDown(c.servers[i], t)]
    ensures Onward(c, k, d, RaiseTo(k, i, t)) && MatchInv(RaiseTo(k, i, t).h) && ServersOk(d, RaiseTo(k, i, t))
  {
    var l := RaiseTo(k, i, t);
    assert ServerLink(k, c.servers[i], i);
    RaiseMatch(k.h, i, t);
    SameReign(k.h, l.h);
    forall j | 0 <= j < c.N() ensures PeerOnward(c.servers[j], d.servers[j]) {}
    assert Onward(c, k, d, l);
    SteppedDown(k, c.servers[i], i, t);
    forall j | 0 <= j < c.N() && j != i ensures d.servers[j] == c.servers[j] && Untouched(k, l, c.servers[j], j) {
      RaiseUntouched(k, i, t, c.servers[j], j);
    }
    PeersAfter(c, k, d, l, i);
  }

  // ---- election timeout ----

  ghost function TimeoutRecord(c: Cluster, k: Record, i: nat): Record
    requires i < c.N() == |k.h.term| == |k.h.log|
  {
    var t := c.servers[i].term + 1;
    Record(CastVote(Raise(k.h, i, t), i, i), k.counted[(i, t) := {i}])
  }

  lemma TimeoutPeer(c: Cluster, k: Record, i: nat)
    requires Base(c, k) && i < c.N()
    ensures MatchInv(TimeoutRecord(c, k, i).h)
    ensures ServerLink(TimeoutRecord(c, k, i), StartElection(c.servers[i]), i)
  {
    var s, l := c.servers[i], TimeoutRecord(c, k, i);
    var t := s.term + 1;
    assert ServerLink(k, s, i);
    SteppedDown(k, s, i, t);
    RaiseMatch(k.h, i, t);
    var h := Raise(k.h, i, t);
    assert ServerOk(h, i);
    CastVoteMatch(h, i, i);
    if t in k.h.reign && k.h.reign[t].who == i {
      ReignFact(k.h, t, i);
      assert false;
    }
    assert Counted(l, i, t) == {i};
    forall v | v in Counted(l, i, t) ensures v < l.h.N() && Elects(l.h, i, v) {}
  }

  lemma TimeoutOnward(c: Cluster, k: Record, d: Cluster, i: nat)
    requires Base(c, k) && i < c.N() && d.servers == c.servers[i := StartElection(c.servers[i])]
    ensures Onward(c, k, d, TimeoutRecord(c, k, i)) && ServersOk(d, TimeoutRecord(c, k, i))
  {
    var l := TimeoutRecord(c, k, i);
    assert ServerLink(k, c.servers[i], i);
    SteppedDown(k, c.servers[i], i, c.servers[i].term + 1);
    SameReign(k.h, l.h);
    forall j | 0 <= j < c.N() ensures PeerOnward(c.servers[j], d.servers[j]) {}
    assert Onward(c, k, d, l);
    TimeoutPeer(c, k, i);
    forall j | 0 <= j < c.N() && j != i ensures d.servers[j] == c.servers[j] && Untouched(k, l, c.servers[j], j) {}
    PeersAfter(c, k, d, l, i);
  }

  lemma TimeoutCarried(c: Cluster, k: Record, i: nat)
    requires Base(c, k) && i < c.N()
    ensures Carried(c, TimeoutRecord(c, k, i), c.net)
    ensures NoneAbout(c.net, i, c.servers[i].term + 1)
  {
    var l, t := TimeoutRecord(c, k, i), c.servers[i].term + 1;
    forall id | id in c.net ensures Clear(l, c.net[id]) && forall voter :: !AboutVote(c.net[id], i, voter, t) {
      var m := c.net[id];
      assert MessageOk(c, k, m);
      forall cand: nat, voter: nat, u: nat | AboutVote(m, cand, voter, u)
          ensures voter !in Counted(l, cand, u) && (cand, u) != (i, t) {}
    }
  }

  ghost predicate NoneAbout(net: map<nat, Message>, cand: nat, t: nat) {
    forall id, voter {:trigger AboutVote(net[id], cand, voter, t)} :: id in net ==> !AboutVote(net[id], cand, voter, t)
  }

  lemma TimeoutKeeps(c: Cluster, k: Record, i: nat)
    requires Base(c, k) && i < c.N()
    ensures NoPanic(c, Timeout(i)) && Base(Apply(c, Timeout(i)), TimeoutRecord(c, k, i))
  {
    assert ServerLink(k, c.servers[i], i) && ServerOk(k.h, i);
    hide MatchInv, OneAboutEachVote, LogOk, ServerLink, Onward, MessageOk;
    var d := Apply(c, Timeout(i));
    TimeoutPeer(c, k, i);
    TimeoutOnward(c, k, d, i);
    TimeoutNet(c, k, i);
  }

  /** The requests for votes are right, and so is what was under way before. */
  lemma TimeoutNet(c: Cluster, k: Record, i: nat)
    requires Base(c, k) && i < c.N() && NoPanic(c, Timeout(i)) &&
             Onward(c, k, Apply(c, Timeout(i)), TimeoutRecord(c, k, i))
    ensures NetOk(Apply(c, Timeout(i)), TimeoutRecord(c, k, i))
  {
    hide MatchInv, OneAboutEachVote, LogOk, ServerLink, MessageOk;
    var s := StartElection(c.servers[i]);
    var d, l := Apply(c, Timeout(i)), TimeoutRecord(c, k, i);
    TimeoutCarried(c, k, i);
    forall id | id in d.net ensures id < d.clock && MessageOk(d, l, d.net[id]) {
      if id in c.net {
        assert MessageOk(c, k, c.net[id]);
        assert d.net[id] == c.net[id];
        CarriedOk(c, k, d, l, c.net, id);
      } else {
        assert d.net[id] == VoteRequest(i, id - c.clock, VoteArgsOf(s));
        TimeoutRequest(c, k, d, i, id - c.clock);
      }
    }
    TimeoutUnique(c, k, i);
  }

  lemma TimeoutRequest(c: Cluster, k: Record, d: Cluster, i: nat, j: nat)
    requires Base(c, k) && i < c.N() && j < c.N() && i != j && d.servers == c.servers[i := StartElection(c.servers[i])]
    ensures c.servers[i].log != [] && |d.servers| == |TimeoutRecord(c, k, i).h.term| == |TimeoutRecord(c, k, i).h.log|
    ensures MessageOk(d, TimeoutRecord(c, k, i), VoteRequest(i, j, VoteArgsOf(StartElection(c.servers[i]))))
  {
    var t, l := c.servers[i].term + 1, TimeoutRecord(c, k, i);
    assert ServerLink(k, c.servers[i], i) && ServerOk(k.h, i);
    if (j, t) in k.h.vote {
      VoteFact(k.h, j, t);
    }
    assert Counted(l, i, t) == {i};
  }

  lemma NotAbout(c: Cluster, i: nat, id: nat, voter: nat, t: nat)
    requires NoneAbout(c.net, i, t) && id in c.net
    ensures !AboutVote(c.net[id], i, voter, t)
  {}

  lemma TimeoutUnique(c: Cluster, k: Record, i: nat)
    requires Base(c, k) && i < c.N() && NoPanic(c, Timeout(i))
    ensures OneAboutEachVote(Apply(c, Timeout(i)).net)
  {
    var d := Apply(c, Timeout(i));
    var t: nat := c.servers[i].term + 1;
    TimeoutCarried(c, k, i);
    forall x: nat, y: nat, cand: nat, voter: nat, u: nat | x in d.net && y in d.net &&
        AboutVote(d.net[x], cand, voter, u) && AboutVote(d.net[y], cand, voter, u)
      ensures x == y
    {
      assert x in c.net ==> x < c.clock && d.net[x] == c.net[x];
      assert y in c.net ==> y < c.clock && d.net[y] == c.net[y];
      assert x !in c.net ==> cand == i && u == t;
      assert y !in c.net ==> cand == i && u == t;
      if x in c.net && y in c.net {
        assert AboutVote(c.net[x], cand, voter, u) && AboutVote(c.net[y], cand, voter, u);
      } else if x in c.net {
        NotAbout(c, i, x, voter, t);
        assert false;
      } else if y in c.net {
        NotAbout(c, i, y, voter, t);
        assert false;
      }
    }
  }

  // ---- a request for a vote ----

  ghost function Taken(c: Cluster, id: nat): Cluster {
    c.(net := c.net - {id})
  }

  /** The other messages are about other votes. */
  lemma OthersAbout(c: Cluster, k: Record, id: nat, cand: nat, voter: nat, t: nat, other: nat)
    requires NetOkWith(c, k) && id in c.net && AboutVote(c.net[id], cand, voter, t) && other in c.net && other != id
    ensures !AboutVote(c.net[other], cand, voter, t)
  {}

  ghost function RaisedFor(c: Cluster, k: Record, to: nat, t: nat): Record
    requires to < c.N() && to < k.h.N()
  {
    if t > c.servers[to].term then RaiseTo(k, to, t) else k
  }

  ghost function VoteRequestRecord(c: Cluster, k: Record, from: nat, to: nat, a: VoteArgs): Record
    requires to < c.N() == |k.h.term| == |k.h.log| && c.servers[to].log != []
  {
    var k1 := RaisedFor(c, k, to, a.term);
    if RequestVote(c.servers[to], a).1.granted then k1.(h := CastVote(k1.h, to, from)) else k1
  }

  /** A request that gets as far as the log check comes to a peer that has not voted in its term. */
  lemma NotVotedYet(c: Cluster, k: Record, from: nat, to: nat, a: VoteArgs)
    requires Base(c, k) && from < c.N() && to < c.N() && VoteRequestOk(c, k, from, to, a)
    requires a.term == c.servers[to].term && (c.servers[to].votedFor == -1 || c.servers[to].votedFor == from)
    ensures c.servers[to].votedFor == -1 && (to, a.term) !in k.h.vote
  {
    assert ServerLink(k, c.servers[to], to);
  }

  lemma GrantedLink(k: Record, s: Server, from: nat, to: nat)
    requires |k.h.term| == |k.h.log| && to < k.h.N() && ServerLink(k, s, to) && s.votedFor == -1
    ensures ServerLink(k.(h := CastVote(k.h, to, from)), s.(votedFor := from), to)
  {
    var l := k.(h := CastVote(k.h, to, from));
    if s.role == Candidate {
      forall v | v in Counted(l, to, s.term) ensures v < l.h.N() && Elects(l.h, to, v) {
        assert v in Counted(k, to, s.term) && Elects(k.h, to, v);
      }
    }
  }

  lemma VoteRequestPeer(c: Cluster, k: Record, from: nat, to: nat, a: VoteArgs)
    requires Base(c, k) && from < c.N() && to < c.N() && from != to && VoteRequestOk(c, k, from, to, a)
    ensures c.servers[to].log != [] && MatchInv(VoteRequestRecord(c, k, from, to, a).h)
    ensures ServerLink(VoteRequestRecord(c, k, from, to, a), RequestVote(c.servers[to], a).0, to)
  {
    var s := c.servers[to];
    assert ServerLink(k, s, to) && ServerOk(k.h, to) && ServerLink(k, c.servers[from], from);
    if a.term < s.term || (a.term == s.term && s.votedFor != -1 && s.votedFor != from) {
    } else if a.term > s.term {
      SteppedDown(k, s, to, a.term);
      RaiseMatch(k.h, to, a.term);
      var k1 := RaiseTo(k, to, a.term);
      GrantedLink(k1, StepDown(s, a.term), from, to);
      CastVoteMatch(k1.h, to, from);
    } else {
      NotVotedYet(c, k, from, to, a);
      GrantedLink(k, s, from, to);
      CastVoteMatch(k.h, to, from);
    }
  }

  /** What a request for a vote leaves as it was. */
  lemma VoteRequestFacts(c: Cluster, k: Record, from: nat, to: nat, a: VoteArgs)
    requires Base(c, k) && from < c.N() && to < c.N() && c.servers[to].log != []
    ensures var l := VoteRequestRecord(c, k, from, to, a);
            && l.h.reign == k.h.reign && l.h.log == k.h.log && l.counted == k.counted && |l.h.term| == |k.h.term|
            && (forall j :: 0 <= j < c.N() && j != to ==> l.h.term[j] == k.h.term[j])
            && (RequestVote(c.servers[to], a).0.role == Candidate ==> l.h.term == k.h.term)
    ensures PeerOnward(c.servers[to], RequestVote(c.servers[to], a).0)
  {
    hide MatchInv, NetOk, LogOk;
    assert ServerLink(k, c.servers[to], to);
  }

  lemma VoteRequestOnward(c: Cluster, k: Record, d: Cluster, from: nat, to: nat, a: VoteArgs)
    requires Base(c, k) && from < c.N() && to < c.N() && from != to && VoteRequestOk(c, k, from, to, a)
    requires c.servers[to].log != [] && d.servers == c.servers[to := RequestVote(c.servers[to], a).0]
    ensures Onward(c, k, d, VoteRequestRecord(c, k, from, to, a)) && ServersOk(d, VoteRequestRecord(c, k, from, to, a))
  {
    hide MatchInv, NetOk, LogOk, VoteRequestRecord, RequestVote;
    var l := VoteRequestRecord(c, k, from, to, a);
    VoteRequestPeer(c, k, from, to, a);
    VoteUnchanged(c, k, from, to, a);
    VoteRequestFacts(c, k, from, to, a);
    SameReign(k.h, l.h);
    forall j | 0 <= j < c.N() ensures PeerOnward(c.servers[j], d.servers[j]) {}
    assert Onward(c, k, d, l);
    forall j | 0 <= j < c.N() && j != to ensures d.servers[j] == c.servers[j] && Untouched(k, l, c.servers[j], j) {}
    PeersAfter(c, k, d, l, to);
  }

  /** The only vote cast is the one granted, by a peer that had none in the term. */
  lemma VoteUnchanged(c: Cluster, k: Record, from: nat, to: nat, a: VoteArgs)
    requires Base(c, k) && from < c.N() && to < c.N() && from != to && VoteRequestOk(c, k, from, to, a) &&
             c.servers[to].log != []
    ensures forall x :: x in k.h.vote ==> x in VoteRequestRecord(c, k, from, to, a).h.vote
                                          && VoteRequestRecord(c, k, from, to, a).h.vote[x] == k.h.vote[x]
    ensures forall v, t :: (v, t) in VoteRequestRecord(c, k, from, to, a).h.vote && (v, t) !in k.h.vote ==>
              v == to && t == a.term && RequestVote(c.servers[to], a).1.granted
    ensures RequestVote(c.servers[to], a).1.granted ==>
              (to, a.term) in VoteRequestRecord(c, k, from, to, a).h.vote
              && VoteRequestRecord(c, k, from, to, a).h.vote[(to, a.term)] == Ballot(from, k.h.log[to])
  {
    var s := c.servers[to];
    assert ServerLink(k, s, to);
    if a.term > s.term {
      SteppedDown(k, s, to, a.term);
    } else if a.term == s.term && (s.votedFor == -1 || s.votedFor == from) {
      NotVotedYet(c, k, from, to, a);
    }
  }

  lemma VoteRequestCarried(c: Cluster, k: Record, id: nat, from: nat, to: nat, a: VoteArgs)
    requires Base(c, k) && id in c.net && c.net[id] == VoteRequest(from, to, a) && c.servers[to].log != []
    requires from < c.N() && to < c.N() && from != to && VoteRequestOk(c, k, from, to, a)
    ensures Carried(c, VoteRequestRecord(c, k, from, to, a), Taken(c, id).net)
  {
    var l := VoteRequestRecord(c, k, from, to, a);
    VoteUnchanged(c, k, from, to, a);
    forall x | x in Taken(c, id).net ensures Clear(l, c.net[x]) {
      var m := c.net[x];
      assert MessageOk(c, k, m);
      if m.VoteRequest? && (m.to, m.vote.term) in l.h.vote && l.h.vote[(m.to, m.vote.term)].cand == m.from {
        assert AboutVote(m, m.from, m.to, m.vote.term);
        OthersAbout(c, k, id, from, to, a.term, x);
        assert false;
      }
    }
  }

  lemma VoteAnswered(c: Cluster, k: Record, d: Cluster, from: nat, to: nat, a: VoteArgs)
    requires Base(c, k) && from < c.N() && to < c.N() && from != to && VoteRequestOk(c, k, from, to, a)
    requires c.servers[to].log != [] && d.servers == c.servers[to := RequestVote(c.servers[to], a).0]
    requires |VoteRequestRecord(c, k, from, to, a).h.term| == |VoteRequestRecord(c, k, from, to, a).h.log| == c.N()
    ensures MessageOk(d, VoteRequestRecord(c, k, from, to, a),
            VoteAnswer(to, from, a.term, RequestVote(c.servers[to], a).1))
  {
    var l, r := VoteRequestRecord(c, k, from, to, a), RequestVote(c.servers[to], a);
    VoteUnchanged(c, k, from, to, a);
    assert ServerLink(k, c.servers[to], to) && ServerLink(k, c.servers[from], from);
    if r.1.granted && Standing(c.servers[from], a.term) {
      assert UpToDate(k.h.log[from], k.h.log[to]);
      assert Elects(l.h, from, to);
    }
  }

  lemma VoteRequestKeeps(c: Cluster, k: Record, id: nat, from: nat, to: nat, a: VoteArgs)
    requires Base(c, k) && id in c.net && c.net[id] == VoteRequest(from, to, a)
    ensures Addressed(c, c.net[id]) && NoPanic(c, Deliver(id))
    ensures Base(Apply(c, Deliver(id)), VoteRequestRecord(c, k, from, to, a))
  {
    assert MessageOk(c, k, c.net[id]);
    VoteRequestPeer(c, k, from, to, a);
    var d, l := Apply(c, Deliver(id)), VoteRequestRecord(c, k, from, to, a);
    VoteRequestOnward(c, k, d, from, to, a);
    VoteRequestCarried(c, k, id, from, to, a);
    VoteAnswered(c, k, d, from, to, a);
    var m := VoteAnswer(to, from, a.term, RequestVote(c.servers[to], a).1);
    forall cand, voter, t, x | AboutVote(m, cand, voter, t) && x in Taken(c, id).net
        ensures !AboutVote(c.net[x], cand, voter, t) {
      assert AboutVote(c.net[id], from, to, a.term);
      OthersAbout(c, k, id, from, to, a.term, x);
    }
    NetPosted(c, k, d, l, Taken(c, id).net, m);
  }

  // ---- an answer to a request for a vote ----

  ghost function Count(k: Record, to: nat, t: nat, from: nat): Record {
    k.(counted := k.counted[(to, t) := Counted(k, to, t) + {from}])
  }

  ghost function Elected(k: Record, to: nat, t: nat): Record {
    if CanElect(k.h, to, Counted(k, to, t)) && k.h.log[to] != [] then k.(h := Elect(k.h, to, Counted(k, to, t))) else k
  }

  ghost function VoteAnswerRecord(c: Cluster, k: Record, from: nat, to: nat, t: nat, r: VoteReply): Record
    requires to < c.N() == |k.h.term| == |k.h.log| && t in c.servers[to].count
  {
    var s := c.servers[to];
    if s.role == Candidate && r.granted then
      (var k1 := Count(k, to, t, from); if HandleVoteReply(s, t, r).role == Leader then Elected(k1, to, t) else k1)
    else RaisedFor(c, k, to, r.term)
  }

  /** A term that has a leader has no second candidate with a majority. */
  lemma OneWinner(h: History, c: nat, q: set<nat>)
    requires MatchInv(h) && c < h.N() && Majority(h.N(), q) && h.term[c] in h.reign
    requires forall v {:trigger Elects(h, c, v)} :: v in q ==> Elects(h, c, v)
    ensures h.reign[h.term[c]].who == c
  {
    var t := h.term[c];
    assert ReignOk(h, t);
    var v := MajoritiesMeet(h.N(), q, h.reign[t].voters);
    assert Elects(h, c, v) && VoterOk(h, t, v);
  }

  lemma CountedLink(c: Cluster, k: Record, from: nat, to: nat, t: nat, r: VoteReply)
    requires Base(c, k) && from < c.N() && to < c.N() && VoteAnswerOk(c, k, from, to, t, r)
    requires Standing(c.servers[to], t) && r.granted
    ensures var k1 := Count(k, to, t, from);
            && MatchInv(k1.h) && |Counted(k1, to, t)| == c.servers[to].count[t] + 1
            && ServerLink(k1, c.servers[to].(count := c.servers[to].count[t := c.servers[to].count[t] + 1]), to)
  {
    var s, k1 := c.servers[to], Count(k, to, t, from);
    assert ServerLink(k, s, to);
    assert Counted(k1, to, t) == Counted(k, to, t) + {from};
    forall v | v in Counted(k1, to, t) ensures v < k1.h.N() && Elects(k1.h, to, v) {
      assert v != from ==> Elects(k.h, to, v);
    }
  }

  lemma ElectedLink(k: Record, s: Server, to: nat)
    requires MatchInv(k.h) && to < k.h.N() && ServerLink(k, s, to) && s.role == Candidate
    requires s.count[s.term] > |s.nextIndex| / 2
    ensures CanElect(k.h, to, Counted(k, to, s.term)) && k.h.log[to] != []
    ensures MatchInv(Elected(k, to, s.term).h) && ServerLink(Elected(k, to, s.term), ConvertRole(s, Leader), to)
  {
    var q := Counted(k, to, s.term);
    assert ServerOk(k.h, to);
    assert forall v :: v in q ==> Elects(k.h, to, v);
    if s.term in k.h.reign {
      OneWinner(k.h, to, q);
    }
    ElectMatch(k.h, to, q);
    var l := Elected(k, to, s.term);
    assert LeaderOk(l, ConvertRole(s, Leader));
  }

  lemma VoteAnswerPeer(c: Cluster, k: Record, from: nat, to: nat, t: nat, r: VoteReply)
    requires Base(c, k) && from < c.N() && to < c.N() && VoteAnswerOk(c, k, from, to, t, r) &&
             VoteGuard(c.servers[to], t, r)
    ensures MatchInv(VoteAnswerRecord(c, k, from, to, t, r).h)
    ensures ServerLink(VoteAnswerRecord(c, k, from, to, t, r), HandleVoteReply(c.servers[to], t, r), to)
  {
    var s := c.servers[to];
    assert ServerLink(k, s, to) && MatchInv(k.h);
    hide Base, MatchInv, LogOk;
    if s.role == Candidate && r.granted && t != s.term {
      assert Counted(Count(k, to, t, from), to, s.term) == Counted(k, to, s.term);
    } else if s.role == Candidate && r.granted {
      CountedLink(c, k, from, to, t, r);
      var s1 := s.(count := s.count[t := s.count[t] + 1]);
      if s1.count[t] > |s.nextIndex| / 2 {
        ElectedLink(Count(k, to, t, from), s1, to);
      }
    } else if r.term > s.term {
      SteppedDown(k, s, to, r.term);
      RaiseMatch(k.h, to, r.term);
    }
  }

  /** What an answer about a vote may change: one reign more, one vote counted, the term of its receiver. */
  ghost predicate VoteMoves(k: Record, l: Record, from: nat, to: nat, t: nat) {
    && Grows(k.h, l.h) && l.h.vote == k.h.vote && l.h.log == k.h.log && |l.h.term| == |k.h.term|
    && (forall j :: 0 <= j < k.h.N() && j != to ==> l.h.term[j] == k.h.term[j])
    && (forall u {:trigger u in l.h.reign} :: u in l.h.reign && u !in k.h.reign ==> l.h.reign[u].who == to)
    && (forall u {:trigger u in k.h.reign} :: u in k.h.reign ==> l.h.reign[u] == k.h.reign[u])
    && (forall i: nat, u: nat {:trigger Counted(l, i, u)} :: (i, u) != (to, t) ==> Counted(l, i, u) == Counted(k, i, u))
    && Counted(l, to, t) <= Counted(k, to, t) + {from}
  }

  lemma CountMoves(k: Record, from: nat, to: nat, t: nat)
    ensures VoteMoves(k, Count(k, to, t, from), from, to, t)
  {}

  lemma ElectedMoves(k: Record, k1: Record, from: nat, to: nat, t: nat)
    requires VoteMoves(k, k1, from, to, t) && k1.h == k.h
    ensures VoteMoves(k, Elected(k1, to, t), from, to, t) && Elected(k1, to, t).h.term == k.h.term
  {
    var l := Elected(k1, to, t);
    forall i: nat, u: nat ensures Counted(l, i, u) == Counted(k1, i, u) {}
  }

  lemma RaiseMoves(k: Record, from: nat, to: nat, t: nat, u: nat)
    requires to < k.h.N()
    ensures VoteMoves(k, k, from, to, t) && VoteMoves(k, RaiseTo(k, to, u), from, to, t)
  {}

  lemma VoteAnswerGrows(c: Cluster, k: Record, from: nat, to: nat, t: nat, r: VoteReply)
    requires Base(c, k) && from < c.N() && to < c.N() && VoteAnswerOk(c, k, from, to, t, r) &&
             VoteGuard(c.servers[to], t, r)
    ensures var l := VoteAnswerRecord(c, k, from, to, t, r);
            && VoteMoves(k, l, from, to, t)
            && (HandleVoteReply(c.servers[to], t, r).role == Candidate ==> l.h.term == k.h.term)
  {
    assert ServerLink(k, c.servers[to], to) && |k.h.term| == |k.h.log| == c.N();
    hide Base, ServerLink, VoteMoves, Elected, RaiseTo;
    CountMoves(k, from, to, t);
    ElectedMoves(k, Count(k, to, t, from), from, to, t);
    RaiseMoves(k, from, to, t, r.term);
  }

  lemma MovesOnward(c: Cluster, k: Record, d: Cluster, l: Record, from: nat, to: nat, t: nat)
    requires to < c.N() == d.N() == |k.h.term| == |k.h.log| && VoteMoves(k, l, from, to, t)
    requires d.servers == c.servers[to := d.servers[to]] && PeerOnward(c.servers[to], d.servers[to])
    requires d.servers[to].role == Candidate ==> l.h.term == k.h.term
    ensures Onward(c, k, d, l)
  {
    hide Counted;
    forall j | 0 <= j < c.N() ensures PeerOnward(c.servers[j], d.servers[j]) {}
  }

  lemma OthersUntouched(c: Cluster, k: Record, d: Cluster, l: Record, from: nat, to: nat, t: nat)
    requires ServersOk(c, k) && to < c.N() == d.N() && VoteMoves(k, l, from, to, t)
    requires d.servers == c.servers[to := d.servers[to]]
    ensures |l.h.term| == |l.h.log| == c.N()
    ensures forall j {:trigger d.servers[j]} :: 0 <= j < c.N() && j != to ==>
              d.servers[j] == c.servers[j] && Untouched(k, l, c.servers[j], j)
  {
    hide ServerLink;
    forall j | 0 <= j < c.N() && j != to ensures d.servers[j] == c.servers[j] && Untouched(k, l, c.servers[j], j) {
      assert l.h.term[j] == k.h.term[j];
      var u := c.servers[j].term;
      assert Counted(l, j, u) == Counted(k, j, u);
      assert u in k.h.reign ==> u in l.h.reign && l.h.reign[u] == k.h.reign[u];
    }
  }

  lemma VoteAnswerOnward(c: Cluster, k: Record, d: Cluster, from: nat, to: nat, t: nat, r: VoteReply)
    requires Base(c, k) && from < c.N() && to < c.N() && VoteAnswerOk(c, k, from, to, t, r) &&
             VoteGuard(c.servers[to], t, r)
    requires d.servers == c.servers[to := HandleVoteReply(c.servers[to], t, r)]
    ensures Onward(c, k, d, VoteAnswerRecord(c, k, from, to, t, r)) &&
            ServersOk(d, VoteAnswerRecord(c, k, from, to, t, r))
  {
    assert ServerLink(k, c.servers[to], to);
    assert PeerOnward(c.servers[to], HandleVoteReply(c.servers[to], t, r));
    hide MatchInv, NetOk, LogOk, Elects, VoteAnswerRecord, HandleVoteReply, VoteAnswerOk, VoteGuard;
    var l := VoteAnswerRecord(c, k, from, to, t, r);
    VoteAnswerPeer(c, k, from, to, t, r);
    VoteAnswerGrows(c, k, from, to, t, r);
    MovesOnward(c, k, d, l, from, to, t);
    OthersUntouched(c, k, d, l, from, to, t);
    hide Onward, PeerOnward, Grows, CandidateOk, LeaderOk, VoteMoves;
    PeersAfter(c, k, d, l, to);
  }

  lemma VoteAnswerKeeps(c: Cluster, k: Record, id: nat, from: nat, to: nat, t: nat, r: VoteReply)
    requires Base(c, k) && id in c.net && c.net[id] == VoteAnswer(from, to, t, r) && to < c.N() &&
             VoteGuard(c.servers[to], t, r)
    ensures Addressed(c, c.net[id]) && NoPanic(c, Deliver(id))
    ensures Base(Apply(c, Deliver(id)), VoteAnswerRecord(c, k, from, to, t, r))
  {
    assert MessageOk(c, k, c.net[id]);
    hide MatchInv, LogOk, Elects, OneAboutEachVote, VoteAnswerRecord, HandleVoteReply, ServerLink, Onward;
    var d, l := Apply(c, Deliver(id)), VoteAnswerRecord(c, k, from, to, t, r);
    VoteAnswerPeer(c, k, from, to, t, r);
    VoteAnswerOnward(c, k, d, from, to, t, r);
    VoteAnswerCarried(c, k, id, from, to, t, r);
    NetAfter(c, k, d, l);
  }

  lemma VoteAnswerCarried(c: Cluster, k: Record, id: nat, from: nat, to: nat, t: nat, r: VoteReply)
    requires Base(c, k) && id in c.net && c.net[id] == VoteAnswer(from, to, t, r)
    requires from < c.N() && to < c.N() && VoteAnswerOk(c, k, from, to, t, r) && VoteGuard(c.servers[to], t, r)
    ensures Carried(c, VoteAnswerRecord(c, k, from, to, t, r), Taken(c, id).net)
  {
    var l := VoteAnswerRecord(c, k, from, to, t, r);
    VoteAnswerGrows(c, k, from, to, t, r);
    forall x | x in Taken(c, id).net ensures Clear(l, c.net[x]) {
      var m := c.net[x];
      assert MessageOk(c, k, m);
      forall cand: nat, voter: nat, u: nat | AboutVote(m, cand, voter, u) ensures voter !in Counted(l, cand, u) {
        if (cand, u) == (to, t) && voter == from {
          assert AboutVote(c.net[id], to, from, t);
          OthersAbout(c, k, id, to, from, t, x);
          assert false;
        }
        assert Counted(l, cand, u) <= Counted(k, cand, u) + {from};
      }
    }
  }

  /**
   Election Safety: whoever leads a term now is the one leader the history has for that term.
   */
  lemma LeaderIsRecorded(c: Cluster, k: Record, i: nat)
    requires Base(c, k) && i < c.N() && c.servers[i].role == Leader
    ensures c.servers[i].term in k.h.reign && k.h.reign[c.servers[i].term].who == i
  {
    assert ServerLink(k, c.servers[i], i);
  }
}
