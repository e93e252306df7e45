/**
 The five kinds of step a history of a cluster is made of, and that each keeps Log Matching
 and, when acknowledged entries are never taken back, the claims behind Leader Completeness.
 */
module RaftSteps {
  import opened RaftLog
  import opened RaftHistory

  // ---- a server learns of a later term ----

  ghost function Raise(h: History, v: nat, t: nat): History
    requires v < h.N()
  {
    h.(term := h.term[v := t])
  }

  lemma RaiseMatch(h: History, v: nat, t: nat)
    requires MatchInv(h) && v < h.N() && t >= h.term[v]
    ensures MatchInv(Raise(h, v, t))
  {
    var g := Raise(h, v, t);
    SameReign(h, g);
    forall u | 0 <= u < g.N() ensures ServerOk(g, u) {
      assert ServerOk(h, u);
      LogGrows(h, g, h.log[u]);
    }
    forall u | u in g.reign ensures ReignOk(g, u) {
      ReignSame(h, g, u);
    }
    forall u, w | (u, w) in g.vote ensures VoteOk(g, u, w) {
      assert VoteOk(h, u, w);
      LogGrows(h, g, h.vote[(u, w)].log);
    }
    forall u, w | (u, w) in g.acked ensures AckOk(g, u, w) {
      assert AckOk(h, u, w);
    }
  }

  lemma SameReign(h: History, g: History)
    requires g.reign == h.reign
    ensures Grows(h, g) && Grows(g, h)
  {}

  /** A reign stays what it is when terms and votes only grow. */
  lemma ReignSame(h: History, g: History, t: nat)
    requires MatchInv(h) && t in h.reign && t in g.reign && g.reign[t] == h.reign[t] && Grows(h, g)
    requires |g.term| == |h.term| && (forall v :: 0 <= v < |h.term| ==> h.term[v] <= g.term[v])
    requires forall x :: x in h.vote ==> x in g.vote && g.vote[x] == h.vote[x]
    ensures ReignOk(g, t)
  {
    assert ReignOk(h, t);
    LogGrows(h, g, h.reign[t].log);
    forall v | v in g.reign[t].voters ensures VoterOk(g, t, v) {
      assert VoterOk(h, t, v);
    }
  }

  lemma RaiseCommit(h: History, v: nat, t: nat)
    requires CommitInv(h) && v < h.N() && t >= h.term[v]
    ensures CommitInv(Raise(h, v, t))
  {
    var g := Raise(h, v, t);
    RaiseMatch(h, v, t);
    SameReign(h, g);
    forall u, w | (u, w) in g.acked ensures AckOk(g, u, w) && ServerClaim(g, u, w) {
      assert AckOk(h, u, w) && AckOk(g, u, w);
      ServerClaimGrows(h, g, u, w);
    }
    forall u, later, w | (u, later) in g.vote && InTime(g, u, later) && (u, w) in g.acked && w < later
      ensures AckOk(g, u, w) && BallotClaim(g, u, later, w)
    {
      assert AckOk(g, u, w);
      assert VoteOk(h, u, later) && AckOk(h, u, w);
      BallotClaimGrows(h, g, u, later, w);
    }
  }

  lemma ServerClaimGrows(h: History, g: History, v: nat, t: nat)
    requires (v, t) in h.acked && AckOk(h, v, t) && |h.log| == |h.term| && |g.log| == |g.term| && v < |g.term| &&
             Grows(h, g)
    requires ServerClaim(h, v, t) && (v, t) in g.acked && g.acked[(v, t)] == h.acked[(v, t)] && h.log[v] <= g.log[v] &&
             h.term[v] <= g.term[v]
    ensures t in g.reign && ServerClaim(g, v, t)
  {
    forall k | 1 <= k <= g.acked[(v, t)] ensures Held(g, g.log[v], t, k, g.term[v]) {
      assert Held(h, h.log[v], t, k, h.term[v]);
      HeldGrows(h, g, h.log[v], g.log[v], t, k, h.term[v], g.term[v]);
    }
  }

  lemma BallotClaimGrows(h: History, g: History, v: nat, later: nat, t: nat)
    requires (v, t) in h.acked && AckOk(h, v, t) && (v, later) in h.vote && Grows(h, g)
    requires BallotClaim(h, v, later, t) && (v, t) in g.acked && g.acked[(v, t)] == h.acked[(v, t)]
    requires (v, later) in g.vote && g.vote[(v, later)] == h.vote[(v, later)]
    ensures t in g.reign && BallotClaim(g, v, later, t)
  {
    var l, hi := h.vote[(v, later)].log, later - 1;
    forall k | 1 <= k <= g.acked[(v, t)] ensures Held(g, l, t, k, hi) {
      assert Held(h, l, t, k, hi);
      HeldGrows(h, g, l, l, t, k, hi, hi);
    }
  }

  // ---- a server votes, once in its term ----

  ghost predicate CanVote(h: History, v: nat, c: nat) {
    v < h.N() && (v, h.term[v]) !in h.vote && c < h.N() && h.term[v] <= h.term[c]
  }

  ghost function CastVote(h: History, v: nat, c: nat): History
    requires v < |h.term| == |h.log|
  {
    h.(vote := h.vote[(v, h.term[v]) := Ballot(c, h.log[v])])
  }

  lemma CastVoteMatch(h: History, v: nat, c: nat)
    requires MatchInv(h) && CanVote(h, v, c)
    ensures MatchInv(CastVote(h, v, c))
  {
    var g := CastVote(h, v, c);
    SameReign(h, g);
    forall u | 0 <= u < g.N() ensures ServerOk(g, u) {
      assert ServerOk(h, u);
      LogGrows(h, g, h.log[u]);
    }
    forall u | u in g.reign ensures ReignOk(g, u) {
      ReignSame(h, g, u);
    }
    forall u, w | (u, w) in g.vote ensures VoteOk(g, u, w) {
      assert ServerOk(g, v);
      if (u, w) in h.vote {
        assert VoteOk(h, u, w);
        LogGrows(h, g, h.vote[(u, w)].log);
      }
    }
    forall u, w | (u, w) in g.acked ensures AckOk(g, u, w) {
      assert AckOk(h, u, w);
    }
  }

  lemma NewBallotClaim(h: History, v: nat, c: nat, t: nat)
    requires CommitInv(h) && CanVote(h, v, c) && h.term[v] !in h.reign && (v, t) in h.acked && AckOk(h, v, t) &&
             t < h.term[v]
    ensures BallotClaim(CastVote(h, v, c), v, h.term[v], t)
  {
    var g := CastVote(h, v, c);
    SameReign(h, g);
    assert ServerClaim(h, v, t);
    var hi := h.term[v] - 1;
    forall k | 1 <= k <= g.acked[(v, t)] ensures Held(g, h.log[v], t, k, hi) {
      assert Held(h, h.log[v], t, k, h.term[v]);
      HeldBefore(h, h.log[v], t, k, h.term[v]);
      HeldGrows(h, g, h.log[v], h.log[v], t, k, hi, hi);
    }
  }

  /** As long as nobody is elected in `hi`, the excuse lies before it. */
  lemma HeldBefore(h: History, l: Log, t: nat, k: nat, hi: nat)
    requires t in h.reign && Held(h, l, t, k, hi) && hi !in h.reign
    ensures Held(h, l, t, k, hi - 1)
  {
    if !Agree(l, h.reign[t].log, k) {
      var later :| later in h.reign && t < later <= hi && Lacked(h, t, k, later);
      assert later <= hi - 1;
    }
  }

  lemma CastVoteCommit(h: History, v: nat, c: nat)
    requires CommitInv(h) && CanVote(h, v, c)
    ensures CommitInv(CastVote(h, v, c))
  {
    var g := CastVote(h, v, c);
    CastVoteMatch(h, v, c);
    SameReign(h, g);
    forall u, w | (u, w) in g.acked ensures AckOk(g, u, w) && ServerClaim(g, u, w) {
      assert AckOk(h, u, w) && AckOk(g, u, w);
      ServerClaimGrows(h, g, u, w);
    }
    forall u, later, w | (u, later) in g.vote && InTime(g, u, later) && (u, w) in g.acked && w < later
      ensures AckOk(g, u, w) && BallotClaim(g, u, later, w)
    {
      assert AckOk(g, u, w) && AckOk(h, u, w);
      if (u, later) == (v, h.term[v]) {
        if later in h.reign {
          ReignFact(h, later, v);
          assert false;
        }
        NewBallotClaim(h, v, c, w);
      } else {
        assert VoteOk(h, u, later);
        BallotClaimGrows(h, g, u, later, w);
      }
    }
  }

  // ---- a candidate is elected by a majority ----

  ghost predicate Elects(h: History, c: nat, v: nat)
    requires c < |h.term| == |h.log|
  {
    && (v, h.term[c]) in h.vote && h.vote[(v, h.term[c])].cand == c
    && h.vote[(v, h.term[c])].log != [] && h.log[c] != [] && UpToDate(h.log[c], h.vote[(v, h.term[c])].log)
  }

  ghost predicate CanElect(h: History, c: nat, q: set<nat>) {
    && c < |h.term| == |h.log| && h.term[c] > 0 && h.term[c] !in h.reign && Majority(h.N(), q)
    && (forall v {:trigger Elects(h, c, v)} :: v in q ==> Elects(h, c, v))
  }

  ghost function Elect(h: History, c: nat, q: set<nat>): History
    requires CanElect(h, c, q) && h.log[c] != []
  {
    h.(reign := h.reign[h.term[c] := Reign(c, h.log[c], h.log[c], q)],
       acked := h.acked[(c, h.term[c]) := |h.log[c]| - 1])
  }

  lemma ElectMatch(h: History, c: nat, q: set<nat>)
    requires MatchInv(h) && CanElect(h, c, q)
    ensures h.log[c] != [] && MatchInv(Elect(h, c, q))
  {
    assert ServerOk(h, c);
    var g, t := Elect(h, c, q), h.term[c];
    forall u | 0 <= u < g.N() ensures ServerOk(g, u) {
      assert ServerOk(h, u);
      LogGrows(h, g, h.log[u]);
    }
    forall u | u in g.reign ensures ReignOk(g, u) {
      if u == t {
        LogGrows(h, g, h.log[c]);
        forall i | 0 <= i < |h.log[c]| ensures h.log[c][i].term <= t - 1 {
          if i > 0 {
            assert EntryOk(h, h.log[c], i);
          }
        }
        forall v | v in q ensures VoterOk(g, t, v) {
          assert Elects(h, c, v);
        }
      } else {
        ReignSame(h, g, u);
      }
    }
    forall u, w | (u, w) in g.vote ensures VoteOk(g, u, w) {
      assert VoteOk(h, u, w);
      LogGrows(h, g, h.vote[(u, w)].log);
    }
    forall u, w | (u, w) in g.acked ensures AckOk(g, u, w) {
      if (u, w) != (c, t) {
        assert AckOk(h, u, w);
      }
    }
  }

  lemma ElectCommit(h: History, c: nat, q: set<nat>)
    requires CommitInv(h) && CanElect(h, c, q)
    ensures h.log[c] != [] && CommitInv(Elect(h, c, q))
  {
    ElectMatch(h, c, q);
    var g, t := Elect(h, c, q), h.term[c];
    if (c, t) in h.acked {
      AckFact(h, c, t);
      assert false;
    }
    forall u, w | (u, w) in g.acked ensures AckOk(g, u, w) && ServerClaim(g, u, w) {
      assert AckOk(g, u, w);
      if (u, w) == (c, t) {
        forall k | 1 <= k <= g.acked[(c, t)] ensures Held(g, g.log[c], t, k, g.term[c]) {}
      } else {
        assert AckOk(h, u, w);
        ServerClaimGrows(h, g, u, w);
      }
    }
    forall u, later, w | (u, later) in g.vote && InTime(g, u, later) && (u, w) in g.acked && w < later
      ensures AckOk(g, u, w) && BallotClaim(g, u, later, w)
    {
      assert AckOk(g, u, w) && VoteOk(h, u, later);
      if (u, w) == (c, t) {
        assert false;
      }
      assert AckOk(h, u, w);
      BallotClaimGrows(h, g, u, later, w);
    }
  }

  // ---- a leader appends an entry of its term ----

  ghost predicate CanExtend(h: History, t: nat, e: LogEntry) {
    && t in h.reign && e.term == t && h.reign[t].who < |h.term| == |h.log|
    && h.term[h.reign[t].who] == t && h.log[h.reign[t].who] == h.reign[t].log
  }

  ghost function Extend(h: History, t: nat, e: LogEntry): History
    requires CanExtend(h, t, e)
  {
    var r := h.reign[t];
    h.(log := h.log[r.who := r.log + [e]], reign := h.reign[t := r.(log := r.log + [e])], acked :=
        h.acked[(r.who, t) := |r.log|])
  }

  lemma ExtendMatch(h: History, t: nat, e: LogEntry)
    requires MatchInv(h) && CanExtend(h, t, e)
    ensures MatchInv(Extend(h, t, e))
  {
    var g, r := Extend(h, t, e), h.reign[t];
    var l := r.log + [e];
    assert ReignOk(h, t);
    assert LogOk(g, l) by {
      forall i | 1 <= i < |l| ensures EntryOk(g, l, i) {
        if i < |r.log| {
          assert EntryOk(h, r.log, i);
          EntryGrows(h, g, r.log, i);
          AgreePrefix(r.log, l, i);
          AgreeTransitive(l, l, r.log, i) by { AgreeTransitive(r.log, l, l, i); }
          AgreeTransitive(l, r.log, g.reign[r.log[i].term].log, i);
        }
      }
    }
    forall u | 0 <= u < g.N() ensures ServerOk(g, u) {
      assert ServerOk(h, u);
      LogGrows(h, g, h.log[u]);
    }
    forall u | u in g.reign ensures ReignOk(g, u) {
      if u == t {
        forall v | v in r.voters ensures VoterOk(g, t, v) {
          assert VoterOk(h, t, v);
        }
      } else {
        ReignSame(h, g, u);
      }
    }
    forall u, w | (u, w) in g.vote ensures VoteOk(g, u, w) {
      assert VoteOk(h, u, w);
      LogGrows(h, g, h.vote[(u, w)].log);
    }
    forall u, w | (u, w) in g.acked ensures AckOk(g, u, w) {
      if (u, w) != (r.who, t) {
        assert AckOk(h, u, w);
      }
    }
  }

  lemma ExtendCommit(h: History, t: nat, e: LogEntry)
    requires CommitInv(h) && CanExtend(h, t, e)
    ensures CommitInv(Extend(h, t, e))
  {
    ExtendMatch(h, t, e);
    var g, r := Extend(h, t, e), h.reign[t];
    forall u, w | (u, w) in g.acked ensures AckOk(g, u, w) && ServerClaim(g, u, w) {
      assert AckOk(g, u, w);
      if (u, w) == (r.who, t) {
        forall k | 1 <= k <= g.acked[(u, w)] ensures Held(g, g.log[u], w, k, g.term[u]) {}
      } else {
        assert AckOk(h, u, w);
        ServerClaimGrows(h, g, u, w);
      }
    }
    forall u, later, w | (u, later) in g.vote && InTime(g, u, later) && (u, w) in g.acked && w < later
      ensures AckOk(g, u, w) && BallotClaim(g, u, later, w)
    {
      assert AckOk(g, u, w) && VoteOk(h, u, later);
      if (u, w) == (r.who, t) {
        assert false;
      }
      assert AckOk(h, u, w);
      BallotClaimGrows(h, g, u, later, w);
    }
  }

  // ---- a server takes over the leader's log up to index `m` ----

  ghost predicate CanAccept(h: History, v: nat, m: nat) {
    && v < |h.term| == |h.log| && h.term[v] in h.reign
    && |h.reign[h.term[v]].first| <= m + 1 <= |h.reign[h.term[v]].log|
  }

  ghost function Accept(h: History, v: nat, m: nat): History
    requires CanAccept(h, v, m)
  {
    h.(log := h.log[v := h.reign[h.term[v]].log[..m + 1]], acked := h.acked[(v, h.term[v]) := m])
  }

  lemma AcceptMatch(h: History, v: nat, m: nat)
    requires MatchInv(h) && CanAccept(h, v, m)
    ensures MatchInv(Accept(h, v, m))
  {
    var g, t := Accept(h, v, m), h.term[v];
    SameReign(h, g);
    assert ReignOk(h, t);
    LogPrefix(h, h.reign[t].log, m);
    forall u | 0 <= u < g.N() ensures ServerOk(g, u) {
      assert ServerOk(h, u);
      LogGrows(h, g, g.log[u]);
    }
    forall u | u in g.reign ensures ReignOk(g, u) {
      ReignSame(h, g, u);
    }
    forall u, w | (u, w) in g.vote ensures VoteOk(g, u, w) {
      assert VoteOk(h, u, w);
      LogGrows(h, g, h.vote[(u, w)].log);
    }
    forall u, w | (u, w) in g.acked ensures AckOk(g, u, w) {
      if (u, w) != (v, t) {
        assert AckOk(h, u, w);
      }
    }
  }

  /** What was acknowledged to earlier leaders is in the log taken over, or its leader is the excuse. */
  lemma AcceptClaim(h: History, v: nat, m: nat, t: nat)
    requires CommitInv(h) && CanAccept(h, v, m) && (v, t) in h.acked && t < h.term[v]
    ensures AckOk(h, v, t) && t in Accept(h, v, m).reign && ServerClaim(Accept(h, v, m), v, t)
  {
    var g, u := Accept(h, v, m), h.term[v];
    assert AckOk(h, v, t) && ReignOk(h, u);
    var r := h.reign[u];
    forall k | 1 <= k <= g.acked[(v, t)] ensures Held(g, g.log[v], t, k, g.term[v]) {
      if Agree(r.first, h.reign[t].log, k) {
        assert r.first == g.log[v][..|r.first|];
        AgreePrefix(r.first, g.log[v], k);
        AgreeTransitive(r.first, g.log[v], g.log[v], k);
        AgreeTransitive(g.log[v], r.first, h.reign[t].log, k);
      } else {
        assert Lacked(g, t, k, u);
      }
    }
  }

  /** Provided nothing acknowledged to the same leader is taken back. */
  lemma AcceptCommit(h: History, v: nat, m: nat)
    requires CommitInv(h) && CanAccept(h, v, m)
    requires (v, h.term[v]) in h.acked ==> h.acked[(v, h.term[v])] <= m
    ensures CommitInv(Accept(h, v, m))
  {
    AcceptMatch(h, v, m);
    var g, t := Accept(h, v, m), h.term[v];
    SameReign(h, g);
    forall u, w | (u, w) in g.acked ensures AckOk(g, u, w) && ServerClaim(g, u, w) {
      assert AckOk(g, u, w);
      if (u, w) == (v, t) {
        forall k | 1 <= k <= m ensures Held(g, g.log[v], t, k, g.term[v]) {
          AgreePrefix(g.log[v], g.reign[t].log, k);
        }
      } else {
        assert AckOk(h, u, w);
        if u == v {
          AcceptClaim(h, v, m, w);
        } else {
          ServerClaimGrows(h, g, u, w);
        }
      }
    }
    forall u, later, w | (u, later) in g.vote && InTime(g, u, later) && (u, w) in g.acked && w < later
      ensures AckOk(g, u, w) && BallotClaim(g, u, later, w)
    {
      assert AckOk(g, u, w) && VoteOk(h, u, later);
      if (u, w) == (v, t) {
        assert false;
      }
      assert AckOk(h, u, w);
      BallotClaimGrows(h, g, u, later, w);
    }
  }
}
