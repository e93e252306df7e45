module RaftHistory {
  // What has happened in a cluster, free of messages: terms and logs, the votes cast with the
  // voter's log at that time, the reign of each elected leader with its log at election and its
  // latest log, and how far each server has acknowledged each leader's log.
  //
  // Sections 5.2 to 5.4 of the extended Raft paper are proved here of five kinds of step; that the
  // servers of raft.go take only such steps is proved in RaftElection, RaftReplication and RaftCommit.

  import opened RaftLog

  datatype Ballot = Ballot(cand: nat, log: Log)

  datatype Reign = Reign(who: nat, first: Log, log: Log, voters: set<nat>)

  datatype History = History(
    term: seq<nat>, log: seq<Log>, vote: map<(nat, nat), Ballot>, reign: map<nat, Reign>, acked: map<(nat, nat), nat>)
  {
    ghost function N(): nat { |term| }
  }

  ghost predicate Majority(n: nat, q: set<nat>) {
    2 * |q| > n && forall v :: v in q ==> v < n
  }

  // ---- section 5.3: every entry comes with the log of its leader ----

  ghost predicate EntryOk(h: History, l: Log, i: nat)
    requires i < |l|
  {
    l[i].term > 0 && l[i].term in h.reign && Agree(l, h.reign[l[i].term].log, i)
  }

  ghost predicate LogOk(h: History, l: Log) {
    && l != [] && l[0] == PLACEHOLDER
    && forall i {:trigger EntryOk(h, l, i)} :: 1 <= i < |l| ==> EntryOk(h, l, i)
  }

  ghost predicate TermsUpTo(l: Log, t: nat) {
    forall i {:trigger l[i]} :: 0 <= i < |l| ==> l[i].term <= t
  }

  ghost predicate ReignOk(h: History, t: nat)
    requires t in h.reign
  {
    var r := h.reign[t];
    && t > 0 && r.who < h.N() && t <= h.term[r.who]
    && LogOk(h, r.log) && TermsUpTo(r.log, t)
    && r.first != [] && r.first <= r.log && TermsUpTo(r.first, t - 1)
    && Majority(h.N(), r.voters)
    && (forall v {:trigger VoterOk(h, t, v)} :: v in r.voters ==> VoterOk(h, t, v))
  }

  /** A voter that made the leader of `t` voted for it, and its log was not ahead of the leader's. */
  ghost predicate VoterOk(h: History, t: nat, v: nat)
    requires t in h.reign && h.reign[t].first != []
  {
    && (v, t) in h.vote && h.vote[(v, t)].cand == h.reign[t].who
    && h.vote[(v, t)].log != [] && UpToDate(h.reign[t].first, h.vote[(v, t)].log)
  }

  ghost predicate ServerOk(h: History, v: nat)
    requires v < |h.term| == |h.log|
  {
    LogOk(h, h.log[v]) && TermsUpTo(h.log[v], h.term[v])
  }

  ghost predicate VoteOk(h: History, v: nat, t: nat)
    requires (v, t) in h.vote
  {
    && v < h.N() && t <= h.term[v] && LogOk(h, h.vote[(v, t)].log)
    && h.vote[(v, t)].cand < h.N() && t <= h.term[h.vote[(v, t)].cand]
  }

  ghost predicate AckOk(h: History, v: nat, t: nat)
    requires (v, t) in h.acked
  {
    v < h.N() && t <= h.term[v] && t in h.reign && h.acked[(v, t)] < |h.reign[t].log|
  }

  ghost predicate MatchInv(h: History) {
    && |h.log| == |h.term|
    && (forall v {:trigger ServerOk(h, v)} :: 0 <= v < h.N() ==> ServerOk(h, v))
    && (forall t {:trigger ReignOk(h, t)} :: t in h.reign ==> ReignOk(h, t))
    && (forall v, t {:trigger VoteOk(h, v, t)} :: (v, t) in h.vote ==> VoteOk(h, v, t))
    && (forall v, t {:trigger AckOk(h, v, t)} :: (v, t) in h.acked ==> AckOk(h, v, t))
  }

  lemma VoteFact(h: History, v: nat, t: nat)
    requires MatchInv(h) && (v, t) in h.vote
    ensures VoteOk(h, v, t)
  {}

  lemma AckFact(h: History, v: nat, t: nat)
    requires MatchInv(h) && (v, t) in h.acked
    ensures AckOk(h, v, t)
  {}

  lemma ReignFact(h: History, t: nat, v: nat)
    requires MatchInv(h) && t in h.reign
    ensures ReignOk(h, t) && (v in h.reign[t].voters ==> VoterOk(h, t, v))
  {
    assert ReignOk(h, t);
  }

  /** Entries with one term at one index come with the same entries before them. */
  lemma Matching(h: History, l: Log, m: Log, i: nat)
    requires LogOk(h, l) && LogOk(h, m) && i < |l| && i < |m| && l[i].term == m[i].term
    ensures Agree(l, m, i)
  {
    if i == 0 {
      assert l[..1] == [l[0]] && m[..1] == [m[0]];
    } else {
      assert EntryOk(h, l, i) && EntryOk(h, m, i);
      AgreeTransitive(m, h.reign[l[i].term].log, l, i);
      AgreeTransitive(l, h.reign[l[i].term].log, m, i);
    }
  }

  /** Terms do not decrease along a log. */
  lemma Monotone(h: History, l: Log, i: nat, j: nat)
    requires MatchInv(h) && LogOk(h, l) && i <= j < |l|
    ensures l[i].term <= l[j].term
  {
    if j > 0 {
      assert EntryOk(h, l, j) && ReignOk(h, l[j].term);
      AgreeBelow(l, h.reign[l[j].term].log, j, i);
    }
  }

  // ---- section 5.4: what is acknowledged is kept, or a later leader lacked it ----

  ghost predicate Lacked(h: History, t: nat, k: nat, later: nat)
    requires t in h.reign && later in h.reign
  {
    !Agree(h.reign[later].first, h.reign[t].log, k)
  }

  /** The log holds entry `k` of the leader of `t`, or some leader after `t`, up to `hi`, was elected without it. */
  ghost predicate Held(h: History, l: Log, t: nat, k: nat, hi: int)
    requires t in h.reign
  {
    Agree(l, h.reign[t].log, k)
    || exists later {:trigger Lacked(h, t, k, later)} :: later in h.reign && t < later <= hi && Lacked(h, t, k, later)
  }

  ghost predicate ServerClaim(h: History, v: nat, t: nat)
    requires (v, t) in h.acked && v < |h.term| == |h.log| && t in h.reign
  {
    forall k {:trigger Held(h, h.log[v], t, k, h.term[v])} ::
      1 <= k <= h.acked[(v, t)] ==> Held(h, h.log[v], t, k, h.term[v])
  }

  /** The same of the log a voter had when it voted in a later term. */
  ghost predicate BallotClaim(h: History, v: nat, later: nat, t: nat)
    requires (v, t) in h.acked && (v, later) in h.vote && t in h.reign
  {
    forall k {:trigger Held(h, h.vote[(v, later)].log, t, k, later - 1)} ::
      1 <= k <= h.acked[(v, t)] ==> Held(h, h.vote[(v, later)].log, t, k, later - 1)
  }

  /** The ballot took part in the election of its term, or still may. */
  ghost predicate InTime(h: History, v: nat, t: nat) {
    t !in h.reign || v in h.reign[t].voters
  }

  ghost predicate ServerClaims(h: History)
    requires MatchInv(h)
  {
    forall v, t {:trigger AckOk(h, v, t)} :: (v, t) in h.acked ==> AckOk(h, v, t) && ServerClaim(h, v, t)
  }

  ghost predicate BallotClaims(h: History)
    requires MatchInv(h)
  {
    forall v, later, t {:trigger VoteOk(h, v, later), AckOk(h, v, t)} ::
      (v, later) in h.vote && InTime(h, v, later) && (v, t) in h.acked && t < later ==>
          AckOk(h, v, t) && BallotClaim(h, v, later, t)
  }

  ghost predicate CommitInv(h: History) {
    MatchInv(h) && ServerClaims(h) && BallotClaims(h)
  }

  ghost predicate AckedBy(h: History, t: nat, k: nat, q: set<nat>) {
    forall v :: v in q ==> (v, t) in h.acked && k <= h.acked[(v, t)]
  }

  /** Entry `k` is of the leader of `t` itself and a majority has acknowledged it. */
  ghost predicate Replicated(h: History, t: nat, k: nat) {
    && t in h.reign && 1 <= k < |h.reign[t].log| && h.reign[t].log[k].term == t
    && exists q :: Majority(h.N(), q) && AckedBy(h, t, k, q)
  }

  lemma {:induction false} SubsetSize(q: set<nat>, n: nat)
    requires forall v :: v in q ==> v < n
    ensures |q| <= n
  {
    if n == 0 {
      assert q == {};
    } else {
      SubsetSize(q - {n - 1}, n - 1);
    }
  }

  lemma MajoritiesMeet(n: nat, p: set<nat>, q: set<nat>) returns (v: nat)
    requires Majority(n, p) && Majority(n, q)
    ensures v in p && v in q
  {
    if p * q == {} {
      assert |p + q| == |p| + |q|;
      SubsetSize(p + q, n);
    }
    v :| v in p * q;
  }

  /** A candidate's log that is up to date beside a log holding entry `k` of `t` holds it too. */
  lemma UpToDateHolds(h: History, c: Log, l: Log, t: nat, k: nat, later: nat)
    requires MatchInv(h) && LogOk(h, c) && LogOk(h, l) && UpToDate(c, l) && later > 0 && TermsUpTo(c, later - 1)
    requires t in h.reign && 1 <= k && Agree(l, h.reign[t].log, k) && h.reign[t].log[k].term == t
    requires forall u :: u in h.reign && t < u < later ==> Agree(h.reign[u].first, h.reign[t].log, k)
    ensures Agree(c, h.reign[t].log, k)
  {
    var i, j := |c| - 1, |l| - 1;
    AgreeBelow(l, h.reign[t].log, k, k);
    Monotone(h, l, k, j);
    var u := LastTerm(c);
    assert i > 0 by {
      if i == 0 {
        assert c[0].term == 0;
      }
    }
    assert EntryOk(h, c, i);
    if u == LastTerm(l) {
      assert EntryOk(h, l, j);
      AgreeBelow(l, h.reign[u].log, j, k);
      AgreeBelow(c, h.reign[u].log, i, k);
      AgreeTransitive(c, h.reign[u].log, h.reign[u].log, k);
      AgreeTransitive(l, h.reign[u].log, h.reign[u].log, k);
      AgreeTransitive(c, h.reign[u].log, l, k);
      AgreeTransitive(c, l, h.reign[t].log, k);
    } else {
      assert ReignOk(h, u);
      var f := h.reign[u].first;
      assert Agree(f, h.reign[t].log, k);
      AgreePrefix(f, h.reign[u].log, k);
      AgreeBelow(f, h.reign[t].log, k, k);
      AgreeBelow(f, h.reign[u].log, k, k);
      AgreeBelow(c, h.reign[u].log, i, i);
      if i <= k {
        Monotone(h, h.reign[u].log, i, k);
        assert false;
      }
      AgreeBelow(c, h.reign[u].log, i, k);
      AgreeTransitive(f, h.reign[u].log, h.reign[u].log, k);
      AgreeTransitive(c, h.reign[u].log, f, k);
      AgreeTransitive(c, f, h.reign[t].log, k);
    }
  }

  /** Leader Completeness: whoever is elected later has every entry that was committed by then or ever will be. */
  lemma {:induction false} LeaderCompleteness(h: History, t: nat, k: nat, later: nat)
    requires CommitInv(h) && Replicated(h, t, k) && later in h.reign && t < later
    ensures Agree(h.reign[later].first, h.reign[t].log, k)
    decreases later
  {
    forall u | u in h.reign && t < u < later ensures Agree(h.reign[u].first, h.reign[t].log, k) {
      LeaderCompleteness(h, t, k, u);
    }
    var q :| Majority(h.N(), q) && AckedBy(h, t, k, q);
    assert ReignOk(h, later);
    var v := MajoritiesMeet(h.N(), q, h.reign[later].voters);
    assert VoterOk(h, later, v) && VoteOk(h, v, later) && AckOk(h, v, t);
    var l := h.vote[(v, later)].log;
    assert BallotClaim(h, v, later, t);
    assert Held(h, l, t, k, later - 1);
    assert Agree(l, h.reign[t].log, k);
    FirstOk(h, later);
    UpToDateHolds(h, h.reign[later].first, l, t, k, later);
  }

  lemma FirstOk(h: History, t: nat)
    requires MatchInv(h) && t in h.reign
    ensures LogOk(h, h.reign[t].first)
  {
    assert ReignOk(h, t);
    var r := h.reign[t];
    assert r.first[0] == r.log[0];
    forall i | 1 <= i < |r.first| ensures EntryOk(h, r.first, i) {
      assert EntryOk(h, r.log, i) && r.first[i] == r.log[i];
      AgreePrefix(r.first, r.log, i);
      AgreeTransitive(r.first, r.log, h.reign[r.log[i].term].log, i);
    }
  }

  // ---- the steps ----

  /** No reign ends in the record: logs of leaders only grow. */
  ghost predicate Grows(h: History, g: History) {
    forall t {:trigger t in h.reign} :: t in h.reign ==>
      t in g.reign && g.reign[t].first == h.reign[t].first && h.reign[t].log <= g.reign[t].log
      && g.reign[t].who == h.reign[t].who && g.reign[t].voters == h.reign[t].voters
  }

  lemma EntryGrows(h: History, g: History, l: Log, i: nat)
    requires Grows(h, g) && i < |l| && EntryOk(h, l, i)
    ensures EntryOk(g, l, i)
  {
    var t := l[i].term;
    AgreePrefix(h.reign[t].log, g.reign[t].log, i);
    AgreeTransitive(l, h.reign[t].log, g.reign[t].log, i);
  }

  lemma LogGrows(h: History, g: History, l: Log)
    requires Grows(h, g) && LogOk(h, l)
    ensures LogOk(g, l)
  {
    forall i | 1 <= i < |l| ensures EntryOk(g, l, i) {
      assert EntryOk(h, l, i);
      EntryGrows(h, g, l, i);
    }
  }

  lemma LogPrefix(h: History, l: Log, k: nat)
    requires LogOk(h, l) && k < |l|
    ensures LogOk(h, l[..k + 1])
  {
    var m := l[..k + 1];
    forall i | 1 <= i < |m| ensures EntryOk(h, m, i) {
      assert EntryOk(h, l, i) && m[i] == l[i];
      AgreePrefix(m, l, i);
      AgreeTransitive(m, l, h.reign[l[i].term].log, i);
    }
  }

  lemma HeldGrows(h: History, g: History, l: Log, m: Log, t: nat, k: nat, hi: int, hi': int)
    requires Grows(h, g) && t in h.reign && k < |h.reign[t].log| && Held(h, l, t, k, hi) && l <= m && hi <= hi'
    ensures Held(g, m, t, k, hi')
  {
    AgreePrefix(h.reign[t].log, g.reign[t].log, k);
    if Agree(l, h.reign[t].log, k) {
      AgreePrefix(l, m, k);
      AgreeTransitive(m, m, l, k) by { AgreeTransitive(l, m, m, k); }
      AgreeTransitive(m, l, h.reign[t].log, k);
      AgreeTransitive(m, h.reign[t].log, g.reign[t].log, k);
    } else {
      var later :| later in h.reign && t < later <= hi && Lacked(h, t, k, later);
      var f, r, q := h.reign[later].first, h.reign[t].log, g.reign[t].log;
      AgreeTransitive(r, q, q, k) by { AgreePrefix(r, q, k); }
      if Agree(f, q, k) {
        AgreeTransitive(f, q, r, k);
        assert false;
      }
      assert Lacked(g, t, k, later);
    }
  }
}
