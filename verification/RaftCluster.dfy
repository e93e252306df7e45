/**
 A cluster of Raft peers and the messages between them, as a state machine: peers time out,
 take commands, send what they owe their followers, and messages are delivered, late or never.

 A message is delivered at most once, peers do not crash, and no service takes snapshots.
 The other hypotheses on runs are switches, so that each theorem asks for no more than it needs and
 what goes wrong without each can be shown.
 */
module RaftCluster {
  import opened RaftLog
  import opened RaftServer

  datatype Message =
    | VoteRequest(from: nat, to: nat, vote: VoteArgs)
    | VoteAnswer(from: nat, to: nat, election: nat, granted: VoteReply)
    | AppendRequest(from: nat, to: nat, append: AppendArgs)
    | AppendAnswer(from: nat, to: nat, append: AppendArgs, result: AppendReply)
    | SnapshotRequest(from: nat, to: nat, snapshot: SnapshotArgs)
    | SnapshotAnswer(from: nat, to: nat, snapshot: SnapshotArgs, replyTerm: nat)

  /**
   `net` holds the messages under way, numbered in the order they were sent; `handled` the number
   of the latest AppendEntries request handled from one peer at another.
   */
  datatype Cluster = Cluster(servers: seq<Server>, net: map<nat, Message>, clock: nat, handled: map<(nat, nat), nat>)
  {
    function N(): nat { |servers| }
  }

  /**
   votes: votes of an earlier election are counted only as `VoteGuard` allows.
   hints: rejections of requests of an earlier term are handled only as `HintGuard` allows.
   acks: acknowledgements of requests of an earlier term are handled only as `AckGuard` allows.
   order: AppendEntries requests are handled out of their order only as `OrderGuard` allows.
   */
  datatype Rules = Rules(votes: bool, hints: bool, acks: bool, order: bool)

  const ANY := Rules(false, false, false, false)

  datatype Event = Timeout(i: nat) | Submit(i: nat, command: Command) | Send(i: nat, to: nat) | Deliver(id: nat)

  function Init(n: nat): Cluster {
    Cluster(seq(n, i requires 0 <= i => Fresh(i, n)), map[], 0, map[])
  }

  /** Both ends of a message are peers. */
  predicate Addressed(c: Cluster, m: Message) {
    m.from < c.N() && m.to < c.N()
  }

  /** A vote granted in an earlier election does not complete the majority of that election now. */
  predicate VoteGuard(s: Server, t: nat, r: VoteReply) {
    s.role == Candidate && r.granted && s.term != t && t in s.count ==> s.count[t] + 1 <= |s.nextIndex| / 2
  }

  /** The index is in the log, with an entry of an earlier term. */
  predicate Earlier(s: Server, n: int) {
    0 <= ToStorage(s, n) < |s.log| && s.log[ToStorage(s, n)].term < s.term
  }

  /** A reply that a leader acts on is to a request of an earlier term. */
  predicate Stale(s: Server, a: AppendArgs, r: AppendReply) {
    s.role == Leader && r.term <= s.term && s.term != a.term
  }

  /** What a rejection points at is in the log: the index, or an entry of the term before what is due. */
  predicate HintFits(s: Server, from: nat, r: AppendReply) {
    || r.conflictIndex <= LastLogical(s) + 1
    || (r.conflictTerm != 0 && from < |s.nextIndex| &&
        exists i :: 0 <= i < |s.log| && i < ToStorage(s, s.nextIndex[from]) && s.log[i].term == r.conflictTerm)
  }

  predicate HintGuard(s: Server, from: nat, a: AppendArgs, r: AppendReply) {
    Stale(s, a, r) && !r.success ==> HintFits(s, from, r)
  }

  /** A stale acknowledgement tells of no more than is known, or of entries of earlier terms only. */
  predicate AckGuard(s: Server, from: nat, a: AppendArgs, r: AppendReply) {
    Stale(s, a, r) && r.success ==>
      (from < |s.matchIndex| && LastOf(a) <= s.matchIndex[from]) || Earlier(s, LastOf(a))
  }

  /** Not overtaken by a later request between the same peers. */
  predicate InOrder(c: Cluster, id: nat, from: nat, to: nat) {
    (from, to) in c.handled ==> id > c.handled[(from, to)]
  }

  /** A request that was overtaken does not make the log of a peer in its term shorter. */
  predicate OrderGuard(c: Cluster, id: nat, from: nat, to: nat, a: AppendArgs)
    requires to < c.N()
  {
    var s := c.servers[to];
    !InOrder(c, id, from, to) && a.term == s.term && s.log != [] && ToStorage(s, a.prev) >= -1 &&
        AppendEntries(s, a).1.success ==>
      LastLogical(s) <= LastOf(a)
  }

  predicate Enabled(rules: Rules, c: Cluster, ev: Event) {
    match ev
    case Timeout(i) => i < c.N()
    case Submit(i, _) => i < c.N()
    case Send(i, to) => i < c.N() && to < c.N() && i != to && c.servers[i].role == Leader
    case Deliver(id) =>
      id in c.net && Addressed(c, c.net[id]) &&
      match c.net[id] {
        case VoteAnswer(_, to, t, r) => rules.votes ==> VoteGuard(c.servers[to], t, r)
        case AppendRequest(from, to, a) => rules.order ==> OrderGuard(c, id, from, to, a)
        case AppendAnswer(from, to, a, r) =>
          && (rules.hints ==> HintGuard(c.servers[to], from, a, r))
          && (rules.acks ==> AckGuard(c.servers[to], from, a, r))
        case _ => true
      }
  }

  /** What the handlers take for granted: outside of it they would index out of range. */
  predicate NoPanic(c: Cluster, ev: Event)
    requires Enabled(ANY, c, ev)
  {
    match ev
    case Timeout(i) => c.servers[i].log != []
    case Submit(_, _) => true
    case Send(i, to) => to < |c.servers[i].nextIndex| &&
        ToStorage(c.servers[i], c.servers[i].nextIndex[to]) <= |c.servers[i].log|
    case Deliver(id) =>
      var m := c.net[id];
      var s := c.servers[m.to];
      match m {
        case VoteRequest(_, _, _) => s.log != []
        case VoteAnswer(_, _, t, _) => t in s.count
        case AppendRequest(_, _, a) => s.log != [] && ToStorage(s, a.prev) >= -1
        case AppendAnswer(from, _, _, _) =>
          && from < |s.nextIndex| == |s.matchIndex| && s.commit >= s.lastIncludedIndex
          && (s.role == Leader ==> ToStorage(s, s.nextIndex[from]) <= |s.log|)
        case SnapshotRequest(_, _, a) => a.lastIncludedIndex <= s.lastIncludedIndex
        case SnapshotAnswer(from, _, _, _) => from < |s.nextIndex| == |s.matchIndex|
      }
  }

  function Put(c: Cluster, i: nat, s: Server): Cluster
    requires i < c.N()
  {
    c.(servers := c.servers[i := s])
  }

  function Post(c: Cluster, m: Message): Cluster {
    c.(net := c.net[c.clock := m], clock := c.clock + 1)
  }

  function Numbers(from: nat, n: nat): (ids: set<nat>)
    ensures forall id: nat :: id in ids <==> from <= id < from + n
  {
    if n == 0 then {} else Numbers(from, n - 1) + {from + n - 1}
  }

  /** One request to every other peer. */
  function Broadcast(c: Cluster, i: nat, a: VoteArgs): Cluster {
    c.(net := c.net + map id | id in Numbers(c.clock, c.N()) && id != c.clock + i :: VoteRequest(i, id - c.clock, a),
       clock := c.clock + c.N())
  }

  function Apply(c: Cluster, ev: Event): Cluster
    requires Enabled(ANY, c, ev) && NoPanic(c, ev)
  {
    match ev
    case Timeout(i) =>
      var s := StartElection(c.servers[i]);
      Broadcast(Put(c, i, s), i, VoteArgsOf(s))
    case Submit(i, command) => Put(c, i, Start(c.servers[i], command))
    case Send(i, to) =>
      var s := c.servers[i];
      (match GenAppend(s, to) {
         case Append(a) => Post(c, AppendRequest(i, to, a))
         case NeedSnapshot => Post(c,
             SnapshotRequest(i, to, SnapshotArgs(s.term, i, s.lastIncludedIndex, s.lastIncludedTerm)))
       })
    case Deliver(id) => Handle(c.(net := c.net - {id}), id, c.net[id])
  }

  function Latest(handled: map<(nat, nat), nat>, x: (nat, nat), id: nat): map<(nat, nat), nat> {
    if x in handled && id <= handled[x] then handled else handled[x := id]
  }

  /** A message that has been taken out of the network is handled by its receiver. */
  function Handle(c: Cluster, id: nat, m: Message): Cluster
    requires Addressed(c, m) && NoPanic(c.(net := c.net[id := m]), Deliver(id))
  {
    var s := c.servers[m.to];
    match m
    case VoteRequest(from, to, a) =>
      var r := RequestVote(s, a);
      Post(Put(c, to, r.0), VoteAnswer(to, from, a.term, r.1))
    case VoteAnswer(_, to, t, r) => Put(c, to, HandleVoteReply(s, t, r))
    case AppendRequest(from, to, a) =>
      var r := AppendEntries(s, a);
      Post(Put(c.(handled := Latest(c.handled, (from, to), id)), to, r.0), AppendAnswer(to, from, a, r.1))
    case AppendAnswer(from, to, a, r) => Put(c, to, HandleAppendReply(s, from, a, r))
    case SnapshotRequest(from, to, a) =>
      var r := InstallSnapshot(s, a, 0);
      Post(Put(c, to, r.0), SnapshotAnswer(to, from, a, r.1))
    case SnapshotAnswer(from, to, a, t) => Put(c, to, HandleSnapshotReply(s, from, a, t))
  }

  /** A run of `n` peers: each event was enabled, and went through, where it happened. */
  predicate IsRun(rules: Rules, n: nat, trace: seq<Event>)
    decreases |trace|, 0
  {
    trace == [] ||
    (var before, ev := trace[..|trace| - 1], trace[|trace| - 1];
     IsRun(rules, n, before) && Enabled(rules, After(rules, n, before), ev) && NoPanic(After(rules, n, before), ev))
  }

  function After(rules: Rules, n: nat, trace: seq<Event>): Cluster
    requires IsRun(rules, n, trace)
    decreases |trace|, 1
  {
    if trace == [] then Init(n) else Apply(After(rules, n, trace[..|trace| - 1]), trace[|trace| - 1])
  }
}
