/**
 One Raft peer (src/raft/raft.go): the state it keeps and what each handler does to it, as
 functions of the state.  The class `Raft` has the handlers as they are written, with
 their loops and updates in place, proved to compute these functions.

 Terms and indexes are mathematical integers.  Channels, timers, persistence and the goroutine
 that applies entries are not part of the state.
 */
module RaftServer {
  import opened RaftLog

  datatype Role = Follower | Candidate | Leader

  /** `count` holds the voteCount of each election the server has started, by its term. */
  datatype Server = Server(
    me: nat, term: nat, votedFor: int, log: Log, commit: int, nextIndex: seq<int>, matchIndex: seq<int>, role: Role,
    count: map<nat, nat>, lastIncludedIndex: int, lastIncludedTerm: nat)

  datatype VoteArgs = VoteArgs(term: nat, cand: nat, lastIndex: int, lastTerm: nat)

  datatype VoteReply = VoteReply(term: nat, granted: bool)

  datatype AppendArgs = AppendArgs(term: nat, leader: nat, prev: int, prevTerm: nat, entries: Log, leaderCommit: int)

  datatype AppendReply = AppendReply(term: nat, success: bool, conflictIndex: int, conflictTerm: nat)

  datatype SnapshotArgs = SnapshotArgs(term: nat, leader: nat, lastIncludedIndex: int, lastIncludedTerm: nat)

  datatype Outgoing = Append(args: AppendArgs) | NeedSnapshot

  /** Make: a fresh peer among `n`. */
  function Fresh(me: nat, n: nat): Server {
    Server(me, 0, -1, [PLACEHOLDER], 0, seq(n, _ => 0), seq(n, _ => 0), Follower, map[], 0, 0)
  }

  function LastLogical(s: Server): int {
    |s.log| - 1 + s.lastIncludedIndex
  }

  function ToStorage(s: Server, logical: int): int {
    logical - s.lastIncludedIndex
  }

  function ConvertRole(s: Server, role: Role): Server {
    if role == Leader then
      s.(nextIndex := seq(|s.nextIndex|, _ => LastLogical(s) + 1), matchIndex := seq(|s.matchIndex|, _ => -1), role :=
          Leader)
    else
      s.(role := role)
  }

  /** What the server does when it learns of a later term. */
  function StepDown(s: Server, term: nat): Server {
    s.(term := term, role := Follower, votedFor := -1)
  }

  // ---- elections ----

  predicate IsUpToDate(s: Server, lastTerm: nat, lastIndex: int)
    requires s.log != []
  {
    if lastTerm == LastTerm(s.log) then lastIndex >= LastLogical(s) else lastTerm > LastTerm(s.log)
  }

  function RequestVote(s: Server, a: VoteArgs): (Server, VoteReply)
    requires s.log != []
  {
    if a.term < s.term || (a.term == s.term && s.votedFor != -1 && s.votedFor != a.cand) then
      (s, VoteReply(s.term, false))
    else
      var s1 := if a.term > s.term then StepDown(s, a.term) else s;
      if !IsUpToDate(s1, a.lastTerm, a.lastIndex) then (s1.(votedFor := -1), VoteReply(s1.term, false))
      else (s1.(votedFor := a.cand), VoteReply(s1.term, true))
  }

  function VoteArgsOf(s: Server): VoteArgs
    requires s.log != []
  {
    VoteArgs(s.term, s.me, LastLogical(s), LastTerm(s.log))
  }

  function StartElection(s: Server): Server {
    s.(role := Candidate, term := s.term + 1, votedFor := s.me, count := s.count[s.term + 1 := 1])
  }

  /** A reply in the election of term `t`. */
  function HandleVoteReply(s: Server, t: nat, r: VoteReply): Server
    requires t in s.count
  {
    if s.role == Candidate && r.granted then
      var s1 := s.(count := s.count[t := s.count[t] + 1]);
      if s1.count[t] > |s.nextIndex| / 2 then ConvertRole(s1, Leader) else s1
    else if r.term > s.term then StepDown(s, r.term)
    else s
  }

  // ---- replication ----

  /** The last index at or below `index` that is 0 or has a term below `t`. */
  function ConflictStart(l: Log, index: nat, t: nat): (r: nat)
    requires index < |l|
    ensures r <= index && (r == 0 || l[r].term < t)
    ensures forall i :: r < i <= index ==> l[i].term >= t
  {
    if index > 0 && l[index].term >= t then ConflictStart(l, index - 1, t) else index
  }

  function AppendEntries(s: Server, a: AppendArgs): (Server, AppendReply)
    requires s.log != [] && ToStorage(s, a.prev) >= -1
  {
    if a.term < s.term then (s, AppendReply(s.term, false, 0, 0))
    else
      var s1 := if a.term > s.term then StepDown(s, a.term) else ConvertRole(s, Follower);
      var index := ToStorage(s, a.prev);
      if a.prev > LastLogical(s) then (s1, AppendReply(s1.term, false, LastLogical(s), 0))
      else if index > 0 && s.log[index].term != a.prevTerm then
        var t := s.log[index].term;
        (s1, AppendReply(s1.term, false, ConflictStart(s.log, index, t) + 1 + s.lastIncludedIndex, t))
      else
        var s2 := s1.(log := s.log[..index + 1] + a.entries);
        (s2.(commit := FollowerCommit(s2, a.leaderCommit)), AppendReply(a.term, true, 0, 0))
  }

  function FollowerCommit(s: Server, leaderCommit: int): int {
    if leaderCommit <= s.commit then s.commit
    else if leaderCommit < LastLogical(s) then leaderCommit
    else LastLogical(s)
  }

  /** genAppendEntries: the rest of the log from `nextIndex` on, if it has not been compacted. */
  function GenAppend(s: Server, to: nat): Outgoing
    requires to < |s.nextIndex| && ToStorage(s, s.nextIndex[to]) <= |s.log|
  {
    var prev := s.nextIndex[to] - 1;
    if prev < s.lastIncludedIndex then NeedSnapshot
    else
      Append(AppendArgs(s.term, s.me, prev, s.log[ToStorage(s, prev)].term, s.log[ToStorage(s, s.nextIndex[to])..],
          s.commit))
  }

  /** The last index at or below `index` whose term is not above `t`, or a negative number. */
  function TermSearch(l: Log, index: int, t: nat): (r: int)
    requires index < |l|
    ensures r <= index && (r >= 0 ==> l[r].term <= t)
    ensures forall i :: 0 <= i && r < i <= index ==> l[i].term > t
    decreases index + 1
  {
    if index >= 0 && l[index].term > t then TermSearch(l, index - 1, t) else index
  }

  /** How many of the first `i` peers other than `me` have matched index `n`. */
  function Matched(s: Server, n: int, i: nat): (c: nat)
    requires i <= |s.matchIndex|
    ensures c <= i
  {
    if i == 0 then 0
    else Matched(s, n, i - 1) + if i - 1 != s.me && s.matchIndex[i - 1] >= n then 1 else 0
  }

  function CountFor(s: Server, n: int): nat
    requires 0 <= ToStorage(s, n) < |s.log|
  {
    if s.log[ToStorage(s, n)].term == s.term then 1 + Matched(s, n, |s.matchIndex|) else 1
  }

  /** The highest index above the commit index, up to `n`, that a majority holds; else the commit index. */
  function LeaderCommit(s: Server, n: int): (c: int)
    requires s.commit >= s.lastIncludedIndex && n <= LastLogical(s)
    ensures c == s.commit || (s.commit < c <= n && CountFor(s, c) > |s.nextIndex| / 2)
    ensures forall m {:trigger CountFor(s, m)} :: c < m <= n ==> CountFor(s, m) <= |s.nextIndex| / 2
    decreases n - s.commit
  {
    if n <= s.commit then s.commit
    else if CountFor(s, n) > |s.nextIndex| / 2 then n
    else LeaderCommit(s, n - 1)
  }

  /** The index a request reaches. */
  function LastOf(a: AppendArgs): int { a.prev + |a.entries| }

  /** The nextIndex of a follower after it has rejected a request. */
  function Retreat(s: Server, from: nat, r: AppendReply): int
    requires from < |s.nextIndex| && ToStorage(s, s.nextIndex[from]) <= |s.log|
  {
    var i := TermSearch(s.log, ToStorage(s, s.nextIndex[from] - 1), r.conflictTerm);
    if r.conflictTerm != 0 && i >= 0 && s.log[i].term == r.conflictTerm then i + 1 else r.conflictIndex
  }

  function HandleAppendReply(s: Server, from: nat, a: AppendArgs, r: AppendReply): Server
    requires from < |s.nextIndex| == |s.matchIndex| && s.commit >= s.lastIncludedIndex
    requires s.role == Leader ==> ToStorage(s, s.nextIndex[from]) <= |s.log|
  {
    if s.role != Leader then s
    else if r.term > s.term then StepDown(s, r.term)
    else if !r.success then s.(nextIndex := s.nextIndex[from := Retreat(s, from, r)])
    else
      var s1 := s.(nextIndex := s.nextIndex[from := LastLogical(s) + 1], matchIndex := s.matchIndex[from := LastOf(a)]);
      s1.(commit := LeaderCommit(s1, LastLogical(s1)))
  }

  function Start(s: Server, command: Command): Server {
    if s.role == Leader then s.(log := s.log + [LogEntry(s.term, command)]) else s
  }

  // ---- compaction ----

  /** The service has a snapshot up to `index`; the log before it is dropped. */
  function Snapshot(s: Server, index: int): Server
    requires index > s.lastIncludedIndex ==> ToStorage(s, index) < |s.log|
  {
    if index <= s.lastIncludedIndex then s
    else
      var at := ToStorage(s, index);
      s.(lastIncludedTerm := s.log[at].term, log :=
          s.log[at..][0 := LogEntry(s.log[at].term, NoCommand)], lastIncludedIndex := index)
  }

  /** What the server takes a snapshot for: to get past its own and past what it has applied. */
  predicate Installs(s: Server, a: SnapshotArgs, lastApplied: int) {
    a.term >= s.term && a.lastIncludedIndex > s.lastIncludedIndex && a.lastIncludedIndex > lastApplied
  }

  /** The log is trimmed, with a placeholder of term 0, or replaced by the snapshot's placeholder. */
  function Installed(s: Server, a: SnapshotArgs): Server
    requires a.lastIncludedIndex > s.lastIncludedIndex
  {
    var log := if LastLogical(s) <= a.lastIncludedIndex then [LogEntry(a.lastIncludedTerm, NoCommand)]
               else s.log[ToStorage(s, a.lastIncludedIndex)..][0 := PLACEHOLDER];
    var commit := if s.commit < a.lastIncludedIndex then a.lastIncludedIndex else s.commit;
    s.(log := log, lastIncludedIndex := a.lastIncludedIndex, lastIncludedTerm := a.lastIncludedTerm, commit := commit)
  }

  function InstallSnapshot(s: Server, a: SnapshotArgs, lastApplied: int): (Server, nat) {
    if a.term < s.term then (s, s.term)
    else
      var s1 := if a.term > s.term then StepDown(s, a.term) else s;
      (if Installs(s, a, lastApplied) then Installed(s1, a) else s1, if a.term > s.term then a.term else 0)
  }

  function HandleSnapshotReply(s: Server, from: nat, a: SnapshotArgs, replyTerm: nat): Server
    requires from < |s.nextIndex| == |s.matchIndex|
  {
    if s.role != Leader || s.term != a.term then s
    else if replyTerm > s.term then StepDown(s, replyTerm)
    else if s.nextIndex[from] <= a.lastIncludedIndex then
      s.(nextIndex := s.nextIndex[from := a.lastIncludedIndex + 1], matchIndex :=
          s.matchIndex[from := a.lastIncludedIndex])
    else s
  }
}
