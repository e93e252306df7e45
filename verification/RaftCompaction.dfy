module RaftCompaction {
  // Log compaction (section 7 of the extended Raft paper): a peer that drops the log its service has
  // a snapshot of, beside one that never does.  The two behave alike as long as AppendEntries does
  // not reach below the snapshot or disagree with it, and no rejection makes the leader's search for
  // a term come out differently; when that happens is stated exactly.

  import opened RaftLog
  import opened RaftServer

  /** The log without what lies before `base`, which itself is left as a placeholder. */
  ghost function Tail(l: Log, base: nat): Log
    requires base < |l|
  {
    [LogEntry(l[base].term, NoCommand)] + l[base + 1..]
  }

  /** `s` is what is left of `full`. */
  ghost predicate Refines(s: Server, full: Server) {
    && full.log != [] && full.log[0] == PLACEHOLDER && full.lastIncludedIndex == 0
    && 0 <= s.lastIncludedIndex < |full.log|
    && s.log == Tail(full.log, s.lastIncludedIndex) && s.lastIncludedTerm == full.log[s.lastIncludedIndex].term
    && full == s.(log := full.log, lastIncludedIndex := 0, lastIncludedTerm := full.lastIncludedTerm)
  }

  /** What is left has the same last index and term, and the same entries above the snapshot. */
  lemma SameEnds(s: Server, full: Server)
    requires Refines(s, full)
    ensures s.log != [] && LastLogical(s) == LastLogical(full) && LastTerm(s.log) == LastTerm(full.log)
    ensures forall i: nat {:trigger s.log[i]} :: i < |s.log| ==> s.log[i].term == full.log[s.lastIncludedIndex + i].term
    ensures forall i: nat {:trigger s.log[i]} :: 0 < i < |s.log| ==> s.log[i] == full.log[s.lastIncludedIndex + i]
  {
    var b := s.lastIncludedIndex;
    forall i: nat | 0 < i < |s.log| ensures s.log[i] == full.log[b + i] {
      assert s.log[i] == full.log[b + 1..][i - 1];
    }
  }

  // ---- what the peer sends ----

  lemma SameVoteArgs(s: Server, full: Server)
    requires Refines(s, full)
    ensures s.log != [] && full.log != [] && VoteArgsOf(s) == VoteArgsOf(full)
  {
    SameEnds(s, full);
  }

  /** The leader sends the same unless what is due is in the snapshot, and only then. */
  lemma SameAppend(s: Server, full: Server, to: nat)
    requires Refines(s, full) && to < |s.nextIndex| && s.nextIndex[to] <= |full.log|
    ensures ToStorage(s, s.nextIndex[to]) <= |s.log|
    ensures GenAppend(s, to) == GenAppend(full, to) <==> !(1 <= s.nextIndex[to] <= s.lastIncludedIndex)
  {
    SameEnds(s, full);
    assert full.nextIndex == s.nextIndex && full.lastIncludedIndex == 0;
    if s.nextIndex[to] > s.lastIncludedIndex {
      SameDue(s, full, to);
    }
    hide Tail, Refines;
  }

  lemma SameDue(s: Server, full: Server, to: nat)
    requires Refines(s, full) && to < |s.nextIndex| && s.lastIncludedIndex < s.nextIndex[to] <= |full.log|
    requires ToStorage(s, s.nextIndex[to]) <= |s.log|
    ensures GenAppend(s, to) == GenAppend(full, to)
  {
    var next, b := s.nextIndex[to], s.lastIncludedIndex;
    SameEnds(s, full);
    SameRest(full.log, b, next, s.log);
    assert s.log[next - b - 1].term == full.log[next - 1].term;
    hide Tail;
  }

  lemma SameRest(l: Log, base: nat, next: nat, tail: Log)
    requires base < next <= |l| && tail == Tail(l, base)
    ensures |tail| == |l| - base && tail[next - base..] == l[next..]
  {}

  // ---- AppendEntries ----

  /** The one request the two disagree about: it meets the snapshot's last entry, with another term. */
  predicate Disagrees(s: Server, a: AppendArgs) {
    a.term >= s.term && a.prev == s.lastIncludedIndex > 0 && a.prevTerm != s.lastIncludedTerm
  }

  /** The test at `prev` comes out the same, unless `prev` is where the snapshot ends. */
  lemma SameTest(s: Server, full: Server, a: AppendArgs)
    requires Refines(s, full) && a.prev >= s.lastIncludedIndex
    ensures LastLogical(s) == LastLogical(full) && s.log != []
    ensures s.lastIncludedIndex < a.prev <= LastLogical(full) ==>
            s.log[ToStorage(s, a.prev)].term == full.log[a.prev].term
    ensures a.prev <= LastLogical(full) ==>
              s.log[..ToStorage(s, a.prev) + 1] + a.entries ==
                  Tail(full.log[..a.prev + 1] + a.entries, s.lastIncludedIndex)
  {
    SameEnds(s, full);
    if a.prev <= LastLogical(full) {
      TailKept(full.log, s.lastIncludedIndex, a.prev, a.entries);
    }
    if s.lastIncludedIndex < a.prev <= LastLogical(full) {
      assert s.log[a.prev - s.lastIncludedIndex] == full.log[a.prev];
    }
  }

  /** On that request the replies differ, and on no other. */
  lemma SameSuccess(s: Server, full: Server, a: AppendArgs)
    requires Refines(s, full) && a.prev >= s.lastIncludedIndex
    ensures s.log != []
    ensures AppendEntries(s, a).1.success == AppendEntries(full, a).1.success <==> !Disagrees(s, a)
  {
    hide Tail, ConflictStart, FollowerCommit;
    SameTest(s, full, a);
  }

  /** On every other, the two logs stay alike. */
  lemma AppendRefines(s: Server, full: Server, a: AppendArgs)
    requires Refines(s, full) && a.prev >= s.lastIncludedIndex && !Disagrees(s, a)
    ensures s.log != [] && Refines(AppendEntries(s, a).0, AppendEntries(full, a).0)
  {
    hide ConflictStart;
    SameTest(s, full, a);
  }

  /** Replacing what comes after `prev` in what is left of a log is replacing it in the log. */
  lemma TailKept(l: Log, base: nat, prev: nat, entries: Log)
    requires base <= prev < |l|
    ensures Tail(l, base)[..prev - base + 1] + entries == Tail(l[..prev + 1] + entries, base)
  {}

  /** The hint in a rejection is the same unless the terms it skips reach down into the snapshot. */
  lemma SameHint(s: Server, full: Server, a: AppendArgs)
    requires Refines(s, full) && s.lastIncludedIndex <= a.prev && !Disagrees(s, a) && a.term >= s.term
    requires a.prev <= LastLogical(full) && a.prevTerm != full.log[a.prev].term && a.prev > 0
    ensures s.log != []
    ensures AppendEntries(s, a).1 == AppendEntries(full, a).1 <==>
            ConflictStart(full.log, a.prev, full.log[a.prev].term) >= s.lastIncludedIndex
  {
    SameTest(s, full, a);
    assert a.prev > s.lastIncludedIndex;
    StartAbove(s, full, a.prev - s.lastIncludedIndex, full.log[a.prev].term);
    hide AppendEntries, Refines, Tail;
    Rejected(s, a);
    Rejected(full, a);
  }

  /** The reply to a request that does not agree at `prev`. */
  lemma Rejected(s: Server, a: AppendArgs)
    requires s.log != [] && a.term >= s.term && 0 < ToStorage(s, a.prev) < |s.log| &&
             s.log[ToStorage(s, a.prev)].term != a.prevTerm
    ensures var t := s.log[ToStorage(s, a.prev)].term;
            AppendEntries(s, a).1 ==
                AppendReply(a.term, false, ConflictStart(s.log, ToStorage(s, a.prev), t) + 1 + s.lastIncludedIndex, t)
  {
    hide ConflictStart, FollowerCommit;
  }

  /** The search stops at the snapshot if not before. */
  lemma {:induction false} StartAbove(s: Server, full: Server, index: nat, t: nat)
    requires Refines(s, full) && index < |s.log|
    ensures var r, b := ConflictStart(full.log, index + s.lastIncludedIndex, t), s.lastIncludedIndex;
            ConflictStart(s.log, index, t) == if r >= b then r - b else 0
  {
    SameEnds(s, full);
    if index > 0 {
      assert s.log[index] == full.log[s.lastIncludedIndex + index];
      StartAbove(s, full, index - 1, t);
    }
  }

  // ---- replies ----

  /** Above the commit index the two count alike. */
  lemma {:induction false} CountRefines(s: Server, full: Server, n: int)
    requires Refines(s, full) && s.commit >= s.lastIncludedIndex && n <= LastLogical(full)
    ensures n <= LastLogical(s) && LeaderCommit(s, n) == LeaderCommit(full, n)
    decreases n - s.commit
  {
    SameEnds(s, full);
    if n > s.commit {
      var i := n - s.lastIncludedIndex;
      assert s.log[i].term == full.log[n].term;
      SameMatched(s, full, n, |s.matchIndex|);
      CountRefines(s, full, n - 1);
    }
  }

  lemma {:induction false} SameMatched(s: Server, full: Server, n: int, i: nat)
    requires full.me == s.me && full.matchIndex == s.matchIndex && i <= |s.matchIndex|
    ensures Matched(s, n, i) == Matched(full, n, i)
  {
    if i > 0 {
      SameMatched(s, full, n, i - 1);
    }
  }

  /** What the reply handler takes for granted. */
  predicate ReplyGoes(s: Server, from: nat) {
    && from < |s.nextIndex| == |s.matchIndex| && s.commit >= s.lastIncludedIndex
    && (s.role == Leader ==> ToStorage(s, s.nextIndex[from]) <= |s.log|)
  }

  /** A rejection that carries the term in conflict makes the leader look for that term in its log. */
  predicate Searches(s: Server, r: AppendReply) {
    s.role == Leader && r.term <= s.term && !r.success && r.conflictTerm != 0
  }

  /**
   Where the search comes out differently: the uncompacted log has the term, at an index that the
   compacted one reports without what the snapshot covers, or does not see at all.
   */
  ghost predicate SearchDiffers(s: Server, full: Server, from: nat, r: AppendReply) {
    && Searches(s, r) && from < |s.nextIndex| && s.nextIndex[from] <= |full.log|
    && var i := TermSearch(full.log, s.nextIndex[from] - 1, r.conflictTerm);
       i >= 0 && full.log[i].term == r.conflictTerm
       && if i >= s.lastIncludedIndex then s.lastIncludedIndex > 0 else i + 1 != r.conflictIndex
  }

  /** The search in what is left finds what is above the snapshot, and nothing else. */
  lemma {:induction false} SearchAbove(s: Server, full: Server, index: int, t: nat)
    requires Refines(s, full) && index < |s.log|
    ensures var i, b := TermSearch(full.log, index + s.lastIncludedIndex, t), s.lastIncludedIndex;
            if i >= b then TermSearch(s.log, index, t) == i - b && s.log[i - b].term == full.log[i].term
            else TermSearch(s.log, index, t) < 0
    decreases index + 1
  {
    SameEnds(s, full);
    if index >= 0 {
      assert s.log[index].term == full.log[s.lastIncludedIndex + index].term;
      SearchAbove(s, full, index - 1, t);
    }
  }

  /** The search of the reply handler, in both. */
  lemma SearchBoth(s: Server, full: Server, from: nat, t: nat)
    requires Refines(s, full) && ReplyGoes(s, from) && s.role == Leader
    ensures ReplyGoes(full, from) && full.nextIndex == s.nextIndex && full.lastIncludedIndex == 0
    ensures s.nextIndex[from] <= |full.log| && s.lastIncludedIndex >= 0
    ensures var i, b := TermSearch(full.log, s.nextIndex[from] - 1, t), s.lastIncludedIndex;
            var j := TermSearch(s.log, ToStorage(s, s.nextIndex[from] - 1), t);
            if i >= b then j == i - b && s.log[j].term == full.log[i].term else j < 0
  {
    hide TermSearch;
    SearchAbove(s, full, s.nextIndex[from] - 1 - s.lastIncludedIndex, t);
  }

  /** The term that is found is the right one, but its index is off by the snapshot's. */
  lemma RetreatAlike(s: Server, full: Server, from: nat, r: AppendReply)
    requires Refines(s, full) && ReplyGoes(s, from) && Searches(s, r)
    ensures ReplyGoes(full, from) && full.nextIndex == s.nextIndex && s.nextIndex[from] <= |full.log|
    ensures Retreat(s, from, r) == Retreat(full, from, r) <==> !SearchDiffers(s, full, from, r)
    ensures var i := TermSearch(full.log, s.nextIndex[from] - 1, r.conflictTerm);
            i >= s.lastIncludedIndex && full.log[i].term == r.conflictTerm ==>
              Retreat(s, from, r) == Retreat(full, from, r) - s.lastIncludedIndex
  {
    hide TermSearch, Refines;
    SearchBoth(s, full, from, r.conflictTerm);
  }

  /** Every reply leaves the two alike, but for a rejection whose search comes out differently. */
  lemma ReplyRefines(s: Server, full: Server, from: nat, a: AppendArgs, r: AppendReply)
    requires Refines(s, full) && ReplyGoes(s, from)
    ensures ReplyGoes(full, from)
    ensures Refines(HandleAppendReply(s, from, a, r), HandleAppendReply(full, from, a, r)) <==>
            !SearchDiffers(s, full, from, r)
  {
    SameEnds(s, full);
    if s.role == Leader && r.term <= s.term {
      if r.success {
        SuccessRefines(s, full, from, a, r);
      } else {
        RejectionRefines(s, full, from, a, r);
      }
    }
  }

  lemma SuccessRefines(s: Server, full: Server, from: nat, a: AppendArgs, r: AppendReply)
    requires Refines(s, full) && ReplyGoes(s, from) && s.role == Leader && r.term <= s.term && r.success
    ensures ReplyGoes(full, from) && Refines(HandleAppendReply(s, from, a, r), HandleAppendReply(full, from, a, r))
  {
    hide Retreat, Tail;
    SameEnds(s, full);
    var s1 := s.(nextIndex := s.nextIndex[from := LastLogical(s) + 1], matchIndex := s.matchIndex[from := LastOf(a)]);
    var full1 := full.(nextIndex := s1.nextIndex, matchIndex := s1.matchIndex);
    CountRefines(s1, full1, LastLogical(full));
  }

  lemma RejectionRefines(s: Server, full: Server, from: nat, a: AppendArgs, r: AppendReply)
    requires Refines(s, full) && ReplyGoes(s, from) && s.role == Leader && r.term <= s.term && !r.success
    ensures ReplyGoes(full, from)
    ensures Refines(HandleAppendReply(s, from, a, r), HandleAppendReply(full, from, a, r)) <==>
            !SearchDiffers(s, full, from, r)
  {
    SameEnds(s, full);
    if r.conflictTerm != 0 {
      RetreatAlike(s, full, from, r);
    }
    hide TermSearch, Tail;
    var x, y := Retreat(s, from, r), Retreat(full, from, r);
    assert s.nextIndex[from := x][from] == x && full.nextIndex[from := y][from] == y;
  }

  // ---- snapshots from the leader ----

  /** The uncompacted peer after it has seen the request of a snapshot up to `a.lastIncludedIndex`. */
  ghost function Caught(full: Server, a: SnapshotArgs, log: Log): Server {
    var f := if a.term > full.term then StepDown(full, a.term) else full;
    f.(log := log, commit := if f.commit < a.lastIncludedIndex then a.lastIncludedIndex else f.commit)
  }

  /** A snapshot that reaches the end of the log leaves what is left of the log it was taken of. */
  lemma InstallReplaces(s: Server, full: Server, a: SnapshotArgs, lastApplied: int, log: Log)
    requires Refines(s, full) && Installs(s, a, lastApplied) && a.lastIncludedIndex >= LastLogical(s)
    requires |log| == a.lastIncludedIndex + 1 && log[0] == PLACEHOLDER && LastTerm(log) == a.lastIncludedTerm
    ensures Refines(InstallSnapshot(s, a, lastApplied).0, Caught(full, a, log))
  {}

  /**
   One of the log itself, from within it: the entry it ends with becomes a placeholder of term 0,
   which what is left of the log should have as it was.
   */
  lemma InstallTrims(s: Server, full: Server, a: SnapshotArgs, lastApplied: int)
    requires Refines(s, full) && Installs(s, a, lastApplied) && a.lastIncludedIndex < LastLogical(s)
    requires a.lastIncludedTerm == full.log[a.lastIncludedIndex].term
    ensures Refines(InstallSnapshot(s, a, lastApplied).0, Caught(full, a, full.log)) <==> a.lastIncludedTerm == 0
  {
    TrimmedPeer(s, full, a, lastApplied);
    TwoHeads(PLACEHOLDER, LogEntry(a.lastIncludedTerm, NoCommand), full.log[a.lastIncludedIndex + 1..]);
    hide InstallSnapshot, Caught, Installs, ToStorage;
  }

  lemma TwoHeads(a: LogEntry, b: LogEntry, l: Log)
    ensures [a] + l == [b] + l <==> a == b
  {
    assert ([a] + l)[0] == a && ([b] + l)[0] == b;
  }

  lemma TrimmedPeer(s: Server, full: Server, a: SnapshotArgs, lastApplied: int)
    requires Refines(s, full) && Installs(s, a, lastApplied) && a.lastIncludedIndex < LastLogical(s)
    ensures var m, s' := a.lastIncludedIndex, InstallSnapshot(s, a, lastApplied).0;
            && 0 <= m < |full.log| - 1 && s'.log == [PLACEHOLDER] + full.log[m + 1..]
            && s'.lastIncludedIndex == m && s'.lastIncludedTerm == a.lastIncludedTerm
            && Caught(full, a, full.log) ==
               s'.(log := full.log, lastIncludedIndex := 0, lastIncludedTerm := full.lastIncludedTerm)
  {
    Trimmed(full.log, s.lastIncludedIndex, a.lastIncludedIndex, s.log);
    hide Tail;
  }

  /** What trimming leaves, but for the placeholder. */
  lemma Trimmed(l: Log, base: nat, m: nat, tail: Log)
    requires base < m < |l| - 1 && tail == Tail(l, base)
    ensures |tail| == |l| - base && tail[m - base..][0 := PLACEHOLDER] == [PLACEHOLDER] + l[m + 1..]
  {
    var cut := tail[m - base..];
    assert |cut| == |l| - m;
    forall i | 1 <= i < |cut| ensures cut[i] == l[m + i] {
      assert tail[m - base + i] == l[base + 1..][m - base + i - 1];
    }
  }

  // ---- whole runs of one peer ----

  datatype Op =
    | Begin(command: Command)
    | Compact(index: int)
    | Receive(append: AppendArgs)
    | Vote(vote: VoteArgs)
    | Stand
    | Count(election: nat, granted: VoteReply)
    | Hear(from: nat, append: AppendArgs, result: AppendReply)

  /** What the handlers take for granted. */
  predicate Goes(s: Server, op: Op) {
    s.log != [] &&
    match op
    case Compact(index) => index <= LastLogical(s)
    case Receive(a) => ToStorage(s, a.prev) >= -1
    case Count(t, _) => t in s.count
    case Hear(from, _, r) => ReplyGoes(s, from)
    case _ => true
  }

  function Does(s: Server, op: Op): Server
    requires Goes(s, op)
  {
    match op
    case Begin(command) => Start(s, command)
    case Compact(index) => Snapshot(s, index)
    case Receive(a) => AppendEntries(s, a).0
    case Vote(a) => RequestVote(s, a).0
    case Stand => StartElection(s)
    case Count(t, r) => HandleVoteReply(s, t, r)
    case Hear(from, a, r) => HandleAppendReply(s, from, a, r)
  }

  predicate IsLife(s: Server, ops: seq<Op>)
    decreases |ops|
  {
    ops == [] || (Goes(s, ops[0]) && IsLife(Does(s, ops[0]), ops[1..]))
  }

  function Lives(s: Server, ops: seq<Op>): Server
    requires IsLife(s, ops)
    decreases |ops|
  {
    if ops == [] then s else Lives(Does(s, ops[0]), ops[1..])
  }

  /** No request reaches into the snapshot, and no rejection makes the two searches come out differently. */
  ghost predicate Alike(s: Server, full: Server, op: Op) {
    match op
    case Receive(a) => a.prev >= s.lastIncludedIndex && !Disagrees(s, a)
    case Hear(from, _, r) => !SearchDiffers(s, full, from, r)
    case _ => true
  }

  /** The peers go through the same, one of them without compacting, and nothing tells them apart on the way. */
  ghost predicate SideBySide(s: Server, full: Server, ops: seq<Op>)
    decreases |ops|
  {
    ops == [] ||
    (Goes(s, ops[0]) && Alike(s, full, ops[0]) &&
     if ops[0].Compact? then SideBySide(Does(s, ops[0]), full, ops[1..])
     else Goes(full, ops[0]) ==> SideBySide(Does(s, ops[0]), Does(full, ops[0]), ops[1..]))
  }

  /** The same life without ever compacting. */
  function Keeping(ops: seq<Op>): seq<Op> {
    if ops == [] then [] else (if ops[0].Compact? then [] else [ops[0]]) + Keeping(ops[1..])
  }

  lemma CompactRefines(s: Server, full: Server, index: int)
    requires Refines(s, full) && Goes(s, Compact(index))
    ensures Refines(Snapshot(s, index), full)
  {
    SameEnds(s, full);
    if index > s.lastIncludedIndex {
      var at := index - s.lastIncludedIndex;
      assert s.log[at] == full.log[index];
      assert s.log[at..][0 := LogEntry(s.log[at].term, NoCommand)] == Tail(full.log, index);
    }
  }

  lemma VoteRefines(s: Server, full: Server, a: VoteArgs)
    requires Refines(s, full)
    ensures s.log != [] && Refines(RequestVote(s, a).0, RequestVote(full, a).0) &&
            RequestVote(s, a).1 == RequestVote(full, a).1
  {
    SameEnds(s, full);
  }

  lemma ElectionRefines(s: Server, full: Server, t: nat, r: VoteReply)
    requires Refines(s, full) && t in s.count
    ensures Refines(HandleVoteReply(s, t, r), HandleVoteReply(full, t, r))
  {
    SameEnds(s, full);
  }

  lemma DoesRefines(s: Server, full: Server, op: Op)
    requires Refines(s, full) && Goes(s, op) && Alike(s, full, op) && !op.Compact?
    ensures Goes(full, op) && Refines(Does(s, op), Does(full, op))
  {
    hide AppendEntries, RequestVote, HandleVoteReply, HandleAppendReply;
    match op
    case Begin(_) =>
    case Receive(a) => AppendRefines(s, full, a);
    case Vote(a) => VoteRefines(s, full, a);
    case Stand =>
    case Count(t, r) => ElectionRefines(s, full, t, r);
    case Hear(from, a, r) => ReplyRefines(s, full, from, a, r);
  }

  /** Compaction is invisible: whatever a peer goes through, it is what is left of a peer that never compacts. */
  lemma {:induction false} CompactionIsInvisible(s: Server, full: Server, ops: seq<Op>)
    requires Refines(s, full) && SideBySide(s, full, ops)
    ensures IsLife(s, ops) && IsLife(full, Keeping(ops)) && Refines(Lives(s, ops), Lives(full, Keeping(ops)))
    decreases |ops|
  {
    if ops != [] {
      var op := ops[0];
      if op.Compact? {
        CompactRefines(s, full, op.index);
        CompactionIsInvisible(Does(s, op), full, ops[1..]);
        assert Keeping(ops) == Keeping(ops[1..]);
      } else {
        DoesRefines(s, full, op);
        CompactionIsInvisible(Does(s, op), Does(full, op), ops[1..]);
        assert Keeping(ops)[0] == op && Keeping(ops)[1..] == Keeping(ops[1..]);
      }
    }
  }

  /** A fresh peer starts as its own uncompacted self, and so votes and stands as one ever after. */
  lemma CompactedVotesAlike(me: nat, n: nat, ops: seq<Op>, a: VoteArgs)
    requires SideBySide(Fresh(me, n), Fresh(me, n), ops)
    ensures IsLife(Fresh(me, n), ops) && IsLife(Fresh(me, n), Keeping(ops))
    ensures var s, full := Lives(Fresh(me, n), ops), Lives(Fresh(me, n), Keeping(ops));
            s.log != [] && full.log != [] && VoteArgsOf(s) == VoteArgsOf(full) &&
                RequestVote(s, a).1 == RequestVote(full, a).1
  {
    var p := Fresh(me, n);
    assert Refines(p, p);
    hide IsLife, Lives, RequestVote, Refines, SideBySide;
    CompactionIsInvisible(p, p, ops);
    SameVoteArgs(Lives(p, ops), Lives(p, Keeping(ops)));
    VoteRefines(Lives(p, ops), Lives(p, Keeping(ops)), a);
  }
}
