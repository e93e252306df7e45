/**
 The handlers of src/raft/raft.go as they are written: fields updated in place and scanning
 loops.  Each is proved to do what its function in RaftServer says.
 */
module RaftPeer {
  import opened RaftLog
  import opened RaftServer

  class Raft {
    const me: nat
    var currentTerm: nat
    var votedFor: int
    var logs: seq<LogEntry>
    var commitIndex: int
    const nextIndex: array<int>
    const matchIndex: array<int>
    var role: Role
    var voteCount: map<nat, nat>
    var lastIncludedIndex: int
    var lastIncludedTerm: nat
    var lastApplied: int

    ghost function View(): Server
      reads this, nextIndex, matchIndex
    {
      Server(me, currentTerm, votedFor, logs, commitIndex, nextIndex[..], matchIndex[..], role, voteCount,
          lastIncludedIndex, lastIncludedTerm)
    }

    constructor (peers: nat, me: nat)
      ensures lastApplied == 0 && View() == Fresh(me, peers) && fresh(nextIndex) && fresh(matchIndex) &&
              nextIndex != matchIndex
    {
      this.me := me;
      currentTerm := 0;
      votedFor := -1;
      logs := [PLACEHOLDER];
      commitIndex := 0;
      nextIndex := new int[peers](_ => 0);
      matchIndex := new int[peers](_ => 0);
      role := Follower;
      voteCount := map[];
      lastIncludedIndex, lastIncludedTerm, lastApplied := 0, 0, 0;
    }

    method ConvertRole(role: Role)
      requires nextIndex != matchIndex
      modifies this`role, nextIndex, matchIndex
      ensures View() == RaftServer.ConvertRole(old(View()), role)
    {
      if role == Leader {
        for i := 0 to nextIndex.Length
          invariant forall k :: 0 <= k < i ==> nextIndex[k] == |logs| - 1 + lastIncludedIndex + 1
        {
          nextIndex[i] := |logs| - 1 + lastIncludedIndex + 1;
        }
        for i := 0 to matchIndex.Length
          invariant forall k :: 0 <= k < nextIndex.Length ==> nextIndex[k] == |logs| - 1 + lastIncludedIndex + 1
          invariant forall k :: 0 <= k < i ==> matchIndex[k] == -1
        {
          matchIndex[i] := -1;
        }
      }
      this.role := role;
    }

    method RequestVote(args: VoteArgs) returns (reply: VoteReply)
      requires logs != [] && nextIndex != matchIndex
      modifies this, nextIndex, matchIndex
      ensures unchanged(`lastApplied)
      ensures (View(), reply) == RaftServer.RequestVote(old(View()), args)
    {
      if args.term < currentTerm {
        return VoteReply(currentTerm, false);
      } else if args.term == currentTerm && votedFor != -1 && votedFor != args.cand {
        return VoteReply(currentTerm, false);
      }
      if args.term > currentTerm {
        currentTerm := args.term;
        ConvertRole(Follower);
        votedFor := -1;
      }
      var last := |logs| - 1;
      var upToDate := if args.lastTerm == logs[last].term then args.lastIndex >= last + lastIncludedIndex
          else args.lastTerm > logs[last].term;
      if !upToDate {
        reply := VoteReply(currentTerm, false);
        votedFor := -1;
        return;
      }
      reply := VoteReply(currentTerm, true);
      votedFor := args.cand;
    }

    method StartElection() returns (args: VoteArgs)
      requires logs != [] && nextIndex != matchIndex
      modifies this, nextIndex, matchIndex
      ensures unchanged(`lastApplied)
      ensures View() == RaftServer.StartElection(old(View())) && args == VoteArgsOf(View())
    {
      ConvertRole(Candidate);
      currentTerm := currentTerm + 1;
      votedFor := me;
      args := VoteArgs(currentTerm, me, |logs| - 1 + lastIncludedIndex, logs[|logs| - 1].term);
      voteCount := voteCount[currentTerm := 1];
    }

    method HandleVoteReply(electionTerm: nat, reply: VoteReply)
      requires electionTerm in voteCount && nextIndex != matchIndex
      modifies this, nextIndex, matchIndex
      ensures unchanged(`lastApplied)
      ensures View() == RaftServer.HandleVoteReply(old(View()), electionTerm, reply)
    {
      if role == Candidate && reply.granted {
        voteCount := voteCount[electionTerm := voteCount[electionTerm] + 1];
        if voteCount[electionTerm] > nextIndex.Length / 2 {
          ConvertRole(Leader);
          return;
        }
      } else if reply.term > currentTerm {
        currentTerm := reply.term;
        ConvertRole(Follower);
        votedFor := -1;
      }
    }

    method AppendEntries(args: AppendArgs) returns (reply: AppendReply)
      requires logs != [] && args.prev - lastIncludedIndex >= -1 && nextIndex != matchIndex
      modifies this, nextIndex, matchIndex
      ensures unchanged(`lastApplied)
      ensures (View(), reply) == RaftServer.AppendEntries(old(View()), args)
    {
      hide ConflictStart, FollowerCommit;
      if args.term < currentTerm {
        return AppendReply(currentTerm, false, 0, 0);
      } else if args.term > currentTerm {
        ConvertRole(Follower);
        currentTerm := args.term;
        votedFor := -1;
      } else {
        ConvertRole(Follower);
      }
      if args.prev > |logs| - 1 + lastIncludedIndex {
        return AppendReply(currentTerm, false, |logs| - 1 + lastIncludedIndex, 0);
      }
      var index := args.prev - lastIncludedIndex;
      if index > 0 && logs[index].term != args.prevTerm {
        var conflictTerm := logs[index].term;
        index := FirstOfTerm(index, conflictTerm);
        return AppendReply(currentTerm, false, index + 1 + lastIncludedIndex, conflictTerm);
      }
      Replace(index, args);
      reply := AppendReply(args.term, true, 0, 0);
    }

    /** The loop that skips back over the conflicting term. */
    method FirstOfTerm(from: nat, conflictTerm: nat) returns (index: nat)
      requires from < |logs|
      ensures index == ConflictStart(logs, from, conflictTerm)
    {
      index := from;
      while index > 0 && logs[index].term >= conflictTerm
        invariant 0 <= index <= from && ConflictStart(logs, index, conflictTerm) ==
                  ConflictStart(logs, from, conflictTerm)
      {
        index := index - 1;
      }
    }

    /** The end of AppendEntries: whatever follows `index` is replaced. */
    method Replace(index: int, args: AppendArgs)
      requires -1 <= index < |logs|
      modifies this`logs, this`commitIndex
      ensures View() == var s :=
              old(View()).(log := old(logs)[..index + 1] + args.entries); s.(commit :=
              FollowerCommit(s, args.leaderCommit))
    {
      logs := logs[..index + 1];
      if |args.entries| > 0 {
        logs := logs + args.entries;
      } else {
        assert logs == logs + args.entries;
      }
      if args.leaderCommit > commitIndex {
        if args.leaderCommit < |logs| - 1 + lastIncludedIndex {
          commitIndex := args.leaderCommit;
        } else {
          commitIndex := |logs| - 1 + lastIncludedIndex;
        }
      }
    }

    method GenAppendEntries(server: nat) returns (args: AppendArgs, isSnapshot: bool)
      requires server < nextIndex.Length && nextIndex[server] - lastIncludedIndex <= |logs|
      ensures GenAppend(View(), server) == if isSnapshot then NeedSnapshot else Append(args)
    {
      var prev := nextIndex[server] - 1;
      args := AppendArgs(currentTerm, me, prev, 0, [], 0);
      if prev < lastIncludedIndex {
        return args, true;
      }
      var entries := logs[nextIndex[server] - lastIncludedIndex..];
      args := AppendArgs(currentTerm, me, prev, logs[prev - lastIncludedIndex].term, entries, commitIndex);
      return args, false;
    }

    method HandleAppendEntries(server: nat, args: AppendArgs, reply: AppendReply)
      requires server < nextIndex.Length == matchIndex.Length && nextIndex != matchIndex
      requires commitIndex >= lastIncludedIndex && (role == Leader ==> nextIndex[server] - lastIncludedIndex <= |logs|)
      modifies this, nextIndex, matchIndex
      ensures unchanged(`lastApplied)
      ensures View() == RaftServer.HandleAppendReply(old(View()), server, args, reply)
    {
      hide LeaderCommit, Matched, CountFor, Retreat, TermSearch;
      if role != Leader {
        return;
      }
      if reply.term > currentTerm {
        currentTerm := reply.term;
        ConvertRole(Follower);
        votedFor := -1;
        return;
      }
      if !reply.success {
        GoBack(server, reply);
        return;
      }
      nextIndex[server] := |logs| - 1 + lastIncludedIndex + 1;
      matchIndex[server] := args.prev + |args.entries|;
      ghost var s := View();
      Advance(s);
    }

    /** A request was rejected. */
    method GoBack(server: nat, reply: AppendReply)
      requires server < nextIndex.Length && nextIndex != matchIndex && nextIndex[server] - lastIncludedIndex <= |logs|
      modifies nextIndex
      ensures nextIndex[..] == old(nextIndex[..])[server := Retreat(old(View()), server, reply)]
    {
      if reply.conflictTerm != 0 {
        var index := nextIndex[server] - 1 - lastIncludedIndex;
        index := LastNotAbove(index, reply.conflictTerm);
        if index >= 0 && logs[index].term == reply.conflictTerm {
          nextIndex[server] := index + 1;
          return;
        }
      }
      nextIndex[server] := reply.conflictIndex;
    }

    /** The loop that looks for the conflicting term in the leader's log. */
    method LastNotAbove(from: int, conflictTerm: nat) returns (index: int)
      requires from < |logs|
      ensures index == TermSearch(logs, from, conflictTerm)
    {
      index := from;
      while index >= 0 && logs[index].term > conflictTerm
        invariant index <= from && TermSearch(logs, index, conflictTerm) == TermSearch(logs, from, conflictTerm)
      {
        index := index - 1;
      }
    }

    /** The commit loop at the end of handleAppendEntries. */
    method Advance(ghost s: Server)
      requires s == View() && commitIndex >= lastIncludedIndex && nextIndex.Length == matchIndex.Length
      modifies this`commitIndex
      ensures View() == s.(commit := LeaderCommit(s, LastLogical(s)))
    {
      var serversCount := nextIndex.Length;
      var n := |logs| - 1 + lastIncludedIndex;
      while n > commitIndex
        invariant commitIndex == s.commit && n <= LastLogical(s)
        invariant LeaderCommit(s, n) == LeaderCommit(s, LastLogical(s))
        decreases n - commitIndex
      {
        var count := 1;
        if logs[n - lastIncludedIndex].term == currentTerm {
          for i := 0 to serversCount
            invariant count == 1 + Matched(s, n, i)
          {
            if i != me && matchIndex[i] >= n {
              count := count + 1;
            }
          }
        }
        if count > serversCount / 2 {
          commitIndex := n;
          return;
        }
        n := n - 1;
      }
    }

    method Start(command: Command) returns (index: int, term: nat, isLeader: bool)
      modifies this`logs
      ensures View() == RaftServer.Start(old(View()), command)
      ensures term == currentTerm && isLeader == (role == Leader)
      ensures index == if isLeader then LastLogical(View()) else -1
    {
      term, isLeader := currentTerm, role == Leader;
      if !isLeader {
        return -1, term, isLeader;
      }
      logs := logs + [LogEntry(term, command)];
      index := |logs| - 1 + lastIncludedIndex;
    }

    method Snapshot(index: int)
      requires index > lastIncludedIndex ==> index - lastIncludedIndex < |logs|
      modifies this
      ensures unchanged(`lastApplied)
      ensures View() == RaftServer.Snapshot(old(View()), index)
    {
      if index <= lastIncludedIndex {
        return;
      }
      lastIncludedTerm := logs[index - lastIncludedIndex].term;
      logs := logs[index - lastIncludedIndex..];
      lastIncludedIndex := index;
      logs := logs[0 := LogEntry(lastIncludedTerm, NoCommand)];
    }

    method InstallSnapshot(args: SnapshotArgs) returns (replyTerm: nat)
      requires nextIndex != matchIndex
      modifies this, nextIndex, matchIndex
      ensures (View(), replyTerm) == RaftServer.InstallSnapshot(old(View()), args, old(lastApplied))
      ensures lastApplied == if Installs(old(View()), args, old(lastApplied)) then args.lastIncludedIndex
              else old(lastApplied)
    {
      replyTerm := 0;
      if args.term < currentTerm {
        return currentTerm;
      }
      if args.term > currentTerm {
        ConvertRole(Follower);
        votedFor := -1;
        currentTerm := args.term;
        replyTerm := args.term;
      }
      if args.lastIncludedIndex <= lastIncludedIndex || args.lastIncludedIndex <= lastApplied {
        return;
      }
      if |logs| - 1 + lastIncludedIndex <= args.lastIncludedIndex {
        logs := [LogEntry(args.lastIncludedTerm, NoCommand)];
      } else {
        logs := logs[args.lastIncludedIndex - lastIncludedIndex..];
        logs := logs[0 := LogEntry(0, NoCommand)];
      }
      lastIncludedIndex := args.lastIncludedIndex;
      lastIncludedTerm := args.lastIncludedTerm;
      lastApplied := args.lastIncludedIndex;
      if commitIndex < args.lastIncludedIndex {
        commitIndex := args.lastIncludedIndex;
      }
    }

    /** The reply to a snapshot that was sent. */
    method HandleInstallSnapshot(server: nat, args: SnapshotArgs, replyTerm: nat)
      requires server < nextIndex.Length == matchIndex.Length && nextIndex != matchIndex
      modifies this, nextIndex, matchIndex
      ensures unchanged(`lastApplied)
      ensures View() == RaftServer.HandleSnapshotReply(old(View()), server, args, replyTerm)
    {
      if role != Leader || currentTerm != args.term {
        return;
      }
      if replyTerm > currentTerm {
        currentTerm := replyTerm;
        ConvertRole(Follower);
        votedFor := -1;
        return;
      }
      if nextIndex[server] <= args.lastIncludedIndex {
        nextIndex[server] := args.lastIncludedIndex + 1;
        matchIndex[server] := args.lastIncludedIndex;
      }
    }
  }
}
