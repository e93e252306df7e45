/** Logs, as raft.go keeps them: index 0 holds a placeholder entry of term 0. */
module RaftLog {

  datatype Command = NoCommand | Command(body: string)

  datatype LogEntry = LogEntry(term: nat, command: Command)

  type Log = seq<LogEntry>

  const PLACEHOLDER := LogEntry(0, NoCommand)

  function LastTerm(l: Log): nat
    requires l != []
  {
    l[|l| - 1].term
  }

  /** Both logs hold the same entries up to and including index `k`. */
  ghost predicate Agree(l: Log, m: Log, k: nat) {
    k < |l| && k < |m| && l[..k + 1] == m[..k + 1]
  }

  /** isLogUpToDate: the candidate's log is at least as up to date as the voter's. */
  predicate UpToDate(cand: Log, voter: Log)
    requires cand != [] && voter != []
  {
    if LastTerm(cand) == LastTerm(voter) then |cand| >= |voter| else LastTerm(cand) > LastTerm(voter)
  }

  lemma AgreeBelow(l: Log, m: Log, k: nat, j: nat)
    requires Agree(l, m, k) && j <= k
    ensures Agree(l, m, j) && l[j] == m[j]
  {
    assert l[..j + 1] == l[..k + 1][..j + 1];
    assert m[..j + 1] == m[..k + 1][..j + 1];
    assert l[j] == l[..k + 1][j];
    assert m[j] == m[..k + 1][j];
  }

  lemma AgreeTransitive(l: Log, m: Log, n: Log, k: nat)
    requires Agree(l, m, k) && Agree(m, n, k)
    ensures Agree(l, n, k) && Agree(m, l, k)
  {}

  lemma AgreePrefix(l: Log, m: Log, k: nat)
    requires l <= m && k < |l|
    ensures Agree(l, m, k)
  {
    assert m[..k + 1] == m[..|l|][..k + 1];
  }
}
