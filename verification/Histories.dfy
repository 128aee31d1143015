/** Predicates over the history of a run, and what survives when the history grows. */
module Histories {
  import opened Protocol
  import opened RaftSteps
  import opened LogFacts
  import opened Cluster
  import opened Quorums

  ghost predicate Voted(h: History, voter: NodeId, term: Term, candidate: NodeId) {
    Slot(voter, term) in h.ballots && h.ballots[Slot(voter, term)].candidate == candidate
  }

  /** Entry `i` of the log, and everything before it, comes from the leader of its term. */
  ghost predicate FromReign(h: History, log: Log, i: nat)
    requires i < |log|
  {
    log[i].term in h.reigns && log[..i + 1] <= h.reigns[log[i].term].log
  }

  ghost predicate GoodLog(h: History, log: Log) {
    && Shape(log)
    && forall i | 0 <= i < |log| :: FromReign(h, log, i)
  }

  ghost predicate ReignOK(ids: seq<NodeId>, h: History, t: Term)
    requires t in h.reigns
  {
    var r := h.reigns[t];
    && 1 <= t
    && r.leader in ids
    && Voted(h, r.leader, t, r.leader)
    && r.start == h.ballots[Slot(r.leader, t)].log
    && IsQuorum(ids, r.electors)
    && (forall u | u in r.electors :: Voted(h, u, t, r.leader))
    && r.start <= r.log
    && TermsAtMost(r.start, t - 1)
    && (forall i | |r.start| <= i < |r.log| :: r.log[i].term == t)
    && GoodLog(h, r.log)
  }

  ghost predicate BallotOK(ids: seq<NodeId>, h: History, k: Slot)
    requires k in h.ballots
  {
    var b := h.ballots[k];
    && 1 <= k.term
    && k.node in ids
    && Voted(h, b.candidate, k.term, b.candidate)
    && GoodLog(h, b.log)
    && TermsAtMost(b.log, if k.node == b.candidate then k.term - 1 else k.term)
    && var c := h.ballots[Slot(b.candidate, k.term)].log;
       UpToDate(LastLogTerm(c), LastLogIndex(c), b.log)
  }

  ghost predicate HistoryOK(ids: seq<NodeId>, h: History) {
    && (forall t | t in h.reigns :: ReignOK(ids, h, t))
    && (forall k | k in h.ballots :: BallotOK(ids, h, k))
  }

  lemma ReignFacts(ids: seq<NodeId>, h: History, t: Term)
    requires t in h.reigns && ReignOK(ids, h, t)
    ensures 1 <= t && Shape(h.reigns[t].log) && GoodLog(h, h.reigns[t].log)
    ensures h.reigns[t].start <= h.reigns[t].log
    ensures TermsAtMost(h.reigns[t].start, t - 1) && TermsAtMost(h.reigns[t].log, t)
  {
  }

  lemma StartInLog(ids: seq<NodeId>, h: History, t: Term)
    requires t in h.reigns && ReignOK(ids, h, t)
    ensures h.reigns[t].start <= h.reigns[t].log
  {
  }

  lemma ReignIsOK(ids: seq<NodeId>, h: History, t: Term)
    requires HistoryOK(ids, h) && t in h.reigns
    ensures ReignOK(ids, h, t) && IsQuorum(ids, h.reigns[t].electors)
  {
  }

  // ── growth ──────────────────────────────────────────────────────────────────

  ghost predicate SameOffice(r: Reign, r': Reign) {
    r.leader == r'.leader && r.electors == r'.electors && r.start == r'.start && r.log <= r'.log
  }

  /** From `h` to `h'` only node `n` has voted, and only reigns of `n` have begun or grown. */
  ghost predicate Grows(h: History, h': History, n: NodeId) {
    && (forall t | t in h.reigns :: t in h'.reigns && SameOffice(h.reigns[t], h'.reigns[t]))
    && (forall t | t in h.reigns && h.reigns[t].leader != n :: h'.reigns[t] == h.reigns[t])
    && (forall t | t in h'.reigns && t !in h.reigns :: h'.reigns[t].leader == n)
    && (forall k | k in h.ballots :: k in h'.ballots && h'.ballots[k] == h.ballots[k])
    && (forall k | k in h'.ballots && k !in h.ballots :: k.node == n)
  }

  /** The same without saying who acted: leaders stay, their logs only grow, votes stay. */
  ghost predicate Extends(h: History, h': History) {
    && (forall t | t in h.reigns :: t in h'.reigns && SameOffice(h.reigns[t], h'.reigns[t]))
    && (forall k | k in h.ballots :: k in h'.ballots && h'.ballots[k] == h.ballots[k])
  }

  lemma ExtendsTwice(h: History, h1: History, h2: History)
    requires Extends(h, h1) && Extends(h1, h2)
    ensures Extends(h, h2)
  {
    forall t | t in h.reigns ensures t in h2.reigns && SameOffice(h.reigns[t], h2.reigns[t]) {
      assert SameOffice(h.reigns[t], h1.reigns[t]) && SameOffice(h1.reigns[t], h2.reigns[t]);
    }
  }

  lemma GrowsTwice(h: History, h1: History, h2: History, n: NodeId)
    requires Grows(h, h1, n) && Grows(h1, h2, n)
    ensures Grows(h, h2, n)
  {
    forall t | t in h.reigns ensures t in h2.reigns && SameOffice(h.reigns[t], h2.reigns[t]) {
      assert SameOffice(h.reigns[t], h1.reigns[t]) && SameOffice(h1.reigns[t], h2.reigns[t]);
    }
  }

  lemma GoodLogExtends(h: History, h': History, log: Log)
    requires Extends(h, h') && GoodLog(h, log)
    ensures GoodLog(h', log)
  {
    forall i | 0 <= i < |log| ensures FromReign(h', log, i) {
      assert FromReign(h, log, i);
      var t := log[i].term;
      assert SameOffice(h.reigns[t], h'.reigns[t]);
    }
  }

  lemma GoodLogGrows(h: History, h': History, n: NodeId, log: Log)
    requires Grows(h, h', n) && GoodLog(h, log)
    ensures GoodLog(h', log)
  {
    hide GoodLog;
    GoodLogExtends(h, h', log);
  }

  lemma GoodIsContiguous(h: History, log: Log)
    requires GoodLog(h, log)
    ensures Contiguous(log)
  {
  }

  lemma GoodPrefix(h: History, log: Log, k: nat)
    requires GoodLog(h, log) && k <= |log|
    ensures GoodLog(h, log[..k])
  {
    forall i | 0 <= i < k ensures FromReign(h, log[..k], i) {
      assert FromReign(h, log, i);
      assert log[..k][..i + 1] == log[..i + 1];
    }
  }

  /** Log Matching: entries of the same index and term have the same past. */
  lemma SameEntrySamePast(h: History, a: Log, b: Log, i: nat)
    requires GoodLog(h, a) && GoodLog(h, b)
    requires i < |a| && i < |b| && a[i].term == b[i].term
    ensures a[..i + 1] == b[..i + 1]
  {
    assert FromReign(h, a, i) && FromReign(h, b, i);
  }

  lemma ReignSurvives(ids: seq<NodeId>, h: History, h': History, n: NodeId, t: Term)
    requires Grows(h, h', n) && t in h.reigns && ReignOK(ids, h, t)
    requires h'.reigns[t] == h.reigns[t]
    ensures ReignOK(ids, h', t)
  {
    GoodLogGrows(h, h', n, h.reigns[t].log);
  }

  lemma BallotSurvives(ids: seq<NodeId>, h: History, h': History, n: NodeId, k: Slot)
    requires Grows(h, h', n) && k in h.ballots && BallotOK(ids, h, k)
    ensures BallotOK(ids, h', k)
  {
    GoodLogGrows(h, h', n, h.ballots[k].log);
  }
}
