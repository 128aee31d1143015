/** What acknowledgements commit, and why every later leader has it: Leader Completeness
    as a fact about the history alone. */
module Commitment {
  import opened Protocol
  import opened RaftSteps
  import opened LogFacts
  import opened Cluster
  import opened Quorums
  import opened Histories

  /** The first `i` entries of the log of the leader of `t`. */
  function Acked(h: History, t: Term, i: nat): Log {
    if t in h.reigns && i <= |h.reigns[t].log| then h.reigns[t].log[..i] else []
  }

  /** Every leader elected after `t` and up to `lim` started with `p`. */
  ghost predicate Keeps(h: History, p: Log, t: Term, lim: int) {
    forall t2 | t2 in h.reigns && t < t2 <= lim :: p <= h.reigns[t2].start
  }

  /** The log still has what the node has acknowledged up to term `lim`, except what a
      leader elected since did not have. */
  ghost predicate Holds(h: History, n: NodeId, lim: int, log: Log) {
    forall t: Term, i: nat |
      && t <= lim && Slot(n, t) in h.acks && i <= h.acks[Slot(n, t)]
      && Keeps(h, Acked(h, t, i), t, lim) :: Acked(h, t, i) <= log
  }

  ghost predicate AckOK(ids: seq<NodeId>, h: History, k: Slot)
    requires k in h.acks
  {
    k.node in ids && k.term in h.reigns && h.acks[k] <= |h.reigns[k.term].log|
  }

  /** The votes that count: those cast before the term had a leader. */
  ghost predicate BallotHolds(h: History, k: Slot)
    requires k in h.ballots
  {
    (k.term in h.reigns ==> k.node in h.reigns[k.term].electors) ==>
      Holds(h, k.node, k.term - 1, h.ballots[k].log)
  }

  ghost predicate AcksOK(ids: seq<NodeId>, h: History) {
    && (forall k | k in h.acks :: AckOK(ids, h, k))
    && (forall k | k in h.ballots :: BallotHolds(h, k))
  }

  function Ackers(ids: seq<NodeId>, h: History, t: Term, i: nat): set<NodeId> {
    set u | u in Members(ids) && AckOf(h.acks, u, t) >= i
  }

  /** An entry of its own term that a quorum has acknowledged to the leader of that term. */
  ghost predicate CommittedAt(ids: seq<NodeId>, h: History, t: Term, i: nat) {
    && t in h.reigns
    && 1 <= i <= |h.reigns[t].log|
    && h.reigns[t].log[i - 1].term == t
    && IsQuorum(ids, Ackers(ids, h, t, i))
  }

  /** A prefix of what the leaders up to `term` have committed. */
  ghost predicate Safe(ids: seq<NodeId>, h: History, term: int, p: Log) {
    p == [] || exists t: Term, i: nat ::
      t <= term && CommittedAt(ids, h, t, i) && p <= Acked(h, t, i)
  }

  // ── leader completeness ─────────────────────────────────────────────────────

  lemma BothPrefixes(a: Log, b: Log, whole: Log)
    requires a <= whole && b <= whole && |a| <= |b|
    ensures a <= b
  {
    forall i | 0 <= i < |a| ensures a[i] == b[i] {
      assert a[i] == whole[i] && b[i] == whole[i];
    }
  }

  lemma WholeFromReign(h: History, log: Log)
    requires GoodLog(h, log) && log != []
    ensures LastLogTerm(log) in h.reigns && log <= h.reigns[LastLogTerm(log)].log
  {
    assert FromReign(h, log, |log| - 1);
    assert log[..|log|] == log;
  }

  lemma LastTermAtLeast(log: Log, i: nat)
    requires Shape(log) && i < |log|
    ensures LastLogTerm(log) >= log[i].term
  {
  }

  /** The new leader's log ends in the same term as the voter's: it is the longer one. */
  lemma LongerHasPrefix(h: History, p: Log, voter: Log, start: Log)
    requires GoodLog(h, voter) && GoodLog(h, start)
    requires p <= voter && voter != [] && start != []
    requires LastLogTerm(start) == LastLogTerm(voter) && LastLogIndex(start) >= LastLogIndex(voter)
    ensures p <= start
  {
    LastIndexIsLength(voter);
    LastIndexIsLength(start);
    WholeFromReign(h, voter);
    WholeFromReign(h, start);
    BothPrefixes(voter, start, h.reigns[LastLogTerm(start)].log);
  }

  /** The new leader's log ends in a later term: it goes through the start of that reign. */
  lemma LaterHasPrefix(ids: seq<NodeId>, h: History, p: Log, start: Log)
    requires GoodLog(h, start) && start != []
    requires LastLogTerm(start) in h.reigns ==>
               && ReignOK(ids, h, LastLogTerm(start))
               && p <= h.reigns[LastLogTerm(start)].start
    ensures p <= start
  {
    WholeFromReign(h, start);
    var r := h.reigns[LastLogTerm(start)];
    var k := |start| - 1;
    assert start[k] == r.log[k];
    BothPrefixes(r.start, start, r.log);
  }

  lemma VoteCarriesLog(ids: seq<NodeId>, h: History, t2: Term, u: NodeId)
    requires HistoryOK(ids, h) && t2 in h.reigns && u in h.reigns[t2].electors
    requires AcksOK(ids, h)
    ensures Slot(u, t2) in h.ballots
    ensures var voter, start := h.ballots[Slot(u, t2)].log, h.reigns[t2].start;
            && UpToDate(LastLogTerm(start), LastLogIndex(start), voter)
            && GoodLog(h, voter) && GoodLog(h, start)
            && Holds(h, u, t2 - 1, voter)
            && TermsAtMost(start, t2 - 1)
  {
    hide Holds, GoodLog, UpToDate, TermsAtMost, IsQuorum;
    assert ReignOK(ids, h, t2);
    var r := h.reigns[t2];
    assert Voted(h, u, t2, r.leader);
    assert BallotOK(ids, h, Slot(u, t2));
    assert BallotHolds(h, Slot(u, t2));
    hide HistoryOK, AcksOK;
    GoodPrefix(h, r.log, |r.start|);
    assert r.log[..|r.start|] == r.start;
  }

  /** One step of the induction: a voter that has `p` hands it on to the new leader. */
  lemma VoterHandsOn(ids: seq<NodeId>, h: History, p: Log, t: Term, t2: Term, u: NodeId)
    requires HistoryOK(ids, h) && AcksOK(ids, h)
    requires t2 in h.reigns && u in h.reigns[t2].electors
    requires p != [] && p[|p| - 1].term == t
    requires Keeps(h, p, t, t2 - 1)
    requires Slot(u, t2) in h.ballots ==> p <= h.ballots[Slot(u, t2)].log
    ensures p <= h.reigns[t2].start
  {
    VoteCarriesLog(ids, h, t2, u);
    var voter, start := h.ballots[Slot(u, t2)].log, h.reigns[t2].start;
    assert voter[|p| - 1] == p[|p| - 1];
    LastTermAtLeast(voter, |p| - 1);
    assert 1 <= p[|p| - 1].term;
    assert start != [];
    if LastLogTerm(start) == LastLogTerm(voter) {
      LongerHasPrefix(h, p, voter, start);
    } else {
      WholeFromReign(h, start);
      assert ReignOK(ids, h, LastLogTerm(start));
      LaterHasPrefix(ids, h, p, start);
    }
  }

  /** Leader Completeness: what the leader of `t` has committed is in the log every later
      leader starts with. */
  lemma {:induction false} LeaderCompleteness(ids: seq<NodeId>, h: History, t: Term, i: nat, t2: Term)
    requires Config(ids) && HistoryOK(ids, h) && AcksOK(ids, h)
    requires CommittedAt(ids, h, t, i) && t < t2 && t2 in h.reigns
    ensures Acked(h, t, i) <= h.reigns[t2].start
    decreases t2
  {
    hide HistoryOK, AcksOK, Config, Holds, Quorum, GoodLog, UpToDate, TermsAtMost, IsQuorum;
    var p := Acked(h, t, i);
    ReignIsOK(ids, h, t2);
    var u := QuorumsIntersect(ids, Ackers(ids, h, t, i), h.reigns[t2].electors);
    forall t3 | t3 in h.reigns && t < t3 <= t2 - 1 ensures p <= h.reigns[t3].start {
      LeaderCompleteness(ids, h, t, i, t3);
    }
    VoteCarriesLog(ids, h, t2, u);
    HoldsApplies(h, u, t2 - 1, h.ballots[Slot(u, t2)].log, t, i);
    VoterHandsOn(ids, h, p, t, t2, u);
  }

  lemma HoldsApplies(h: History, n: NodeId, lim: int, log: Log, t: Term, i: nat)
    requires Holds(h, n, lim, log) && t <= lim && 1 <= i <= AckOf(h.acks, n, t)
    requires Keeps(h, Acked(h, t, i), t, lim)
    ensures Acked(h, t, i) <= log
  {
  }

  lemma CommittedFacts(ids: seq<NodeId>, h: History, t: Term, i: nat)
    requires CommittedAt(ids, h, t, i)
    ensures t in h.reigns && Acked(h, t, i) <= h.reigns[t].log && |Acked(h, t, i)| == i
  {
  }

  lemma SafeWitness(ids: seq<NodeId>, h: History, term: int, p: Log) returns (t: Term, i: nat)
    requires Safe(ids, h, term, p) && p != []
    ensures t <= term && CommittedAt(ids, h, t, i) && p <= Acked(h, t, i)
  {
    t, i :| t <= term && CommittedAt(ids, h, t, i) && p <= Acked(h, t, i);
  }

  // ── committed prefixes ──────────────────────────────────────────────────────

  lemma CommittedInLater(ids: seq<NodeId>, h: History, t: Term, i: nat, t2: Term)
    requires Config(ids) && HistoryOK(ids, h) && AcksOK(ids, h)
    requires CommittedAt(ids, h, t, i) && t <= t2 && t2 in h.reigns
    ensures Acked(h, t, i) <= h.reigns[t2].log
  {
    hide *;
    CommittedFacts(ids, h, t, i);
    ReignIsOK(ids, h, t2);
    ReignFacts(ids, h, t2);
    if t < t2 { LeaderCompleteness(ids, h, t, i, t2); }
  }

  /** What was committed up to a leader's term is in that leader's log. */
  lemma SafeInLeader(ids: seq<NodeId>, h: History, t: Term, p: Log)
    requires Config(ids) && HistoryOK(ids, h) && AcksOK(ids, h)
    requires Safe(ids, h, t, p) && t in h.reigns
    ensures p <= h.reigns[t].log
  {
    if p != [] {
      hide *;
      var t0, i := SafeWitness(ids, h, t, p);
      CommittedInLater(ids, h, t0, i, t);
    }
  }

  /** Any two committed prefixes agree. */
  lemma CommittedAgree(ids: seq<NodeId>, h: History, t1: Term, i1: nat, t2: Term, i2: nat, k: nat)
    requires Config(ids) && HistoryOK(ids, h) && AcksOK(ids, h)
    requires CommittedAt(ids, h, t1, i1) && CommittedAt(ids, h, t2, i2)
    requires k < |Acked(h, t1, i1)| && k < |Acked(h, t2, i2)|
    ensures Acked(h, t1, i1)[k] == Acked(h, t2, i2)[k]
  {
    hide *;
    CommittedFacts(ids, h, t1, i1);
    CommittedFacts(ids, h, t2, i2);
    if t1 <= t2 {
      CommittedInLater(ids, h, t1, i1, t2);
    } else {
      CommittedInLater(ids, h, t2, i2, t1);
    }
  }

  lemma SafePrefixesAgree(ids: seq<NodeId>, h: History, a: int, p: Log, b: int, q: Log)
    requires Config(ids) && HistoryOK(ids, h) && AcksOK(ids, h)
    requires Safe(ids, h, a, p) && Safe(ids, h, b, q) && |p| <= |q|
    ensures p <= q
  {
    if p != [] {
      hide *;
      var t1, i1 := SafeWitness(ids, h, a, p);
      var t2, i2 := SafeWitness(ids, h, b, q);
      forall k | 0 <= k < |p| ensures p[k] == q[k] {
        CommittedAgree(ids, h, t1, i1, t2, i2, k);
      }
    }
  }
}
