/** Majorities. The source counts them in two ways: grants are a set of nodes, replicas
    are positions in `match_index` plus the leader itself. */
module Quorums {
  import opened Protocol
  import opened RaftSteps
  import opened Cluster

  predicate IsQuorum(ids: seq<NodeId>, q: set<NodeId>) {
    ids != [] && q <= Members(ids) && |q| >= Quorum(|ids| - 1)
  }

  /** The formula of the documentation, and: a quorum is the smallest strict majority. */
  lemma QuorumIsMajority(peerCount: nat)
    ensures Quorum(peerCount) == (peerCount + 1) / 2 + 1
    ensures 2 * Quorum(peerCount) > peerCount + 1 >= 2 * (Quorum(peerCount) - 1)
  {
  }

  lemma SubsetSize<T>(a: set<T>, b: set<T>)
    requires a <= b
    ensures |a| <= |b|
  {
    assert b == a + (b - a);
    assert |a + (b - a)| == |a| + |b - a|;
  }

  lemma {:induction false} MembersSize(ids: seq<NodeId>)
    requires forall i, j | 0 <= i < j < |ids| :: ids[i] != ids[j]
    ensures |Members(ids)| == |ids|
  {
    if ids == [] {
      assert Members(ids) == {};
    } else {
      var k := |ids| - 1;
      MembersSize(ids[..k]);
      assert ids == ids[..k] + [ids[k]];
      assert Members(ids) == Members(ids[..k]) + {ids[k]};
      assert ids[k] !in ids[..k];
    }
  }

  /** Two elections, or an election and a commit, share a node. */
  lemma QuorumsIntersect(ids: seq<NodeId>, q1: set<NodeId>, q2: set<NodeId>) returns (u: NodeId)
    requires Config(ids) && IsQuorum(ids, q1) && IsQuorum(ids, q2)
    ensures u in q1 && u in q2
  {
    MembersSize(ids);
    QuorumIsMajority(|ids| - 1);
    SubsetSize(q1 + q2, Members(ids));
    assert |q1 + q2| == |q1| + |q2| - |q1 * q2|;
    u :| u in q1 * q2;
  }

  // ── peers ───────────────────────────────────────────────────────────────────

  predicate Distinct(s: seq<NodeId>) {
    forall i, j | 0 <= i < j < |s| :: s[i] != s[j]
  }

  lemma {:induction false} PeersAreTheOthers(ids: seq<NodeId>, id: NodeId)
    requires Distinct(ids)
    ensures forall p :: p in PeersOf(ids, id) <==> p in ids && p != id
    ensures Distinct(PeersOf(ids, id))
    ensures |PeersOf(ids, id)| == |ids| - if id in ids then 1 else 0
  {
    if ids == [] {
    } else {
      var k := |ids| - 1;
      PeersAreTheOthers(ids[..k], id);
      assert ids == ids[..k] + [ids[k]];
      assert ids[k] !in ids[..k];
    }
  }

  /** The nodes a positional count over `matches` counts. */
  function Counted(peers: seq<NodeId>, matches: seq<LogIndex>, n: LogIndex): set<NodeId>
    requires |peers| == |matches|
  {
    set j | 0 <= j < |peers| && matches[j] >= n :: peers[j]
  }

  lemma {:induction false} CountIsCountedSize(peers: seq<NodeId>, matches: seq<LogIndex>, n: LogIndex)
    requires |peers| == |matches| && Distinct(peers)
    ensures |Counted(peers, matches, n)| == CountAtLeast(matches, n)
  {
    var counted := Counted(peers, matches, n);
    if peers == [] {
      assert counted == {};
    } else {
      var k := |peers| - 1;
      var before := Counted(peers[..k], matches[..k], n);
      CountIsCountedSize(peers[..k], matches[..k], n);
      CountedNext(peers, matches, n);
    }
  }

  lemma CountedNext(peers: seq<NodeId>, matches: seq<LogIndex>, n: LogIndex)
    requires |peers| == |matches| > 0 && Distinct(peers)
    ensures var k := |peers| - 1;
            var before := Counted(peers[..k], matches[..k], n);
            && peers[k] !in before
            && Counted(peers, matches, n) == if matches[k] >= n then before + {peers[k]} else before
  {
    var k := |peers| - 1;
    var before, counted := Counted(peers[..k], matches[..k], n), Counted(peers, matches, n);
    forall u | u in before ensures u in counted && u != peers[k] {
      var j :| 0 <= j < k && matches[..k][j] >= n && peers[..k][j] == u;
      assert matches[j] >= n && peers[j] == u;
    }
    forall u | u in counted ensures u in before || (u == peers[k] && matches[k] >= n) {
      var j :| 0 <= j <= k && matches[j] >= n && peers[j] == u;
      assert j < k ==> matches[..k][j] >= n && peers[..k][j] == u;
    }
    if matches[k] >= n { assert peers[k] in counted; }
  }

  /** A positional count that reaches the quorum is a quorum of nodes. */
  lemma PositionalCountIsQuorum(ids: seq<NodeId>, id: NodeId, matches: seq<LogIndex>, n: LogIndex)
    requires Config(ids) && id in ids && |matches| == |PeersOf(ids, id)|
    requires 1 + CountAtLeast(matches, n) >= Quorum(|PeersOf(ids, id)|)
    ensures IsQuorum(ids, {id} + Counted(PeersOf(ids, id), matches, n))
  {
    PeersAreTheOthers(ids, id);
    var peers := PeersOf(ids, id);
    var counted := Counted(peers, matches, n);
    CountIsCountedSize(peers, matches, n);
    assert id !in counted;
    assert |{id} + counted| == 1 + |counted|;
  }

  /** A set of grants that wins an election shares a node with any positional count that
      commits an index. */
  lemma GrantsMeetReplicas(ids: seq<NodeId>, granted: set<NodeId>, id: NodeId,
                           matches: seq<LogIndex>, n: LogIndex) returns (u: NodeId)
    requires Config(ids) && id in ids && |matches| == |PeersOf(ids, id)|
    requires granted <= Members(ids) && |granted| >= Quorum(|PeersOf(ids, id)|)
    requires 1 + CountAtLeast(matches, n) >= Quorum(|PeersOf(ids, id)|)
    ensures u in granted
    ensures u == id || exists j | 0 <= j < |matches| :: PeersOf(ids, id)[j] == u && matches[j] >= n
  {
    PeersAreTheOthers(ids, id);
    PositionalCountIsQuorum(ids, id, matches, n);
    u := QuorumsIntersect(ids, granted, {id} + Counted(PeersOf(ids, id), matches, n));
  }
}
