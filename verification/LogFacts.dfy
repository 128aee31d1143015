/** What the linear searches of the source compute on a log whose entries sit at their
    own index, and exact characterisations of the reconciliation loop and of the
    downward commit scan. */
module LogFacts {
  import opened Protocol
  import opened RaftSteps

  predicate Contiguous(log: Log) {
    forall i | 0 <= i < |log| :: log[i].index == i + 1
  }

  /** The shape of every log of a reachable state. */
  predicate Shape(log: Log) {
    && Contiguous(log)
    && (forall i | 0 <= i < |log| :: 1 <= log[i].term)
    && (forall i, j | 0 <= i <= j < |log| :: log[i].term <= log[j].term)
  }

  predicate TermsAtMost(log: Log, term: int) {
    forall i | 0 <= i < |log| :: log[i].term <= term
  }

  function TermAt(log: Log, index: LogIndex): Term {
    if 0 < index <= |log| then log[index - 1].term else 0
  }

  function Commands(log: Log): (r: seq<Command>)
    ensures |r| == |log|
  {
    seq(|log|, i requires 0 <= i < |log| => log[i].command)
  }

  // ── searches are indexing ───────────────────────────────────────────────────

  lemma LastIndexIsLength(log: Log)
    requires Contiguous(log)
    ensures LastLogIndex(log) == |log|
    ensures LastLogTerm(log) == TermAt(log, |log|)
  {
  }

  lemma PositionIsIndex(log: Log, index: LogIndex)
    requires Contiguous(log)
    ensures Position(log, index) == if 1 <= index <= |log| then Some(index - 1) else None
  {
    if 1 <= index <= |log| {
      assert log[index - 1].index == index;
    }
  }

  lemma LogMatchesIsTermAt(log: Log, index: LogIndex, term: Term)
    requires Contiguous(log)
    ensures LogMatches(log, index, term)
       <==> index == 0 || (index <= |log| && log[index - 1].term == term)
  {
    if 0 < index <= |log| {
      assert log[index - 1] in log;
    }
  }

  lemma PrevLogInfoIsTermAt(log: Log, next: LogIndex)
    requires Contiguous(log)
    ensures PrevLogInfo(log, next)
         == (if next <= 1 then 0 else next - 1, TermAt(log, if next <= 1 then 0 else next - 1))
  {
    if next > 1 {
      PositionIsIndex(log, next - 1);
    }
  }

  lemma {:induction false} EntriesFromIsSuffix(log: Log, next: LogIndex)
    requires Contiguous(log) && 1 <= next
    ensures EntriesFrom(log, next) == if next <= |log| then log[next - 1..] else []
  {
    if log == [] {
    } else {
      var n := |log| - 1;
      EntriesFromIsSuffix(log[..n], next);
      if next <= n {
        assert log[next - 1..] == log[..n][next - 1..] + [log[n]];
      } else if next == n + 1 {
        assert log[next - 1..] == [log[n]];
      }
    }
  }

  function Applications(commands: seq<Command>): (actions: seq<Action>)
    ensures |actions| == |commands|
  {
    seq(|commands|, i requires 0 <= i < |commands| => ApplyCommand(commands[i]))
  }

  lemma ApplicationsCons(e: LogEntry, log: Log)
    ensures Applications(Commands([e] + log))
         == [ApplyCommand(e.command)] + Applications(Commands(log))
  {
  }

  /** The lookup never misses: one application per index, in order. */
  lemma {:induction false} ApplyBetweenIsSlice(log: Log, lo: LogIndex, hi: LogIndex)
    requires Contiguous(log) && lo <= hi <= |log|
    ensures ApplyBetween(log, lo, hi) == Applications(Commands(log[lo..hi]))
    decreases hi - lo
  {
    if lo == hi {
    } else {
      PositionIsIndex(log, lo + 1);
      ApplyBetweenIsSlice(log, lo + 1, hi);
      ApplicationsCons(log[lo], log[lo + 1..hi]);
      assert log[lo..hi] == [log[lo]] + log[lo + 1..hi];
      assert Find(log, lo + 1) == Some(log[lo]);
    }
  }

  // ── reconciliation ──────────────────────────────────────────────────────────

  /** The entries are numbered from `prev + 1` on. */
  predicate Follows(entries: Log, prev: LogIndex) {
    forall i | 0 <= i < |entries| :: entries[i].index == prev + 1 + i
  }

  /** How many of the leading entries the log already has, by index and term. */
  function Agreeing(log: Log, prev: LogIndex, entries: Log): (k: nat)
    ensures k <= |entries|
    ensures k == 0 || prev + k <= |log|
    ensures forall j | 0 <= j < k :: log[prev + j].term == entries[j].term
    ensures k < |entries| && prev + k < |log| ==> log[prev + k].term != entries[k].term
    decreases |entries|
  {
    if entries == [] || prev >= |log| || log[prev].term != entries[0].term then 0
    else
      var rest := entries[1..];
      var k := Agreeing(log, prev + 1, rest);
      assert forall j | 0 <= j < k :: log[prev + 1 + j].term == rest[j].term;
      assert forall j | 0 < j < k + 1 :: rest[j - 1] == entries[j];
      k + 1
  }

  lemma FollowsTail(entries: Log, prev: LogIndex)
    requires Follows(entries, prev) && entries != []
    ensures Follows(entries[1..], prev + 1)
  {
    var rest := entries[1..];
    forall i | 0 <= i < |rest| ensures rest[i].index == prev + 2 + i {
      assert rest[i] == entries[i + 1];
    }
  }

  lemma ReconcileStep(log: Log, prev: LogIndex, entries: Log)
    requires Contiguous(log) && Follows(entries, prev) && prev <= |log| && entries != []
    ensures Reconcile(log, entries)
         == if prev == |log| || log[prev].term != entries[0].term
            then log[..prev] + entries else Reconcile(log, entries[1..])
  {
    assert entries[0].index == prev + 1;
    PositionIsIndex(log, prev + 1);
    assert log[..|log|] == log;
  }

  lemma {:induction false} ReconcileCutsAtFirstConflict(log: Log, prev: LogIndex, entries: Log)
    requires Contiguous(log) && Follows(entries, prev) && prev <= |log|
    ensures var k := Agreeing(log, prev, entries);
            Reconcile(log, entries)
            == if k == |entries| then log else log[..prev + k] + entries[k..]
    decreases |entries|
  {
    if entries == [] {
    } else {
      ReconcileStep(log, prev, entries);
      if prev < |log| && log[prev].term == entries[0].term {
        FollowsTail(entries, prev);
        ReconcileCutsAtFirstConflict(log, prev + 1, entries[1..]);
        var k := Agreeing(log, prev + 1, entries[1..]);
        assert entries[1..][k..] == entries[k + 1..];
      } else {
        assert entries[0..] == entries;
      }
    }
  }

  /** Entries with the same index and term are the same entry (Log Matching). */
  predicate SameTermSameEntry(log: Log, prev: LogIndex, entries: Log) {
    forall j | 0 <= j < |entries| && prev + j < |log| ::
      log[prev + j].term == entries[j].term ==> log[prev + j] == entries[j]
  }

  lemma AgreeingEntriesAreEqual(log: Log, prev: LogIndex, entries: Log)
    requires prev <= |log| && SameTermSameEntry(log, prev, entries)
    ensures var k := Agreeing(log, prev, entries); log[prev..prev + k] == entries[..k]
  {
    var k := Agreeing(log, prev, entries);
    forall j | 0 <= j < k ensures log[prev..prev + k][j] == entries[..k][j] {
      assert log[prev + j].term == entries[j].term;
    }
  }

  lemma CutAndExtend(log: Log, prev: LogIndex, entries: Log, k: nat)
    requires prev + k <= |log| && k <= |entries| && log[prev..prev + k] == entries[..k]
    ensures log[..prev + k] + entries[k..] == log[..prev] + entries
  {
    assert log[..prev + k] == log[..prev] + log[prev..prev + k];
    assert entries == entries[..k] + entries[k..];
  }

  lemma KeptOrExtended(log: Log, prev: LogIndex, entries: Log, k: nat)
    requires k <= |entries| && prev + k <= |log| && log[prev..prev + k] == entries[..k]
    requires k < |entries| && prev + k < |log| ==> log[prev + k].term != entries[k].term
    ensures (if k == |entries| then log else log[..prev + k] + entries[k..])
         == if prev + |entries| <= |log| && log[prev..prev + |entries|] == entries
            then log else log[..prev] + entries
  {
    if k < |entries| {
      CutAndExtend(log, prev, entries, k);
      if prev + |entries| <= |log| {
        assert log[prev..prev + |entries|][k] == log[prev + k];
      }
    }
  }

  /** The loop keeps the log when it has every entry of the message, and otherwise
      leaves exactly the verified prefix followed by the message. */
  lemma ReconcileRefinesSpecification(log: Log, prev: LogIndex, entries: Log)
    requires Contiguous(log) && Follows(entries, prev) && prev <= |log|
    requires SameTermSameEntry(log, prev, entries)
    ensures Reconcile(log, entries)
         == if prev + |entries| <= |log| && log[prev..prev + |entries|] == entries
            then log else log[..prev] + entries
  {
    ReconcileCutsAtFirstConflict(log, prev, entries);
    AgreeingEntriesAreEqual(log, prev, entries);
    KeptOrExtended(log, prev, entries, Agreeing(log, prev, entries));
  }

  lemma CutKeepsContiguity(log: Log, prev: LogIndex, entries: Log, k: nat)
    requires Contiguous(log) && Follows(entries, prev) && prev + k <= |log| && k <= |entries|
    ensures Contiguous(log[..prev + k] + entries[k..])
  {
    var cut := log[..prev + k] + entries[k..];
    forall i | 0 <= i < |cut| ensures cut[i].index == i + 1 {
      if i >= prev + k {
        assert cut[i] == entries[i - prev];
      }
    }
  }

  predicate SameTermsFrom(log: Log, prev: LogIndex, entries: Log) {
    && prev + |entries| <= |log|
    && forall j {:trigger entries[j]} | 0 <= j < |entries| :: log[prev + j].term == entries[j].term
  }

  lemma CutHasTerms(log: Log, prev: LogIndex, entries: Log, k: nat)
    requires prev + k <= |log| && k <= |entries|
    requires forall j {:trigger entries[j]} | 0 <= j < k :: log[prev + j].term == entries[j].term
    ensures SameTermsFrom(log[..prev + k] + entries[k..], prev, entries)
  {
    var cut := log[..prev + k] + entries[k..];
    forall j | 0 <= j < |entries| ensures cut[prev + j].term == entries[j].term {
      assert j < k ==> cut[prev + j] == log[prev + j];
      assert j >= k ==> cut[prev + j] == entries[j];
    }
  }

  /** After the loop the log keeps everything up to `prev` and has the terms of the whole
      message behind it. */
  lemma ReconcileHasMessage(log: Log, prev: LogIndex, entries: Log)
    requires Contiguous(log) && Follows(entries, prev) && prev <= |log|
    ensures var once := Reconcile(log, entries);
            Contiguous(once) && SameTermsFrom(once, prev, entries) && once[..prev] == log[..prev]
  {
    ReconcileCutsAtFirstConflict(log, prev, entries);
    var k := Agreeing(log, prev, entries);
    if k < |entries| {
      CutKeepsContiguity(log, prev, entries, k);
      CutHasTerms(log, prev, entries, k);
    }
  }

  /** Whatever the terms are, a second delivery changes nothing. */
  lemma ReconcileIsIdempotent(log: Log, prev: LogIndex, entries: Log)
    requires Contiguous(log) && Follows(entries, prev) && prev <= |log|
    ensures var once := Reconcile(log, entries); Reconcile(once, entries) == once
  {
    ReconcileHasMessage(log, prev, entries);
    var once := Reconcile(log, entries);
    ReconcileCutsAtFirstConflict(once, prev, entries);
  }

  // ── the commit scan ─────────────────────────────────────────────────────────

  /** Index `n` holds an entry of `term` and is on a quorum, the leader included. */
  predicate Committable(log: Log, term: Term, matches: seq<LogIndex>, quorum: nat, n: LogIndex) {
    && 1 <= n <= |log|
    && log[n - 1].term == term
    && 1 + CountAtLeast(matches, n) >= quorum
  }

  lemma {:induction false} CommitScanIsExact(log: Log, commit: LogIndex, term: Term,
                                             matches: seq<LogIndex>, quorum: nat)
    requires Contiguous(log)
    ensures var n := CommitScan(log, commit, term, matches, quorum);
            && (n == commit || (n > commit && Committable(log, term, matches, quorum, n)))
            && (forall m | m > n :: !Committable(log, term, matches, quorum, m))
    decreases |log|
  {
    if log == [] {
    } else {
      var k := |log| - 1;
      var e := log[k];
      if e.index > commit && !(e.term == term && 1 + CountAtLeast(matches, e.index) >= quorum) {
        var shorter := log[..k];
        CommitScanIsExact(shorter, commit, term, matches, quorum);
        var n := CommitScan(log, commit, term, matches, quorum);
        forall m | m > n ensures !Committable(log, term, matches, quorum, m) {
          if 1 <= m <= k {
            assert shorter[m - 1] == log[m - 1];
            assert !Committable(shorter, term, matches, quorum, m);
          }
        }
      }
    }
  }

  function InsertDown(x: nat, s: seq<nat>): (r: seq<nat>)
    ensures |r| == |s| + 1
  {
    if s == [] || x >= s[0] then [x] + s else [s[0]] + InsertDown(x, s[1..])
  }

  /** Insertion sort, largest first. */
  function SortDown(s: seq<nat>): (r: seq<nat>)
    ensures |r| == |s|
  {
    if s == [] then [] else InsertDown(s[|s| - 1], SortDown(s[..|s| - 1]))
  }

  predicate Descending(s: seq<nat>) {
    forall i, j | 0 <= i <= j < |s| :: s[i] >= s[j]
  }

  lemma {:induction false} CountCons(x: nat, s: seq<nat>, n: nat)
    ensures CountAtLeast([x] + s, n) == CountAtLeast(s, n) + if x >= n then 1 else 0
  {
    if s == [] {
      assert ([x] + s)[..0] == [];
    } else {
      var k := |s| - 1;
      assert ([x] + s)[..k + 1] == [x] + s[..k];
      CountCons(x, s[..k], n);
    }
  }

  lemma {:induction false} InsertDownKeeps(x: nat, s: seq<nat>, n: nat)
    requires Descending(s)
    ensures CountAtLeast(InsertDown(x, s), n) == CountAtLeast(s, n) + if x >= n then 1 else 0
  {
    if s == [] || x >= s[0] {
      CountCons(x, s, n);
    } else {
      InsertDownKeeps(x, s[1..], n);
      CountCons(s[0], InsertDown(x, s[1..]), n);
      CountCons(s[0], s[1..], n);
      assert [s[0]] + s[1..] == s;
    }
  }

  lemma {:induction false} InsertDownOrders(x: nat, s: seq<nat>)
    requires Descending(s)
    ensures Descending(InsertDown(x, s))
    ensures InsertDown(x, s)[0] == if s == [] || x >= s[0] then x else s[0]
  {
    if s != [] && x < s[0] {
      var rest := InsertDown(x, s[1..]);
      InsertDownOrders(x, s[1..]);
      assert rest[0] <= s[0];
      forall i, j | 0 <= i <= j < |rest| + 1
        ensures ([s[0]] + rest)[i] >= ([s[0]] + rest)[j]
      {
        if i == 0 && j > 0 { assert rest[0] >= rest[j - 1]; }
      }
    }
  }

  lemma {:induction false} SortDownKeeps(s: seq<nat>, n: nat)
    ensures Descending(SortDown(s))
    ensures CountAtLeast(SortDown(s), n) == CountAtLeast(s, n)
  {
    if s == [] {
    } else {
      SortDownKeeps(s[..|s| - 1], n);
      InsertDownKeeps(s[|s| - 1], SortDown(s[..|s| - 1]), n);
      InsertDownOrders(s[|s| - 1], SortDown(s[..|s| - 1]));
    }
  }

  lemma {:induction false} CountDescending(s: seq<nat>, n: nat, q: nat)
    requires Descending(s) && 1 <= q <= |s|
    ensures CountAtLeast(s, n) >= q <==> s[q - 1] >= n
    decreases |s|
  {
    var k := |s| - 1;
    if q <= k {
      CountDescending(s[..k], n, q);
    } else if s[k] >= n {
      AllCounted(s, n);
    }
  }

  lemma {:induction false} AllCounted(s: seq<nat>, n: nat)
    requires forall i | 0 <= i < |s| :: s[i] >= n
    ensures CountAtLeast(s, n) == |s|
  {
    if s == [] {
    } else {
      AllCounted(s[..|s| - 1], n);
    }
  }

  /** An index of the leader's log is on a quorum exactly when it does not exceed the
      quorum-th largest of the peers' match indices and the leader's own last index. */
  lemma CommittableIsQuorumthLargest(log: Log, term: Term, matches: seq<LogIndex>,
                                     quorum: nat, n: LogIndex)
    requires 1 <= quorum <= |matches| + 1
    ensures Committable(log, term, matches, quorum, n)
       <==> && 1 <= n <= |log|
            && log[n - 1].term == term
            && n <= SortDown([|log|] + matches)[quorum - 1]
  {
    if 1 <= n <= |log| {
      CountCons(|log|, matches, n);
      SortDownKeeps([|log|] + matches, n);
      CountDescending(SortDown([|log|] + matches), n, quorum);
    }
  }

  /** An entry of `term` at index `n`, not above `bound`. */
  predicate OwnTermUpTo(log: Log, term: Term, bound: LogIndex, n: LogIndex) {
    1 <= n <= |log| && log[n - 1].term == term && n <= bound
  }

  /** The downward scan finds the greatest own-term index not above the quorum-th largest of
      the match indices and the leader's own last index, or leaves the commit index alone. */
  lemma CommitScanIsQuorumthLargest(log: Log, commit: LogIndex, term: Term,
                                    matches: seq<LogIndex>, quorum: nat)
    requires Contiguous(log) && 1 <= quorum <= |matches| + 1
    ensures var n := CommitScan(log, commit, term, matches, quorum);
            var bound := SortDown([|log|] + matches)[quorum - 1];
            && (n == commit || (n > commit && OwnTermUpTo(log, term, bound, n)))
            && (forall m | m > n :: !OwnTermUpTo(log, term, bound, m))
  {
    var n := CommitScan(log, commit, term, matches, quorum);
    var bound := SortDown([|log|] + matches)[quorum - 1];
    CommitScanIsExact(log, commit, term, matches, quorum);
    forall m: LogIndex
      ensures Committable(log, term, matches, quorum, m) <==> OwnTermUpTo(log, term, bound, m)
    {
      CommittableIsQuorumthLargest(log, term, matches, quorum, m);
    }
    hide CommitScan, SortDown, Committable, OwnTermUpTo;
  }
}
