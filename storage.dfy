/**
 * The storage contract of Sequence Paxos (omnipaxos_core/src/storage.rs):
 * the StopSign that ends a configuration, the snapshot type, the in-memory
 * `CachedState` of the four persistent registers, and what every `Storage`
 * implementation promises about the log it keeps.
 */
module Storage {
  import opened Wrappers
  import opened Ballots

  newtype byte = b: int | 0 <= b < 256

  /**
   * Marks the end of a configuration: the id and the process ids of the next
   * one, and optional metadata. Equality is the hand-written `PartialEq`,
   * which does not look at `metadata`.
   */
  datatype StopSign = StopSign(configId: nat, nodes: seq<nat>, metadata: Option<seq<byte>>)
  {
    predicate Eq(other: StopSign) {
      configId == other.configId && nodes == other.nodes
    }
  }

  /** A StopSign together with whether it has been decided. */
  datatype StopSignEntry = StopSignEntry(stopsign: StopSign, decided: bool)

  /** `StopSign::with`: stores its arguments unchanged. */
  function StopSignWith(configId: nat, nodes: seq<nat>, metadata: Option<seq<byte>>): (s: StopSign)
    ensures s.configId == configId && s.nodes == nodes && s.metadata == metadata
  {
    StopSign(configId, nodes, metadata)
  }

  /** `StopSignEntry::with`: stores its arguments unchanged. */
  function StopSignEntryWith(stopsign: StopSign, decided: bool): (e: StopSignEntry)
    ensures e.stopsign == stopsign && e.decided == decided
  {
    StopSignEntry(stopsign, decided)
  }

  /** Two StopSigns are equal exactly when they agree once their metadata is erased. */
  lemma StopSignEqIgnoresMetadata(a: StopSign, b: StopSign)
    ensures a.Eq(b) <==> a.(metadata := None) == b.(metadata := None)
    ensures forall m: Option<seq<byte>> :: a.Eq(a.(metadata := m))
  {
  }

  /** StopSign equality is an equivalence relation. */
  lemma StopSignEqIsEquivalence()
    ensures forall a: StopSign :: a.Eq(a)
    ensures forall a: StopSign, b: StopSign :: a.Eq(b) ==> b.Eq(a)
    ensures forall a: StopSign, b: StopSign, c: StopSign :: a.Eq(b) && b.Eq(c) ==> a.Eq(c)
  {
  }

  /** StopSign equality is coarser than structural equality: metadata can differ. */
  lemma StopSignEqIsNotIdentity()
    ensures var a, b := StopSign(1, [2, 3], None), StopSign(1, [2, 3], Some([7]));
            a.Eq(b) && a != b
  {
  }

  /** `SnapshotType`: a complete snapshot, or only the changes since an earlier one. */
  datatype SnapshotType<S> = Complete(snapshot: S) | Delta(snapshot: S)

  /** `<() as Snapshot<T>>::use_snapshots`: the unit snapshot type disables snapshots. */
  function UnitSnapshotUseSnapshots(): (r: bool)
    ensures !r
  {
    false
  }

  /** The failures a storage backend may report. */
  datatype StorageErr = LogError | StateError

  /**
   * `CachedState`: the last promised round, accepted round, decided index and
   * compacted index written to persistent storage, kept in memory.
   */
  class CachedState {
    var nProm: Ballot
    var accRound: Ballot
    var ld: nat
    var trimmedIdx: nat

    /** `CachedState::default()`. */
    constructor ()
      ensures nProm == DefaultBallot && accRound == DefaultBallot
      ensures ld == 0 && trimmedIdx == 0
    {
      nProm := DefaultBallot;
      accRound := DefaultBallot;
      ld := 0;
      trimmedIdx := 0;
    }

    function GetPromise(): Ballot reads this { nProm }
    function GetAcceptedRound(): Ballot reads this { accRound }
    function GetDecidedIdx(): nat reads this { ld }
    function GetCompactedIdx(): nat reads this { trimmedIdx }

    method SetPromise(n: Ballot)
      modifies this
      ensures GetPromise() == n
      ensures accRound == old(accRound) && ld == old(ld) && trimmedIdx == old(trimmedIdx)
    {
      nProm := n;
    }

    method SetDecidedIdx(idx: nat)
      modifies this
      ensures GetDecidedIdx() == idx
      ensures nProm == old(nProm) && accRound == old(accRound) && trimmedIdx == old(trimmedIdx)
    {
      ld := idx;
    }

    method SetAcceptedRound(na: Ballot)
      modifies this
      ensures GetAcceptedRound() == na
      ensures nProm == old(nProm) && ld == old(ld) && trimmedIdx == old(trimmedIdx)
    {
      accRound := na;
    }

    method SetCompactedIdx(idx: nat)
      modifies this
      ensures GetCompactedIdx() == idx
      ensures nProm == old(nProm) && accRound == old(accRound) && ld == old(ld)
    {
      trimmedIdx := idx;
    }
  }

  /**
   * The `Storage` trait's promise for `get_entries(from, to)`: the entries at
   * positions from, from + 1, ..., to - 1, or no entries at all when the log
   * does not hold that whole interval.
   */
  ghost predicate EntriesContract<T>(log: seq<T>, from: nat, to: nat, r: seq<T>) {
    if from <= to <= |log| then
      |r| == to - from && forall k :: 0 <= k < |r| ==> r[k] == log[from + k]
    else
      r == []
  }

  /**
   * The `Storage` trait's promise for `get_suffix(from)`: the entries from
   * position `from` to the end of the log. (The trait says nothing when
   * `from` lies beyond the end.)
   */
  ghost predicate SuffixContract<T>(log: seq<T>, from: nat, r: seq<T>) {
    from <= |log| ==>
      |r| == |log| - from && forall k :: 0 <= k < |r| ==> r[k] == log[from + k]
  }

  /**
   * The `Storage` trait's promise for `trim(idx)`: the elements before `idx`
   * are removed, the rest are kept in order.
   */
  ghost predicate TrimContract<T>(log: seq<T>, idx: nat, log': seq<T>) {
    idx <= |log| && |log'| == |log| - idx && forall k :: 0 <= k < |log'| ==> log'[k] == log[idx + k]
  }

  /**
   * The `Storage` trait's promise for `append_on_prefix(from, entries)`: the
   * log up to `from` is kept (all of it when it is shorter) and `entries`
   * follow it.
   */
  ghost predicate AppendOnPrefixContract<T>(log: seq<T>, from: nat, entries: seq<T>, log': seq<T>) {
    var keep := if from <= |log| then from else |log|;
    |log'| == keep + |entries|
    && (forall k :: 0 <= k < keep ==> log'[k] == log[k])
    && (forall k :: 0 <= k < |entries| ==> log'[keep + k] == entries[k])
  }
}
