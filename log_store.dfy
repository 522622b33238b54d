/**
 * What `MemoryStorage` does, written once. The crate has two copies of it
 * (omnipaxos_storage/src/memory_storage.rs, whose methods return `Result`,
 * and the `memory_storage` module of omnipaxos_storage/src/memory.rs, whose
 * methods cannot fail); both keep the same seven fields and change them the
 * same way. `Store` is the value of those fields; each operation is a
 * function from the old value to the new one, and both classes are proved
 * to follow these functions.
 *
 * Log positions are physical positions in the vector: `trim` does not record
 * what it removed and the reads do not offset by the compacted index.
 */
module LogStore {
  import opened Wrappers
  import opened Ballots
  import opened Storage

  datatype Store<T, S> = Store(
    log: seq<T>,
    nProm: Ballot,
    accRound: Ballot,
    ld: nat,
    trimmedIdx: nat,
    snapshot: Option<S>,
    stopsign: Option<StopSignEntry>)

  /** `MemoryStorage::default()`. */
  function Default<T, S>(): Store<T, S> {
    Store([], DefaultBallot, DefaultBallot, 0, 0, None, None)
  }

  // ---------------------------------------------------------------- the log

  /** `Vec::push`. */
  function AppendEntry<T, S>(st: Store<T, S>, entry: T): Store<T, S> {
    st.(log := st.log + [entry])
  }

  /** `Vec::append`. */
  function AppendEntries<T, S>(st: Store<T, S>, entries: seq<T>): Store<T, S> {
    st.(log := st.log + entries)
  }

  /** `Vec::truncate`: keeps the first `len` elements; no effect on a shorter vector. */
  function Truncate<T>(log: seq<T>, len: nat): seq<T> {
    if len < |log| then log[..len] else log
  }

  /** `append_on_prefix`: truncate at `fromIdx`, then `append_entries`. */
  function AppendOnPrefix<T, S>(st: Store<T, S>, fromIdx: nat, entries: seq<T>): Store<T, S> {
    AppendEntries(st.(log := Truncate(st.log, fromIdx)), entries)
  }

  /** `Vec::drain(0..idx)`, which panics when `idx` is beyond the end. */
  function Trim<T, S>(st: Store<T, S>, idx: nat): Store<T, S>
    requires idx <= |st.log|
  {
    st.(log := st.log[idx..])
  }

  /** `get_log_len`. */
  function LogLen<T, S>(st: Store<T, S>): nat {
    |st.log|
  }

  /** `get_entries(from, to)`: `log.get(from..to).unwrap_or(&[])`. */
  function Entries<T, S>(st: Store<T, S>, from: nat, to: nat): (r: seq<T>)
    ensures EntriesContract(st.log, from, to, r)
  {
    if from <= to <= |st.log| then st.log[from..to] else []
  }

  /** `get_suffix(from)`: `log.get(from..)`, or nothing. */
  function Suffix<T, S>(st: Store<T, S>, from: nat): (r: seq<T>)
    ensures SuffixContract(st.log, from, r)
    ensures from > |st.log| ==> r == []
  {
    if from <= |st.log| then st.log[from..] else []
  }

  // ---------------------------------------------------------- the registers

  function SetPromise<T, S>(st: Store<T, S>, n: Ballot): Store<T, S> { st.(nProm := n) }
  function GetPromise<T, S>(st: Store<T, S>): Ballot { st.nProm }

  function SetAcceptedRound<T, S>(st: Store<T, S>, na: Ballot): Store<T, S> { st.(accRound := na) }
  function GetAcceptedRound<T, S>(st: Store<T, S>): Ballot { st.accRound }

  function SetDecidedIdx<T, S>(st: Store<T, S>, ld: nat): Store<T, S> { st.(ld := ld) }
  function GetDecidedIdx<T, S>(st: Store<T, S>): nat { st.ld }

  function SetCompactedIdx<T, S>(st: Store<T, S>, idx: nat): Store<T, S> { st.(trimmedIdx := idx) }
  function GetCompactedIdx<T, S>(st: Store<T, S>): nat { st.trimmedIdx }

  function SetSnapshot<T, S>(st: Store<T, S>, snapshot: S): Store<T, S> { st.(snapshot := Some(snapshot)) }
  function GetSnapshot<T, S>(st: Store<T, S>): Option<S> { st.snapshot }

  function SetStopsign<T, S>(st: Store<T, S>, s: StopSignEntry): Store<T, S> { st.(stopsign := Some(s)) }
  function GetStopsign<T, S>(st: Store<T, S>): Option<StopSignEntry> { st.stopsign }

  // ------------------------------------------------ which field an operation touches

  datatype Field = Log | Promise | AcceptedRound | DecidedIdx | CompactedIdx | Snapshot | Stopsign

  ghost predicate Agree<T, S>(st: Store<T, S>, st': Store<T, S>, f: Field) {
    match f
    case Log => st'.log == st.log
    case Promise => st'.nProm == st.nProm
    case AcceptedRound => st'.accRound == st.accRound
    case DecidedIdx => st'.ld == st.ld
    case CompactedIdx => st'.trimmedIdx == st.trimmedIdx
    case Snapshot => st'.snapshot == st.snapshot
    case Stopsign => st'.stopsign == st.stopsign
  }

  /** Every field other than `f` is the same in `st` and `st'`. */
  ghost predicate OnlyChanges<T, S>(st: Store<T, S>, st': Store<T, S>, f: Field) {
    forall g :: g != f ==> Agree(st, st', g)
  }

  // ------------------------------------------------------ the default store

  /** The default store holds no entries, zero indices, default ballots, no snapshot and no StopSign. */
  lemma DefaultIsEmpty<T, S>()
    ensures var st := Default<T, S>();
      && LogLen(st) == 0
      && (forall from: nat, to: nat :: Entries(st, from, to) == [])
      && GetPromise(st) == DefaultBallot && GetAcceptedRound(st) == DefaultBallot
      && GetDecidedIdx(st) == 0 && GetCompactedIdx(st) == 0
      && GetSnapshot(st) == None && GetStopsign(st) == None
  {
  }

  // ------------------------------------------------------- log operations

  /** `append_entry` adds one entry after the old log and changes nothing else. */
  lemma AppendEntryReadBack<T, S>(st: Store<T, S>, entry: T)
    ensures var st' := AppendEntry(st, entry);
      && LogLen(st') == LogLen(st) + 1
      && Entries(st', 0, LogLen(st)) == st.log
      && Entries(st', LogLen(st), LogLen(st')) == [entry]
      && OnlyChanges(st, st', Log)
  {
  }

  /** `append_entries` adds the batch after the old log, in order, and changes nothing else. */
  lemma AppendEntriesReadBack<T, S>(st: Store<T, S>, entries: seq<T>)
    ensures var st' := AppendEntries(st, entries);
      && LogLen(st') == LogLen(st) + |entries|
      && Entries(st', 0, LogLen(st)) == st.log
      && Suffix(st', LogLen(st)) == entries
      && OnlyChanges(st, st', Log)
  {
  }

  /** Pushing each entry of a batch in turn, as repeated `append_entry` calls do. */
  function PushAll<T, S>(st: Store<T, S>, entries: seq<T>): Store<T, S>
    decreases |entries|
  {
    if entries == [] then st else PushAll(AppendEntry(st, entries[0]), entries[1..])
  }

  /** `append_entries(es)` leaves the store as `append_entry` of each entry of `es`, in order. */
  lemma {:induction false} AppendEntriesIsRepeatedAppendEntry<T, S>(st: Store<T, S>, entries: seq<T>)
    ensures AppendEntries(st, entries) == PushAll(st, entries)
    decreases |entries|
  {
    if entries != [] {
      AppendEntriesIsRepeatedAppendEntry(AppendEntry(st, entries[0]), entries[1..]);
      assert st.log + entries == (st.log + [entries[0]]) + entries[1..];
    }
  }

  /** `append_on_prefix` keeps the log up to `fromIdx` (all of a shorter log) and places the batch after it. */
  lemma AppendOnPrefixReadBack<T, S>(st: Store<T, S>, fromIdx: nat, entries: seq<T>)
    ensures var keep := if fromIdx <= LogLen(st) then fromIdx else LogLen(st);
            var st' := AppendOnPrefix(st, fromIdx, entries);
      && AppendOnPrefixContract(st.log, fromIdx, entries, st'.log)
      && LogLen(st') == keep + |entries|
      && Entries(st', 0, keep) == st.log[..keep]
      && Suffix(st', keep) == entries
      && OnlyChanges(st, st', Log)
  {
  }

  /** From the end of the log or beyond, `append_on_prefix` is `append_entries`. */
  lemma AppendOnPrefixAtEndAppends<T, S>(st: Store<T, S>, fromIdx: nat, entries: seq<T>)
    requires fromIdx >= LogLen(st)
    ensures AppendOnPrefix(st, fromIdx, entries) == AppendEntries(st, entries)
  {
  }

  /**
   * `trim(idx)` removes the first `idx` entries, keeps the rest in order, and
   * does not record the compaction: the compacted index and every register
   * are as before.
   */
  lemma TrimReadBack<T, S>(st: Store<T, S>, idx: nat)
    requires idx <= LogLen(st)
    ensures var st' := Trim(st, idx);
      && TrimContract(st.log, idx, st'.log)
      && LogLen(st') == LogLen(st) - idx
      && Suffix(st', 0) == Suffix(st, idx)
      && GetCompactedIdx(st') == GetCompactedIdx(st)
      && OnlyChanges(st, st', Log)
  {
  }

  /**
   * Positions are physical: after `trim(idx)` the interval [from, to) holds
   * what [from + idx, to + idx) held before.
   */
  lemma TrimShiftsPositions<T, S>(st: Store<T, S>, idx: nat, from: nat, to: nat)
    requires idx <= LogLen(st)
    ensures Entries(Trim(st, idx), from, to) == Entries(st, from + idx, to + idx)
  {
  }

  /** Two trims remove as much as one trim of both amounts. */
  lemma TrimTwice<T, S>(st: Store<T, S>, a: nat, b: nat)
    requires a <= LogLen(st) && b <= LogLen(st) - a
    ensures Trim(Trim(st, a), b) == Trim(st, a + b)
  {
  }

  /** `get_suffix(from)` is `get_entries(from, get_log_len())`. */
  lemma SuffixIsEntriesToEnd<T, S>(st: Store<T, S>, from: nat)
    ensures Suffix(st, from) == Entries(st, from, LogLen(st))
  {
  }

  // ---------------------------------------------------- register round trips

  lemma PromiseRoundTrip<T, S>(st: Store<T, S>, n: Ballot)
    ensures GetPromise(SetPromise(st, n)) == n
    ensures OnlyChanges(st, SetPromise(st, n), Promise)
  {
  }

  lemma AcceptedRoundRoundTrip<T, S>(st: Store<T, S>, na: Ballot)
    ensures GetAcceptedRound(SetAcceptedRound(st, na)) == na
    ensures OnlyChanges(st, SetAcceptedRound(st, na), AcceptedRound)
  {
  }

  lemma DecidedIdxRoundTrip<T, S>(st: Store<T, S>, ld: nat)
    ensures GetDecidedIdx(SetDecidedIdx(st, ld)) == ld
    ensures OnlyChanges(st, SetDecidedIdx(st, ld), DecidedIdx)
  {
  }

  lemma CompactedIdxRoundTrip<T, S>(st: Store<T, S>, idx: nat)
    ensures GetCompactedIdx(SetCompactedIdx(st, idx)) == idx
    ensures OnlyChanges(st, SetCompactedIdx(st, idx), CompactedIdx)
  {
  }

  lemma SnapshotRoundTrip<T, S>(st: Store<T, S>, snapshot: S)
    ensures GetSnapshot(SetSnapshot(st, snapshot)) == Some(snapshot)
    ensures OnlyChanges(st, SetSnapshot(st, snapshot), Snapshot)
  {
  }

  lemma StopsignRoundTrip<T, S>(st: Store<T, S>, s: StopSignEntry)
    ensures GetStopsign(SetStopsign(st, s)) == Some(s)
    ensures OnlyChanges(st, SetStopsign(st, s), Stopsign)
  {
  }
}
