/**
 * `memory_storage::MemoryStorage` of omnipaxos_storage/src/memory.rs: the
 * in-memory `Storage` backend whose signatures cannot fail. Appends return
 * the new log length, writes return nothing. Each method is proved to follow
 * the shared behaviour in module `LogStore`, as the `Result`-returning copy
 * in module `FallibleMemory` is.
 */
module InfallibleMemory {
  import opened Wrappers
  import opened Ballots
  import opened Storage
  import LogStore

  class MemoryStorage<T, S> {
    var log: seq<T>
    var nProm: Ballot
    var accRound: Ballot
    var ld: nat
    var trimmedIdx: nat
    var snapshot: Option<S>
    var stopsign: Option<StopSignEntry>

    /** The value of the fields. */
    ghost function Abstract(): LogStore.Store<T, S>
      reads this
    {
      LogStore.Store(log, nProm, accRound, ld, trimmedIdx, snapshot, stopsign)
    }

    /** `MemoryStorage::default()`: an empty log, zero indices, default ballots, no snapshot, no StopSign. */
    constructor ()
      ensures Abstract() == LogStore.Default()
      ensures log == [] && nProm == DefaultBallot && accRound == DefaultBallot
      ensures ld == 0 && trimmedIdx == 0 && snapshot == None && stopsign == None
    {
      log := [];
      nProm := DefaultBallot;
      accRound := DefaultBallot;
      ld := 0;
      trimmedIdx := 0;
      snapshot := None;
      stopsign := None;
    }

    method AppendEntry(entry: T) returns (n: nat)
      modifies this
      ensures Abstract() == LogStore.AppendEntry(old(Abstract()), entry)
      ensures log == old(log) + [entry]
      ensures n == GetLogLen() && n == |old(log)| + 1
    {
      log := log + [entry];
      n := GetLogLen();
    }

    method AppendEntries(entries: seq<T>) returns (n: nat)
      modifies this
      ensures Abstract() == LogStore.AppendEntries(old(Abstract()), entries)
      ensures log == old(log) + entries
      ensures n == GetLogLen() && n == |old(log)| + |entries|
    {
      log := log + entries;
      n := GetLogLen();
    }

    method AppendOnPrefix(fromIdx: nat, entries: seq<T>) returns (n: nat)
      modifies this
      ensures Abstract() == LogStore.AppendOnPrefix(old(Abstract()), fromIdx, entries)
      ensures AppendOnPrefixContract(old(log), fromIdx, entries, log)
      ensures n == GetLogLen()
    {
      if fromIdx < |log| {
        log := log[..fromIdx];
      }
      n := AppendEntries(entries);
      LogStore.AppendOnPrefixReadBack(old(Abstract()), fromIdx, entries);
    }

    method SetPromise(n: Ballot)
      modifies this
      ensures Abstract() == LogStore.SetPromise(old(Abstract()), n)
      ensures GetPromise() == n
    {
      nProm := n;
    }

    method SetDecidedIdx(idx: nat)
      modifies this
      ensures Abstract() == LogStore.SetDecidedIdx(old(Abstract()), idx)
      ensures GetDecidedIdx() == idx
    {
      ld := idx;
    }

    function GetDecidedIdx(): (ld': nat)
      reads this
      ensures ld' == LogStore.GetDecidedIdx(Abstract())
    {
      ld
    }

    method SetAcceptedRound(na: Ballot)
      modifies this
      ensures Abstract() == LogStore.SetAcceptedRound(old(Abstract()), na)
      ensures GetAcceptedRound() == na
    {
      accRound := na;
    }

    function GetAcceptedRound(): (na: Ballot)
      reads this
      ensures na == LogStore.GetAcceptedRound(Abstract())
    {
      accRound
    }

    function GetEntries(from: nat, to: nat): (r: seq<T>)
      reads this
      ensures r == LogStore.Entries(Abstract(), from, to)
      ensures EntriesContract(log, from, to, r)
    {
      if from <= to <= |log| then log[from..to] else []
    }

    function GetLogLen(): (n: nat)
      reads this
      ensures n == LogStore.LogLen(Abstract())
    {
      |log|
    }

    function GetSuffix(from: nat): (r: seq<T>)
      reads this
      ensures r == LogStore.Suffix(Abstract(), from)
      ensures SuffixContract(log, from, r)
    {
      if from <= |log| then log[from..] else []
    }

    function GetPromise(): (n: Ballot)
      reads this
      ensures n == LogStore.GetPromise(Abstract())
    {
      nProm
    }

    method SetStopsign(s: StopSignEntry)
      modifies this
      ensures Abstract() == LogStore.SetStopsign(old(Abstract()), s)
      ensures GetStopsign() == Some(s)
    {
      stopsign := Some(s);
    }

    function GetStopsign(): (s: Option<StopSignEntry>)
      reads this
      ensures s == LogStore.GetStopsign(Abstract())
    {
      stopsign
    }

    /** `log.drain(0..idx)` panics when `idx` exceeds the length; callers keep within it. */
    method Trim(idx: nat)
      requires idx <= |log|
      modifies this
      ensures Abstract() == LogStore.Trim(old(Abstract()), idx)
      ensures TrimContract(old(log), idx, log) && trimmedIdx == old(trimmedIdx)
    {
      log := log[idx..];
    }

    method SetCompactedIdx(idx: nat)
      modifies this
      ensures Abstract() == LogStore.SetCompactedIdx(old(Abstract()), idx)
      ensures GetCompactedIdx() == idx
    {
      trimmedIdx := idx;
    }

    function GetCompactedIdx(): (idx: nat)
      reads this
      ensures idx == LogStore.GetCompactedIdx(Abstract())
    {
      trimmedIdx
    }

    method SetSnapshot(s: S)
      modifies this
      ensures Abstract() == LogStore.SetSnapshot(old(Abstract()), s)
      ensures GetSnapshot() == Some(s)
    {
      snapshot := Some(s);
    }

    function GetSnapshot(): (s: Option<S>)
      reads this
      ensures s == LogStore.GetSnapshot(Abstract())
    {
      snapshot
    }
  }
}
