/**
 * `MemoryStorage` of omnipaxos_storage/src/memory_storage.rs: the in-memory
 * `Storage` backend whose writes return `Result`. Every write succeeds; the
 * getters return their value directly. Each method is proved to follow the
 * shared behaviour in module `LogStore`.
 */
module FallibleMemory {
  import opened Wrappers
  import opened Ballots
  import opened Storage
  import LogStore

  class MemoryStorage<T, S> {
    var log: seq<T>
    var nProm: Ballot
    var accRound: Ballot
    var ld: nat
    var trimmedIdx: nat
    var snapshot: Option<S>
    var stopsign: Option<StopSignEntry>

    /** The value of the fields. */
    ghost function Abstract(): LogStore.Store<T, S>
      reads this
    {
      LogStore.Store(log, nProm, accRound, ld, trimmedIdx, snapshot, stopsign)
    }

    /** `MemoryStorage::default()`: an empty log, zero indices, default ballots, no snapshot, no StopSign. */
    constructor ()
      ensures Abstract() == LogStore.Default()
      ensures log == [] && nProm == DefaultBallot && accRound == DefaultBallot
      ensures ld == 0 && trimmedIdx == 0 && snapshot == None && stopsign == None
    {
      log := [];
      nProm := DefaultBallot;
      accRound := DefaultBallot;
      ld := 0;
      trimmedIdx := 0;
      snapshot := None;
      stopsign := None;
    }

    method AppendEntry(entry: T) returns (r: Result<nat, StorageErr>)
      modifies this
      ensures Abstract() == LogStore.AppendEntry(old(Abstract()), entry)
      ensures log == old(log) + [entry]
      ensures r == Ok(GetLogLen()) && r == Ok(|old(log)| + 1)
    {
      log := log + [entry];
      r := Ok(GetLogLen());
    }

    method AppendEntries(entries: seq<T>) returns (r: Result<nat, StorageErr>)
      modifies this
      ensures Abstract() == LogStore.AppendEntries(old(Abstract()), entries)
      ensures log == old(log) + entries
      ensures r == Ok(GetLogLen()) && r == Ok(|old(log)| + |entries|)
    {
      log := log + entries;
      r := Ok(GetLogLen());
    }

    method AppendOnPrefix(fromIdx: nat, entries: seq<T>) returns (r: Result<nat, StorageErr>)
      modifies this
      ensures Abstract() == LogStore.AppendOnPrefix(old(Abstract()), fromIdx, entries)
      ensures AppendOnPrefixContract(old(log), fromIdx, entries, log)
      ensures r == Ok(GetLogLen())
    {
      if fromIdx < |log| {
        log := log[..fromIdx];
      }
      r := AppendEntries(entries);
      LogStore.AppendOnPrefixReadBack(old(Abstract()), fromIdx, entries);
    }

    method SetPromise(n: Ballot) returns (r: Result<(), StorageErr>)
      modifies this
      ensures Abstract() == LogStore.SetPromise(old(Abstract()), n)
      ensures r == Ok(()) && GetPromise() == n
    {
      nProm := n;
      r := Ok(());
    }

    method SetDecidedIdx(idx: nat) returns (r: Result<(), StorageErr>)
      modifies this
      ensures Abstract() == LogStore.SetDecidedIdx(old(Abstract()), idx)
      ensures r == Ok(()) && GetDecidedIdx() == idx
    {
      ld := idx;
      r := Ok(());
    }

    function GetDecidedIdx(): (ld': nat)
      reads this
      ensures ld' == LogStore.GetDecidedIdx(Abstract())
    {
      ld
    }

    method SetAcceptedRound(na: Ballot) returns (r: Result<(), StorageErr>)
      modifies this
      ensures Abstract() == LogStore.SetAcceptedRound(old(Abstract()), na)
      ensures r == Ok(()) && GetAcceptedRound() == na
    {
      accRound := na;
      r := Ok(());
    }

    function GetAcceptedRound(): (na: Ballot)
      reads this
      ensures na == LogStore.GetAcceptedRound(Abstract())
    {
      accRound
    }

    function GetEntries(from: nat, to: nat): (r: seq<T>)
      reads this
      ensures r == LogStore.Entries(Abstract(), from, to)
      ensures EntriesContract(log, from, to, r)
    {
      if from <= to <= |log| then log[from..to] else []
    }

    function GetLogLen(): (n: nat)
      reads this
      ensures n == LogStore.LogLen(Abstract())
    {
      |log|
    }

    function GetSuffix(from: nat): (r: seq<T>)
      reads this
      ensures r == LogStore.Suffix(Abstract(), from)
      ensures SuffixContract(log, from, r)
    {
      if from <= |log| then log[from..] else []
    }

    function GetPromise(): (n: Ballot)
      reads this
      ensures n == LogStore.GetPromise(Abstract())
    {
      nProm
    }

    method SetStopsign(s: StopSignEntry) returns (r: Result<(), StorageErr>)
      modifies this
      ensures Abstract() == LogStore.SetStopsign(old(Abstract()), s)
      ensures r == Ok(()) && GetStopsign() == Some(s)
    {
      stopsign := Some(s);
      r := Ok(());
    }

    function GetStopsign(): (s: Option<StopSignEntry>)
      reads this
      ensures s == LogStore.GetStopsign(Abstract())
    {
      stopsign
    }

    /** `log.drain(0..idx)` panics when `idx` exceeds the length; callers keep within it. */
    method Trim(idx: nat) returns (r: Result<(), StorageErr>)
      requires idx <= |log|
      modifies this
      ensures Abstract() == LogStore.Trim(old(Abstract()), idx)
      ensures TrimContract(old(log), idx, log) && trimmedIdx == old(trimmedIdx)
      ensures r == Ok(())
    {
      log := log[idx..];
      r := Ok(());
    }

    method SetCompactedIdx(idx: nat) returns (r: Result<(), StorageErr>)
      modifies this
      ensures Abstract() == LogStore.SetCompactedIdx(old(Abstract()), idx)
      ensures r == Ok(()) && GetCompactedIdx() == idx
    {
      trimmedIdx := idx;
      r := Ok(());
    }

    function GetCompactedIdx(): (idx: nat)
      reads this
      ensures idx == LogStore.GetCompactedIdx(Abstract())
    {
      trimmedIdx
    }

    method SetSnapshot(s: S) returns (r: Result<(), StorageErr>)
      modifies this
      ensures Abstract() == LogStore.SetSnapshot(old(Abstract()), s)
      ensures r == Ok(()) && GetSnapshot() == Some(s)
    {
      snapshot := Some(s);
      r := Ok(());
    }

    function GetSnapshot(): (s: Option<S>)
      reads this
      ensures s == LogStore.GetSnapshot(Abstract())
    {
      snapshot
    }
  }
}
