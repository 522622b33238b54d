# OmniPaxos storage layer in Dafny

This project models the storage layer that OmniPaxos' Sequence Paxos persists to:

- the storage contract of `omnipaxos_core/src/storage.rs`: the `StopSign` that ends a
  configuration (with its equality that ignores metadata), `StopSignEntry`, the snapshot
  type, the unit snapshot that switches snapshots off, `CachedState` (the in-memory copy
  of the promised round, accepted round, decided index and compacted index), and what
  the `Storage` trait promises about `get_entries`, `get_suffix`, `trim` and
  `append_on_prefix`;
- the in-memory `MemoryStorage` backend, which exists twice in the crate:
  `omnipaxos_storage/src/memory_storage.rs` (writes return `Result`, always `Ok`) and the
  `memory_storage` module of `omnipaxos_storage/src/memory.rs` (nothing can fail). Both keep a
  vector log, changed in place by push, append, truncate and drain, next to six
  registers. Their shared behaviour is written once, in module `LogStore`, as functions
  from the old store to the new one. Each copy is a class (`FallibleMemory.MemoryStorage`,
  `InfallibleMemory.MemoryStorage`) whose log is a `seq` field the methods reassign,
  and every method, getter and constructor is proved to follow the corresponding
  `LogStore` function;
- `NodeConfig` of `src/omnipaxos.rs`: its default, its setters and `validate`.

Files: `wrappers.dfy` (Option, Result), `ballots.dfy` (the ballot as an opaque value),
`storage.dfy` (module `Storage`), `log_store.dfy` (module `LogStore`), `memory_storage.dfy`
(module `FallibleMemory`), `memory.dfy` (module `InfallibleMemory`), `node_config.dfy`
(module `OmniPaxos`).

Log positions are physical positions in the vector, as in the code: `trim` does not
update the compacted index, and `get_entries`/`get_suffix` do not offset by it
(`LogStore.TrimShiftsPositions` states the consequence). The snapshot is stored
and returned on its own; no read combines it with the log.

## Model

| member | source | states |
|---|---|---|
| Storage.StopSignWith | omnipaxos_core/src/storage.rs:36-42 | the StopSign holds exactly the given config id, nodes and metadata |
| Storage.StopSignEntryWith | omnipaxos_core/src/storage.rs:18-20 | the entry holds exactly the given StopSign and decided flag |
| Storage.StopSign.Eq | omnipaxos_core/src/storage.rs:45-49 | Rust `==` on StopSign: same config id and same nodes, metadata not compared |
| Storage.StopSignEqIgnoresMetadata | omnipaxos_core/src/storage.rs:45-49 | two StopSigns are equal iff they are identical once metadata is erased; any change of metadata keeps a StopSign equal to itself |
| Storage.StopSignEqIsEquivalence | omnipaxos_core/src/storage.rs:45-49 | StopSign equality is reflexive, symmetric and transitive |
| Storage.StopSignEqIsNotIdentity | omnipaxos_core/src/storage.rs:45-49 | two StopSigns that differ only in metadata are equal though not identical |
| Storage.UnitSnapshotUseSnapshots | omnipaxos_core/src/storage.rs:224-226 | the unit snapshot type reports that snapshots are not used |
| Storage.CachedState.constructor | omnipaxos_core/src/storage.rs:130-139 | the default cached state has default ballots and zero decided and compacted indices |
| Storage.CachedState.GetPromise | omnipaxos_core/src/storage.rs:117-119 | `get_promise`: the cached promised round |
| Storage.CachedState.GetAcceptedRound | omnipaxos_core/src/storage.rs:113-115 | `get_accepted_round`: the cached accepted round |
| Storage.CachedState.GetDecidedIdx | omnipaxos_core/src/storage.rs:105-107 | `get_decided_idx`: the cached decided index |
| Storage.CachedState.GetCompactedIdx | omnipaxos_core/src/storage.rs:125-127 | `get_compacted_idx`: the cached compacted index |
| Storage.CachedState.SetPromise | omnipaxos_core/src/storage.rs:97-99 | `get_promise` then returns the ballot set; the other three registers are unchanged |
| Storage.CachedState.SetDecidedIdx | omnipaxos_core/src/storage.rs:101-107 | `get_decided_idx` then returns the index set; the other three registers are unchanged |
| Storage.CachedState.SetAcceptedRound | omnipaxos_core/src/storage.rs:109-115 | `get_accepted_round` then returns the ballot set; the other three registers are unchanged |
| Storage.CachedState.SetCompactedIdx | omnipaxos_core/src/storage.rs:121-127 | `get_compacted_idx` then returns the index set; the other three registers are unchanged |
| Storage.EntriesContract | omnipaxos_core/src/storage.rs:171-173 | the trait's promise for `get_entries(from, to)`: element k is log entry from + k for the whole interval [from, to) when the log holds it, otherwise no entries |
| Storage.SuffixContract | omnipaxos_core/src/storage.rs:178-179 | the trait's promise for `get_suffix(from)`: when `from` is within the log, every entry from `from` to the end, in order |
| Storage.TrimContract | omnipaxos_core/src/storage.rs:190-191 | the trait's promise for `trim(idx)`: the first `idx` entries are gone and the rest are kept in order |
| Storage.AppendOnPrefixContract | omnipaxos_core/src/storage.rs:153-154 | the trait's promise for `append_on_prefix(from, entries)`: the log up to `from` (all of a shorter log) is kept and `entries` follow it |
| LogStore.Default | omnipaxos_storage/src/memory_storage.rs:127-139 | the default store: empty log, default ballots, zero indices, no snapshot, no StopSign |
| LogStore.AppendEntry | omnipaxos_storage/src/memory_storage.rs:33-36 | `append_entry`: `Vec::push` of the entry onto the log |
| LogStore.AppendEntries | omnipaxos_storage/src/memory_storage.rs:38-42 | `append_entries`: `Vec::append` of the batch onto the log |
| LogStore.PushAll | omnipaxos_storage/src/memory_storage.rs:33-36 | a sequence of `append_entry` calls, one per entry of a batch, in order |
| LogStore.Truncate | omnipaxos_storage/src/memory_storage.rs:45 | `Vec::truncate(len)`: the first `len` entries, or the whole log when it is not longer |
| LogStore.AppendOnPrefix | omnipaxos_storage/src/memory_storage.rs:44-47 | `append_on_prefix`: truncate at `from_idx`, then `append_entries` |
| LogStore.Trim | omnipaxos_storage/src/memory_storage.rs:103-106 | `trim(idx)`: `drain(0..idx)`, defined only for `idx` within the log (drain panics beyond it) |
| LogStore.LogLen | omnipaxos_storage/src/memory_storage.rs:79-81 | `get_log_len`: the number of entries in the log |
| LogStore.SetPromise | omnipaxos_storage/src/memory_storage.rs:49-52 | `set_promise`: overwrites the promised round |
| LogStore.GetPromise | omnipaxos_storage/src/memory_storage.rs:90-92 | `get_promise`: the promised round |
| LogStore.SetAcceptedRound | omnipaxos_storage/src/memory_storage.rs:63-66 | `set_accepted_round`: overwrites the accepted round |
| LogStore.GetAcceptedRound | omnipaxos_storage/src/memory_storage.rs:68-70 | `get_accepted_round`: the accepted round |
| LogStore.SetDecidedIdx | omnipaxos_storage/src/memory_storage.rs:54-57 | `set_decided_idx`: overwrites the decided index |
| LogStore.GetDecidedIdx | omnipaxos_storage/src/memory_storage.rs:59-61 | `get_decided_idx`: the decided index |
| LogStore.SetCompactedIdx | omnipaxos_storage/src/memory_storage.rs:108-111 | `set_compacted_idx`: overwrites the compacted index |
| LogStore.GetCompactedIdx | omnipaxos_storage/src/memory_storage.rs:113-115 | `get_compacted_idx`: the compacted index |
| LogStore.SetSnapshot | omnipaxos_storage/src/memory_storage.rs:117-120 | `set_snapshot(s)`: stores `Some(s)` |
| LogStore.GetSnapshot | omnipaxos_storage/src/memory_storage.rs:122-124 | `get_snapshot`: the stored snapshot, if any |
| LogStore.SetStopsign | omnipaxos_storage/src/memory_storage.rs:94-97 | `set_stopsign(s)`: stores `Some(s)` |
| LogStore.GetStopsign | omnipaxos_storage/src/memory_storage.rs:99-101 | `get_stopsign`: the stored StopSign entry, if any |
| LogStore.Entries | omnipaxos_storage/src/memory_storage.rs:72-77 | `get_entries(from, to)` meets the trait's promise (storage.rs:171-173): element k is log entry from + k for the whole interval [from, to) when the log holds it, and no entries otherwise |
| LogStore.Suffix | omnipaxos_storage/src/memory_storage.rs:83-88 | `get_suffix(from)` is every entry from position `from` to the end, in order, as the trait promises (storage.rs:178-179); nothing when `from` is beyond the end |
| LogStore.SuffixIsEntriesToEnd | omnipaxos_storage/src/memory_storage.rs:83-88 | `get_suffix(from)` equals `get_entries(from, get_log_len())` |
| LogStore.DefaultIsEmpty | omnipaxos_storage/src/memory_storage.rs:127-139 | the default store has no entries (every interval reads empty), default ballots, zero indices, no snapshot and no StopSign |
| LogStore.AppendEntryReadBack | omnipaxos_storage/src/memory_storage.rs:33-36 | after `append_entry(e)` the log is one longer, the old log is its prefix, the new last entry reads back as `e`, and no register changes |
| LogStore.AppendEntriesReadBack | omnipaxos_storage/src/memory_storage.rs:38-42 | after `append_entries(es)` the log is longer by `|es|`, the old log is its prefix, the suffix from the old length reads back as `es` in order, and no register changes |
| LogStore.AppendEntriesIsRepeatedAppendEntry | omnipaxos_storage/src/memory_storage.rs:33-42 | appending a batch leaves the same store as appending its entries one by one, in order |
| LogStore.AppendOnPrefixReadBack | omnipaxos_storage/src/memory_storage.rs:44-47 | `append_on_prefix(i, es)` keeps the first min(i, length) entries, places `es` right after them (the trait's promise, storage.rs:153-154), so the new log length is min(i, length) + `|es|`, and no register changes |
| LogStore.AppendOnPrefixAtEndAppends | omnipaxos_storage/src/memory_storage.rs:44-47 | from the end of the log or beyond, `append_on_prefix` is `append_entries` (truncate has no effect) |
| LogStore.TrimReadBack | omnipaxos_storage/src/memory_storage.rs:103-106 | `trim(k)` on a log of at least k entries removes exactly the first k and keeps the rest in order (storage.rs:190-191); the compacted index and all registers are unchanged |
| LogStore.TrimShiftsPositions | omnipaxos_storage/src/memory_storage.rs:103-106 | after `trim(k)`, `get_entries(from, to)` returns what `get_entries(from + k, to + k)` returned before: positions are physical |
| LogStore.TrimTwice | omnipaxos_storage/src/memory_storage.rs:103-106 | trimming a then b entries equals trimming a + b |
| LogStore.PromiseRoundTrip | omnipaxos_storage/src/memory_storage.rs:49-52 | `get_promise` after `set_promise(n)` returns n; no other field changes |
| LogStore.AcceptedRoundRoundTrip | omnipaxos_storage/src/memory_storage.rs:63-70 | `get_accepted_round` after `set_accepted_round(na)` returns na; no other field changes |
| LogStore.DecidedIdxRoundTrip | omnipaxos_storage/src/memory_storage.rs:54-61 | `get_decided_idx` after `set_decided_idx(ld)` returns ld; no other field changes |
| LogStore.CompactedIdxRoundTrip | omnipaxos_storage/src/memory_storage.rs:108-115 | `get_compacted_idx` after `set_compacted_idx(i)` returns i; no other field changes |
| LogStore.SnapshotRoundTrip | omnipaxos_storage/src/memory_storage.rs:117-124 | `get_snapshot` after `set_snapshot(s)` returns `Some(s)`; no other field changes |
| LogStore.StopsignRoundTrip | omnipaxos_storage/src/memory_storage.rs:94-101 | `get_stopsign` after `set_stopsign(s)` returns `Some(s)`; no other field changes |
| FallibleMemory.MemoryStorage.constructor | omnipaxos_storage/src/memory_storage.rs:127-139 | the default store: empty log, default ballots, zero indices, no snapshot, no StopSign |
| FallibleMemory.MemoryStorage.AppendEntry | omnipaxos_storage/src/memory_storage.rs:33-36 | the log becomes old log + [entry], nothing else changes, and the result is `Ok` of the new length, old length + 1 |
| FallibleMemory.MemoryStorage.AppendEntries | omnipaxos_storage/src/memory_storage.rs:38-42 | the log becomes old log + entries, nothing else changes, and the result is `Ok` of old length + number of entries |
| FallibleMemory.MemoryStorage.AppendOnPrefix | omnipaxos_storage/src/memory_storage.rs:44-47 | the log becomes its first min(from, length) entries followed by the batch, meeting the trait's promise; the result is `Ok` of the new length |
| FallibleMemory.MemoryStorage.SetPromise | omnipaxos_storage/src/memory_storage.rs:49-52 | returns `Ok(())`; only the promised round changes, and `get_promise` returns it |
| FallibleMemory.MemoryStorage.SetDecidedIdx | omnipaxos_storage/src/memory_storage.rs:54-57 | returns `Ok(())`; only the decided index changes, and `get_decided_idx` returns it |
| FallibleMemory.MemoryStorage.GetDecidedIdx | omnipaxos_storage/src/memory_storage.rs:59-61 | always succeeds and returns the stored decided index |
| FallibleMemory.MemoryStorage.SetAcceptedRound | omnipaxos_storage/src/memory_storage.rs:63-66 | returns `Ok(())`; only the accepted round changes, and `get_accepted_round` returns it |
| FallibleMemory.MemoryStorage.GetAcceptedRound | omnipaxos_storage/src/memory_storage.rs:68-70 | always succeeds and returns the stored accepted round |
| FallibleMemory.MemoryStorage.GetEntries | omnipaxos_storage/src/memory_storage.rs:72-77 | returns the shared `get_entries` result, which meets the trait's interval promise; reads only |
| FallibleMemory.MemoryStorage.GetLogLen | omnipaxos_storage/src/memory_storage.rs:79-81 | returns the length of the log |
| FallibleMemory.MemoryStorage.GetSuffix | omnipaxos_storage/src/memory_storage.rs:83-88 | returns the shared `get_suffix` result, the entries from `from` to the end or nothing; reads only |
| FallibleMemory.MemoryStorage.GetPromise | omnipaxos_storage/src/memory_storage.rs:90-92 | always succeeds and returns the stored promised round |
| FallibleMemory.MemoryStorage.SetStopsign | omnipaxos_storage/src/memory_storage.rs:94-97 | returns `Ok(())`; only the StopSign changes, and `get_stopsign` returns `Some` of it |
| FallibleMemory.MemoryStorage.GetStopsign | omnipaxos_storage/src/memory_storage.rs:99-101 | always succeeds and returns the stored StopSign entry, if any |
| FallibleMemory.MemoryStorage.Trim | omnipaxos_storage/src/memory_storage.rs:103-106 | callable only with k at most the log length (drain panics beyond it); the log becomes exactly the old log from position k on, the compacted index is not changed, and the result is `Ok(())` |
| FallibleMemory.MemoryStorage.SetCompactedIdx | omnipaxos_storage/src/memory_storage.rs:108-111 | returns `Ok(())`; only the compacted index changes, and `get_compacted_idx` returns it |
| FallibleMemory.MemoryStorage.GetCompactedIdx | omnipaxos_storage/src/memory_storage.rs:113-115 | always succeeds and returns the stored compacted index |
| FallibleMemory.MemoryStorage.SetSnapshot | omnipaxos_storage/src/memory_storage.rs:117-120 | returns `Ok(())`; only the snapshot changes, and `get_snapshot` returns `Some` of it |
| FallibleMemory.MemoryStorage.GetSnapshot | omnipaxos_storage/src/memory_storage.rs:122-124 | always succeeds and returns the stored snapshot, if any |
| InfallibleMemory.MemoryStorage.constructor | omnipaxos_storage/src/memory.rs:341-353 | the default store: empty log, default ballots, zero indices, no snapshot, no StopSign |
| InfallibleMemory.MemoryStorage.AppendEntry | omnipaxos_storage/src/memory.rs:257-260 | the log becomes old log + [entry], nothing else changes, and the new length, old length + 1, is returned |
| InfallibleMemory.MemoryStorage.AppendEntries | omnipaxos_storage/src/memory.rs:262-266 | the log becomes old log + entries, nothing else changes, and old length + number of entries is returned |
| InfallibleMemory.MemoryStorage.AppendOnPrefix | omnipaxos_storage/src/memory.rs:268-271 | the log becomes its first min(from, length) entries followed by the batch, meeting the trait's promise; the new length is returned |
| InfallibleMemory.MemoryStorage.SetPromise | omnipaxos_storage/src/memory.rs:273-275 | only the promised round changes, and `get_promise` returns it |
| InfallibleMemory.MemoryStorage.SetDecidedIdx | omnipaxos_storage/src/memory.rs:277-279 | only the decided index changes, and `get_decided_idx` returns it |
| InfallibleMemory.MemoryStorage.GetDecidedIdx | omnipaxos_storage/src/memory.rs:281-283 | returns the stored decided index |
| InfallibleMemory.MemoryStorage.SetAcceptedRound | omnipaxos_storage/src/memory.rs:285-287 | only the accepted round changes, and `get_accepted_round` returns it |
| InfallibleMemory.MemoryStorage.GetAcceptedRound | omnipaxos_storage/src/memory.rs:289-291 | returns the stored accepted round |
| InfallibleMemory.MemoryStorage.GetEntries | omnipaxos_storage/src/memory.rs:293-295 | returns the shared `get_entries` result, which meets the trait's interval promise; reads only |
| InfallibleMemory.MemoryStorage.GetLogLen | omnipaxos_storage/src/memory.rs:297-299 | returns the length of the log |
| InfallibleMemory.MemoryStorage.GetSuffix | omnipaxos_storage/src/memory.rs:301-306 | returns the shared `get_suffix` result, the entries from `from` to the end or nothing; reads only |
| InfallibleMemory.MemoryStorage.GetPromise | omnipaxos_storage/src/memory.rs:308-310 | returns the stored promised round |
| InfallibleMemory.MemoryStorage.SetStopsign | omnipaxos_storage/src/memory.rs:312-314 | only the StopSign changes, and `get_stopsign` returns `Some` of it |
| InfallibleMemory.MemoryStorage.GetStopsign | omnipaxos_storage/src/memory.rs:316-318 | returns the stored StopSign entry, if any |
| InfallibleMemory.MemoryStorage.Trim | omnipaxos_storage/src/memory.rs:320-322 | callable only with k at most the log length (drain panics beyond it); the log becomes exactly the old log from position k on, in order, and the compacted index is not changed |
| InfallibleMemory.MemoryStorage.SetCompactedIdx | omnipaxos_storage/src/memory.rs:324-326 | only the compacted index changes, and `get_compacted_idx` returns it |
| InfallibleMemory.MemoryStorage.GetCompactedIdx | omnipaxos_storage/src/memory.rs:328-330 | returns the stored compacted index |
| InfallibleMemory.MemoryStorage.SetSnapshot | omnipaxos_storage/src/memory.rs:332-334 | only the snapshot changes, and `get_snapshot` returns `Some` of it |
| InfallibleMemory.MemoryStorage.GetSnapshot | omnipaxos_storage/src/memory.rs:336-338 | returns the stored snapshot, if any |
| OmniPaxos.NodeConfig.constructor | src/omnipaxos.rs:225-238 | the default configuration has pid 0, no peers, the default buffer size and heartbeat timeout and no optional settings, so it fails validation with `InvalidPid(0)` |
| OmniPaxos.NodeConfig.Validate | src/omnipaxos.rs:240-249 | `InvalidPid(pid)` when pid is 0, whatever the peers; otherwise `InvalidPeers(pid, peers)` when the peers are empty or contain pid; `Ok` exactly when pid is non-zero, the peers are non-empty and do not contain pid |
| OmniPaxos.NodeConfig.SetPid | src/omnipaxos.rs:192-194 | only the pid changes, to the given value |
| OmniPaxos.NodeConfig.SetPeers | src/omnipaxos.rs:196-198 | only the peers change, to the given sequence |
| OmniPaxos.NodeConfig.SetLeaderTimeout | src/omnipaxos.rs:200-202 | only the leader timeout changes, to the given value |
| OmniPaxos.NodeConfig.SetBufferSize | src/omnipaxos.rs:204-206 | only the buffer size changes, to the given value |
| OmniPaxos.NodeConfig.SetInitialLeader | src/omnipaxos.rs:208-210 | only the initial leader changes, to `Some` of the given ballot |
| OmniPaxos.NodeConfig.SetInitialLeaderTimeout | src/omnipaxos.rs:212-214 | only the initial leader timeout changes, to `Some` of the given value |
| OmniPaxos.NodeConfig.SetPriority | src/omnipaxos.rs:216-218 | only the priority changes, to `Some` of the given value |
| OmniPaxos.NodeConfig.SetLoggerPath | src/omnipaxos.rs:220-222 | only the logger path changes, to `Some` of the given string |

## Left out

- The `persistent_storage` module of `omnipaxos_storage/src/memory.rs` (lines 6-222): CommitLog and RocksDB I/O, file deletion, byte serialisation and console output.
- `OmniPaxosNode` in `src/omnipaxos.rs` (`new`, `create_sequence_paxos`, `create_ble`, `append`, `get_decided_idx`, `get_current_leader`, `stop`): tokio runtime and channel wiring. The only storage-relevant fact, that `new` panics unless `validate` succeeds, is what `OmniPaxos.NodeConfig.Validate` states the condition of.
- The Sequence Paxos and ballot leader election engines: they are not part of this model, so none of their protocol properties (agreement, promise monotonicity, decided-index monotonicity) are stated here.
- The ballot's own definition (`ballot_leader_election::Ballot`) is not part of this model; a ballot is an opaque value with equality and a default, since nothing modelled compares ballots.
- `Snapshot::create` and `Snapshot::merge`: implemented by the user of the library; the snapshot is a type parameter. The `_Phantom` variant of `SnapshotType` only carries a type marker and is left out. The unit snapshot's `create` and `merge` are `unimplemented!()`.
- `BUFFER_SIZE` and `HB_TIMEOUT` are defined in `util::defaults`, which is not part of this model; the `NodeConfig` constructor takes them as arguments.
- Integer widths: `u32`, `u64` and `usize` values (ids, indices, lengths, buffer size) are unbounded naturals. No operation here does arithmetic that could wrap, and the `as usize` / `as u64` casts are lossless on 64-bit targets. `Duration` values are whole milliseconds.
- Trait signatures: the `Storage` trait declares its getters as returning `Result` (omnipaxos_core/src/storage.rs:163, 169, 173, 176, 179, 182, 188, 197, 203), and every method as returning `Result`. `memory_storage.rs` returns plain values from those getters, and `memory.rs` returns plain values from every method, so neither impl matches the trait's signatures as written. The model follows the bodies: getters always succeed and return their value directly.
- `StorageErr`: modelled as a datatype, but no modelled operation produces it; the in-memory writes always return `Ok`.
- `Clone`, `Debug` and the `Entry` trait bound: the log is a sequence of values, so cloning on read is the identity.
- `omnipaxos_core/tests/recovery_test.rs`: an ignored integration test over an actor runtime with crashes and timeouts.
