/**
 * `NodeConfig` of src/omnipaxos.rs: the settings a node is started with, the
 * setters that overwrite them one at a time, and `validate`, which a node
 * insists on before it starts.
 */
module OmniPaxos {
  import opened Wrappers
  import opened Ballots

  /** Why `validate` rejects a configuration. */
  datatype NodeConfigErr = InvalidPid(pid: nat) | InvalidPeers(pid: nat, peers: seq<nat>)

  /** The value of every field of a `NodeConfig`, so that a setter can say which one it changes. */
  datatype Settings = Settings(
    pid: nat,
    peers: seq<nat>,
    leaderTimeout: nat,
    bufferSize: nat,
    initialLeader: Option<Ballot>,
    initialLeaderTimeout: Option<nat>,
    priority: Option<nat>,
    loggerPath: Option<string>)

  /** Durations are whole milliseconds. */
  class NodeConfig {
    var pid: nat
    var peers: seq<nat>
    var leaderTimeout: nat
    var bufferSize: nat
    var initialLeader: Option<Ballot>
    var initialLeaderTimeout: Option<nat>
    var priority: Option<nat>
    var loggerPath: Option<string>

    ghost function Record(): Settings
      reads this
    {
      Settings(pid, peers, leaderTimeout, bufferSize, initialLeader, initialLeaderTimeout, priority, loggerPath)
    }

    /**
     * `NodeConfig::default()`. The crate-wide defaults `BUFFER_SIZE` and
     * `HB_TIMEOUT` are given as arguments. The default configuration has
     * process id 0 and no peers, so it does not validate.
     */
    constructor (defaultBufferSize: nat, defaultHbTimeout: nat)
      ensures Record() == Settings(0, [], defaultHbTimeout, defaultBufferSize, None, None, None, None)
      ensures Validate() == Err(InvalidPid(0))
    {
      pid := 0;
      peers := [];
      bufferSize := defaultBufferSize;
      initialLeader := None;
      leaderTimeout := defaultHbTimeout;
      initialLeaderTimeout := None;
      priority := None;
      loggerPath := None;
    }

    /**
     * `validate`: the process id must not be 0, and the peers must be
     * non-empty and must not include the node itself. The process id is
     * checked first.
     */
    function Validate(): (r: Result<(), NodeConfigErr>)
      reads this
      ensures pid == 0 ==> r == Err(InvalidPid(pid))
      ensures pid != 0 && (|peers| == 0 || pid in peers) ==> r == Err(InvalidPeers(pid, peers))
      ensures r == Ok(()) <==> pid != 0 && |peers| > 0 && pid !in peers
    {
      if pid == 0 then
        Err(InvalidPid(pid))
      else if |peers| == 0 || pid in peers then
        Err(InvalidPeers(pid, peers))
      else
        Ok(())
    }

    method SetPid(pid': nat)
      modifies this
      ensures Record() == old(Record()).(pid := pid')
    {
      pid := pid';
    }

    method SetPeers(peers': seq<nat>)
      modifies this
      ensures Record() == old(Record()).(peers := peers')
    {
      peers := peers';
    }

    method SetLeaderTimeout(timeout: nat)
      modifies this
      ensures Record() == old(Record()).(leaderTimeout := timeout)
    {
      leaderTimeout := timeout;
    }

    method SetBufferSize(size: nat)
      modifies this
      ensures Record() == old(Record()).(bufferSize := size)
    {
      bufferSize := size;
    }

    method SetInitialLeader(b: Ballot)
      modifies this
      ensures Record() == old(Record()).(initialLeader := Some(b))
    {
      initialLeader := Some(b);
    }

    method SetInitialLeaderTimeout(timeout: nat)
      modifies this
      ensures Record() == old(Record()).(initialLeaderTimeout := Some(timeout))
    {
      initialLeaderTimeout := Some(timeout);
    }

    method SetPriority(p: nat)
      modifies this
      ensures Record() == old(Record()).(priority := Some(p))
    {
      priority := Some(p);
    }

    method SetLoggerPath(s: string)
      modifies this
      ensures Record() == old(Record()).(loggerPath := Some(s))
    {
      loggerPath := Some(s);
    }
  }
}
