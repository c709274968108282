/** The VPN control server: its peer table, its scheduled tasks, and the keys it installs. */
module VpnServer {
  import opened Options
  import opened Aead

  type KeyId = string
  type PublicKey = string
  type Sae = string
  type Address = nat
  type TaskId = nat

  datatype Record = Record(
    clientIp: Address,
    qkdId: Sae,
    presharedKeyId: Option<KeyId>,
    nextRefreshAt: Option<int>,
    refreshDue: bool)

  /** What a scheduled task does when it fires; an activation remembers which refresh scheduled it. */
  datatype Work = Due(peer: PublicKey) | Activate(peer: PublicKey, keyId: KeyId, key: Bytes, refresh: nat)

  /** One peer entry of the WireGuard interface. */
  datatype Installed = Installed(psk: Bytes, allowedIp: Address)

  /** A key that an activation has installed, and the number of the refresh it came from. */
  datatype Installation = Installation(refresh: nat, keyId: KeyId, key: Bytes)

  datatype Settings = Settings(hosts: seq<Address>, serverAddress: Address, refreshS: int, activationDelayS: int)

  /**
   * `tasks` holds the tasks that have neither fired nor been cancelled; `timers` and `activations` keep the
   * last task of each peer, fired or not. Two histories are kept for the statements about runs: `scheduled` lists
   * the keys of the refreshes, and `activated` what activations have installed.
   */
  datatype Server = Server(
    peers: map<PublicKey, Record>,
    saved: map<PublicKey, Record>,
    wg: map<PublicKey, Installed>,
    tasks: map<TaskId, Work>,
    timers: map<PublicKey, TaskId>,
    activations: map<PublicKey, TaskId>,
    nextTask: TaskId,
    scheduled: map<PublicKey, seq<(KeyId, Bytes)>>,
    activated: map<PublicKey, seq<Installation>>)

  datatype Reply =
    | Connected(keyId: KeyId, clientIp: Address)
    | Scheduled(keyId: KeyId, effectiveTime: int)
    | NoKey
    | Exhausted
    | NotConfigured
    | UnknownPeer

  // --- specification ----------------------------------------------------------

  function Taken(s: Server, c: Settings): set<Address> {
    (set k | k in s.peers :: s.peers[k].clientIp) + {c.serverAddress}
  }

  /** `h` is a host that is not taken, and all hosts before it are. */
  ghost predicate FirstFree(hosts: seq<Address>, taken: set<Address>, h: Address) {
    h !in taken && exists i: nat :: i < |hosts| && hosts[i] == h && forall j: nat | j < i :: hosts[j] in taken
  }

  function FreeHost(hosts: seq<Address>, taken: set<Address>): (r: Option<Address>)
    ensures r.Some? ==> r.value in hosts && FirstFree(hosts, taken, r.value)
    ensures r.None? <==> forall h | h in hosts :: h in taken
  {
    if hosts == [] then None
    else if hosts[0] !in taken then assert FirstFree(hosts, taken, hosts[0]); Some(hosts[0])
    else
      var r := FreeHost(hosts[1..], taken);
      assert r.Some? ==> FirstFree(hosts, taken, r.value) by {
        if r.Some? { LaterFree(hosts, taken, r.value); }
      }
      r
  }

  lemma LaterFree(hosts: seq<Address>, taken: set<Address>, h: Address)
    requires hosts != [] && hosts[0] in taken && FirstFree(hosts[1..], taken, h)
    ensures FirstFree(hosts, taken, h)
  {
    var i: nat :| i < |hosts[1..]| && hosts[1..][i] == h && forall j: nat | j < i :: hosts[1..][j] in taken;
    assert hosts[i + 1] == h;
    forall j: nat | j < i + 1 ensures hosts[j] in taken {
      if j > 0 { assert hosts[j] == hosts[1..][j - 1]; }
    }
  }

  /** Cancels the peer's last task in `last`, if it is still live, and starts a new one. */
  function Without(tasks: map<TaskId, Work>, last: map<PublicKey, TaskId>, k: PublicKey): map<TaskId, Work> {
    if k in last then tasks - {last[k]} else tasks
  }

  function Armed(s: Server, k: PublicKey): Server {
    s.(tasks := Without(s.tasks, s.timers, k)[s.nextTask := Due(k)],
       timers := s.timers[k := s.nextTask],
       nextTask := s.nextTask + 1)
  }

  /** The server once WireGuard has accepted `key` for the peer `k` with the record `r`. */
  function Applied(s: Server, c: Settings, k: PublicKey, r: Record, keyId: KeyId, key: Bytes, now: int): Server {
    var record := r.(presharedKeyId := Some(keyId), refreshDue := false, nextRefreshAt := Some(now + c.refreshS));
    var peers := s.peers[k := record];
    Armed(s.(peers := peers, saved := peers, wg := s.wg[k := Installed(key, r.clientIp)]), k)
  }

  /** `ekm` is the key the EKM hands over, None when it hands over none; `wgWorks` says whether WireGuard takes the peer. */
  function Start(s: Server, c: Settings, k: PublicKey, qkdId: Sae, ekm: Option<(KeyId, Bytes)>, wgWorks: bool, now: int): (Server, Reply) {
    if ekm.None? then (s, NoKey)
    else
      var ip := if k in s.peers then Some(s.peers[k].clientIp) else FreeHost(c.hosts, Taken(s, c));
      if ip.None? then (s, Exhausted)
      else if !wgWorks then (s, NotConfigured)
      else
        var r := if k in s.peers then s.peers[k] else Record(ip.value, qkdId, None, None, false);
        (Applied(s, c, k, r, ekm.value.0, ekm.value.1, now), Connected(ekm.value.0, ip.value))
  }

  function ScheduledOf(s: Server, k: PublicKey): seq<(KeyId, Bytes)> {
    if k in s.scheduled then s.scheduled[k] else []
  }

  function Refresh(s: Server, c: Settings, k: PublicKey, ekm: Option<(KeyId, Bytes)>, now: int): (Server, Reply) {
    if k !in s.peers then (s, UnknownPeer)
    else if ekm.None? then (s, NoKey)
    else
      var log := ScheduledOf(s, k);
      (s.(tasks := Without(s.tasks, s.activations, k)[s.nextTask := Activate(k, ekm.value.0, ekm.value.1, |log|)],
          activations := s.activations[k := s.nextTask],
          nextTask := s.nextTask + 1,
          scheduled := s.scheduled[k := log + [ekm.value]]),
       Scheduled(ekm.value.0, now + c.activationDelayS))
  }

  function ActivatedOf(s: Server, k: PublicKey): seq<Installation> {
    if k in s.activated then s.activated[k] else []
  }

  /** The server once the live task `id` has run to its end. */
  function Fired(s: Server, c: Settings, id: TaskId, wgWorks: bool, now: int): Server
    requires id in s.tasks && s.tasks[id].peer in s.peers
  {
    var k := s.tasks[id].peer;
    var s' := s.(tasks := s.tasks - {id});
    match s.tasks[id]
    case Due(_) =>
      var peers := s.peers[k := s.peers[k].(refreshDue := true)];
      s'.(peers := peers, saved := peers)
    case Activate(_, keyId, key, n) =>
      if !wgWorks then s'
      else Applied(s', c, k, s.peers[k], keyId, key, now).(activated := s.activated[k := ActivatedOf(s, k) + [Installation(n, keyId, key)]])
  }

  /** A new process: the peers come back from the file, WireGuard keeps its entries, all tasks are gone. */
  function Restarted(s: Server): Server {
    s.(peers := s.saved, tasks := map[], timers := map[], activations := map[])
  }

  // --- the server itself --------------------------------------------------------

  class VpnApp {
    const hosts: seq<Address>
    const serverAddress: Address
    const refreshS: int
    const activationDelayS: int
    var peers: map<PublicKey, Record>
    var saved: map<PublicKey, Record>
    var wg: map<PublicKey, Installed>
    var tasks: map<TaskId, Work>
    var timers: map<PublicKey, TaskId>
    var activations: map<PublicKey, TaskId>
    var nextTask: TaskId
    var scheduled: map<PublicKey, seq<(KeyId, Bytes)>>
    var activated: map<PublicKey, seq<Installation>>

    ghost function Contents(): Server
      reads this
    {
      Server(peers, saved, wg, tasks, timers, activations, nextTask, scheduled, activated)
    }

    ghost function Config(): Settings {
      Settings(hosts, serverAddress, refreshS, activationDelayS)
    }

    /** A process that takes over from one that left `before` behind. */
    constructor (c: Settings, before: Server)
      ensures Config() == c && Contents() == Restarted(before)
    {
      hosts := c.hosts;
      serverAddress := c.serverAddress;
      refreshS := c.refreshS;
      activationDelayS := c.activationDelayS;
      peers := before.saved;
      saved := before.saved;
      wg := before.wg;
      tasks, timers, activations := map[], map[], map[];
      nextTask := before.nextTask;
      scheduled := before.scheduled;
      activated := before.activated;
    }

    method Save()
      modifies this`saved
      ensures saved == peers
    {
      saved := peers;
    }

    method Schedule(work: Work) returns (id: TaskId)
      modifies this`tasks, this`nextTask
      ensures id == old(nextTask) && nextTask == id + 1 && tasks == old(tasks)[id := work]
    {
      id := nextTask;
      tasks := tasks[id := work];
      nextTask := nextTask + 1;
    }

    method ArmRefreshTimer(k: PublicKey)
      modifies this
      ensures Contents() == Armed(old(Contents()), k)
    {
      if k in timers {
        tasks := tasks - {timers[k]};
      }
      var id := Schedule(Due(k));
      timers := timers[k := id];
    }

    method AllocateIp() returns (ip: Option<Address>)
      ensures ip == FreeHost(hosts, Taken(Contents(), Config()))
    {
      var taken := (set k | k in peers :: peers[k].clientIp) + {serverAddress};
      for i := 0 to |hosts|
        invariant FreeHost(hosts, taken) == FreeHost(hosts[i..], taken)
      {
        if hosts[i] !in taken {
          return Some(hosts[i]);
        }
      }
      ip := None;
    }

    /** None when the address pool is exhausted; otherwise whether this call invented the record. */
    method RecordFor(k: PublicKey, qkdId: Sae) returns (invented: Option<bool>)
      modifies this`peers
      ensures k in old(peers) ==> invented == Some(false) && peers == old(peers)
      ensures k !in old(peers) ==>
          var ip := FreeHost(hosts, Taken(old(Contents()), Config()));
          && invented == (if ip.None? then None else Some(true))
          && peers == if ip.None? then old(peers) else old(peers)[k := Record(ip.value, qkdId, None, None, false)]
    {
      if k in peers {
        return Some(false);
      }
      var ip := AllocateIp();
      if ip.None? {
        return None;
      }
      peers := peers[k := Record(ip.value, qkdId, None, None, false)];
      return Some(true);
    }

    method ApplyKey(k: PublicKey, keyId: KeyId, key: Bytes, invented: bool, wgWorks: bool, now: int) returns (applied: bool)
      requires k in peers
      modifies this
      ensures applied == wgWorks
      ensures applied ==> Contents() == Applied(old(Contents()), Config(), k, old(peers)[k], keyId, key, now)
      ensures !applied ==> Contents() == old(Contents()).(peers := if invented then old(peers) - {k} else old(peers))
    {
      if !wgWorks {
        if invented {
          peers := peers - {k};
        }
        return false;
      }
      wg := wg[k := Installed(key, peers[k].clientIp)];
      var record := peers[k];
      record := record.(presharedKeyId := Some(keyId));
      record := record.(refreshDue := false);
      record := record.(nextRefreshAt := Some(now + refreshS));
      peers := peers[k := record];
      Save();
      hide Armed;
      ArmRefreshTimer(k);
      return true;
    }

    method StartConnection(k: PublicKey, qkdId: Sae, ekm: Option<(KeyId, Bytes)>, wgWorks: bool, now: int) returns (reply: Reply)
      modifies this
      ensures (Contents(), reply) == Start(old(Contents()), Config(), k, qkdId, ekm, wgWorks, now)
      ensures !reply.Connected? ==> Contents() == old(Contents())
    {
      if ekm.None? {
        return NoKey;
      }
      var invented := RecordFor(k, qkdId);
      if invented.None? {
        return Exhausted;
      }
      ghost var held := Contents();
      var applied := ApplyKey(k, ekm.value.0, ekm.value.1, invented.value, wgWorks, now);
      if !applied {
        assert invented.value ==> old(peers)[k := held.peers[k]] - {k} == old(peers);
        return NotConfigured;
      }
      assert held.peers[k := peers[k]] == old(peers)[k := peers[k]];
      reply := Connected(ekm.value.0, peers[k].clientIp);
    }

    method RefreshConnection(k: PublicKey, ekm: Option<(KeyId, Bytes)>, now: int) returns (reply: Reply)
      modifies this
      ensures (Contents(), reply) == Refresh(old(Contents()), Config(), k, ekm, now)
    {
      if k !in peers {
        return UnknownPeer;
      }
      if ekm.None? {
        return NoKey;
      }
      var log := if k in scheduled then scheduled[k] else [];
      scheduled := scheduled[k := log + [ekm.value]];
      if k in activations {
        tasks := tasks - {activations[k]};
      }
      var id := Schedule(Activate(k, ekm.value.0, ekm.value.1, |log|));
      activations := activations[k := id];
      reply := Scheduled(ekm.value.0, now + activationDelayS);
    }

    method Fire(id: TaskId, wgWorks: bool, now: int)
      requires id in tasks && tasks[id].peer in peers
      modifies this
      ensures Contents() == Fired(old(Contents()), Config(), id, wgWorks, now)
    {
      var work := tasks[id];
      tasks := tasks - {id};
      match work
      case Due(k) =>
        peers := peers[k := peers[k].(refreshDue := true)];
        Save();
      case Activate(k, keyId, key, n) =>
        var applied := ApplyKey(k, keyId, key, false, wgWorks, now);
        if applied {
          activated := activated[k := (if k in activated then activated[k] else []) + [Installation(n, keyId, key)]];
        }
    }
  }
}
