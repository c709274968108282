/** What clients are told and what the peer records say: addresses, installed keys, rotation clocks and live tasks. */
module VpnRecords {
  import opened Options
  import opened Aead
  import opened VpnServer
  import opened VpnRuns
  import opened History

  // --- answers -----------------------------------------------------------------------------

  /** What a start is answered with; only one that connects changes the server. */
  lemma StartAnswersExactly(s: Server, c: Settings, k: PublicKey, qkdId: Sae, ekm: Option<(KeyId, Bytes)>, wgWorks: bool, now: int)
    ensures var (t, reply) := Start(s, c, k, qkdId, ekm, wgWorks, now);
      && (reply == NoKey <==> ekm.None?)
      && (reply == NotConfigured <==> ekm.Some? && !wgWorks && (k in s.peers || exists h :: h in c.hosts && h !in Taken(s, c)))
      && (reply.Connected? <==> ekm.Some? && wgWorks && (k in s.peers || exists h :: h in c.hosts && h !in Taken(s, c)))
      && (reply.Connected? ==> reply.keyId == ekm.value.0)
      && (!reply.Connected? ==> t == s)
  {
    hide Applied, Taken;
  }

  /** What a refresh is answered with; only one that is scheduled changes the server, and no record. */
  lemma RefreshAnswersExactly(s: Server, c: Settings, k: PublicKey, ekm: Option<(KeyId, Bytes)>, now: int)
    ensures var (t, reply) := Refresh(s, c, k, ekm, now);
      && (reply == UnknownPeer <==> k !in s.peers)
      && (reply == NoKey <==> k in s.peers && ekm.None?)
      && (reply.Scheduled? <==> k in s.peers && ekm.Some?)
      && (reply.Scheduled? ==> reply == Scheduled(ekm.value.0, now + c.activationDelayS))
      && (!reply.Scheduled? ==> t == s)
      && t.peers == s.peers && t.saved == s.saved && t.wg == s.wg
  {
  }

  // --- addresses ----------------------------------------------------------------------------

  /** WireGuard has an entry for exactly the peers with a record, and lets each use its address only. */
  ghost predicate Routed(s: Server) {
    s.wg.Keys == s.peers.Keys && forall k | k in s.peers :: s.wg[k].allowedIp == s.peers[k].clientIp
  }

  /** The event installs a key for the peer: a start that connects, or an activation that fires and succeeds. */
  predicate Installs(c: Settings, s: Server, ev: Event, k: PublicKey) {
    match ev
    case StartRequest(p, qkdId, ekm, wgWorks, now) => p == k && Start(s, c, p, qkdId, ekm, wgWorks, now).1.Connected?
    case TaskFires(id, wgWorks, _) => id in s.tasks && wgWorks && s.tasks[id].Activate? && s.tasks[id].peer == k
    case _ => false
  }

  /** The key that an installing event installs, and when. */
  function KeyInstalled(s: Server, ev: Event): (KeyId, Bytes, int)
    requires ev.StartRequest? || ev.TaskFires?
    requires if ev.StartRequest? then ev.ekm.Some? else ev.id in s.tasks && s.tasks[ev.id].Activate?
  {
    if ev.StartRequest? then (ev.ekm.value.0, ev.ekm.value.1, ev.now) else (s.tasks[ev.id].keyId, s.tasks[ev.id].key, ev.now)
  }

  /** The peer's rotation clock rings. */
  predicate Rings(s: Server, ev: Event, k: PublicKey) {
    ev.TaskFires? && ev.id in s.tasks && s.tasks[ev.id] == Due(k)
  }

  lemma InstallsKey(c: Settings, s: Server, ev: Event, k: PublicKey)
    requires Installs(c, s, ev, k)
    ensures ev.StartRequest? || ev.TaskFires?
    ensures if ev.StartRequest? then ev.ekm.Some? else ev.id in s.tasks && s.tasks[ev.id].Activate?
  {
    hide Applied, FreeHost;
  }

  // --- what one event does to the records -----------------------------------------------------

  /** The record and the WireGuard entry of the peer carry this key, installed at this time. */
  predicate Carries(c: Settings, t: Server, k: PublicKey, installed: (KeyId, Bytes, int)) {
    && k in t.peers && k in t.wg
    && t.peers[k].presharedKeyId == Some(installed.0) && t.wg[k].psk == installed.1
    && t.peers[k].nextRefreshAt == Some(installed.2 + c.refreshS)
  }

  /** Neither the key nor the time of the next rotation of the peer changes. */
  predicate KeepsKey(s: Server, t: Server, k: PublicKey) {
    && k in s.peers && k in t.peers && k in s.wg && k in t.wg
    && t.peers[k].presharedKeyId == s.peers[k].presharedKeyId && t.wg[k].psk == s.wg[k].psk
    && t.peers[k].nextRefreshAt == s.peers[k].nextRefreshAt
  }

  /** The peer's address and the party it named first. */
  predicate KeepsPeer(s: Server, t: Server, k: PublicKey) {
    && k in s.peers && k in t.peers
    && t.peers[k].clientIp == s.peers[k].clientIp && t.peers[k].qkdId == s.peers[k].qkdId
  }

  /** What an event does to the record of one peer. */
  ghost predicate RecordLaw(c: Settings, s: Server, ev: Event, t: Server, k: PublicKey) {
    && (k in t.peers <==> k in s.peers || Installs(c, s, ev, k))
    && (k in s.peers ==> KeepsPeer(s, t, k))
    && (k in t.peers && k !in s.peers ==> ev.StartRequest? && t.peers[k].qkdId == ev.qkdId)
    && (Installs(c, s, ev, k) ==>
          (ev.StartRequest? || ev.TaskFires?)
          && (if ev.StartRequest? then ev.ekm.Some? else ev.id in s.tasks && s.tasks[ev.id].Activate?)
          && Carries(c, t, k, KeyInstalled(s, ev)) && !t.peers[k].refreshDue)
    && (k in s.peers && !Installs(c, s, ev, k) ==>
          KeepsKey(s, t, k) && (t.peers[k].refreshDue <==> s.peers[k].refreshDue || Rings(s, ev, k)))
  }

  /** What the system keeps: WireGuard agrees with the records, the file with memory, and tasks with both. */
  ghost predicate Kept(s: Server, c: Settings) {
    Sound(s, c) && Routed(s)
  }

  lemma AppliedLaw(s: Server, c: Settings, k: PublicKey, r: Record, keyId: KeyId, key: Bytes, now: int, j: PublicKey)
    requires k in s.peers ==> r == s.peers[k]
    requires Routed(s)
    ensures var t := Applied(s, c, k, r, keyId, key, now);
      && Routed(t) && t.peers.Keys == s.peers.Keys + {k}
      && Carries(c, t, k, (keyId, key, now)) && !t.peers[k].refreshDue
      && t.peers[k].clientIp == r.clientIp && t.peers[k].qkdId == r.qkdId
      && (j != k && j in s.peers ==> t.peers[j] == s.peers[j] && t.wg[j] == s.wg[j])
  {
    hide Armed;
    var record := r.(presharedKeyId := Some(keyId), refreshDue := false, nextRefreshAt := Some(now + c.refreshS));
    var peers := s.peers[k := record];
    ArmedLeaves(s.(peers := peers, saved := peers, wg := s.wg[k := Installed(key, r.clientIp)]), k);
  }

  lemma ArmedLeaves(s: Server, k: PublicKey)
    ensures var t := Armed(s, k); t.peers == s.peers && t.saved == s.saved && t.wg == s.wg
  {
  }

  lemma StartLaw(c: Settings, s: Server, ev: Event, k: PublicKey)
    requires Kept(s, c) && ev.StartRequest?
    ensures Routed(Next(c, s, ev)) && RecordLaw(c, s, ev, Next(c, s, ev), k)
  {
    hide Sound, Applied, FreeHost, Taken;
    var StartRequest(p, qkdId, ekm, wgWorks, now) := ev;
    if Start(s, c, p, qkdId, ekm, wgWorks, now).1.Connected? {
      var ip := if p in s.peers then Some(s.peers[p].clientIp) else FreeHost(c.hosts, Taken(s, c));
      var r := if p in s.peers then s.peers[p] else Record(ip.value, qkdId, None, None, false);
      AppliedLaw(s, c, p, r, ekm.value.0, ekm.value.1, now, k);
    }
  }

  /** Neither records nor WireGuard move, but for a clock that rings. */
  lemma QuietLaw(c: Settings, s: Server, ev: Event, t: Server, k: PublicKey)
    requires Routed(s) && !Installs(c, s, ev, k) && t.wg == s.wg && t.peers.Keys == s.peers.Keys
    requires forall p | p in s.peers :: t.peers[p] == s.peers[p].(refreshDue := s.peers[p].refreshDue || Rings(s, ev, p))
    ensures Routed(t) && RecordLaw(c, s, ev, t, k)
  {
    hide Installs, Rings;
  }

  lemma RingLaw(c: Settings, s: Server, ev: Event, k: PublicKey)
    requires Routed(s) && Possible(s, ev) && ev.TaskFires? && s.tasks[ev.id].peer in s.peers
    requires s.tasks[ev.id].Due? || !ev.wgWorks
    ensures Routed(Next(c, s, ev)) && RecordLaw(c, s, ev, Next(c, s, ev), k)
  {
    hide Routed, RecordLaw;
    QuietLaw(c, s, ev, Next(c, s, ev), k);
  }

  lemma ActivatedLaw(c: Settings, s: Server, ev: Event, k: PublicKey)
    requires Routed(s) && Possible(s, ev) && ev.TaskFires? && s.tasks[ev.id].peer in s.peers
    requires s.tasks[ev.id].Activate? && ev.wgWorks
    ensures Routed(Next(c, s, ev)) && RecordLaw(c, s, ev, Next(c, s, ev), k)
  {
    hide Applied;
    var w, s' := s.tasks[ev.id], s.(tasks := s.tasks - {ev.id});
    AppliedLaw(s', c, w.peer, s.peers[w.peer], w.keyId, w.key, ev.now, k);
  }

  lemma OtherLaw(c: Settings, s: Server, ev: Event, k: PublicKey)
    requires Routed(s) && s.saved == s.peers && (ev.RefreshRequest? || ev.ProcessRestarts?)
    ensures Routed(Next(c, s, ev)) && RecordLaw(c, s, ev, Next(c, s, ev), k)
  {
    hide Routed, RecordLaw;
    QuietLaw(c, s, ev, Next(c, s, ev), k);
  }

  lemma KeptFacts(c: Settings, s: Server)
    requires Kept(s, c)
    ensures s.saved == s.peers && forall id | id in s.tasks :: s.tasks[id].peer in s.peers
  {
    hide InOrder, Routed;
  }

  lemma RecordLawHolds(c: Settings, s: Server, ev: Event, k: PublicKey)
    requires Kept(s, c) && Possible(s, ev)
    ensures Kept(Next(c, s, ev), c) && RecordLaw(c, s, ev, Next(c, s, ev), k)
  {
    SoundStep(c, s, ev);
    KeptFacts(c, s);
    hide Sound, Routed, RecordLaw, Next;
    match ev
    case StartRequest(_, _, _, _, _) => StartLaw(c, s, ev, k);
    case TaskFires(id, wgWorks, _) =>
      if s.tasks[id].Activate? && wgWorks {
        ActivatedLaw(c, s, ev, k);
      } else {
        RingLaw(c, s, ev, k);
      }
    case _ => OtherLaw(c, s, ev, k);
  }

  // --- whole runs -------------------------------------------------------------------------------

  lemma {:induction false} KeptRun(c: Settings, s: Server, events: seq<Event>)
    requires Kept(s, c) && Run(c, s, events).Some?
    ensures Kept(Run(c, s, events).value, c)
  {
    if events != [] {
      hide Kept, Next, Possible;
      var n := |events| - 1;
      KeptRun(c, s, events[..n]);
      RecordLawHolds(c, Run(c, s, events[..n]).value, events[n], "");
    }
  }

  lemma KeptAtFirst(c: Settings)
    ensures Kept(Nothing(), c)
  {
  }

  /** A peer, once it has a record, keeps its address and the party it named first, for ever. */
  lemma {:induction false} PeersStay(c: Settings, s: Server, events: seq<Event>, k: PublicKey)
    requires Kept(s, c) && Run(c, s, events).Some? && k in s.peers
    ensures KeepsPeer(s, Run(c, s, events).value, k)
  {
    if events != [] {
      hide Kept, Next, Possible;
      var n := |events| - 1;
      KeptRun(c, s, events[..n]);
      PeersStay(c, s, events[..n], k);
      RecordLawHolds(c, Run(c, s, events[..n]).value, events[n], k);
      hide Run, Installs, Carries, KeepsKey, Rings;
    }
  }

  /** What a client was told when its start connected. */
  predicate Told(s: Server, c: Settings, ev: Event, keyId: KeyId, ip: Address) {
    ev.StartRequest? && Start(s, c, ev.peer, ev.qkdId, ev.ekm, ev.wgWorks, ev.now).1 == Connected(keyId, ip)
  }

  lemma ToldLaw(c: Settings, s: Server, ev: Event, keyId: KeyId, ip: Address)
    requires Told(s, c, ev, keyId, ip)
    ensures Installs(c, s, ev, ev.peer) && ev.ekm.Some? && keyId == ev.ekm.value.0
    ensures ev.peer in Next(c, s, ev).peers && Next(c, s, ev).peers[ev.peer].clientIp == ip
  {
    hide FreeHost, Taken, Armed;
    var k := ev.peer;
    var ip' := if k in s.peers then Some(s.peers[k].clientIp) else FreeHost(c.hosts, Taken(s, c));
    var r := if k in s.peers then s.peers[k] else Record(ip'.value, ev.qkdId, None, None, false);
    AppliedIp(s, c, k, r, ev.ekm.value.0, ev.ekm.value.1, ev.now);
    hide Applied;
  }

  lemma AppliedIp(s: Server, c: Settings, k: PublicKey, r: Record, keyId: KeyId, key: Bytes, now: int)
    ensures var t := Applied(s, c, k, r, keyId, key, now); k in t.peers && t.peers[k].clientIp == r.clientIp
  {
  }

  /**
   * The address a client is told is its own: right after the answer the record and WireGuard name the key the client
   * was told and that address, and at every later point the address is still its record's and the only one WireGuard
   * lets it use, a host of the tunnel other than the server's, and no other peer's.
   */
  lemma ToldAddressHolds(c: Settings, before: seq<Event>, ev: Event, after: seq<Event>, keyId: KeyId, ip: Address)
    requires Run(c, Nothing(), before).Some?
    requires Told(Run(c, Nothing(), before).value, c, ev, keyId, ip)
    requires Run(c, Next(c, Run(c, Nothing(), before).value, ev), after).Some?
    ensures var t := Next(c, Run(c, Nothing(), before).value, ev);
      && ev.peer in t.peers && ev.peer in t.wg
      && t.peers[ev.peer].presharedKeyId == Some(keyId) && ev.ekm == Some((keyId, t.wg[ev.peer].psk))
    ensures var v := Run(c, Next(c, Run(c, Nothing(), before).value, ev), after).value;
      && ev.peer in v.peers && v.peers[ev.peer].clientIp == ip
      && ev.peer in v.wg && v.wg[ev.peer].allowedIp == ip
      && ip in c.hosts && ip != c.serverAddress
      && forall p | p in v.wg && p != ev.peer :: v.wg[p].allowedIp != ip
  {
    var s := Run(c, Nothing(), before).value;
    KeptAtFirst(c);
    KeptRun(c, Nothing(), before);
    var t := Next(c, s, ev);
    hide Run, Kept, Told, Start, FreeHost, Next;
    ToldLaw(c, s, ev, keyId, ip);
    RecordLawHolds(c, s, ev, ev.peer);
    KeptRun(c, t, after);
    PeersStay(c, t, after, ev.peer);
    KeptRoutes(c, Run(c, t, after).value);
  }

  lemma KeptRoutes(c: Settings, s: Server)
    requires Kept(s, c)
    ensures s.wg.Keys == s.peers.Keys
    ensures forall k | k in s.peers ::
      s.wg[k].allowedIp == s.peers[k].clientIp && s.peers[k].clientIp in c.hosts && s.peers[k].clientIp != c.serverAddress
    ensures forall a, b | a in s.peers && b in s.peers && s.peers[a].clientIp == s.peers[b].clientIp :: a == b
  {
    hide TasksSound, InOrder;
  }

  /** Two clients are told the same address if and only if they are the same peer. */
  lemma ToldApart(c: Settings, before: seq<Event>, ev: Event, between: seq<Event>, ev': Event,
                  keyId: KeyId, ip: Address, keyId': KeyId, ip': Address)
    requires Run(c, Nothing(), before).Some?
    requires Told(Run(c, Nothing(), before).value, c, ev, keyId, ip)
    requires Run(c, Next(c, Run(c, Nothing(), before).value, ev), between).Some?
    requires Told(Run(c, Next(c, Run(c, Nothing(), before).value, ev), between).value, c, ev', keyId', ip')
    ensures ip == ip' <==> ev.peer == ev'.peer
  {
    var s := Run(c, Nothing(), before).value;
    KeptAtFirst(c);
    KeptRun(c, Nothing(), before);
    var t := Next(c, s, ev);
    hide Run, Kept, Told, Start, FreeHost, Next;
    ToldLaw(c, s, ev, keyId, ip);
    RecordLawHolds(c, s, ev, ev.peer);
    KeptRun(c, t, between);
    PeersStay(c, t, between, ev.peer);
    var u := Run(c, t, between).value;
    ToldLaw(c, u, ev', keyId', ip');
    RecordLawHolds(c, u, ev', ev.peer);
    KeptRoutes(c, Next(c, u, ev'));
  }

  // --- live tasks -------------------------------------------------------------------------------

  /** The peer's rotation clock is running. */
  predicate ClockRuns(s: Server, k: PublicKey) {
    k in s.timers && s.timers[k] in s.tasks
  }

  /** The peer has an activation that has neither fired nor been cancelled. */
  predicate Awaited(s: Server, k: PublicKey) {
    k in s.activations && s.activations[k] in s.tasks
  }

  predicate Schedules(s: Server, ev: Event, k: PublicKey) {
    ev.RefreshRequest? && ev.peer == k && k in s.peers && ev.ekm.Some?
  }

  /** The peer's activation fires, whether WireGuard takes the key or not. */
  predicate Fires(s: Server, ev: Event, k: PublicKey) {
    ev.TaskFires? && ev.id in s.tasks && s.tasks[ev.id].Activate? && s.tasks[ev.id].peer == k
  }

  /** What an event does to the tasks of one peer. */
  predicate TaskLaw(c: Settings, s: Server, ev: Event, t: Server, k: PublicKey) {
    && (ClockRuns(t, k) <==> Installs(c, s, ev, k) || (ClockRuns(s, k) && !Rings(s, ev, k) && !ev.ProcessRestarts?))
    && (Awaited(t, k) <==> Schedules(s, ev, k) || (Awaited(s, k) && !Fires(s, ev, k) && !ev.ProcessRestarts?))
  }

  lemma AppliedTasks(s: Server, c: Settings, p: PublicKey, r: Record, keyId: KeyId, key: Bytes, now: int, k: PublicKey)
    requires TasksSound(s)
    ensures var t := Applied(s, c, p, r, keyId, key, now);
      && (ClockRuns(t, k) <==> k == p || ClockRuns(s, k))
      && (Awaited(t, k) <==> Awaited(s, k))
  {
  }

  lemma StartTasks(c: Settings, s: Server, ev: Event, k: PublicKey)
    requires TasksSound(s) && ev.StartRequest?
    ensures TaskLaw(c, s, ev, Next(c, s, ev), k)
  {
    hide TasksSound, Applied, FreeHost, Taken, ClockRuns, Awaited;
    var StartRequest(p, qkdId, ekm, wgWorks, now) := ev;
    if Start(s, c, p, qkdId, ekm, wgWorks, now).1.Connected? {
      var ip := if p in s.peers then Some(s.peers[p].clientIp) else FreeHost(c.hosts, Taken(s, c));
      var r := if p in s.peers then s.peers[p] else Record(ip.value, qkdId, None, None, false);
      AppliedTasks(s, c, p, r, ekm.value.0, ekm.value.1, now, k);
    }
  }

  lemma TaskGone(s: Server, id: TaskId, k: PublicKey)
    requires TasksSound(s) && id in s.tasks
    ensures var s' := s.(tasks := s.tasks - {id});
      && TasksSound(s') && s.tasks[id].peer in s.peers
      && (ClockRuns(s', k) <==> ClockRuns(s, k) && s.tasks[id] != Due(k))
      && (Awaited(s', k) <==> Awaited(s, k) && !(s.tasks[id].Activate? && s.tasks[id].peer == k))
  {
  }

  lemma FiredTasks(c: Settings, s: Server, ev: Event, k: PublicKey)
    requires TasksSound(s) && ev.TaskFires? && Possible(s, ev)
    ensures TaskLaw(c, s, ev, Next(c, s, ev), k)
  {
    TaskGone(s, ev.id, k);
    var w, s' := s.tasks[ev.id], s.(tasks := s.tasks - {ev.id});
    hide Applied, TasksSound;
    if w.Activate? && ev.wgWorks {
      AppliedTasks(s', c, w.peer, s.peers[w.peer], w.keyId, w.key, ev.now, k);
    }
  }

  lemma ScheduledTasks(c: Settings, s: Server, p: PublicKey, keyId: KeyId, key: Bytes, now: int, k: PublicKey)
    requires TasksSound(s) && p in s.peers
    ensures var t := Refresh(s, c, p, Some((keyId, key)), now).0;
      (ClockRuns(t, k) <==> ClockRuns(s, k)) && (Awaited(t, k) <==> k == p || Awaited(s, k))
  {
    assert s.nextTask !in s.tasks;
  }

  lemma RefreshTasks(c: Settings, s: Server, ev: Event, k: PublicKey)
    requires TasksSound(s) && ev.RefreshRequest?
    ensures TaskLaw(c, s, ev, Next(c, s, ev), k)
  {
    hide TasksSound, ClockRuns, Awaited;
    if ev.peer in s.peers && ev.ekm.Some? {
      ScheduledTasks(c, s, ev.peer, ev.ekm.value.0, ev.ekm.value.1, ev.now, k);
    }
  }

  lemma RestartTasks(c: Settings, s: Server, ev: Event, k: PublicKey)
    requires ev.ProcessRestarts?
    ensures TaskLaw(c, s, ev, Next(c, s, ev), k)
  {
  }

  lemma TaskLawHolds(c: Settings, s: Server, ev: Event, k: PublicKey)
    requires TasksSound(s) && Possible(s, ev)
    ensures TaskLaw(c, s, ev, Next(c, s, ev), k)
  {
    hide TaskLaw, TasksSound, Next;
    match ev
    case StartRequest(_, _, _, _, _) => StartTasks(c, s, ev, k);
    case RefreshRequest(_, _, _) => RefreshTasks(c, s, ev, k);
    case TaskFires(_, _, _) => FiredTasks(c, s, ev, k);
    case ProcessRestarts => RestartTasks(c, s, ev, k);
  }

  // --- records and tasks as histories -----------------------------------------------------------

  /** The server after the first `i` events of a run from an empty file. */
  function At(c: Settings, events: seq<Event>, i: nat): Server {
    if i <= |events| && Run(c, Nothing(), events[..i]).Some? then Run(c, Nothing(), events[..i]).value else Nothing()
  }

  lemma {:induction false} RunPrefix(c: Settings, events: seq<Event>, i: nat)
    requires Run(c, Nothing(), events).Some? && i <= |events|
    ensures Run(c, Nothing(), events[..i]).Some?
    decreases |events|
  {
    hide Possible, Next;
    if i == |events| {
      assert events[..i] == events;
    } else {
      var n := |events| - 1;
      RunPrefix(c, events[..n], i);
      assert events[..n][..i] == events[..i];
    }
  }

  lemma AtStep(c: Settings, events: seq<Event>, i: nat)
    requires Run(c, Nothing(), events).Some? && i < |events|
    ensures Possible(At(c, events, i), events[i]) && At(c, events, i + 1) == Next(c, At(c, events, i), events[i])
    ensures Kept(At(c, events, i), c)
  {
    RunPrefix(c, events, i);
    RunPrefix(c, events, i + 1);
    KeptAtFirst(c);
    hide Kept, Possible, Next;
    KeptRun(c, Nothing(), events[..i]);
    assert events[..i + 1][..i] == events[..i];
  }

  function InstallsOf(c: Settings, events: seq<Event>, k: PublicKey): set<nat> {
    set i: nat | i < |events| && Installs(c, At(c, events, i), events[i], k)
  }

  function RingsOf(c: Settings, events: seq<Event>, k: PublicKey): set<nat> {
    set i: nat | i < |events| && Rings(At(c, events, i), events[i], k)
  }

  function SchedulesOf(c: Settings, events: seq<Event>, k: PublicKey): set<nat> {
    set i: nat | i < |events| && Schedules(At(c, events, i), events[i], k)
  }

  function FiresOf(c: Settings, events: seq<Event>, k: PublicKey): set<nat> {
    set i: nat | i < |events| && Fires(At(c, events, i), events[i], k)
  }

  function Restarts(events: seq<Event>): set<nat> {
    set i: nat | i < |events| && events[i].ProcessRestarts?
  }

  lemma LawsAlong(c: Settings, events: seq<Event>, k: PublicKey)
    requires Run(c, Nothing(), events).Some?
    ensures forall i: nat | i < |events| ::
      && RecordLaw(c, At(c, events, i), events[i], At(c, events, i + 1), k)
      && TaskLaw(c, At(c, events, i), events[i], At(c, events, i + 1), k)
      && (Rings(At(c, events, i), events[i], k) ==> k in At(c, events, i).peers)
  {
    hide RecordLaw, TaskLaw, Next, At, Run;
    forall i: nat | i < |events|
      ensures RecordLaw(c, At(c, events, i), events[i], At(c, events, i + 1), k)
      ensures TaskLaw(c, At(c, events, i), events[i], At(c, events, i + 1), k)
      ensures Rings(At(c, events, i), events[i], k) ==> k in At(c, events, i).peers
    {
      AtStep(c, events, i);
      KeptFacts(c, At(c, events, i));
      RecordLawHolds(c, At(c, events, i), events[i], k);
      KeptTasks(c, At(c, events, i));
      TaskLawHolds(c, At(c, events, i), events[i], k);
    }
  }

  lemma KeptTasks(c: Settings, s: Server)
    requires Kept(s, c)
    ensures TasksSound(s)
  {
    hide TableSound, InOrder, TasksSound;
  }

  lemma DueFollows(c: Settings, events: seq<Event>, k: PublicKey, n: nat)
    requires Run(c, Nothing(), events).Some? && n <= |events|
    ensures k in At(c, events, n).peers && At(c, events, n).peers[k].refreshDue
      <==> Since(n, RingsOf(c, events, k), InstallsOf(c, events, k))
  {
    LawsAlong(c, events, k);
    assert At(c, events, 0) == Nothing();
    hide Since, At, Run, TaskLaw, Installs, Rings, Carries, KeepsKey, KeepsPeer, KeyInstalled;
    Tracked(n, (set i: nat | i <= |events| && k in At(c, events, i).peers && At(c, events, i).peers[k].refreshDue),
            RingsOf(c, events, k), InstallsOf(c, events, k));
  }

  lemma ClockFollows(c: Settings, events: seq<Event>, k: PublicKey, n: nat)
    requires Run(c, Nothing(), events).Some? && n <= |events|
    ensures ClockRuns(At(c, events, n), k) <==> Since(n, InstallsOf(c, events, k), RingsOf(c, events, k) + Restarts(events))
    ensures Awaited(At(c, events, n), k) <==> Since(n, SchedulesOf(c, events, k), FiresOf(c, events, k) + Restarts(events))
  {
    LawsAlong(c, events, k);
    assert At(c, events, 0) == Nothing() && !ClockRuns(Nothing(), k) && !Awaited(Nothing(), k);
    hide Since, At, Run, RecordLaw, Installs, Rings, Schedules, Fires, ClockRuns, Awaited;
    Tracked(n, (set i: nat | i <= |events| && ClockRuns(At(c, events, i), k)),
            InstallsOf(c, events, k), RingsOf(c, events, k) + Restarts(events));
    Tracked(n, (set i: nat | i <= |events| && Awaited(At(c, events, i), k)),
            SchedulesOf(c, events, k), FiresOf(c, events, k) + Restarts(events));
  }

  /**
   * On every run: a rotation is due since the peer's clock rang until the next key is installed; the clock runs since a
   * key was installed until it rings, or the server restarts; and an activation is live since a refresh scheduled it
   * until it fires, or the server restarts.
   */
  lemma TasksFollow(c: Settings, events: seq<Event>, k: PublicKey, n: nat)
    requires Run(c, Nothing(), events).Some? && n <= |events|
    ensures k in At(c, events, n).peers && At(c, events, n).peers[k].refreshDue
      <==> Since(n, RingsOf(c, events, k), InstallsOf(c, events, k))
    ensures ClockRuns(At(c, events, n), k) <==> Since(n, InstallsOf(c, events, k), RingsOf(c, events, k) + Restarts(events))
    ensures Awaited(At(c, events, n), k) <==> Since(n, SchedulesOf(c, events, k), FiresOf(c, events, k) + Restarts(events))
  {
    hide *;
    DueFollows(c, events, k, n);
    ClockFollows(c, events, k, n);
  }

  /** The last key was installed for the peer at `i`, and `s` carries it. */
  ghost predicate LastInstalled(c: Settings, events: seq<Event>, n: nat, k: PublicKey, i: nat) {
    && i in InstallsOf(c, events, k) && i < n && (forall j | j in InstallsOf(c, events, k) :: !(i < j < n))
    && var s, ev := At(c, events, i), events[i];
       && (ev.StartRequest? || ev.TaskFires?)
       && (if ev.StartRequest? then ev.ekm.Some? else ev.id in s.tasks && s.tasks[ev.id].Activate?)
       && Carries(c, At(c, events, n), k, KeyInstalled(s, ev))
  }

  lemma InstalledNow(c: Settings, events: seq<Event>, k: PublicKey, n: nat)
    requires n < |events| && n in InstallsOf(c, events, k)
    requires RecordLaw(c, At(c, events, n), events[n], At(c, events, n + 1), k)
    ensures LastInstalled(c, events, n + 1, k, n) && k in At(c, events, n + 1).peers
  {
    hide At, Installs, KeepsKey, KeepsPeer, KeyInstalled, Rings;
  }

  lemma InstalledStill(c: Settings, events: seq<Event>, k: PublicKey, n: nat, i: nat)
    requires n < |events| && n !in InstallsOf(c, events, k) && k in At(c, events, n).peers
    requires LastInstalled(c, events, n, k, i)
    requires RecordLaw(c, At(c, events, n), events[n], At(c, events, n + 1), k)
    ensures LastInstalled(c, events, n + 1, k, i)
  {
    hide At, Installs, Carries, KeepsPeer, KeyInstalled, Rings;
    CarriesStill(c, At(c, events, n), At(c, events, n + 1), k, KeyInstalled(At(c, events, i), events[i]));
  }

  lemma InstalledHas(c: Settings, events: seq<Event>, k: PublicKey, n: nat, i: nat)
    requires LastInstalled(c, events, n, k, i)
    ensures k in At(c, events, n).peers
  {
    hide At, InstallsOf, KeyInstalled;
  }

  /**
   * On every run: a peer has a record exactly when a key was installed for it, and then its record, WireGuard and the
   * time of its next rotation are those of the last key installed.
   */
  lemma {:induction false} KeysFollow(c: Settings, events: seq<Event>, k: PublicKey, n: nat)
    requires Run(c, Nothing(), events).Some? && n <= |events|
    ensures k in At(c, events, n).peers <==> exists i: nat :: LastInstalled(c, events, n, k, i)
  {
    if n == 0 {
      assert At(c, events, 0) == Nothing();
      hide At;
    } else {
      var m := n - 1;
      KeysFollow(c, events, k, m);
      LawsAlong(c, events, k);
      assert RecordLaw(c, At(c, events, m), events[m], At(c, events, m + 1), k);
      assert m in InstallsOf(c, events, k) <==> Installs(c, At(c, events, m), events[m], k);
      assert k in At(c, events, n).peers ==> k in At(c, events, m).peers || m in InstallsOf(c, events, k);
      hide *;
      if m in InstallsOf(c, events, k) {
        InstalledNow(c, events, k, m);
      } else if k in At(c, events, m).peers {
        var i: nat :| LastInstalled(c, events, m, k, i);
        InstalledStill(c, events, k, m, i);
      }
      if i: nat :| LastInstalled(c, events, n, k, i) {
        InstalledHas(c, events, k, n, i);
      }
    }
  }

  lemma CarriesStill(c: Settings, s: Server, t: Server, k: PublicKey, installed: (KeyId, Bytes, int))
    requires Carries(c, s, k, installed) && KeepsKey(s, t, k)
    ensures Carries(c, t, k, installed)
  {
  }
}
