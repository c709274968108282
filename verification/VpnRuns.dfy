/** Runs of the VPN server: the peer table, the scheduled tasks and the order of activations. */
module VpnRuns {
  import opened Options
  import opened Aead
  import opened VpnServer

  datatype Event =
    | StartRequest(peer: PublicKey, qkdId: Sae, ekm: Option<(KeyId, Bytes)>, wgWorks: bool, now: int)
    | RefreshRequest(peer: PublicKey, ekm: Option<(KeyId, Bytes)>, now: int)
    | TaskFires(id: TaskId, wgWorks: bool, now: int)
    | ProcessRestarts

  function Nothing(): Server {
    Server(map[], map[], map[], map[], map[], map[], 0, map[], map[])
  }

  predicate Possible(s: Server, ev: Event) {
    ev.TaskFires? ==> ev.id in s.tasks
  }

  /** The state after one event; a task whose peer has no record would fail with a KeyError and change nothing else. */
  function Next(c: Settings, s: Server, ev: Event): Server
    requires Possible(s, ev)
  {
    match ev
    case StartRequest(k, qkdId, ekm, wgWorks, now) => Start(s, c, k, qkdId, ekm, wgWorks, now).0
    case RefreshRequest(k, ekm, now) => Refresh(s, c, k, ekm, now).0
    case TaskFires(id, wgWorks, now) =>
      if s.tasks[id].peer in s.peers then Fired(s, c, id, wgWorks, now) else s.(tasks := s.tasks - {id})
    case ProcessRestarts => Restarted(s)
  }

  function Run(c: Settings, s: Server, events: seq<Event>): Option<Server> {
    if events == [] then Some(s)
    else
      var n := |events| - 1;
      match Run(c, s, events[..n])
      case None => None
      case Some(t) => if Possible(t, events[n]) then Some(Next(c, t, events[n])) else None
  }

  // --- the peer table -------------------------------------------------------------

  /** Every client address is a host of the tunnel, not the server's, and no other client's; and the file is up to date. */
  ghost predicate TableSound(s: Server, c: Settings) {
    && (forall k | k in s.peers :: s.peers[k].clientIp in c.hosts && s.peers[k].clientIp != c.serverAddress)
    && (forall a, b | a in s.peers && b in s.peers && s.peers[a].clientIp == s.peers[b].clientIp :: a == b)
    && s.saved == s.peers
  }

  lemma TableApplied(s: Server, c: Settings, k: PublicKey, r: Record, keyId: KeyId, key: Bytes, now: int)
    requires TableSound(s, c)
    requires r.clientIp in c.hosts && r.clientIp != c.serverAddress
    requires forall p | p in s.peers && s.peers[p].clientIp == r.clientIp :: p == k
    ensures TableSound(Applied(s, c, k, r, keyId, key, now), c)
  {
    hide Without;
  }

  lemma TableStarted(s: Server, c: Settings, k: PublicKey, qkdId: Sae, ekm: Option<(KeyId, Bytes)>, wgWorks: bool, now: int)
    requires TableSound(s, c)
    ensures TableSound(Start(s, c, k, qkdId, ekm, wgWorks, now).0, c)
  {
    hide FreeHost, Applied;
    if Start(s, c, k, qkdId, ekm, wgWorks, now).1.Connected? {
      if k in s.peers {
        TableApplied(s, c, k, s.peers[k], ekm.value.0, ekm.value.1, now);
      } else {
        var ip := FreeHost(c.hosts, Taken(s, c)).value;
        assert forall p | p in s.peers :: s.peers[p].clientIp in Taken(s, c);
        TableApplied(s, c, k, Record(ip, qkdId, None, None, false), ekm.value.0, ekm.value.1, now);
      }
    }
  }

  lemma TableFired(s: Server, c: Settings, id: TaskId, wgWorks: bool, now: int)
    requires TableSound(s, c) && id in s.tasks && s.tasks[id].peer in s.peers
    ensures TableSound(Fired(s, c, id, wgWorks, now), c)
  {
    hide Applied;
    if s.tasks[id].Activate? && wgWorks {
      var w, s' := s.tasks[id], s.(tasks := s.tasks - {id});
      TableApplied(s', c, w.peer, s.peers[w.peer], w.keyId, w.key, now);
    }
  }

  lemma TableStep(c: Settings, s: Server, ev: Event)
    requires TableSound(s, c) && Possible(s, ev)
    ensures TableSound(Next(c, s, ev), c)
  {
    hide Start, Fired;
    match ev
    case StartRequest(k, qkdId, ekm, wgWorks, now) => TableStarted(s, c, k, qkdId, ekm, wgWorks, now);
    case TaskFires(id, wgWorks, now) =>
      if s.tasks[id].peer in s.peers {
        TableFired(s, c, id, wgWorks, now);
      }
    case _ =>
  }

  /** Addresses run out only when every host is the server's or a client's. */
  lemma ExhaustedExactly(s: Server, c: Settings, k: PublicKey, qkdId: Sae, ekm: Option<(KeyId, Bytes)>, wgWorks: bool, now: int)
    ensures Start(s, c, k, qkdId, ekm, wgWorks, now).1 == Exhausted
      <==> (ekm.Some? && k !in s.peers
            && forall h | h in c.hosts :: h == c.serverAddress || exists p :: p in s.peers && s.peers[p].clientIp == h)
  {
    assert forall h :: h in Taken(s, c) <==> h == c.serverAddress || exists p :: p in s.peers && s.peers[p].clientIp == h;
  }

  // --- tasks ------------------------------------------------------------------------

  /** The live tasks are exactly those that are their peer's last of their kind, and their peers have records. */
  ghost predicate TasksSound(s: Server) {
    && (forall id | id in s.tasks :: id < s.nextTask && s.tasks[id].peer in s.peers
          && var last := if s.tasks[id].Due? then s.timers else s.activations;
             s.tasks[id].peer in last && last[s.tasks[id].peer] == id)
    && (forall k | k in s.timers :: s.timers[k] < s.nextTask)
    && (forall k | k in s.activations :: s.activations[k] < s.nextTask)
    && (forall k | k in s.timers && s.timers[k] in s.tasks :: s.tasks[s.timers[k]] == Due(k))
    && (forall k | k in s.activations && s.activations[k] in s.tasks ::
          s.tasks[s.activations[k]].Activate? && s.tasks[s.activations[k]].peer == k)
  }

  lemma ArmedSound(s: Server, k: PublicKey)
    requires TasksSound(s) && k in s.peers
    ensures TasksSound(Armed(s, k))
  {
  }

  lemma AppliedSound(s: Server, c: Settings, k: PublicKey, r: Record, keyId: KeyId, key: Bytes, now: int)
    requires TasksSound(s)
    ensures TasksSound(Applied(s, c, k, r, keyId, key, now))
  {
    hide Armed;
    var record := r.(presharedKeyId := Some(keyId), refreshDue := false, nextRefreshAt := Some(now + c.refreshS));
    var peers := s.peers[k := record];
    var t := s.(peers := peers, saved := peers, wg := s.wg[k := Installed(key, r.clientIp)]);
    assert TasksSound(t);
    ArmedSound(t, k);
  }

  lemma ScheduleSound(c: Settings, s: Server, k: PublicKey, ekm: Option<(KeyId, Bytes)>, now: int)
    requires TasksSound(s)
    ensures TasksSound(Refresh(s, c, k, ekm, now).0)
  {
  }

  lemma FiredSound(c: Settings, s: Server, id: TaskId, wgWorks: bool, now: int)
    requires TasksSound(s) && id in s.tasks
    ensures TasksSound(Fired(s, c, id, wgWorks, now))
  {
    hide Applied;
    var k := s.tasks[id].peer;
    var s' := s.(tasks := s.tasks - {id});
    assert TasksSound(s');
    if s.tasks[id].Activate? {
      AppliedSound(s', c, k, s.peers[k], s.tasks[id].keyId, s.tasks[id].key, now);
    }
  }

  lemma TasksStep(c: Settings, s: Server, ev: Event)
    requires TasksSound(s) && Possible(s, ev) && s.saved == s.peers
    ensures TasksSound(Next(c, s, ev))
  {
    match ev
    case StartRequest(k, qkdId, ekm, wgWorks, now) =>
      hide Applied, TasksSound;
      if Start(s, c, k, qkdId, ekm, wgWorks, now).1.Connected? {
        var ip := if k in s.peers then Some(s.peers[k].clientIp) else FreeHost(c.hosts, Taken(s, c));
        AppliedSound(s, c, k, if k in s.peers then s.peers[k] else Record(ip.value, qkdId, None, None, false),
                     ekm.value.0, ekm.value.1, now);
      }
    case RefreshRequest(k, ekm, now) => ScheduleSound(c, s, k, ekm, now);
    case TaskFires(id, wgWorks, now) =>
      hide Fired;
      FiredSound(c, s, id, wgWorks, now);
    case ProcessRestarts =>
  }

  // --- supersession -------------------------------------------------------------------

  /** A live activation carries the key of its peer's most recent refresh, which no activation has installed yet. */
  ghost predicate Latest(s: Server, id: TaskId)
    requires id in s.tasks
  {
    s.tasks[id].Activate? ==>
      var w, log := s.tasks[id], ScheduledOf(s, s.tasks[id].peer);
      && log != [] && w.refresh == |log| - 1 && (w.keyId, w.key) == log[w.refresh]
      && forall x | x in ActivatedOf(s, w.peer) :: x.refresh < w.refresh
  }

  /** What activations have installed for a peer is a subsequence of the keys of its refreshes. */
  ghost predicate Subsequence(s: Server, k: PublicKey) {
    Increasing(ActivatedOf(s, k)) && forall x | x in ActivatedOf(s, k) :: FromRefresh(x, ScheduledOf(s, k))
  }

  predicate FromRefresh(x: Installation, log: seq<(KeyId, Bytes)>) {
    x.refresh < |log| && log[x.refresh] == (x.keyId, x.key)
  }

  ghost predicate InOrder(s: Server) {
    (forall id | id in s.tasks :: Latest(s, id)) && (forall k :: Subsequence(s, k))
  }

  ghost predicate Increasing(done: seq<Installation>) {
    forall i, j | 0 <= i < j < |done| :: done[i].refresh < done[j].refresh
  }

  /** Other peers' histories do not matter, and neither does anything else about the server. */
  lemma LatestFrame(s: Server, t: Server, id: TaskId)
    requires id in s.tasks && id in t.tasks && s.tasks[id] == t.tasks[id] && Latest(s, id)
    requires var k := s.tasks[id].peer; ScheduledOf(t, k) == ScheduledOf(s, k) && ActivatedOf(t, k) == ActivatedOf(s, k)
    ensures Latest(t, id)
  {
  }

  lemma SubsequenceFrame(s: Server, t: Server, k: PublicKey)
    requires Subsequence(s, k) && ActivatedOf(t, k) == ActivatedOf(s, k) && ScheduledOf(s, k) <= ScheduledOf(t, k)
    ensures Subsequence(t, k)
  {
  }

  /** Nothing but losing tasks and gaining a timer happens to the tasks, and nothing to the histories. */
  lemma OrderFrame(s: Server, t: Server)
    requires InOrder(s) && t.scheduled == s.scheduled && t.activated == s.activated
    requires forall id | id in t.tasks :: t.tasks[id].Due? || (id in s.tasks && s.tasks[id] == t.tasks[id])
    ensures InOrder(t)
  {
    forall id | id in t.tasks ensures Latest(t, id) {
      if t.tasks[id].Activate? {
        hide Latest, Subsequence;
        LatestFrame(s, t, id);
      }
    }
    hide Latest;
    forall k ensures Subsequence(t, k) {
      hide Subsequence;
      SubsequenceFrame(s, t, k);
    }
  }

  lemma OrderRefresh(c: Settings, s: Server, k: PublicKey, ekm: Option<(KeyId, Bytes)>, now: int)
    requires TasksSound(s) && InOrder(s)
    ensures InOrder(Refresh(s, c, k, ekm, now).0)
  {
    var t := Refresh(s, c, k, ekm, now).0;
    if k in s.peers && ekm.Some? {
      forall id | id in t.tasks ensures Latest(t, id) {
        if id == s.nextTask {
          assert Subsequence(s, k);
        } else if t.tasks[id].Activate? {
          assert id in s.tasks && t.tasks[id].peer != k;
          hide TasksSound, Latest, Subsequence;
          LatestFrame(s, t, id);
        }
      }
      hide TasksSound, Latest;
      forall p ensures Subsequence(t, p) {
        hide Subsequence;
        SubsequenceFrame(s, t, p);
      }
    }
  }

  lemma OrderApplied(s: Server, c: Settings, k: PublicKey, r: Record, keyId: KeyId, key: Bytes, now: int)
    requires InOrder(s)
    ensures InOrder(Applied(s, c, k, r, keyId, key, now))
  {
    hide InOrder;
    OrderFrame(s, Applied(s, c, k, r, keyId, key, now));
  }

  function DoneBy(w: Work): Installation
    requires w.Activate?
  {
    Installation(w.refresh, w.keyId, w.key)
  }

  /** A live activation that installs its key leaves its peer without a live one, and extends the order. */
  lemma OrderActivated(s: Server, id: TaskId)
    requires TasksSound(s) && InOrder(s) && id in s.tasks && s.tasks[id].Activate?
    ensures var k := s.tasks[id].peer;
      InOrder(s.(tasks := s.tasks - {id}, activated := s.activated[k := ActivatedOf(s, k) + [DoneBy(s.tasks[id])]]))
  {
    var k := s.tasks[id].peer;
    var t := s.(tasks := s.tasks - {id}, activated := s.activated[k := ActivatedOf(s, k) + [DoneBy(s.tasks[id])]]);
    forall other | other in t.tasks ensures Latest(t, other) {
      if t.tasks[other].Activate? {
        assert t.tasks[other].peer != k;
        hide TasksSound, Latest, Subsequence;
        LatestFrame(s, t, other);
      }
    }
    hide TasksSound;
    assert Latest(s, id) && Subsequence(s, k);
    var old', r := ActivatedOf(s, k), DoneBy(s.tasks[id]);
    assert ActivatedOf(t, k) == old' + [r];
    assert forall i | 0 <= i < |old'| :: old'[i] in old';
    assert Subsequence(t, k);
    hide Subsequence;
    forall p | p != k ensures Subsequence(t, p) {
      SubsequenceFrame(s, t, p);
    }
  }

  lemma OrderFired(c: Settings, s: Server, id: TaskId, wgWorks: bool, now: int)
    requires TasksSound(s) && InOrder(s) && id in s.tasks
    ensures InOrder(Fired(s, c, id, wgWorks, now))
  {
    var k := s.tasks[id].peer;
    assert k in s.peers;
    hide TasksSound, InOrder;
    if s.tasks[id].Activate? && wgWorks {
      hide Applied;
      var s' := s.(tasks := s.tasks - {id}, activated := s.activated[k := ActivatedOf(s, k) + [DoneBy(s.tasks[id])]]);
      OrderActivated(s, id);
      AppliedHistory(s.(tasks := s.tasks - {id}), c, k, s.peers[k], s.tasks[id].keyId, s.tasks[id].key, now, s'.activated);
      OrderApplied(s', c, k, s.peers[k], s.tasks[id].keyId, s.tasks[id].key, now);
    } else {
      OrderFrame(s, Fired(s, c, id, wgWorks, now));
    }
  }

  /** Installing a key does not look at the history of activations. */
  lemma AppliedHistory(s: Server, c: Settings, k: PublicKey, r: Record, keyId: KeyId, key: Bytes, now: int,
                       activated: map<PublicKey, seq<Installation>>)
    ensures Applied(s, c, k, r, keyId, key, now).(activated := activated)
         == Applied(s.(activated := activated), c, k, r, keyId, key, now)
  {
  }

  lemma OrderStep(c: Settings, s: Server, ev: Event)
    requires TasksSound(s) && InOrder(s) && Possible(s, ev)
    ensures InOrder(Next(c, s, ev))
  {
    match ev
    case StartRequest(k, qkdId, ekm, wgWorks, now) =>
      hide Applied, TasksSound, InOrder;
      if Start(s, c, k, qkdId, ekm, wgWorks, now).1.Connected? {
        var ip := if k in s.peers then Some(s.peers[k].clientIp) else FreeHost(c.hosts, Taken(s, c));
        OrderApplied(s, c, k, if k in s.peers then s.peers[k] else Record(ip.value, qkdId, None, None, false),
                     ekm.value.0, ekm.value.1, now);
      }
    case RefreshRequest(k, ekm, now) => OrderRefresh(c, s, k, ekm, now);
    case TaskFires(id, wgWorks, now) =>
      hide Fired;
      OrderFired(c, s, id, wgWorks, now);
    case ProcessRestarts => OrderFrame(s, Restarted(s));
  }

  // --- whole runs -----------------------------------------------------------------------

  ghost predicate Sound(s: Server, c: Settings) {
    TableSound(s, c) && TasksSound(s) && InOrder(s)
  }

  lemma SoundStep(c: Settings, s: Server, ev: Event)
    requires Sound(s, c) && Possible(s, ev)
    ensures Sound(Next(c, s, ev), c)
  {
    assert s.saved == s.peers;
    hide TableSound, TasksSound, InOrder, Next;
    TableStep(c, s, ev);
    TasksStep(c, s, ev);
    OrderStep(c, s, ev);
  }

  lemma {:induction false} SoundRun(c: Settings, s: Server, events: seq<Event>)
    requires Sound(s, c) && Run(c, s, events).Some?
    ensures Sound(Run(c, s, events).value, c)
  {
    if events != [] {
      hide Sound, Next, Possible;
      var n := |events| - 1;
      SoundRun(c, s, events[..n]);
      SoundStep(c, Run(c, s, events[..n]).value, events[n]);
    }
  }

  /** From an empty file, on every run with its failures and restarts. */
  lemma PeerTableHolds(c: Settings, events: seq<Event>)
    requires Run(c, Nothing(), events).Some?
    ensures TableSound(Run(c, Nothing(), events).value, c)
  {
    SoundRun(c, Nothing(), events);
  }

  /** A peer has at most one live timer and one live activation, and a task that fires finds its record. */
  lemma OneLiveTaskEach(c: Settings, events: seq<Event>)
    requires Run(c, Nothing(), events).Some?
    ensures var s := Run(c, Nothing(), events).value;
      && (forall a, b | a in s.tasks && b in s.tasks && s.tasks[a].peer == s.tasks[b].peer
            && s.tasks[a].Due? == s.tasks[b].Due? :: a == b)
      && (forall id | id in s.tasks :: s.tasks[id].peer in s.peers)
  {
    SoundRun(c, Nothing(), events);
    hide Run, TableSound, InOrder;
  }

  /**
   * A live activation carries the key of the peer's most recently scheduled refresh, and the keys that activations
   * installed are a subsequence of the refreshes.
   */
  lemma ActivationsFollowRefreshes(c: Settings, events: seq<Event>, k: PublicKey)
    requires Run(c, Nothing(), events).Some?
    ensures var s := Run(c, Nothing(), events).value;
      && (forall id | id in s.tasks && s.tasks[id].Activate? && s.tasks[id].peer == k ::
            var log := ScheduledOf(s, k);
            log != [] && (s.tasks[id].keyId, s.tasks[id].key) == log[|log| - 1])
      && Increasing(ActivatedOf(s, k))
      && (forall x | x in ActivatedOf(s, k) :: FromRefresh(x, ScheduledOf(s, k)))
  {
    SoundRun(c, Nothing(), events);
    hide Run, TableSound, TasksSound, Increasing;
    var s := Run(c, Nothing(), events).value;
    assert Subsequence(s, k);
    hide Subsequence;
    forall id | id in s.tasks && s.tasks[id].Activate? && s.tasks[id].peer == k
      ensures var log := ScheduledOf(s, k);
        log != [] && (s.tasks[id].keyId, s.tasks[id].key) == log[|log| - 1]
    {
      assert Latest(s, id);
    }
  }
}
