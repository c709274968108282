/** Both ends hold the same key whenever a client is idle, its peer is untainted and no activation is live. */
module KeyAgreementProof {
  import opened Options
  import opened Aead
  import opened VpnServer
  import opened ClientCli
  import opened KeyAgreement
  import VpnRuns
  import Sim = QkdSim

  // --- what the server will have installed --------------------------------------------

  /** Arming a timer disturbs no activation. */
  lemma TargetArmed(s: Server, k: PublicKey, j: PublicKey)
    requires VpnRuns.TasksSound(s)
    ensures Live(Armed(s, k), j) == Live(s, j) && Target(Armed(s, k), j) == Target(s, j)
  {
  }

  lemma TargetApplied(s: Server, c: Settings, k: PublicKey, r: Record, keyId: KeyId, key: Bytes, now: int, j: PublicKey)
    requires VpnRuns.TasksSound(s)
    ensures Live(Applied(s, c, k, r, keyId, key, now), j) == Live(s, j)
    ensures Target(Applied(s, c, k, r, keyId, key, now), j)
         == if j == k && !Live(s, k) then Some(keyId) else Target(s, j)
  {
    hide Armed;
    var record := r.(presharedKeyId := Some(keyId), refreshDue := false, nextRefreshAt := Some(now + c.refreshS));
    var peers := s.peers[k := record];
    var t := s.(peers := peers, saved := peers, wg := s.wg[k := Installed(key, r.clientIp)]);
    assert VpnRuns.TasksSound(t);
    TargetArmed(t, k, j);
  }

  /** A successful start decides what the peer's key will be exactly when no activation is live: it cancels none. */
  lemma StartDecidesExactly(s: Server, c: Settings, k: PublicKey, qkdId: Sae, ekm: Option<(KeyId, Bytes)>, wgWorks: bool, now: int)
    requires VpnRuns.TasksSound(s) && Start(s, c, k, qkdId, ekm, wgWorks, now).1.Connected?
    requires Target(s, k) != Some(ekm.value.0)
    ensures Target(Start(s, c, k, qkdId, ekm, wgWorks, now).0, k) == Some(ekm.value.0) <==> !Live(s, k)
    ensures Live(s, k) ==> Target(Start(s, c, k, qkdId, ekm, wgWorks, now).0, k) == Target(s, k)
  {
    hide Applied, FreeHost, VpnRuns.TasksSound, Target, Live;
    var ip := if k in s.peers then Some(s.peers[k].clientIp) else FreeHost(c.hosts, Taken(s, c));
    var r := if k in s.peers then s.peers[k] else Record(ip.value, qkdId, None, None, false);
    TargetApplied(s, c, k, r, ekm.value.0, ekm.value.1, now, k);
  }

  lemma TargetStarted(s: Server, c: Settings, k: PublicKey, qkdId: Sae, ekm: Option<(KeyId, Bytes)>, wgWorks: bool, now: int, j: PublicKey)
    requires VpnRuns.TasksSound(s)
    ensures var (t, reply) := Start(s, c, k, qkdId, ekm, wgWorks, now);
      Target(t, j) == if j == k && reply.Connected? && !Live(s, k) then Some(ekm.value.0) else Target(s, j)
  {
    hide Applied, FreeHost, VpnRuns.TasksSound, Target, Live;
    if Start(s, c, k, qkdId, ekm, wgWorks, now).1.Connected? {
      var ip := if k in s.peers then Some(s.peers[k].clientIp) else FreeHost(c.hosts, Taken(s, c));
      var r := if k in s.peers then s.peers[k] else Record(ip.value, qkdId, None, None, false);
      TargetApplied(s, c, k, r, ekm.value.0, ekm.value.1, now, j);
    }
  }

  /** A refresh always decides what the peer's key will be, whatever was pending. */
  lemma TargetRefreshed(s: Server, c: Settings, k: PublicKey, ekm: Option<(KeyId, Bytes)>, now: int, j: PublicKey)
    requires VpnRuns.TasksSound(s)
    ensures var (t, reply) := Refresh(s, c, k, ekm, now);
      Target(t, j) == if j == k && reply.Scheduled? then Some(ekm.value.0) else Target(s, j)
  {
  }

  /** A task that fires leaves every peer's target alone, unless it is an activation whose install fails. */
  lemma TargetFired(s: Server, c: Settings, id: TaskId, wgWorks: bool, now: int, j: PublicKey)
    requires VpnRuns.TasksSound(s) && id in s.tasks
    ensures s.tasks[id].Due? || wgWorks || j != s.tasks[id].peer ==> Target(Fired(s, c, id, wgWorks, now), j) == Target(s, j)
  {
    var k, s' := s.tasks[id].peer, s.(tasks := s.tasks - {id});
    assert VpnRuns.TasksSound(s');
    if s.tasks[id].Activate? && wgWorks {
      hide Applied;
      var w := s.tasks[id];
      TargetApplied(s', c, k, s.peers[k], w.keyId, w.key, now, j);
      var t := Applied(s', c, k, s.peers[k], w.keyId, w.key, now);
      assert Target(Fired(s, c, id, wgWorks, now), j) == Target(t, j);
    }
  }

  /** A failed install, and a restart, put the peer back to the key its record names, which its client may have left behind. */
  lemma FaultsFallBack(s: Server, c: Settings, id: TaskId, now: int)
    requires VpnRuns.TasksSound(s) && s.saved == s.peers && id in s.tasks && s.tasks[id].Activate?
    ensures var k := s.tasks[id].peer;
      && Target(s, k) == Some(s.tasks[id].keyId)
      && Target(Fired(s, c, id, false, now), k) == s.peers[k].presharedKeyId
      && Target(Restarted(s), k) == s.peers[k].presharedKeyId
  {
  }

  lemma TargetRestarted(s: Server, k: PublicKey)
    requires s.saved == s.peers && !Live(s, k)
    ensures Target(Restarted(s), k) == Target(s, k)
  {
  }

  // --- bytes --------------------------------------------------------------------------

  /** The identifier was handed over, and names these bytes. */
  predicate Names(books: Sim.Books, given: set<KeyId>, id: KeyId, key: Bytes) {
    id in given && id in books.keys && books.keys[id].material == key
  }

  /** The server's interface holds, and its activations carry, the bytes their identifiers name. */
  ghost predicate Keyed(s: Server, books: Sim.Books, given: set<KeyId>) {
    && (forall k | k in s.peers ::
          s.peers[k].presharedKeyId.Some? && k in s.wg && Names(books, given, s.peers[k].presharedKeyId.value, s.wg[k].psk))
    && (forall t | t in s.tasks && s.tasks[t].Activate? :: Names(books, given, s.tasks[t].keyId, s.tasks[t].key))
  }

  /** No key already issued is forgotten or changed. */
  predicate Extends(b: Sim.Books, a: Sim.Books) {
    forall id | id in a.keys :: id in b.keys && b.keys[id] == a.keys[id]
  }

  lemma KeyedMore(s: Server, a: Sim.Books, b: Sim.Books, given: set<KeyId>, more: set<KeyId>)
    requires Keyed(s, a, given) && Extends(b, a) && given <= more
    ensures Keyed(s, b, more)
  {
  }

  lemma KeyedApplied(s: Server, c: Settings, k: PublicKey, r: Record, keyId: KeyId, key: Bytes, now: int,
                     books: Sim.Books, given: set<KeyId>)
    requires Keyed(s, books, given) && Names(books, given, keyId, key)
    ensures Keyed(Applied(s, c, k, r, keyId, key, now), books, given)
  {
    hide Names;
  }

  lemma KeyedStarted(s: Server, c: Settings, k: PublicKey, qkdId: Sae, ekm: Option<(KeyId, Bytes)>, wgWorks: bool, now: int,
                     books: Sim.Books, given: set<KeyId>)
    requires Keyed(s, books, given) && (ekm.Some? ==> Names(books, given, ekm.value.0, ekm.value.1))
    ensures Keyed(Start(s, c, k, qkdId, ekm, wgWorks, now).0, books, given)
  {
    hide Applied, FreeHost, Keyed, Names;
    if Start(s, c, k, qkdId, ekm, wgWorks, now).1.Connected? {
      var ip := if k in s.peers then Some(s.peers[k].clientIp) else FreeHost(c.hosts, Taken(s, c));
      var r := if k in s.peers then s.peers[k] else Record(ip.value, qkdId, None, None, false);
      KeyedApplied(s, c, k, r, ekm.value.0, ekm.value.1, now, books, given);
    }
  }

  lemma KeyedRefreshed(s: Server, c: Settings, k: PublicKey, ekm: Option<(KeyId, Bytes)>, now: int,
                       books: Sim.Books, given: set<KeyId>)
    requires Keyed(s, books, given) && (ekm.Some? ==> Names(books, given, ekm.value.0, ekm.value.1))
    ensures Keyed(Refresh(s, c, k, ekm, now).0, books, given)
  {
    hide Names;
  }

  lemma KeyedFired(s: Server, c: Settings, id: TaskId, wgWorks: bool, now: int, books: Sim.Books, given: set<KeyId>)
    requires Keyed(s, books, given) && id in s.tasks && s.tasks[id].peer in s.peers
    ensures Keyed(Fired(s, c, id, wgWorks, now), books, given)
  {
    hide Applied, Names;
    var w, s' := s.tasks[id], s.(tasks := s.tasks - {id});
    assert Keyed(s', books, given);
    if w.Activate? && wgWorks {
      KeyedApplied(s', c, w.peer, s.peers[w.peer], w.keyId, w.key, now, books, given);
      assert Keyed(Applied(s', c, w.peer, s.peers[w.peer], w.keyId, w.key, now), books, given);
    }
  }

  lemma BooksServed(b: Sim.Books, saes: seq<Sim.Sae>, q: Sim.Request)
    requires Sim.FreshDraws(b, q)
    ensures Extends(Sim.Served(b, saes, q).0, b)
    ensures forall id | id in Sim.Served(b, saes, q).0.consumedIds :: id in b.consumedIds || (q.Dec? && q.ids.Some? && id in q.ids.value)
  {
    if q.Enc? {
      hide Sim.MasterFor, Sim.KeysOf;
      var first := b.(keyRequests := b.keyRequests + 1);
      IssueKeeps(first, (Sim.MasterFor(saes, q.slave), q.slave), q.draws);
    }
  }

  lemma {:induction false} IssueKeeps(b: Sim.Books, pair: (Sim.Sae, Sim.Sae), draws: seq<(KeyId, Bytes)>)
    requires forall i | 0 <= i < |draws| :: draws[i].0 !in b.keys
    ensures Extends(Sim.AllIssued(b, pair, draws), b) && Sim.AllIssued(b, pair, draws).consumedIds == b.consumedIds
  {
    if draws != [] {
      IssueKeeps(b, pair, draws[..|draws| - 1]);
    }
  }

  // --- the clients ----------------------------------------------------------------------

  /** Public keys are private to the client that generated them, and a running refresh has its session. */
  ghost predicate Owns(y: System, c: ClientId)
    requires c in y.clients
  {
    var x := y.clients[c];
    && (x.session.Some? ==> x.session.value.peer in y.owners && y.owners[x.session.value.peer] == c)
    && (Subject(x).Some? ==> Subject(x).value in y.owners && y.owners[Subject(x).value] == c)
    && (!x.phase.Idle? ==> Subject(x).Some?)
  }

  /** A key still to be fetched was handed over and not retrieved; a key fetched is the one its identifier names. */
  ghost predicate Awaits(y: System, c: ClientId)
    requires c in y.clients
  {
    var x := y.clients[c];
    && (Unfetched(x).Some? ==> Unfetched(x).value in y.given && Unfetched(x).value !in y.books.consumedIds)
    && (x.phase.ConnectReady? || x.phase.RefreshReady? ==> Names(y.books, y.given, x.phase.keyId, x.phase.key))
  }

  /** What a running command is about to install is what its peer's server side has or will have. */
  ghost predicate Promised(y: System, c: ClientId)
    requires c in y.clients
  {
    var k := Subject(y.clients[c]);
    k.Some? && k.value !in y.tainted ==> Target(y.server, k.value) == Expected(y.clients[c])
  }

  /** The session's key is what its peer's server side has or will have, and the interface holds its bytes. */
  ghost predicate Settled(y: System, c: ClientId)
    requires c in y.clients
  {
    var x := y.clients[c];
    x.session.Some? && x.interface.Some? && x.interface.value.peer == x.session.value.peer
    && x.session.value.peer !in y.tainted && Subject(x) != Some(x.session.value.peer) ==>
      && Target(y.server, x.session.value.peer) == Some(x.session.value.keyId)
      && Names(y.books, y.given, x.session.value.keyId, x.interface.value.psk)
  }

  ghost predicate ClientSound(y: System, c: ClientId)
    requires c in y.clients
  {
    Owns(y, c) && Awaits(y, c) && Promised(y, c) && Settled(y, c)
  }

  ghost predicate Sound(g: Config, y: System) {
    && VpnRuns.Sound(y.server, g.vpn)
    && Keyed(y.server, y.books, y.given)
    && y.given <= y.books.keys.Keys
    && (forall c | c in y.clients :: ClientSound(y, c))
    && Separate(y.clients)
  }

  /** No two clients wait for the same key. */
  ghost predicate Separate(clients: map<ClientId, Client>) {
    forall c, d | c in clients && d in clients && c != d && Unfetched(clients[c]).Some? ::
      Unfetched(clients[c]) != Unfetched(clients[d])
  }

  lemma SeparateWith(clients: map<ClientId, Client>, c: ClientId, x: Client)
    requires Separate(clients) && c in clients
    requires Unfetched(x).Some? ==> forall d | d in clients && d != c :: Unfetched(clients[d]) != Unfetched(x)
    ensures Separate(clients[c := x])
  {
    hide Unfetched;
  }

  /** A step leaves a peer alone, or taints it. */
  predicate Undisturbed(y: System, z: System, k: PublicKey) {
    k !in z.tainted ==> k !in y.tainted && Target(z.server, k) == Target(y.server, k)
  }

  /** A step that is not a client's own keeps it sound, if it leaves its peers alone and retrieves none of its keys. */
  lemma ClientFrame(y: System, z: System, d: ClientId)
    requires d in y.clients && d in z.clients && z.clients[d] == y.clients[d] && ClientSound(y, d)
    requires forall k | k in y.owners && y.owners[k] == d :: k in z.owners && z.owners[k] == d && Undisturbed(y, z, k)
    requires Extends(z.books, y.books) && y.given <= z.given
    requires Unfetched(y.clients[d]).Some? ==> Unfetched(y.clients[d]).value !in z.books.consumedIds
    ensures ClientSound(z, d)
  {
    hide Target, Live;
  }

  // --- every step ---------------------------------------------------------------------

  lemma OfferNames(y: System, ekm: Option<KeyId>)
    requires Deliverable(y, ekm)
    ensures var offer := Offer(y, ekm);
      offer.Some? == ekm.Some?
      && (offer.Some? ==> Names(y.books, y.given + {offer.value.0}, offer.value.0, offer.value.1))
      && (offer.Some? ==> offer.value.0 == ekm.value && offer.value.0 !in y.given && offer.value.0 !in y.books.consumedIds)
  {
  }

  /** The clients that did not act stay sound when only the peer `k` of the client `c` is disturbed. */
  lemma OthersFrame(y: System, z: System, c: ClientId, k: PublicKey)
    requires c in y.clients && forall d | d in y.clients :: ClientSound(y, d)
    requires z.clients.Keys == y.clients.Keys && forall d | d in y.clients && d != c :: z.clients[d] == y.clients[d]
    requires forall j | j in y.owners && y.owners[j] != c :: j in z.owners && z.owners[j] == y.owners[j]
    requires k in y.owners ==> y.owners[k] == c
    requires forall j | j != k :: Undisturbed(y, z, j)
    requires Extends(z.books, y.books) && y.given <= z.given
    requires forall d | d in y.clients && d != c && Unfetched(y.clients[d]).Some? ::
      Unfetched(y.clients[d]).value !in z.books.consumedIds
    ensures forall d | d in y.clients && d != c :: ClientSound(z, d)
  {
    hide Undisturbed, ClientSound, Extends;
    forall d | d in y.clients && d != c ensures ClientSound(z, d) {
      ClientFrame(y, z, d);
    }
  }

  lemma ConnectServer(g: Config, y: System, c: ClientId, k: PublicKey, ekm: Option<KeyId>, wgWorks: bool, answered: bool, now: int)
    requires Sound(g, y) && Possible(y, Connect(c, k, ekm, wgWorks, answered, now))
    ensures var z := Connected'(y, g, c, k, ekm, wgWorks, answered, now);
      && VpnRuns.Sound(z.server, g.vpn) && Keyed(z.server, z.books, z.given) && z.given <= z.books.keys.Keys
      && forall j | j != k :: Undisturbed(y, z, j)
  {
    hide VpnRuns.Sound, Keyed, Start, Live, Target;
    var z := Connected'(y, g, c, k, ekm, wgWorks, answered, now);
    var offer := Offer(y, ekm);
    OfferNames(y, ekm);
    VpnRuns.SoundStep(g.vpn, y.server, VpnRuns.StartRequest(k, g.mine, offer, wgWorks, now));
    KeyedMore(y.server, y.books, y.books, y.given, z.given);
    KeyedStarted(y.server, g.vpn, k, g.mine, offer, wgWorks, now, y.books, z.given);
    assert VpnRuns.TasksSound(y.server) by { ServerTasks(g, y); }
    forall j | j != k ensures Undisturbed(y, z, j) {
      TargetStarted(y.server, g.vpn, k, g.mine, offer, wgWorks, now, j);
    }
  }

  lemma ServerTasks(g: Config, y: System)
    requires VpnRuns.Sound(y.server, g.vpn)
    ensures VpnRuns.TasksSound(y.server) && y.server.saved == y.server.peers
  {
    assert VpnRuns.TableSound(y.server, g.vpn);
  }

  lemma ConnectActor(g: Config, y: System, c: ClientId, k: PublicKey, ekm: Option<KeyId>, wgWorks: bool, answered: bool, now: int)
    requires Sound(g, y) && Possible(y, Connect(c, k, ekm, wgWorks, answered, now))
    ensures ClientSound(Connected'(y, g, c, k, ekm, wgWorks, answered, now), c)
  {
    hide VpnRuns.Sound, VpnRuns.Next, Keyed, Start, Live, Target, Offer, Separate;
    var z := Connected'(y, g, c, k, ekm, wgWorks, answered, now);
    var offer := Offer(y, ekm);
    OfferNames(y, ekm);
    ServerTasks(g, y);
    TargetStarted(y.server, g.vpn, k, g.mine, offer, wgWorks, now, k);
    assert ClientSound(y, c);
    StartedServer(g, y, c, k, ekm, wgWorks, answered, now);
    if y.clients[c].session.Some? {
      TargetStarted(y.server, g.vpn, k, g.mine, offer, wgWorks, now, y.clients[c].session.value.peer);
    }
    StartNeedsKey(y.server, g.vpn, k, g.mine, offer, wgWorks, now);
  }

  lemma StartedServer(g: Config, y: System, c: ClientId, k: PublicKey, ekm: Option<KeyId>, wgWorks: bool, answered: bool, now: int)
    requires c in y.clients
    ensures Connected'(y, g, c, k, ekm, wgWorks, answered, now).server
         == Start(y.server, g.vpn, k, g.mine, Offer(y, ekm), wgWorks, now).0
  {
    hide Start, Offer, Live;
  }

  lemma StartNeedsKey(s: Server, c: Settings, k: PublicKey, qkdId: Sae, ekm: Option<(KeyId, Bytes)>, wgWorks: bool, now: int)
    ensures Start(s, c, k, qkdId, ekm, wgWorks, now).1.Connected? ==> ekm.Some? && Start(s, c, k, qkdId, ekm, wgWorks, now).1.keyId == ekm.value.0
    ensures !Start(s, c, k, qkdId, ekm, wgWorks, now).1.Connected? ==> Start(s, c, k, qkdId, ekm, wgWorks, now).0 == s
  {
  }

  lemma ConnectStep(g: Config, y: System, c: ClientId, k: PublicKey, ekm: Option<KeyId>, wgWorks: bool, answered: bool, now: int)
    requires Sound(g, y) && Possible(y, Connect(c, k, ekm, wgWorks, answered, now))
    ensures Sound(g, Connected'(y, g, c, k, ekm, wgWorks, answered, now))
  {
    hide VpnRuns.Sound, Keyed, ClientSound, VpnRuns.Next, Start, Undisturbed, Separate, Offer, Names;
    var z := Connected'(y, g, c, k, ekm, wgWorks, answered, now);
    ConnectServer(g, y, c, k, ekm, wgWorks, answered, now);
    ConnectActor(g, y, c, k, ekm, wgWorks, answered, now);
    OfferNames(y, ekm);
    StartNeedsKey(y.server, g.vpn, k, g.mine, Offer(y, ekm), wgWorks, now);
    UnfetchedGiven(g, y);
    SeparateWith(y.clients, c, z.clients[c]);
    OthersFrame(y, z, c, k);
  }

  lemma UnfetchedGiven(g: Config, y: System)
    requires Sound(g, y)
    ensures forall c | c in y.clients && Unfetched(y.clients[c]).Some? ::
      Unfetched(y.clients[c]).value in y.given && Unfetched(y.clients[c]).value !in y.books.consumedIds
  {
    hide Keyed, VpnRuns.Sound;
    forall c | c in y.clients && Unfetched(y.clients[c]).Some?
      ensures Unfetched(y.clients[c]).value in y.given && Unfetched(y.clients[c]).value !in y.books.consumedIds
    {
      assert ClientSound(y, c);
    }
  }

  lemma RotateServer(g: Config, y: System, c: ClientId, ekm: Option<KeyId>, answered: bool, now: int)
    requires Sound(g, y) && Possible(y, Rotate(c, ekm, answered, now))
    ensures var z := Rotated(y, g, c, ekm, answered, now);
      && VpnRuns.Sound(z.server, g.vpn) && Keyed(z.server, z.books, z.given) && z.given <= z.books.keys.Keys
      && forall j | j != y.clients[c].session.value.peer :: Undisturbed(y, z, j)
  {
    hide VpnRuns.Sound, Keyed, Refresh, Live, Target;
    var z := Rotated(y, g, c, ekm, answered, now);
    var k, offer := y.clients[c].session.value.peer, Offer(y, ekm);
    OfferNames(y, ekm);
    VpnRuns.SoundStep(g.vpn, y.server, VpnRuns.RefreshRequest(k, offer, now));
    KeyedMore(y.server, y.books, y.books, y.given, z.given);
    KeyedRefreshed(y.server, g.vpn, k, offer, now, y.books, z.given);
    assert VpnRuns.TasksSound(y.server) by { ServerTasks(g, y); }
    forall j | j != k ensures Undisturbed(y, z, j) {
      TargetRefreshed(y.server, g.vpn, k, offer, now, j);
    }
  }

  lemma RotateActor(g: Config, y: System, c: ClientId, ekm: Option<KeyId>, answered: bool, now: int)
    requires Sound(g, y) && Possible(y, Rotate(c, ekm, answered, now))
    ensures ClientSound(Rotated(y, g, c, ekm, answered, now), c)
  {
    hide VpnRuns.Sound, Keyed, Refresh, Live, Target;
    var k, offer := y.clients[c].session.value.peer, Offer(y, ekm);
    OfferNames(y, ekm);
    ServerTasks(g, y);
    TargetRefreshed(y.server, g.vpn, k, offer, now, k);
    assert ClientSound(y, c);
    RefreshNeedsKey(y.server, g.vpn, k, offer, now);
  }

  lemma RefreshNeedsKey(s: Server, c: Settings, k: PublicKey, ekm: Option<(KeyId, Bytes)>, now: int)
    ensures Refresh(s, c, k, ekm, now).1.Scheduled? ==> ekm.Some?
    ensures !Refresh(s, c, k, ekm, now).1.Scheduled? ==> Refresh(s, c, k, ekm, now).0 == s
  {
  }

  lemma OwnSession(g: Config, y: System, c: ClientId)
    requires Sound(g, y) && c in y.clients && y.clients[c].session.Some?
    ensures var k := y.clients[c].session.value.peer; k in y.owners && y.owners[k] == c
  {
    hide VpnRuns.Sound, Keyed, Separate;
    assert ClientSound(y, c);
  }

  lemma RotateStep(g: Config, y: System, c: ClientId, ekm: Option<KeyId>, answered: bool, now: int)
    requires Sound(g, y) && Possible(y, Rotate(c, ekm, answered, now))
    ensures Sound(g, Rotated(y, g, c, ekm, answered, now))
  {
    hide VpnRuns.Sound, Keyed, ClientSound, VpnRuns.Next, Refresh, Undisturbed, Separate, Offer, Names;
    var z := Rotated(y, g, c, ekm, answered, now);
    var k := y.clients[c].session.value.peer;
    RotateServer(g, y, c, ekm, answered, now);
    RotateActor(g, y, c, ekm, answered, now);
    OfferNames(y, ekm);
    RefreshNeedsKey(y.server, g.vpn, k, Offer(y, ekm), now);
    UnfetchedGiven(g, y);
    OwnSession(g, y, c);
    SeparateWith(y.clients, c, z.clients[c]);
    OthersFrame(y, z, c, k);
  }

  /** A step of one client alone: it may abort its command, retrieve its key, or install it. */
  lemma LocalStep(g: Config, y: System, z: System, c: ClientId, k: PublicKey)
    requires Sound(g, y) && c in y.clients && c in z.clients
    requires z.server == y.server && z.given == y.given && z.owners == y.owners
    requires z.clients == y.clients[c := z.clients[c]] && Unfetched(z.clients[c]).None?
    requires k in y.owners ==> y.owners[k] == c
    requires y.tainted <= z.tainted <= y.tainted + {k}
    requires z.books.keys == y.books.keys
    requires forall id | id in z.books.consumedIds :: id in y.books.consumedIds || Unfetched(y.clients[c]) == Some(id)
    requires ClientSound(z, c)
    ensures Sound(g, z)
  {
    hide VpnRuns.Sound, ClientSound, Unfetched;
    UnfetchedGiven(g, y);
    hide Names;
    assert Keyed(z.server, z.books, z.given) by { KeyedMore(y.server, y.books, z.books, y.given, z.given); }
    hide Keyed;
    SeparateWith(y.clients, c, z.clients[c]);
    OthersFrame(y, z, c, k);
  }

  /** The key delivery entity still has the key a client was told to fetch, and has handed it to nobody. */
  lemma FetchSucceeds(g: Config, y: System, c: ClientId)
    requires Sound(g, y) && c in y.clients && Unfetched(y.clients[c]).Some? && g.theirs in g.saes
    ensures var id := Unfetched(y.clients[c]).value;
      id in y.books.keys && Sim.DecKeys(y.books, g.saes, g.theirs, Some([id])).1 == Sim.Delivered([y.books.keys[id]])
  {
    UnfetchedGiven(g, y);
    hide VpnRuns.Sound, Keyed, ClientSound;
    var id := Unfetched(y.clients[c]).value;
    var j := Sim.Retrievable(y.books, [id]);
    assert j == 1 by {
      assert Sim.StopsAt(y.books, [id], j);
      assert [id][0] == id;
    }
  }

  lemma FetchStep(g: Config, y: System, c: ClientId)
    requires Sound(g, y) && Possible(y, Fetch(c))
    ensures Sound(g, Fetched(y, g, c))
  {
    hide VpnRuns.Sound, Keyed, Target, Separate;
    var z := Fetched(y, g, c);
    var x := y.clients[c];
    var id := Unfetched(x).value;
    assert ClientSound(y, c);
    FetchUses(y.books, g.saes, g.theirs, id);
    if g.theirs in g.saes {
      FetchSucceeds(g, y, c);
    }
    hide Sim.DecKeys;
    LocalStep(g, y, z, c, Subject(x).value);
  }

  lemma FetchUses(b: Sim.Books, saes: seq<Sim.Sae>, master: Sim.Sae, id: KeyId)
    ensures var (after, reply) := Sim.DecKeys(b, saes, master, Some([id]));
      after.keys == b.keys && (forall other | other in after.consumedIds :: other in b.consumedIds || other == id)
      && (master !in saes ==> reply == Sim.Refused(404))
  {
  }

  lemma InstallStep(g: Config, y: System, c: ClientId, outcome: Outcome)
    requires Sound(g, y) && Possible(y, Install(c, outcome))
    ensures Sound(g, Installed'(y, c, outcome))
  {
    hide VpnRuns.Sound, Keyed, Target;
    var z := Installed'(y, c, outcome);
    assert ClientSound(y, c);
    LocalStep(g, y, z, c, Subject(y.clients[c]).value);
  }

  lemma AbortStep(g: Config, y: System, c: ClientId)
    requires Sound(g, y) && c in y.clients
    ensures Sound(g, Aborted(y, c))
  {
    hide VpnRuns.Sound, Keyed, Target;
    assert ClientSound(y, c);
    if Subject(y.clients[c]).Some? {
      LocalStep(g, y, Aborted(y, c), c, Subject(y.clients[c]).value);
    } else {
      assert y.clients[c := y.clients[c].(phase := Idle)] == y.clients;
    }
  }

  lemma DisconnectStep(g: Config, y: System, c: ClientId)
    requires Sound(g, y) && Possible(y, Disconnect(c))
    ensures Sound(g, Next(g, y, Disconnect(c)))
  {
    hide VpnRuns.Sound, Keyed, Target;
    var z := Next(g, y, Disconnect(c));
    assert z.clients == y.clients[c := Client(None, None, Idle)];
    SeparateWith(y.clients, c, z.clients[c]);
    forall d | d in z.clients ensures ClientSound(z, d) {
      if d != c {
        assert ClientSound(y, d);
        ClientFrame(y, z, d);
      }
    }
  }

  /** A step in which no client takes part. */
  lemma RemoteStep(g: Config, y: System, z: System)
    requires Sound(g, y) && VpnRuns.Sound(z.server, g.vpn) && Keyed(z.server, z.books, z.given)
    requires z.clients == y.clients && z.given == y.given && z.owners == y.owners
    requires Extends(z.books, y.books)
    requires forall id | id in z.books.consumedIds :: id in y.books.consumedIds || id !in y.given
    requires forall j :: Undisturbed(y, z, j)
    ensures Sound(g, z)
  {
    UnfetchedGiven(g, y);
    hide VpnRuns.Sound, Keyed, ClientSound, Undisturbed;
    forall d | d in z.clients ensures ClientSound(z, d) {
      ClientFrame(y, z, d);
    }
  }

  lemma FiresStep(g: Config, y: System, id: TaskId, wgWorks: bool, now: int)
    requires Sound(g, y) && Possible(y, Fires(id, wgWorks, now))
    ensures Sound(g, Next(g, y, Fires(id, wgWorks, now)))
  {
    hide VpnRuns.Sound, Keyed, Target, ClientSound;
    var z := Next(g, y, Fires(id, wgWorks, now));
    var ev := VpnRuns.TaskFires(id, wgWorks, now);
    ServerTasks(g, y);
    VpnRuns.SoundStep(g.vpn, y.server, ev);
    assert z.server == Fired(y.server, g.vpn, id, wgWorks, now);
    hide Fired;
    KeyedFired(y.server, g.vpn, id, wgWorks, now, y.books, y.given);
    forall j ensures Undisturbed(y, z, j) {
      TargetFired(y.server, g.vpn, id, wgWorks, now, j);
    }
    RemoteStep(g, y, z);
  }

  lemma RestartStep(g: Config, y: System)
    requires Sound(g, y)
    ensures Sound(g, Next(g, y, Restart))
  {
    hide VpnRuns.Sound, Target, ClientSound, Names;
    var z := Next(g, y, Restart);
    ServerTasks(g, y);
    VpnRuns.SoundStep(g.vpn, y.server, VpnRuns.ProcessRestarts);
    assert Keyed(z.server, z.books, z.given);
    forall j ensures Undisturbed(y, z, j) {
      if j !in z.tainted {
        assert !Live(y.server, j);
        TargetRestarted(y.server, j);
      }
    }
    RemoteStep(g, y, z);
  }

  lemma ElsewhereStep(g: Config, y: System, q: Sim.Request)
    requires Sound(g, y) && Possible(y, Elsewhere(q))
    ensures Sound(g, Next(g, y, Elsewhere(q)))
  {
    hide VpnRuns.Sound, Target, ClientSound, Sim.Served;
    var z := Next(g, y, Elsewhere(q));
    BooksServed(y.books, g.saes, q);
    KeyedMore(y.server, y.books, z.books, y.given, y.given);
    RemoteStep(g, y, z);
  }

  lemma SoundStep(g: Config, y: System, ev: Event)
    requires Sound(g, y) && Possible(y, ev)
    ensures Sound(g, Next(g, y, ev))
  {
    hide Sound;
    match ev
    case Connect(c, k, ekm, wgWorks, answered, now) => ConnectStep(g, y, c, k, ekm, wgWorks, answered, now);
    case Rotate(c, ekm, answered, now) => RotateStep(g, y, c, ekm, answered, now);
    case Fetch(c) => FetchStep(g, y, c);
    case Install(c, outcome) => InstallStep(g, y, c, outcome);
    case Quit(c) => AbortStep(g, y, c);
    case Disconnect(c) => DisconnectStep(g, y, c);
    case Fires(id, wgWorks, now) => FiresStep(g, y, id, wgWorks, now);
    case Restart => RestartStep(g, y);
    case Elsewhere(q) => ElsewhereStep(g, y, q);
  }

  // --- whole runs -----------------------------------------------------------------------

  function Begin(clients: set<ClientId>): System {
    System(VpnRuns.Nothing(), Sim.Empty(), map c | c in clients :: Client(None, None, Idle), {}, map[], {})
  }

  ghost function Run(g: Config, y: System, events: seq<Event>): Option<System> {
    if events == [] then Some(y)
    else
      var n := |events| - 1;
      match Run(g, y, events[..n])
      case None => None
      case Some(z) => if Possible(z, events[n]) then Some(Next(g, z, events[n])) else None
  }

  lemma {:induction false} SoundRun(g: Config, clients: set<ClientId>, events: seq<Event>)
    requires Run(g, Begin(clients), events).Some?
    ensures Sound(g, Run(g, Begin(clients), events).value)
  {
    if events != [] {
      hide Sound, Next, Possible, Begin;
      var n := |events| - 1;
      SoundRun(g, clients, events[..n]);
      SoundStep(g, Run(g, Begin(clients), events[..n]).value, events[n]);
    }
  }

  /**
   * On every interleaving: when a client is idle with its interface up for its session's peer, that peer has no
   * live activation, and no fault has tainted it since its last answered refresh or connect, then the server's
   * record, the server's interface, the client's session and the client's interface all name the same key, with
   * the same bytes.
   */
  lemma BothEndsAgree(g: Config, clients: set<ClientId>, events: seq<Event>, c: ClientId)
    requires Run(g, Begin(clients), events).Some?
    requires var y := Run(g, Begin(clients), events).value;
      && c in y.clients && y.clients[c].phase.Idle? && y.clients[c].session.Some? && y.clients[c].interface.Some?
      && var k := y.clients[c].session.value.peer;
         y.clients[c].interface.value.peer == k && k !in y.tainted && !Live(y.server, k)
    ensures var y := Run(g, Begin(clients), events).value;
      var x := y.clients[c];
      var k := x.session.value.peer;
      && k in y.server.peers && k in y.server.wg
      && y.server.peers[k].presharedKeyId == Some(x.session.value.keyId)
      && y.server.wg[k].psk == x.interface.value.psk
      && x.session.value.keyId in y.books.keys && y.books.keys[x.session.value.keyId].material == x.interface.value.psk
  {
    SoundRun(g, clients, events);
    hide Run, Begin, VpnRuns.Sound, Live;
    var y := Run(g, Begin(clients), events).value;
    assert ClientSound(y, c);
  }

  /** A client that was told a key's identifier always gets that key from the key delivery entity. */
  lemma EveryFetchSucceeds(g: Config, clients: set<ClientId>, events: seq<Event>, c: ClientId)
    requires Run(g, Begin(clients), events).Some? && g.theirs in g.saes
    requires var y := Run(g, Begin(clients), events).value; c in y.clients && Unfetched(y.clients[c]).Some?
    ensures var y := Run(g, Begin(clients), events).value;
      var id := Unfetched(y.clients[c]).value;
      id in y.books.keys && Sim.DecKeys(y.books, g.saes, g.theirs, Some([id])).1 == Sim.Delivered([y.books.keys[id]])
  {
    SoundRun(g, clients, events);
    hide Run, Begin, Sound, Sim.DecKeys;
    FetchSucceeds(g, Run(g, Begin(clients), events).value, c);
  }

  // --- fresh public keys ----------------------------------------------------------------

  /** Every peer the server knows was named by a connect. */
  ghost predicate Known(y: System) {
    y.server.peers.Keys <= y.owners.Keys
  }

  lemma StartedPeers(s: Server, c: Settings, k: PublicKey, qkdId: Sae, ekm: Option<(KeyId, Bytes)>, wgWorks: bool, now: int)
    ensures Start(s, c, k, qkdId, ekm, wgWorks, now).0.peers.Keys <= s.peers.Keys + {k}
  {
    hide FreeHost, Taken;
  }

  lemma RefreshedPeers(s: Server, c: Settings, k: PublicKey, ekm: Option<(KeyId, Bytes)>, now: int)
    ensures Refresh(s, c, k, ekm, now).0.peers == s.peers
  {
  }

  lemma FiredPeers(s: Server, c: Settings, id: TaskId, wgWorks: bool, now: int)
    requires id in s.tasks && s.tasks[id].peer in s.peers
    ensures Fired(s, c, id, wgWorks, now).peers.Keys == s.peers.Keys
  {
  }

  lemma ConnectKnown(g: Config, y: System, c: ClientId, k: PublicKey, ekm: Option<KeyId>, wgWorks: bool, answered: bool, now: int)
    requires Known(y) && c in y.clients
    ensures Known(Connected'(y, g, c, k, ekm, wgWorks, answered, now))
  {
    hide Start, Offer, Live;
    StartedServer(g, y, c, k, ekm, wgWorks, answered, now);
    StartedPeers(y.server, g.vpn, k, g.mine, Offer(y, ekm), wgWorks, now);
  }

  lemma RotateKnown(g: Config, y: System, c: ClientId, ekm: Option<KeyId>, answered: bool, now: int)
    requires Known(y) && c in y.clients && y.clients[c].session.Some?
    ensures Known(Rotated(y, g, c, ekm, answered, now))
  {
    hide Refresh, Offer;
    RefreshedPeers(y.server, g.vpn, y.clients[c].session.value.peer, Offer(y, ekm), now);
  }

  lemma FiresKnown(g: Config, y: System, id: TaskId, wgWorks: bool, now: int)
    requires Known(y) && VpnRuns.TasksSound(y.server) && Possible(y, Fires(id, wgWorks, now))
    ensures Known(Next(g, y, Fires(id, wgWorks, now)))
  {
    hide Fired;
    FiredPeers(y.server, g.vpn, id, wgWorks, now);
  }

  lemma RestartKnown(g: Config, y: System)
    requires Known(y) && y.server.saved == y.server.peers
    ensures Known(Next(g, y, Restart))
  {
    hide Live;
  }

  /** A step of a client alone, or of no one here. */
  lemma LocalKnown(g: Config, y: System, ev: Event)
    requires Known(y) && Possible(y, ev) && !ev.Connect? && !ev.Rotate? && !ev.Fires? && !ev.Restart?
    ensures Known(Next(g, y, ev))
  {
    hide Sim.Served, Sim.DecKeys, Complete, Subject, WithKey, WithInstalled, VpnRuns.Next, Connected', Rotated, Live;
  }

  lemma KnownStep(g: Config, y: System, ev: Event)
    requires VpnRuns.TasksSound(y.server) && y.server.saved == y.server.peers && Known(y) && Possible(y, ev)
    ensures Known(Next(g, y, ev))
  {
    hide VpnRuns.TasksSound, Known, Connected', Rotated, Fetched, Installed', Aborted, VpnRuns.Next, Live, Sim.Served;
    match ev
    case Connect(c, k, ekm, wgWorks, answered, now) => ConnectKnown(g, y, c, k, ekm, wgWorks, answered, now);
    case Rotate(c, ekm, answered, now) => RotateKnown(g, y, c, ekm, answered, now);
    case Fires(id, wgWorks, now) => FiresKnown(g, y, id, wgWorks, now);
    case Restart => RestartKnown(g, y);
    case _ => LocalKnown(g, y, ev);
  }

  lemma {:induction false} KnownRun(g: Config, clients: set<ClientId>, events: seq<Event>)
    requires Run(g, Begin(clients), events).Some?
    ensures Known(Run(g, Begin(clients), events).value)
  {
    assert Known(Begin(clients));
    if events != [] {
      hide Sound, Known, Next, Possible, Begin;
      var n := |events| - 1;
      KnownRun(g, clients, events[..n]);
      SoundRun(g, clients, events[..n]);
      SoundTasks(g, Run(g, Begin(clients), events[..n]).value);
      KnownStep(g, Run(g, Begin(clients), events[..n]).value, events[n]);
    }
  }

  /** A live activation belongs to a peer the server knows, so to a key some connect has named. */
  lemma LiveIsKnown(g: Config, y: System, k: PublicKey)
    requires Sound(g, y) && Known(y) && Live(y.server, k)
    ensures k in y.owners
  {
    hide VpnRuns.Sound, Keyed, ClientSound, Separate;
    ServerTasks(g, y);
  }

  // --- runs without faults --------------------------------------------------------------

  /** Nothing fails or gives up, every connect draws a fresh key, and the server is not restarted while an activation is live. */
  ghost predicate Faultless(g: Config, y: System, ev: Event)
    requires Possible(y, ev)
  {
    match ev
    case Connect(_, k, _, _, answered, _) => answered && k !in y.owners
    case Rotate(_, _, answered, _) => answered
    case Fetch(_) => g.theirs in g.saes
    case Install(c, outcome) => outcome == InstalledAndSaved && (y.clients[c].phase.RefreshReady? ==> y.clients[c].interface.Some?)
    case Quit(c) => y.clients[c].phase.Idle?
    case Fires(id, wgWorks, _) => y.server.tasks[id].Activate? ==> wgWorks
    case Restart => forall k | k in y.server.activations :: !Live(y.server, k)
    case _ => true
  }

  ghost predicate AllFaultless(g: Config, y: System, events: seq<Event>) {
    forall i | 0 <= i < |events| :: var z := Run(g, y, events[..i]);
      z.Some? && Possible(z.value, events[i]) && Faultless(g, z.value, events[i])
  }

  lemma FaultlessStep(g: Config, y: System, ev: Event)
    requires Sound(g, y) && Known(y) && Possible(y, ev) && Faultless(g, y, ev) && y.tainted == {}
    ensures Next(g, y, ev).tainted == {}
  {
    hide VpnRuns.Sound, Keyed, Target, Sim.Served, Start, Refresh, Live;
    match ev
    case Connect(_, k, _, _, _, _) =>
      if Live(y.server, k) {
        LiveIsKnown(g, y, k);
      }
    case Fetch(c) =>
      hide Sim.DecKeys;
      FetchSucceeds(g, y, c);
    case Install(c, _) =>
      assert ClientSound(y, c);
    case Restart =>
      assert (set k | k in y.server.activations && Live(y.server, k)) == {};
    case _ =>
  }

  /** So without faults both ends agree whenever a client is idle and its peer has no live activation. */
  lemma {:induction false} FaultlessRunsTaintNothing(g: Config, clients: set<ClientId>, events: seq<Event>)
    requires Run(g, Begin(clients), events).Some? && AllFaultless(g, Begin(clients), events)
    ensures Run(g, Begin(clients), events).value.tainted == {}
  {
    if events != [] {
      var n := |events| - 1;
      assert AllFaultless(g, Begin(clients), events[..n]) by {
        assert forall i | 0 <= i < n :: events[..n][..i] == events[..i];
      }
      hide Sound, Next, Begin, Faultless;
      FaultlessRunsTaintNothing(g, clients, events[..n]);
      SoundRun(g, clients, events[..n]);
      KnownRun(g, clients, events[..n]);
      FaultlessStep(g, Run(g, Begin(clients), events[..n]).value, events[n]);
    }
  }

  // --- the fault of a start during a live activation -------------------------------------

  lemma RunOneMore(g: Config, y: System, events: seq<Event>, ev: Event)
    requires Run(g, y, events).Some? && Possible(Run(g, y, events).value, ev)
    ensures Run(g, y, events + [ev]) == Some(Next(g, Run(g, y, events).value, ev))
  {
    hide Possible, Next;
    assert (events + [ev])[..|events|] == events;
  }

  /** The address a connect with this key is told. */
  function AddressTold(g: Config, y: System, k: PublicKey, e: KeyId, now: int): Address
    requires Start(y.server, g.vpn, k, g.mine, Offer(y, Some(e)), true, now).1.Connected?
  {
    Start(y.server, g.vpn, k, g.mine, Offer(y, Some(e)), true, now).1.clientIp
  }

  /** A connect that nothing interrupts, and then the activation that was live when it started, if there was one. */
  ghost function ConnectThrough(y: System, c: ClientId, k: PublicKey, e: KeyId, now: int): seq<Event> {
    [Connect(c, k, Some(e), true, true, now)] + [Fetch(c)] + [Install(c, InstalledAndSaved)]
    + if Live(y.server, k) then [Fires(y.server.activations[k], true, now)] else []
  }

  /** What a client's uninterrupted connect leaves: the server as its start left it, and the client with the new key. */
  lemma ConnectedThrough(g: Config, y: System, c: ClientId, k: PublicKey, e: KeyId, now: int)
    requires Sound(g, y) && g.theirs in g.saes
    requires Possible(y, Connect(c, k, Some(e), true, true, now))
    requires Start(y.server, g.vpn, k, g.mine, Offer(y, Some(e)), true, now).1.Connected?
    ensures var events := [Connect(c, k, Some(e), true, true, now)] + [Fetch(c)] + [Install(c, InstalledAndSaved)];
      var z := Run(g, y, events);
      && z.Some? && Sound(g, z.value)
      && z.value.server == Start(y.server, g.vpn, k, g.mine, Offer(y, Some(e)), true, now).0
      && c in z.value.clients
      && z.value.clients[c] == Client(Some(Session(k, e)), Some(Interface(k, y.books.keys[e].material, AddressTold(g, y, k, e, now))), Idle)
      && (k in z.value.tainted <==> Live(y.server, k))
  {
    hide Sound, Start, Run, Sim.DecKeys, Live;
    var first, second, third := Connect(c, k, Some(e), true, true, now), Fetch(c), Install(c, InstalledAndSaved);
    assert Run(g, y, []) == Some(y) by { NoEvents(g, y); }
    RunOneMore(g, y, [], first);
    assert [] + [first] == [first];
    var a := Next(g, y, first);
    SoundStep(g, y, first);
    OfferNames(y, Some(e));
    StartNeedsKey(y.server, g.vpn, k, g.mine, Offer(y, Some(e)), true, now);
    FetchSucceeds(g, a, c);
    RunOneMore(g, y, [first], second);
    var b := Next(g, a, second);
    SoundStep(g, a, second);
    RunOneMore(g, y, [first] + [second], third);
    SoundStep(g, b, third);
  }

  lemma NoEvents(g: Config, y: System)
    ensures Run(g, y, []) == Some(y)
  {
  }

  /** A start cancels no activation. */
  lemma StartKeepsActivation(s: Server, c: Settings, k: PublicKey, qkdId: Sae, ekm: Option<(KeyId, Bytes)>, now: int)
    requires VpnRuns.TasksSound(s) && Start(s, c, k, qkdId, ekm, true, now).1.Connected?
    ensures var t := Start(s, c, k, qkdId, ekm, true, now).0;
      && Live(t, k) == Live(s, k) && t.activations == s.activations
      && k in t.peers && t.peers[k].presharedKeyId == Some(ekm.value.0)
      && (Live(s, k) ==> t.tasks[t.activations[k]] == s.tasks[s.activations[k]])
  {
    hide FreeHost;
  }

  lemma SoundTasks(g: Config, y: System)
    requires Sound(g, y)
    ensures VpnRuns.TasksSound(y.server) && y.server.saved == y.server.peers
  {
    hide VpnRuns.Sound;
    ServerTasks(g, y);
  }

  lemma LiveKeyGiven(g: Config, y: System, k: PublicKey)
    requires Sound(g, y) && Live(y.server, k)
    ensures var w := y.server.tasks[y.server.activations[k]]; w.keyId in y.given && w.peer == k
  {
    hide VpnRuns.Sound;
    ServerTasks(g, y);
    var w := y.server.tasks[y.server.activations[k]];
    assert Names(y.books, y.given, w.keyId, w.key);
  }

  /** An activation that fires installs its key, and leaves none live. */
  lemma FiredInstalls(s: Server, c: Settings, k: PublicKey, now: int)
    requires VpnRuns.TasksSound(s) && Live(s, k)
    ensures var t := Fired(s, c, s.activations[k], true, now);
      !Live(t, k) && k in t.peers && t.peers[k].presharedKeyId == Some(s.tasks[s.activations[k]].keyId)
  {
  }

  /**
   * Whatever led to `y`: after an uninterrupted connect, and after the activation that was live when it started has
   * fired, the client is idle with the new key and no activation is live; but the server's record names that key if
   * and only if no activation was live at the start. With one, both ends stay apart, and the peer stays tainted.
   */
  lemma StartSplitsExactly(g: Config, y: System, c: ClientId, k: PublicKey, e: KeyId, now: int)
    requires Sound(g, y) && g.theirs in g.saes
    requires Possible(y, Connect(c, k, Some(e), true, true, now))
    requires Start(y.server, g.vpn, k, g.mine, Offer(y, Some(e)), true, now).1.Connected?
    ensures var z := Run(g, y, ConnectThrough(y, c, k, e, now));
      && z.Some? && c in z.value.clients
      && z.value.clients[c] == Client(Some(Session(k, e)), Some(Interface(k, y.books.keys[e].material, AddressTold(g, y, k, e, now))), Idle)
      && !Live(z.value.server, k) && k in z.value.server.peers
      && (z.value.server.peers[k].presharedKeyId == Some(e) <==> !Live(y.server, k))
      && (k in z.value.tainted <==> Live(y.server, k))
  {
    hide Sound, Start, Run, Fired, VpnRuns.TasksSound;
    var offer := Offer(y, Some(e));
    var ready := [Connect(c, k, Some(e), true, true, now)] + [Fetch(c)] + [Install(c, InstalledAndSaved)];
    ConnectedThrough(g, y, c, k, e, now);
    SoundTasks(g, y);
    StartKeepsActivation(y.server, g.vpn, k, g.mine, offer, now);
    var z := Run(g, y, ready).value;
    SoundTasks(g, z);
    OfferNames(y, Some(e));
    if Live(y.server, k) {
      var id := y.server.activations[k];
      LiveKeyGiven(g, y, k);
      LiveKeyGiven(g, z, k);
      FiredInstalls(z.server, g.vpn, k, now);
      RunOneMore(g, y, ready, Fires(id, true, now));
    } else {
      assert ready + [] == ready;
    }
  }

  /**
   * On every run: a connect that draws a fresh key meets no live activation, and left uninterrupted ends with both ends
   * on the new key and the peer untainted.
   */
  lemma FreshKeysNeverSplit(g: Config, clients: set<ClientId>, events: seq<Event>, c: ClientId, k: PublicKey, e: KeyId, now: int)
    requires Run(g, Begin(clients), events).Some? && k !in Run(g, Begin(clients), events).value.owners
    ensures !Live(Run(g, Begin(clients), events).value.server, k)
    ensures var y := Run(g, Begin(clients), events).value;
      && g.theirs in g.saes && Possible(y, Connect(c, k, Some(e), true, true, now))
      && Start(y.server, g.vpn, k, g.mine, Offer(y, Some(e)), true, now).1.Connected? ==>
        var z := Run(g, y, [Connect(c, k, Some(e), true, true, now)] + [Fetch(c)] + [Install(c, InstalledAndSaved)]);
        && z.Some? && c in z.value.clients
        && z.value.clients[c] == Client(Some(Session(k, e)), Some(Interface(k, y.books.keys[e].material, AddressTold(g, y, k, e, now))), Idle)
        && k in z.value.server.peers && z.value.server.peers[k].presharedKeyId == Some(e)
        && !Live(z.value.server, k) && k !in z.value.tainted
  {
    var y := Run(g, Begin(clients), events).value;
    SoundRun(g, clients, events);
    KnownRun(g, clients, events);
    hide Sound, Run, Start, Live, Possible;
    if Live(y.server, k) {
      LiveIsKnown(g, y, k);
    }
    if g.theirs in g.saes && Possible(y, Connect(c, k, Some(e), true, true, now))
      && Start(y.server, g.vpn, k, g.mine, Offer(y, Some(e)), true, now).1.Connected? {
      StartSplitsExactly(g, y, c, k, e, now);
      var ready := [Connect(c, k, Some(e), true, true, now)] + [Fetch(c)] + [Install(c, InstalledAndSaved)];
      assert ready + [] == ready;
    }
  }
}
