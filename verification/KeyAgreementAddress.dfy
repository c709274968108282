/** Every client's interface has the address its peer's record and WireGuard have, whatever fails. */
module KeyAgreementAddress {
  import opened Options
  import opened Aead
  import opened VpnServer
  import opened ClientCli
  import opened KeyAgreement
  import opened KeyAgreementProof
  import VpnRuns
  import VpnRecords
  import Sim = QkdSim

  /** The server has a record of the peer with this address. */
  predicate HasAddress(s: Server, k: PublicKey, ip: Address) {
    k in s.peers && s.peers[k].clientIp == ip
  }

  /** The address a client has, or is about to have, is its peer's. */
  predicate ClientAddressed(s: Server, x: Client) {
    && (x.interface.Some? ==> HasAddress(s, x.interface.value.peer, x.interface.value.address))
    && (x.phase.Connecting? || x.phase.ConnectReady? ==> HasAddress(s, x.phase.peer, x.phase.address))
  }

  ghost predicate Addressed(g: Config, y: System) {
    VpnRecords.Kept(y.server, g.vpn) && forall c | c in y.clients :: ClientAddressed(y.server, y.clients[c])
  }

  /** No record is lost, and none changes its address. */
  predicate AddressesKept(s: Server, t: Server) {
    forall k | k in s.peers :: k in t.peers && t.peers[k].clientIp == s.peers[k].clientIp
  }

  lemma ServerKeeps(c: Settings, s: Server, ev: VpnRuns.Event)
    requires VpnRecords.Kept(s, c) && VpnRuns.Possible(s, ev)
    ensures VpnRecords.Kept(VpnRuns.Next(c, s, ev), c) && AddressesKept(s, VpnRuns.Next(c, s, ev))
  {
    hide VpnRecords.Kept, VpnRuns.Next, VpnRuns.Possible;
    VpnRecords.RecordLawHolds(c, s, ev, "");
    forall k | k in s.peers ensures k in VpnRuns.Next(c, s, ev).peers && VpnRuns.Next(c, s, ev).peers[k].clientIp == s.peers[k].clientIp {
      VpnRecords.RecordLawHolds(c, s, ev, k);
      hide VpnRecords.Installs, VpnRecords.Carries, VpnRecords.KeepsKey, VpnRecords.Rings;
    }
  }

  /** All clients but one stay as they are, and that one is addressed too. */
  lemma OneClient(g: Config, y: System, z: System, c: ClientId)
    requires Addressed(g, y) && VpnRecords.Kept(z.server, g.vpn) && AddressesKept(y.server, z.server)
    requires c in y.clients && c in z.clients && z.clients == y.clients[c := z.clients[c]] && ClientAddressed(z.server, z.clients[c])
    ensures Addressed(g, z)
  {
    hide VpnRecords.Kept;
  }

  lemma ConnectAddressed(g: Config, y: System, c: ClientId, k: PublicKey, ekm: Option<KeyId>, wgWorks: bool, answered: bool, now: int)
    requires Addressed(g, y) && Possible(y, Connect(c, k, ekm, wgWorks, answered, now))
    ensures Addressed(g, Connected'(y, g, c, k, ekm, wgWorks, answered, now))
  {
    hide VpnRecords.Kept, Start, Live, Offer, VpnRuns.Next;
    var z := Connected'(y, g, c, k, ekm, wgWorks, answered, now);
    var offer := Offer(y, ekm);
    var ev := VpnRuns.StartRequest(k, g.mine, offer, wgWorks, now);
    ServerKeeps(g.vpn, y.server, ev);
    var reply := Start(y.server, g.vpn, k, g.mine, offer, wgWorks, now).1;
    if reply.Connected? {
      VpnRecords.ToldLaw(g.vpn, y.server, ev, reply.keyId, reply.clientIp);
    }
    OneClient(g, y, z, c);
  }

  lemma RotateAddressed(g: Config, y: System, c: ClientId, ekm: Option<KeyId>, answered: bool, now: int)
    requires Addressed(g, y) && Possible(y, Rotate(c, ekm, answered, now))
    ensures Addressed(g, Rotated(y, g, c, ekm, answered, now))
  {
    hide VpnRecords.Kept, Refresh, Offer, VpnRuns.Next;
    ServerKeeps(g.vpn, y.server, VpnRuns.RefreshRequest(y.clients[c].session.value.peer, Offer(y, ekm), now));
    OneClient(g, y, Rotated(y, g, c, ekm, answered, now), c);
  }

  lemma FetchAddressed(g: Config, y: System, c: ClientId)
    requires Addressed(g, y) && Possible(y, Fetch(c))
    ensures Addressed(g, Fetched(y, g, c))
  {
    hide VpnRecords.Kept, Sim.DecKeys, Subject;
    OneClient(g, y, Fetched(y, g, c), c);
  }

  lemma InstallAddressed(g: Config, y: System, c: ClientId, outcome: Outcome)
    requires Addressed(g, y) && Possible(y, Install(c, outcome))
    ensures Addressed(g, Installed'(y, c, outcome))
  {
    hide VpnRecords.Kept, Subject;
    OneClient(g, y, Installed'(y, c, outcome), c);
  }

  lemma AbortAddressed(g: Config, y: System, c: ClientId)
    requires Addressed(g, y) && c in y.clients
    ensures Addressed(g, Aborted(y, c))
  {
    hide VpnRecords.Kept, Subject;
    OneClient(g, y, Aborted(y, c), c);
  }

  lemma DisconnectAddressed(g: Config, y: System, c: ClientId)
    requires Addressed(g, y) && c in y.clients && Possible(y, Disconnect(c))
    ensures Addressed(g, Next(g, y, Disconnect(c)))
  {
    hide VpnRecords.Kept;
    OneClient(g, y, Next(g, y, Disconnect(c)), c);
  }

  lemma FiresAddressed(g: Config, y: System, id: TaskId, wgWorks: bool, now: int)
    requires Addressed(g, y) && Possible(y, Fires(id, wgWorks, now))
    ensures Addressed(g, Next(g, y, Fires(id, wgWorks, now)))
  {
    hide VpnRecords.Kept, VpnRuns.Next;
    ServerKeeps(g.vpn, y.server, VpnRuns.TaskFires(id, wgWorks, now));
  }

  lemma RestartAddressed(g: Config, y: System)
    requires Addressed(g, y)
    ensures Addressed(g, Next(g, y, Restart))
  {
    hide VpnRecords.Kept, VpnRuns.Next, Live;
    ServerKeeps(g.vpn, y.server, VpnRuns.ProcessRestarts);
  }

  lemma ElsewhereAddressed(g: Config, y: System, q: Sim.Request)
    requires Addressed(g, y) && Possible(y, Elsewhere(q))
    ensures Addressed(g, Next(g, y, Elsewhere(q)))
  {
    hide VpnRecords.Kept, Sim.Served;
  }

  lemma AddressedStep(g: Config, y: System, ev: Event)
    requires Addressed(g, y) && Possible(y, ev)
    ensures Addressed(g, Next(g, y, ev))
  {
    hide Addressed;
    match ev
    case Connect(c, k, ekm, wgWorks, answered, now) => ConnectAddressed(g, y, c, k, ekm, wgWorks, answered, now);
    case Rotate(c, ekm, answered, now) => RotateAddressed(g, y, c, ekm, answered, now);
    case Fetch(c) => FetchAddressed(g, y, c);
    case Install(c, outcome) => InstallAddressed(g, y, c, outcome);
    case Quit(c) => AbortAddressed(g, y, c);
    case Disconnect(c) => DisconnectAddressed(g, y, c);
    case Fires(id, wgWorks, now) => FiresAddressed(g, y, id, wgWorks, now);
    case Restart => RestartAddressed(g, y);
    case Elsewhere(q) => ElsewhereAddressed(g, y, q);
  }

  lemma {:induction false} AddressedRun(g: Config, clients: set<ClientId>, events: seq<Event>)
    requires Run(g, Begin(clients), events).Some?
    ensures Addressed(g, Run(g, Begin(clients), events).value)
  {
    if events == [] {
      VpnRecords.KeptAtFirst(g.vpn);
      hide VpnRecords.Kept;
    } else {
      hide Addressed, Next, Possible, Begin;
      var n := |events| - 1;
      AddressedRun(g, clients, events[..n]);
      AddressedStep(g, Run(g, Begin(clients), events[..n]).value, events[n]);
    }
  }

  /**
   * On every interleaving, with all its faults, aborted commands and restarts: a client whose interface is up has there
   * the address of its peer's record, which is the only one WireGuard lets that peer use, and which no other peer has.
   */
  lemma AddressesAgree(g: Config, clients: set<ClientId>, events: seq<Event>, c: ClientId)
    requires Run(g, Begin(clients), events).Some?
    requires var y := Run(g, Begin(clients), events).value; c in y.clients && y.clients[c].interface.Some?
    ensures var y := Run(g, Begin(clients), events).value;
      var i := y.clients[c].interface.value;
      && i.peer in y.server.peers && y.server.peers[i.peer].clientIp == i.address
      && i.peer in y.server.wg && y.server.wg[i.peer].allowedIp == i.address
      && i.address in g.vpn.hosts && i.address != g.vpn.serverAddress
      && (forall k | k in y.server.wg && k != i.peer :: y.server.wg[k].allowedIp != i.address)
      && (forall d | d in y.clients && y.clients[d].interface.Some? && y.clients[d].interface.value.peer != i.peer ::
            y.clients[d].interface.value.address != i.address)
  {
    AddressedRun(g, clients, events);
    var y := Run(g, Begin(clients), events).value;
    hide Run, Begin, VpnRecords.Kept;
    VpnRecords.KeptRoutes(g.vpn, y.server);
    assert ClientAddressed(y.server, y.clients[c]);
    assert forall d | d in y.clients && y.clients[d].interface.Some? :: ClientAddressed(y.server, y.clients[d]);
  }
}
