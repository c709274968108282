/**
 * Coordinated refresh: clients, the VPN server and the key delivery entity, interleaved step by step, with lost
 * answers, failed installs, aborted commands and server restarts.
 */
module KeyAgreement {
  import opened Options
  import opened Aead
  import opened ClientCli
  import opened VpnServer
  import VpnRuns
  import Sim = QkdSim

  type ClientId = nat

  /**
   * `given` holds the identifiers the EKM has handed to the server, `owners` the client that generated each public
   * key. A peer is `tainted` from a fault that can leave its two ends apart until its next answered refresh or connect.
   */
  datatype System = System(
    server: Server,
    books: Sim.Books,
    clients: map<ClientId, Client>,
    given: set<KeyId>,
    owners: map<PublicKey, ClientId>,
    tainted: set<PublicKey>)

  datatype Config = Config(vpn: Settings, saes: seq<Sim.Sae>, mine: Sim.Sae, theirs: Sim.Sae)

  datatype Event =
    | Connect(client: ClientId, peer: PublicKey, ekm: Option<KeyId>, wgWorks: bool, answered: bool, now: int)
    | Rotate(client: ClientId, ekm: Option<KeyId>, answered: bool, now: int)
    | Fetch(client: ClientId)
    | Install(client: ClientId, outcome: Outcome)
    | Quit(client: ClientId)
    | Disconnect(client: ClientId)
    | Fires(id: TaskId, wgWorks: bool, now: int)
    | Restart
    | Elsewhere(request: Sim.Request)

  // --- reading a state ------------------------------------------------------------

  /** The peer has an activation that has neither fired nor been superseded. */
  predicate Live(s: Server, k: PublicKey) {
    k in s.activations && s.activations[k] in s.tasks && s.tasks[s.activations[k]].Activate?
  }

  /** The key the server has installed for the peer, or will have once its live activation has fired. */
  function Target(s: Server, k: PublicKey): Option<KeyId> {
    if Live(s, k) then Some(s.tasks[s.activations[k]].keyId)
    else if k in s.peers then s.peers[k].presharedKeyId
    else None
  }

  function Offer(y: System, ekm: Option<KeyId>): Option<(KeyId, Bytes)> {
    if ekm.Some? && ekm.value in y.books.keys then Some((ekm.value, y.books.keys[ekm.value].material)) else None
  }

  // --- steps ------------------------------------------------------------------------

  /** The EKM hands over issued identifiers that it has not handed over and nobody has fetched. */
  predicate Deliverable(y: System, ekm: Option<KeyId>) {
    ekm.Some? ==> ekm.value in y.books.keys && ekm.value !in y.given && ekm.value !in y.books.consumedIds
  }

  ghost predicate Possible(y: System, ev: Event) {
    match ev
    case Connect(c, k, ekm, _, _, _) =>
      c in y.clients && y.clients[c].phase.Idle? && Deliverable(y, ekm) && (k in y.owners ==> y.owners[k] == c)
    case Rotate(c, ekm, _, _) =>
      c in y.clients && y.clients[c].phase.Idle? && y.clients[c].session.Some? && Deliverable(y, ekm)
    case Fetch(c) => c in y.clients && Unfetched(y.clients[c]).Some?
    case Install(c, _) => c in y.clients && (y.clients[c].phase.ConnectReady? || y.clients[c].phase.RefreshReady?)
    case Quit(c) => c in y.clients
    case Disconnect(c) => c in y.clients && y.clients[c].phase.Idle?
    case Fires(id, _, _) => id in y.server.tasks
    case Restart => true
    case Elsewhere(q) => Sim.FreshDraws(y.books, q) && (q.Dec? && q.ids.Some? ==> forall id | id in q.ids.value :: id !in y.given)
  }

  function Connected'(y: System, g: Config, c: ClientId, k: PublicKey, ekm: Option<KeyId>, wgWorks: bool, answered: bool, now: int): System
    requires c in y.clients
  {
    var offer := Offer(y, ekm);
    var ev := VpnRuns.StartRequest(k, g.mine, offer, wgWorks, now);
    var reply := Start(y.server, g.vpn, k, g.mine, offer, wgWorks, now).1;
    var ok := reply.Connected?;
    y.(server := VpnRuns.Next(g.vpn, y.server, ev),
       given := if offer.Some? then y.given + {offer.value.0} else y.given,
       owners := y.owners[k := c],
       clients := y.clients[c := y.clients[c].(phase := if ok && answered then Connecting(k, reply.keyId, reply.clientIp) else Idle)],
       tainted := if !ok then y.tainted
                  else if answered && !Live(y.server, k) then y.tainted - {k} else y.tainted + {k})
  }

  function Rotated(y: System, g: Config, c: ClientId, ekm: Option<KeyId>, answered: bool, now: int): System
    requires c in y.clients && y.clients[c].session.Some?
  {
    var k, offer := y.clients[c].session.value.peer, Offer(y, ekm);
    var ok := Refresh(y.server, g.vpn, k, offer, now).1.Scheduled?;
    y.(server := VpnRuns.Next(g.vpn, y.server, VpnRuns.RefreshRequest(k, offer, now)),
       given := if offer.Some? then y.given + {offer.value.0} else y.given,
       clients := y.clients[c := y.clients[c].(phase := if ok && answered then Refreshing(offer.value.0) else Idle)],
       tainted := if !ok then y.tainted else if answered then y.tainted - {k} else y.tainted + {k})
  }

  function Aborted(y: System, c: ClientId): System
    requires c in y.clients
  {
    var k := Subject(y.clients[c]);
    y.(clients := y.clients[c := y.clients[c].(phase := Idle)],
       tainted := if k.Some? then y.tainted + {k.value} else y.tainted)
  }

  function Fetched(y: System, g: Config, c: ClientId): System
    requires c in y.clients && Unfetched(y.clients[c]).Some?
  {
    var x := y.clients[c];
    var (books, reply) := Sim.DecKeys(y.books, g.saes, g.theirs, Some([Unfetched(x).value]));
    var z := y.(books := books);
    if !reply.Delivered? || |reply.keys| != 1 then Aborted(z, c)
    else
      var key := reply.keys[0].material;
      z.(clients := z.clients[c := WithKey(x, key)])
  }

  function Installed'(y: System, c: ClientId, outcome: Outcome): System
    requires c in y.clients && (y.clients[c].phase.ConnectReady? || y.clients[c].phase.RefreshReady?)
  {
    var x := y.clients[c];
    var done := Complete(x, outcome);
    y.(clients := y.clients[c := WithInstalled(x, outcome)],
       tainted := if Subject(x).Some? && !done then y.tainted + {Subject(x).value} else y.tainted)
  }

  function Next(g: Config, y: System, ev: Event): System
    requires Possible(y, ev)
  {
    match ev
    case Connect(c, k, ekm, wgWorks, answered, now) => Connected'(y, g, c, k, ekm, wgWorks, answered, now)
    case Rotate(c, ekm, answered, now) => Rotated(y, g, c, ekm, answered, now)
    case Fetch(c) => Fetched(y, g, c)
    case Install(c, outcome) => Installed'(y, c, outcome)
    case Quit(c) => Aborted(y, c)
    case Disconnect(c) => y.(clients := y.clients[c := Client(None, None, Idle)])
    case Fires(id, wgWorks, now) =>
      var w := y.server.tasks[id];
      y.(server := VpnRuns.Next(g.vpn, y.server, VpnRuns.TaskFires(id, wgWorks, now)),
         tainted := if w.Activate? && !wgWorks then y.tainted + {w.peer} else y.tainted)
    case Restart =>
      y.(server := VpnRuns.Next(g.vpn, y.server, VpnRuns.ProcessRestarts),
         tainted := y.tainted + (set k | k in y.server.activations && Live(y.server, k)))
    case Elsewhere(q) => y.(books := Sim.Served(y.books, g.saes, q).0)
  }
}
