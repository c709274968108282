/** The client half of the refresh protocol: the session record, the tunnel interface and the commands on them. */
module ClientCli {
  import opened Options
  import opened Aead
  import opened VpnServer

  datatype Session = Session(peer: PublicKey, keyId: KeyId)

  datatype Interface = Interface(peer: PublicKey, psk: Bytes, address: Address)

  /** How far the command a client runs has got; every command starts and ends Idle. */
  datatype Phase =
    | Idle
    | Connecting(peer: PublicKey, keyId: KeyId, address: Address)
    | ConnectReady(peer: PublicKey, keyId: KeyId, address: Address, key: Bytes)
    | Refreshing(keyId: KeyId)
    | RefreshReady(keyId: KeyId, key: Bytes)

  datatype Client = Client(session: Option<Session>, interface: Option<Interface>, phase: Phase)

  /** How the last part of a command ends: the interface takes the key or not, and the session is saved or not. */
  datatype Outcome = InstalledAndSaved | InstalledOnly | NotInstalled

  // --- specification ----------------------------------------------------------

  /** The peer a client's running command is about. */
  function Subject(x: Client): Option<PublicKey> {
    match x.phase
    case Idle => None
    case Connecting(k, _, _) => Some(k)
    case ConnectReady(k, _, _, _) => Some(k)
    case _ => if x.session.Some? then Some(x.session.value.peer) else None
  }

  function Expected(x: Client): Option<KeyId> {
    match x.phase
    case Idle => None
    case Connecting(_, id, _) => Some(id)
    case ConnectReady(_, id, _, _) => Some(id)
    case Refreshing(id) => Some(id)
    case RefreshReady(id, _) => Some(id)
  }

  /** The key identifier a client still has to fetch. */
  function Unfetched(x: Client): Option<KeyId> {
    if x.phase.Connecting? || x.phase.Refreshing? then Expected(x) else None
  }

  function WithKey(x: Client, key: Bytes): Client
    requires Unfetched(x).Some?
  {
    x.(phase := if x.phase.Connecting? then ConnectReady(x.phase.peer, x.phase.keyId, x.phase.address, key)
                else RefreshReady(x.phase.keyId, key))
  }

  /** A rotated key goes into an interface that is up; a first key brings one up. */
  predicate Takes(x: Client, outcome: Outcome) {
    outcome != NotInstalled && (x.phase.RefreshReady? ==> x.interface.Some? && x.session.Some?)
  }

  predicate Complete(x: Client, outcome: Outcome) {
    outcome == InstalledAndSaved && Takes(x, outcome)
  }

  function WithInstalled(x: Client, outcome: Outcome): Client
    requires x.phase.ConnectReady? || x.phase.RefreshReady?
  {
    if !Takes(x, outcome) then x.(phase := Idle)
    else
      var k := if x.phase.ConnectReady? then x.phase.peer else x.interface.value.peer;
      var address := if x.phase.ConnectReady? then x.phase.address else x.interface.value.address;
      var owner := if x.phase.ConnectReady? then x.phase.peer else x.session.value.peer;
      Client(if Complete(x, outcome) then Some(Session(owner, x.phase.keyId)) else x.session,
             Some(Interface(k, x.phase.key, address)), Idle)
  }

  /** The rest of a command that the server has answered; `key` is None when the fetch fails. */
  function Finished(x: Client, started: Phase, key: Option<Bytes>, outcome: Outcome): Client
    requires started.Connecting? || started.Refreshing?
  {
    if key.None? then x.(phase := Idle)
    else WithInstalled(WithKey(x.(phase := started), key.value), outcome)
  }

  // --- the client itself --------------------------------------------------------

  class Cli {
    var session: Option<Session>
    var interface: Option<Interface>

    ghost function Contents(): Client
      reads this
    {
      Client(session, interface, Idle)
    }

    constructor ()
      ensures Contents() == Client(None, None, Idle)
    {
      session, interface := None, None;
    }

    /** `answer` is the identifier and the address the server answered with, and `key` what the key delivery entity has under it. */
    method Connect(peer: PublicKey, answer: Option<(KeyId, Address)>, key: Option<Bytes>, outcome: Outcome) returns (ok: bool)
      modifies this
      ensures answer.None? ==> !ok && Contents() == old(Contents())
      ensures answer.Some? ==> Contents() == Finished(old(Contents()), Connecting(peer, answer.value.0, answer.value.1), key, outcome)
      ensures ok <==> answer.Some? && key.Some? && outcome == InstalledAndSaved
      ensures ok ==> session == Some(Session(peer, answer.value.0))
      ensures ok ==> interface == Some(Interface(peer, key.value, answer.value.1))
    {
      if answer.None? || key.None? {
        return false;
      }
      if outcome == NotInstalled {
        return false;
      }
      interface := Some(Interface(peer, key.value, answer.value.1));
      if outcome == InstalledOnly {
        return false;
      }
      session := Some(Session(peer, answer.value.0));
      return true;
    }

    method Refresh(answer: Option<KeyId>, key: Option<Bytes>, outcome: Outcome) returns (ok: bool)
      modifies this
      ensures old(session).None? || answer.None? ==> !ok && Contents() == old(Contents())
      ensures old(session).Some? && answer.Some? ==>
          Contents() == Finished(old(Contents()), Refreshing(answer.value), key, outcome)
      ensures ok <==>
          old(session).Some? && old(interface).Some? && answer.Some? && key.Some? && outcome == InstalledAndSaved
      ensures ok ==> session == Some(Session(old(session).value.peer, answer.value))
      ensures ok ==> interface == Some(old(interface).value.(psk := key.value))
    {
      if session.None? || answer.None? || key.None? {
        return false;
      }
      if outcome == NotInstalled || interface.None? {
        return false;
      }
      interface := Some(interface.value.(psk := key.value));
      if outcome == InstalledOnly {
        return false;
      }
      session := Some(session.value.(keyId := answer.value));
      return true;
    }

    /** Cleans up even when the interface is already gone. */
    method Disconnect()
      modifies this
      ensures Contents() == Client(None, None, Idle)
    {
      interface := None;
      session := None;
    }
  }
}
