/**
 * Runs of the EKM: several pullers whose source calls hold no lock, evictions, requests that may be
 * cut short between commits, and restarts that keep only the tables.
 */
module EkmRuns {
  import opened Options
  import opened Aead
  import opened EkmStore
  import opened KeyPools
  import opened EkmService

  /** One pull loop: between its locked size read and its locked append it owns nothing the pool can see. */
  datatype Puller = Idle | Calling(peer: Peer, n: nat) | Holding(peer: Peer, batch: seq<Entry>)

  /** Where a key identifier the source has issued is now. */
  datatype Place = Held(puller: nat) | Queued(peer: Peer) | KekOf(obj: ObjectId) | Handed | Expired | Lost

  datatype Answered = Answered(obj: ObjectId, aad: Bytes, plaintext: Bytes, blob: Blob)

  /**
   * The EKM, its pullers and clock, and a record of the past: the place of every identifier ever issued,
   * what each queue has received and given up since the last restart, the blobs returned, and the objects
   * whose first wrap met the fault between its two commits.
   */
  datatype World = World(
    ekm: Ekm,
    pullers: seq<Puller>,
    now: real,
    places: map<KeyId, Place>,
    received: Queues,
    removed: Queues,
    answered: set<Answered>,
    interrupted: set<ObjectId>)

  datatype Event =
    | Tick(at: real)
    | ReadSize(k: nat, peer: Peer)
    | SourceFails(k: nat, unavailable: bool)
    | SourceAnswers(k: nat, keys: seq<Key>)
    | AppendBatch(k: nat)
    | Evict(peer: Peer, cutoff: real)
    | WrapCall(request: WrapRequest, fault: Fault)
    | NewKeyCall(peer: Peer, purpose: Purpose, fault: Fault)
    | Restart(at: real)

  datatype Config = Config(settings: Settings, target: int)

  // --- identifiers and places ---------------------------------------------------

  function Ids(entries: seq<Entry>): set<KeyId> {
    set e | e in entries :: e.key.id
  }

  predicate Distinct(entries: seq<Entry>) {
    forall i, j | 0 <= i < j < |entries| :: entries[i].key.id != entries[j].key.id
  }

  function At(places: map<KeyId, Place>, x: Place): set<KeyId> {
    set id | id in places && places[id] == x
  }

  function Move(places: map<KeyId, Place>, ids: set<KeyId>, x: Place): map<KeyId, Place> {
    map id | id in places.Keys + ids :: if id in ids then x else places[id]
  }

  function Volatile(places: map<KeyId, Place>): set<KeyId> {
    set id | id in places && (places[id].Held? || places[id].Queued?)
  }

  /** What a history says of one queue. */
  function Past(history: Queues, p: Peer): seq<Entry> {
    if p in history then history[p] else []
  }

  function Batch(puller: Puller): seq<Entry> {
    if puller.Holding? then puller.batch else []
  }

  // --- steps --------------------------------------------------------------------

  function Begin(peers: set<Peer>, pullers: nat, now: real): World {
    var empty := map p | p in peers :: [];
    World(Ekm(Pool(empty, true), Tables(map[], map[])), seq(pullers, _ => Idle), now, map[], map[], map[], {}, {})
  }

  /** The source hands out at most what was asked for, and no identifier twice. */
  predicate Possible(c: Config, w: World, ev: Event) {
    match ev
    case Tick(at) => w.now <= at
    case ReadSize(k, p) => k < |w.pullers| && w.pullers[k] == Idle && p in w.ekm.pool.queues
    case SourceFails(k, _) => k < |w.pullers| && w.pullers[k].Calling?
    case SourceAnswers(k, keys) =>
      && k < |w.pullers| && w.pullers[k].Calling? && |keys| <= w.pullers[k].n
      && Distinct(Stamp(keys, w.now)) && Ids(Stamp(keys, w.now)) !! w.places.Keys
    case AppendBatch(k) => k < |w.pullers| && w.pullers[k].Holding? && w.pullers[k].peer in w.ekm.pool.queues
    case Evict(p, _) => p in w.ekm.pool.queues
    case WrapCall(_, _) => true
    case NewKeyCall(_, _, _) => true
    case Restart(_) => true
  }

  /** The world once the EKM has become `e`, with the front of the queue of `p` gone to the place `x`. */
  function Served(w: World, e: Ekm, p: Peer, x: Place): World
    requires p in w.ekm.pool.queues && p in e.pool.queues
    requires |e.pool.queues[p]| <= |w.ekm.pool.queues[p]|
  {
    var q := w.ekm.pool.queues[p];
    var gone := q[..|q| - |e.pool.queues[p]|];
    w.(ekm := e, places := Move(w.places, Ids(gone), x), removed := w.removed[p := Past(w.removed, p) + gone])
  }

  function Next(c: Config, w: World, ev: Event): World
    requires Possible(c, w, ev)
  {
    match ev
    case Tick(at) => w.(now := at)
    case ReadSize(k, p) =>
      var n := Room(c.target, |w.ekm.pool.queues[p]|);
      w.(pullers := w.pullers[k := if n <= 0 then Idle else Calling(p, n)])
    case SourceFails(k, unavailable) =>
      w.(pullers := w.pullers[k := Idle],
         ekm := w.ekm.(pool := w.ekm.pool.(sourceAvailable := if unavailable then false else w.ekm.pool.sourceAvailable)))
    case SourceAnswers(k, keys) =>
      var batch := Stamp(keys, w.now);
      w.(pullers := w.pullers[k := Holding(w.pullers[k].peer, batch)],
         ekm := w.ekm.(pool := w.ekm.pool.(sourceAvailable := true)),
         places := Move(w.places, Ids(batch), Held(k)))
    case AppendBatch(k) =>
      var p, batch := w.pullers[k].peer, w.pullers[k].batch;
      w.(pullers := w.pullers[k := Idle],
         ekm := w.ekm.(pool := Appended(w.ekm.pool, p, batch)),
         places := Move(w.places, Ids(batch), Queued(p)),
         received := w.received[p := Past(w.received, p) + batch])
    case Evict(p, cutoff) =>
      var q := w.ekm.pool.queues;
      Served(w, w.ekm.(pool := w.ekm.pool.(queues := q[p := DropOlder(q[p], cutoff)])), p, Expired)
    case WrapCall(q, fault) => AfterWrap(c, w, q, fault, Wrap(c.settings, w.ekm, q, fault))
    case NewKeyCall(p, purpose, fault) =>
      var e := NewKey(w.ekm, p, purpose, fault).0;
      if p !in w.ekm.pool.queues then w
      else Served(w, e, p, if e.tables == w.ekm.tables then Lost else Handed)
    case Restart(at) =>
      var empty := map p | p in w.ekm.pool.queues :: [];
      w.(ekm := w.ekm.(pool := Pool(empty, true)), pullers := seq(|w.pullers|, _ => Idle), now := at,
         places := Move(w.places, Volatile(w.places), Lost), received := map[], removed := map[])
  }

  /** The request is the first wrap of its external key, and there is a unit for it. */
  predicate FirstWrap(c: Config, w: World, q: WrapRequest) {
    && q.plaintext.Some? && q.obj !in w.ekm.tables.kek
    && c.settings.bindPeer in w.ekm.pool.queues && w.ekm.pool.queues[c.settings.bindPeer] != []
  }

  function AfterWrap(c: Config, w: World, q: WrapRequest, fault: Fault, out: (Ekm, Reply)): World
    requires c.settings.bindPeer in w.ekm.pool.queues ==>
      var p := c.settings.bindPeer;
      p in out.0.pool.queues && |out.0.pool.queues[p]| <= |w.ekm.pool.queues[p]|
  {
    var p, e, reply := c.settings.bindPeer, out.0, out.1;
    var v := if p !in w.ekm.pool.queues then w.(ekm := e)
             else Served(w, e, p, if e.tables.kek == w.ekm.tables.kek then Lost else KekOf(q.obj));
    v.(answered := if reply.Wrapped? && q.plaintext.Some?
                   then w.answered + {Answered(q.obj, q.aad, q.plaintext.value, reply.blob)} else w.answered,
       interrupted := if fault == BeforeBind && FirstWrap(c, w, q) then w.interrupted + {q.obj} else w.interrupted)
  }

  /** Where a run ends; None when one of its events is not possible. */
  function Run(c: Config, w: World, events: seq<Event>): Option<World> {
    if events == [] then Some(w)
    else
      var n := |events| - 1;
      match Run(c, w, events[..n])
      case None => None
      case Some(v) => if Possible(c, v, events[n]) then Some(Next(c, v, events[n])) else None
  }

  lemma LastEvent(c: Config, w: World, events: seq<Event>) returns (v: World)
    requires events != [] && Run(c, w, events).Some?
    ensures Run(c, w, events[..|events| - 1]) == Some(v)
    ensures Possible(c, v, events[|events| - 1]) && Run(c, w, events).value == Next(c, v, events[|events| - 1])
  {
    hide Possible, Next;
    v := Run(c, w, events[..|events| - 1]).value;
  }
}
