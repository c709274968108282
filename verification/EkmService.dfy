/** The EKM's request handlers over the pool and the store. */
module EkmService {
  import opened Options
  import opened Aead
  import opened EkmStore
  import opened KeyPools

  datatype Ekm = Ekm(pool: Pool, tables: Tables)

  /** The constant settings of one deployment. */
  datatype Settings = Settings(bindPeer: Peer, localKey: Bytes)

  /** `Failed` stands for a 500 answer, and for no answer at all when the process died. */
  datatype Reply =
    | Wrapped(blob: Blob)
    | Unwrapped(plaintext: Bytes)
    | Delivered(key: Key, peer: Peer)
    | Refused(status: nat)
    | Failed

  /** Where a request is cut short by an exception or a crash: just before a commit, or before its answer leaves. */
  datatype Fault = NoFault | BeforePut | BeforeBind | BeforeAnswer

  datatype WrapRequest = WrapRequest(
    obj: ObjectId,
    plaintext: Option<Bytes>, // None when it is not base64
    aad: Bytes,
    kekNonce: Bytes,          // the two nonces the operating system supplies
    nonce: Bytes)

  // --- specification ----------------------------------------------------------

  function Wrap(c: Settings, e: Ekm, q: WrapRequest, fault: Fault): (Ekm, Reply) {
    if q.plaintext.None? then (e, Refused(400))
    else match ReadKek(e.tables, c.localKey, q.obj)
      case Unreadable => (e, Failed)
      case Kek(material) => (e, Sealing(material, q, fault))
      case NoKek =>
        match AllocatedFrom(e.pool, c.bindPeer)
        case UnknownPeer => (e, Refused(404))
        case Empty => (e, Refused(503))
        case Taken(key, rest) => FirstUse(c, Ekm(rest, e.tables), q, key, fault)
  }

  function Sealing(material: Bytes, q: WrapRequest, fault: Fault): Reply
    requires q.plaintext.Some?
  {
    if fault == BeforeAnswer then Failed else Wrapped(Seal(material, q.nonce, q.plaintext.value, q.aad))
  }

  /** The first wrap of an external key, once `key` has left the pool. */
  function FirstUse(c: Settings, e: Ekm, q: WrapRequest, key: Key, fault: Fault): (Ekm, Reply)
    requires q.plaintext.Some?
  {
    if key.id in e.tables.bindings || fault == BeforePut then (e, Failed)
    else
      var put := e.(tables := WithKek(e.tables, c.localKey, q.obj, key.id, key.material, q.kekNonce));
      if fault == BeforeBind then (put, Failed)
      else
        var bound := Bound(put.tables, key.id, ForEkm, q.obj, c.bindPeer);
        (if bound.None? then put else put.(tables := bound.value), Sealing(key.material, q, fault))
  }

  function Unwrap(c: Settings, e: Ekm, obj: ObjectId, blob: Option<Blob>, aad: Bytes): Reply {
    match ReadKek(e.tables, c.localKey, obj)
    case NoKek => Refused(404)
    case Unreadable => Failed
    case Kek(material) =>
      if blob.None? then Refused(400)
      else match Open(material, blob.value, aad)
        case None => Refused(400)
        case Some(plaintext) => Unwrapped(plaintext)
  }

  function NewKey(e: Ekm, p: Peer, purpose: Purpose, fault: Fault): (Ekm, Reply) {
    if purpose == ForEkm then (e, Refused(400))
    else match AllocatedFrom(e.pool, p)
      case UnknownPeer => (e, Refused(404))
      case Empty => (e, Refused(503))
      case Taken(key, rest) =>
        var popped := e.(pool := rest);
        if key.id in e.tables.bindings || fault == BeforePut || fault == BeforeBind then (popped, Failed)
        else match Bound(e.tables, key.id, purpose, p + ":" + key.id, p)
          case None => (popped, Refused(400))
          case Some(bound) => (Ekm(rest, bound), if fault == BeforeAnswer then Failed else Delivered(key, p))
  }

  /** The pool either stays as it was or gives up the front of one queue, whatever the tables hold. */
  ghost predicate AtMostPopped(before: Pool, after: Pool, p: Peer) {
    || after == before
    || (p in before.queues && before.queues[p] != [] && after == before.(queues := before.queues[p := before.queues[p][1..]]))
  }

  lemma WrapPops(c: Settings, e: Ekm, q: WrapRequest, fault: Fault)
    ensures AtMostPopped(e.pool, Wrap(c, e, q, fault).0.pool, c.bindPeer)
  {
  }

  lemma NewKeyPops(e: Ekm, p: Peer, purpose: Purpose, fault: Fault)
    ensures AtMostPopped(e.pool, NewKey(e, p, purpose, fault).0.pool, p)
  {
  }

  // --- the service itself -------------------------------------------------------

  class Service {
    const store: Store
    const pool: KeyPool
    const bindPeer: Peer

    constructor (store: Store, pool: KeyPool, bindPeer: Peer)
      ensures this.store == store && this.pool == pool && this.bindPeer == bindPeer
    {
      this.store := store;
      this.pool := pool;
      this.bindPeer := bindPeer;
    }

    ghost function Contents(): Ekm
      reads store, pool
    {
      Ekm(pool.Contents(), store.Contents())
    }

    ghost function Config(): Settings {
      Settings(bindPeer, store.localKey)
    }

    method HandleWrap(q: WrapRequest, fault: Fault) returns (reply: Reply)
      requires pool.Valid()
      modifies store, pool
      ensures pool.Valid()
      ensures (Contents(), reply) == Wrap(Config(), old(Contents()), q, fault)
    {
      if q.plaintext.None? {
        return Refused(400);
      }
      var answer := store.GetKek(q.obj);
      var kek;
      match answer {
        case Unreadable =>
          return Failed;
        case Kek(material) =>
          kek := material;
        case NoKek =>
          var allocation := pool.Allocate(bindPeer);
          match allocation {
            case UnknownPeer =>
              return Refused(404);
            case Empty =>
              return Refused(503);
            case Taken(key, _) =>
              var consumed := store.IsConsumed(key.id);
              if consumed || fault == BeforePut {
                return Failed;
              }
              store.PutKek(q.obj, key.id, key.material, q.kekNonce);
              if fault == BeforeBind {
                return Failed;
              }
              var _ := store.Bind(key.id, ForEkm, q.obj, bindPeer);
              kek := key.material;
          }
      }
      if fault == BeforeAnswer {
        return Failed;
      }
      reply := Wrapped(Seal(kek, q.nonce, q.plaintext.value, q.aad));
    }

    method HandleUnwrap(obj: ObjectId, blob: Option<Blob>, aad: Bytes) returns (reply: Reply)
      ensures reply == Unwrap(Config(), Contents(), obj, blob, aad)
    {
      var answer := store.GetKek(obj);
      match answer {
        case NoKek =>
          return Refused(404);
        case Unreadable =>
          return Failed;
        case Kek(material) =>
          if blob.None? {
            return Refused(400);
          }
          var recovered := Open(material, blob.value, aad);
          reply := match recovered case None => Refused(400) case Some(plaintext) => Unwrapped(plaintext);
      }
    }

    method HandleNewKey(p: Peer, purpose: Purpose, fault: Fault) returns (reply: Reply)
      requires pool.Valid()
      modifies store, pool
      ensures pool.Valid()
      ensures (Contents(), reply) == NewKey(old(Contents()), p, purpose, fault)
    {
      if purpose == ForEkm {
        return Refused(400);
      }
      var allocation := pool.Allocate(p);
      match allocation {
        case UnknownPeer =>
          return Refused(404);
        case Empty =>
          return Refused(503);
        case Taken(key, _) =>
          var consumed := store.IsConsumed(key.id);
          if consumed || fault == BeforePut || fault == BeforeBind {
            return Failed;
          }
          var alreadyBound := store.Bind(key.id, purpose, p + ":" + key.id, p);
          if alreadyBound {
            return Refused(400);
          }
          if fault == BeforeAnswer {
            return Failed;
          }
          reply := Delivered(key, p);
      }
    }
  }
}
