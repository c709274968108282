/** What each request to the EKM is answered with, exactly, and which blobs and rows do not open. */
module EkmAnswers {
  import opened Options
  import opened Aead
  import opened EkmStore
  import opened KeyPools
  import opened EkmService
  import opened EkmRuns
  import opened EkmUnits
  import opened EkmRoundTrip
  import opened EkmPools
  import opened EkmNames

  // --- unwrapping -------------------------------------------------------------------------

  /** The object's row was sealed for it under the local key, and holds `m`. */
  ghost predicate Holds(c: Settings, t: Tables, obj: ObjectId, m: Bytes) {
    obj in t.kek && exists nonce :: t.kek[obj].material == Sealed(c.localKey, nonce, Encode(obj), m)
  }

  /** The blob was sealed under the KEK `m` with this associated data. */
  ghost predicate SealedUnder(blob: Option<Blob>, m: Bytes, aad: Bytes, p: Bytes) {
    exists nonce :: blob == Some(Sealed(m, nonce, aad, p))
  }

  lemma HoldsExactly(c: Settings, t: Tables, obj: ObjectId, m: Bytes)
    ensures Holds(c, t, obj, m) <==> ReadKek(t, c.localKey, obj) == Kek(m)
  {
    hide Encode;
    if ReadKek(t, c.localKey, obj) == Kek(m) {
      var x := t.kek[obj].material;
      assert x == Sealed(c.localKey, x.nonce, Encode(obj), m);
    }
  }

  lemma SealedExactly(blob: Blob, m: Bytes, aad: Bytes, p: Bytes)
    ensures SealedUnder(Some(blob), m, aad, p) <==> Open(m, blob, aad) == Some(p)
  {
    if Open(m, blob, aad) == Some(p) {
      assert blob == Sealed(m, blob.nonce, aad, p);
    }
  }

  /** What an unwrap is answered with, for any tables whatever. */
  lemma UnwrapExactly(c: Settings, e: Ekm, obj: ObjectId, blob: Option<Blob>, aad: Bytes)
    ensures forall p ::
      (Unwrap(c, e, obj, blob, aad) == Unwrapped(p) <==> exists m :: Holds(c, e.tables, obj, m) && SealedUnder(blob, m, aad, p))
    ensures Unwrap(c, e, obj, blob, aad) == Refused(404) <==> obj !in e.tables.kek
    ensures Unwrap(c, e, obj, blob, aad) == Refused(400)
      <==> exists m :: Holds(c, e.tables, obj, m) && forall p :: !SealedUnder(blob, m, aad, p)
    ensures Unwrap(c, e, obj, blob, aad) == Failed
      <==> obj in e.tables.kek && forall m :: !Holds(c, e.tables, obj, m)
  {
    forall m ensures Holds(c, e.tables, obj, m) <==> ReadKek(e.tables, c.localKey, obj) == Kek(m) {
      HoldsExactly(c, e.tables, obj, m);
    }
    if blob.Some? {
      forall m, p ensures SealedUnder(blob, m, aad, p) <==> Open(m, blob.value, aad) == Some(p) {
        SealedExactly(blob.value, m, aad, p);
      }
    }
    assert ReadKek(e.tables, c.localKey, obj) == NoKek <==> obj !in e.tables.kek;
    hide ReadKek, Holds, Open;
    var kek := ReadKek(e.tables, c.localKey, obj);
    if kek.Kek? {
      assert Holds(c, e.tables, obj, kek.material);
      var answer := if blob.Some? then Open(kek.material, blob.value, aad) else None;
      assert answer.Some? ==> SealedUnder(blob, kek.material, aad, answer.value);
    }
  }

  // --- on every run -------------------------------------------------------------------------

  lemma DurableFromBegin(c: Config, peers: set<Peer>, pullers: nat, now: real, events: seq<Event>)
    requires Run(c, Begin(peers, pullers, now), events).Some?
    ensures Durable(c, Run(c, Begin(peers, pullers, now), events).value)
  {
    assert Durable(c, Begin(peers, pullers, now)) by { PlacedAtFirst(peers, pullers, now); }
    hide *;
    DurableRun(c, Begin(peers, pullers, now), events);
  }

  /** Some run of some EKM with this configuration leads here. */
  ghost predicate Reached(c: Config, w: World) {
    exists peers: set<Peer>, pullers: nat, now: real, events: seq<Event> :: Run(c, Begin(peers, pullers, now), events) == Some(w)
  }

  lemma ReachedSound(c: Config, w: World)
    requires Reached(c, w)
    ensures Durable(c, w) && Placed(w) && Named(w.ekm.tables)
  {
    var peers: set<Peer>, pullers: nat, now: real, events: seq<Event> :| Run(c, Begin(peers, pullers, now), events) == Some(w);
    DurableFromBegin(c, peers, pullers, now, events);
    NamedRun(c, peers, pullers, now, events);
    hide Run, Begin, Named, Placed;
  }

  /** The KEK an object has now. */
  function KekNow(w: World, obj: ObjectId): Bytes
    requires obj in w.ekm.tables.kek && w.ekm.tables.kek[obj].material.Sealed?
  {
    w.ekm.tables.kek[obj].material.plaintext
  }

  /** A blob that was returned opens for an object with the same KEK and with the associated data it was made with. */
  lemma AnswerOpensExactly(c: Config, w: World, a: Answered, obj: ObjectId, aad: Bytes)
    requires Durable(c, w) && a in w.answered
    ensures a.obj in w.ekm.tables.kek && w.ekm.tables.kek[a.obj].material.Sealed?
    ensures obj in w.ekm.tables.kek ==> w.ekm.tables.kek[obj].material.Sealed?
    ensures Unwrap(c.settings, w.ekm, obj, Some(a.blob), aad)
         == if obj !in w.ekm.tables.kek then Refused(404)
            else if KekNow(w, obj) == KekNow(w, a.obj) && aad == a.aad then Unwrapped(a.plaintext)
            else Refused(400)
  {
    hide Placed, BoundUnlessInterrupted, Encode;
  }

  /**
   * However long ago a wrap returned a blob: asked to unwrap it for any object and any associated data, the EKM answers
   * with the plaintext if the associated data is the same and the KEK the same, and refuses otherwise; so for its own
   * object it is refused under all other associated data.
   */
  lemma BlobsOpenExactly(c: Config, peers: set<Peer>, pullers: nat, now: real, before: seq<Event>,
                         q: WrapRequest, fault: Fault, after: seq<Event>, obj: ObjectId, aad: Bytes)
    requires Run(c, Begin(peers, pullers, now), before).Some?
    requires var w := Run(c, Begin(peers, pullers, now), before).value;
      && Wrap(c.settings, w.ekm, q, fault).1.Wrapped?
      && Run(c, Next(c, w, WrapCall(q, fault)), after).Some?
    ensures var w := Run(c, Begin(peers, pullers, now), before).value;
      var blob := Wrap(c.settings, w.ekm, q, fault).1.blob;
      var v := Run(c, Next(c, w, WrapCall(q, fault)), after).value;
      && q.plaintext.Some?
      && q.obj in v.ekm.tables.kek && v.ekm.tables.kek[q.obj].material.Sealed?
      && (obj in v.ekm.tables.kek ==> v.ekm.tables.kek[obj].material.Sealed?)
      && Unwrap(c.settings, v.ekm, obj, Some(blob), aad)
         == if obj !in v.ekm.tables.kek then Refused(404)
            else if KekNow(v, obj) == KekNow(v, q.obj) && aad == q.aad then Unwrapped(q.plaintext.value)
            else Refused(400)
  {
    var w := Run(c, Begin(peers, pullers, now), before).value;
    DurableFromBegin(c, peers, pullers, now, before);
    hide Durable, Run, Begin;
    var ev := WrapCall(q, fault);
    var a := Answered(q.obj, q.aad, q.plaintext.value, Wrap(c.settings, w.ekm, q, fault).1.blob);
    assert a in Next(c, w, ev).answered by { hide Wrap; }
    DurableStep(c, w, ev);
    DurableRun(c, Next(c, w, ev), after);
    AnswerOpensExactly(c, Run(c, Next(c, w, ev), after).value, a, obj, aad);
  }

  /** Bytes that no key sealed, and what is no base64, are never unwrapped, and no unwrap fails with a 500. */
  lemma ForeignRefused(c: Config, w: World, obj: ObjectId, raw: Bytes, aad: Bytes)
    requires Reached(c, w)
    ensures forall blob | blob == Some(Foreign(raw)) || blob == None ::
      Unwrap(c.settings, w.ekm, obj, blob, aad) == Refused(if obj in w.ekm.tables.kek then 400 else 404)
    ensures forall blob :: Unwrap(c.settings, w.ekm, obj, blob, aad) != Failed
  {
    ReachedSound(c, w);
    hide Reached, Placed, Recoverable, BoundUnlessInterrupted, Encode;
  }

  // --- wrapping and fresh keys ----------------------------------------------------------------

  /** Some key is pooled for this peer. */
  predicate Pooled(w: World, p: Peer) {
    p in w.ekm.pool.queues && w.ekm.pool.queues[p] != []
  }

  /** On every run, what an uninterrupted wrap is answered with: it never fails with a 500, nor for being bound already. */
  lemma WrapAnswersExactly(c: Config, w: World, q: WrapRequest)
    requires Reached(c, w)
    ensures var reply, p, t := Wrap(c.settings, w.ekm, q, NoFault).1, c.settings.bindPeer, w.ekm.tables;
      && (reply == Refused(400) <==> q.plaintext.None?)
      && (reply == Refused(404) <==> q.plaintext.Some? && q.obj !in t.kek && p !in w.ekm.pool.queues)
      && (reply == Refused(503) <==> q.plaintext.Some? && q.obj !in t.kek && p in w.ekm.pool.queues && !Pooled(w, p))
      && (reply.Wrapped? <==> q.plaintext.Some? && (q.obj in t.kek || Pooled(w, p)))
  {
    ReachedSound(c, w);
    hide Reached;
    if q.plaintext.Some? && q.obj in w.ekm.tables.kek {
      hide Placed, Recoverable, BoundUnlessInterrupted;
      WrapAgain(c.settings, w.ekm, q, NoFault);
      hide Wrap;
    } else if q.plaintext.Some? && Pooled(w, c.settings.bindPeer) {
      FirstUseCommits(c.settings, w, q, NoFault);
      hide Wrap, Durable;
    } else {
      hide Durable, FirstUse;
    }
  }

  /** On every run, what an uninterrupted request for a fresh key is answered with. */
  lemma NewKeyAnswersExactly(c: Config, w: World, p: Peer, purpose: Purpose)
    requires Reached(c, w)
    ensures var reply := NewKey(w.ekm, p, purpose, NoFault).1;
      && (reply == Refused(400) <==> purpose == ForEkm || (Pooled(w, p) && Collides(w, p, purpose)))
      && (reply == Refused(404) <==> purpose != ForEkm && p !in w.ekm.pool.queues)
      && (reply == Refused(503) <==> purpose != ForEkm && p in w.ekm.pool.queues && !Pooled(w, p))
      && (reply.Delivered? <==> purpose != ForEkm && Pooled(w, p) && !Collides(w, p, purpose))
      && (reply.Delivered? ==> reply == Delivered(w.ekm.pool.queues[p][0].key, p))
  {
    ReachedSound(c, w);
    if purpose != ForEkm && Pooled(w, p) {
      assert w.ekm.pool.queues[p] != [];
      hide *;
      RefusedAt(c, w, p, purpose);
      PooledIsUnbound(w, p, 0);
      PoppedAnswer(w.ekm, p, purpose);
    } else {
      hide Reached, Durable, Placed, Named, Bound;
    }
  }

  /** A delivered key is, identifier and bytes, the one the source sent next among those for this peer. */
  lemma DeliveredAsReceived(c: Config, peers: set<Peer>, pullers: nat, now: real, events: seq<Event>,
                            p: Peer, purpose: Purpose, fault: Fault)
    requires Run(c, Begin(peers, pullers, now), events).Some?
    requires NewKey(Run(c, Begin(peers, pullers, now), events).value.ekm, p, purpose, fault).1.Delivered?
    ensures var w := Run(c, Begin(peers, pullers, now), events).value;
      var n := |Past(w.removed, p)|;
      && n < |Past(w.received, p)|
      && NewKey(w.ekm, p, purpose, fault).1 == Delivered(Past(w.received, p)[n].key, p)
  {
    FirstInFirstOut(c, peers, pullers, now, events);
    var w := Run(c, Begin(peers, pullers, now), events).value;
    hide Run, Begin, Past;
    assert p in w.ekm.pool.queues && w.ekm.pool.queues[p] != [];
    assert Past(w.removed, p) + w.ekm.pool.queues[p] == Past(w.received, p);
  }

  // --- bindings are for ever --------------------------------------------------------------------

  /** No binding of `a` is missing from `b` or differs in it. */
  predicate Keeps(a: Tables, b: Tables) {
    forall id | id in a.bindings :: id in b.bindings && b.bindings[id] == a.bindings[id]
  }

  lemma KeepsStep(c: Config, w: World, ev: Event)
    requires Possible(c, w, ev)
    ensures Keeps(w.ekm.tables, Next(c, w, ev).ekm.tables)
  {
    TablesFrom(c, w, ev);
    hide Next, Possible, Encode, Open, Occupied;
  }

  lemma {:induction false} KeepsRun(c: Config, w: World, events: seq<Event>)
    requires Run(c, w, events).Some?
    ensures Keeps(w.ekm.tables, Run(c, w, events).value.ekm.tables)
  {
    if events != [] {
      hide Next, Possible;
      var v := LastEvent(c, w, events);
      KeepsRun(c, w, events[..|events| - 1]);
      KeepsStep(c, v, events[|events| - 1]);
    }
  }

  /** A key delivered to a peer for a purpose is bound to just that, under its invented name, at every later point. */
  lemma DeliveryBindsForEver(c: Config, w: World, p: Peer, purpose: Purpose, fault: Fault, after: seq<Event>)
    requires NewKey(w.ekm, p, purpose, fault).1.Delivered?
    requires Run(c, Next(c, w, NewKeyCall(p, purpose, fault)), after).Some?
    ensures var key := NewKey(w.ekm, p, purpose, fault).1.key;
      var t := Run(c, Next(c, w, NewKeyCall(p, purpose, fault)), after).value.ekm.tables;
      key.id in t.bindings && t.bindings[key.id] == Row(purpose, p + ":" + key.id, p)
  {
    hide Run, Past, Move, Ids;
    var key, v := NewKey(w.ekm, p, purpose, fault).1.key, Next(c, w, NewKeyCall(p, purpose, fault));
    assert key.id in v.ekm.tables.bindings && v.ekm.tables.bindings[key.id] == Row(purpose, p + ":" + key.id, p);
    KeepsRun(c, v, after);
    hide NewKey, Next;
  }

  // --- rows belong to their objects -------------------------------------------------------------

  /** A KEK row put under the name of another object never opens there. */
  lemma MovedRowUnreadable(c: Settings, t: Tables, from: ObjectId, to: ObjectId, m: Bytes)
    requires ReadKek(t, c.localKey, from) == Kek(m) && from != to
    ensures ReadKek(t.(kek := t.kek[to := t.kek[from]]), c.localKey, to) == Unreadable
  {
    if Encode(from) == Encode(to) {
      EncodeInjective(from, to);
    }
    hide Encode;
  }
}
