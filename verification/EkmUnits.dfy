/** Single use of QKD units: every issued identifier is in exactly one place, and a spent one stays spent. */
module EkmUnits {
  import opened Aead
  import opened EkmStore
  import opened KeyPools
  import opened EkmService
  import opened EkmRuns

  // --- what the places mean -----------------------------------------------------

  ghost predicate InQueues(queues: Queues, places: map<KeyId, Place>) {
    && (forall p | p in queues :: Distinct(queues[p]) && Ids(queues[p]) == At(places, Queued(p)))
    && (forall id | id in places && places[id].Queued? :: places[id].peer in queues)
  }

  ghost predicate InHands(pullers: seq<Puller>, places: map<KeyId, Place>) {
    && (forall k: nat | k < |pullers| :: Distinct(Batch(pullers[k])) && Ids(Batch(pullers[k])) == At(places, Held(k)))
    && (forall id | id in places && places[id].Held? :: places[id].puller < |pullers|)
  }

  ghost predicate InKeks(kek: map<ObjectId, KekRow>, places: map<KeyId, Place>) {
    && (forall o | o in kek :: At(places, KekOf(o)) == {kek[o].unit})
    && (forall id | id in places && places[id].KekOf? :: places[id].obj in kek)
  }

  ghost predicate InBindings(bindings: map<KeyId, Row>, places: map<KeyId, Place>) {
    && (forall id | id in bindings ::
          id in places && places[id] == if bindings[id].purpose == ForEkm then KekOf(bindings[id].objectId) else Handed)
    && (forall id | id in places && places[id] == Handed :: id in bindings)
  }

  /** Every issued identifier is where the ledger says, and nowhere else. */
  ghost predicate Placed(w: World) {
    && InQueues(w.ekm.pool.queues, w.places)
    && InHands(w.pullers, w.places)
    && InKeks(w.ekm.tables.kek, w.places)
    && InBindings(w.ekm.tables.bindings, w.places)
  }

  predicate Spent(x: Place) {
    x.KekOf? || x.Handed? || x.Expired? || x.Lost?
  }

  // --- moving identifiers ---------------------------------------------------------

  lemma AtMove(places: map<KeyId, Place>, ids: set<KeyId>, x: Place, y: Place)
    ensures At(Move(places, ids, x), y) == if x == y then At(places, y) + ids else At(places, y) - ids
  {
  }

  lemma MoveQueues(queues: Queues, places: map<KeyId, Place>, ids: set<KeyId>, x: Place)
    requires InQueues(queues, places) && !x.Queued?
    requires forall id | id in ids && id in places :: !places[id].Queued?
    ensures InQueues(queues, Move(places, ids, x))
  {
    forall p | p in queues ensures Ids(queues[p]) == At(Move(places, ids, x), Queued(p)) {
      AtMove(places, ids, x, Queued(p));
    }
  }

  lemma MoveHands(pullers: seq<Puller>, places: map<KeyId, Place>, ids: set<KeyId>, x: Place)
    requires InHands(pullers, places) && !x.Held?
    requires forall id | id in ids && id in places :: !places[id].Held?
    ensures InHands(pullers, Move(places, ids, x))
  {
    forall k: nat | k < |pullers| ensures Ids(Batch(pullers[k])) == At(Move(places, ids, x), Held(k)) {
      AtMove(places, ids, x, Held(k));
    }
  }

  lemma MoveKeks(kek: map<ObjectId, KekRow>, places: map<KeyId, Place>, ids: set<KeyId>, x: Place)
    requires InKeks(kek, places) && !x.KekOf?
    requires forall id | id in ids && id in places :: !places[id].KekOf?
    ensures InKeks(kek, Move(places, ids, x))
  {
    forall o | o in kek ensures At(Move(places, ids, x), KekOf(o)) == {kek[o].unit} {
      AtMove(places, ids, x, KekOf(o));
    }
  }

  lemma MoveBindings(bindings: map<KeyId, Row>, places: map<KeyId, Place>, ids: set<KeyId>, x: Place)
    requires InBindings(bindings, places) && !x.Handed?
    requires forall id | id in ids && id in places :: !places[id].KekOf? && !places[id].Handed?
    ensures InBindings(bindings, Move(places, ids, x))
  {
  }

  /** The first `m` identifiers leave a queue. */
  lemma LeaveQueue(queues: Queues, places: map<KeyId, Place>, p: Peer, m: nat, x: Place)
    requires InQueues(queues, places) && p in queues && m <= |queues[p]| && !x.Queued?
    ensures Ids(queues[p][..m]) <= At(places, Queued(p))
    ensures InQueues(queues[p := queues[p][m..]], Move(places, Ids(queues[p][..m]), x))
  {
    var q := queues[p];
    var ids := Ids(q[..m]);
    assert q == q[..m] + q[m..];
    assert Ids(q) == ids + Ids(q[m..]);
    assert ids !! Ids(q[m..]) by {
      forall a, b | a in q[..m] && b in q[m..] ensures a.key.id != b.key.id {
        var i :| 0 <= i < m && q[i] == a;
        var j :| m <= j < |q| && q[j] == b;
      }
    }
    forall r | r in queues ensures Ids(queues[p := q[m..]][r]) == At(Move(places, ids, x), Queued(r)) {
      AtMove(places, ids, x, Queued(r));
      if r != p {
        assert At(places, Queued(r)) !! At(places, Queued(p));
      }
    }
  }

  /** A whole batch joins the back of a queue. */
  lemma JoinQueue(queues: Queues, places: map<KeyId, Place>, p: Peer, batch: seq<Entry>)
    requires InQueues(queues, places) && p in queues && Distinct(batch)
    requires forall id | id in Ids(batch) && id in places :: !places[id].Queued?
    ensures InQueues(queues[p := queues[p] + batch], Move(places, Ids(batch), Queued(p)))
  {
    var q := queues[p];
    var ids := Ids(batch);
    assert Ids(q + batch) == Ids(q) + ids;
    assert Ids(q) !! ids;
    assert Distinct(q + batch) by {
      forall i, j | 0 <= i < j < |q + batch| ensures (q + batch)[i].key.id != (q + batch)[j].key.id {
        if i < |q| <= j {
          assert q[i].key.id in Ids(q) && batch[j - |q|].key.id in ids;
        }
      }
    }
    forall r | r in queues ensures Ids(queues[p := q + batch][r]) == At(Move(places, ids, Queued(p)), Queued(r)) {
      AtMove(places, ids, Queued(p), Queued(r));
    }
  }

  /** One puller's batch is taken out of its hands, or put into them. */
  lemma ChangeHands(pullers: seq<Puller>, places: map<KeyId, Place>, k: nat, puller: Puller, x: Place)
    requires InHands(pullers, places) && k < |pullers| && Distinct(Batch(puller))
    requires if puller.Holding? then x == Held(k) && Batch(pullers[k]) == [] && Ids(Batch(puller)) !! places.Keys else !x.Held?
    ensures var ids := if puller.Holding? then Ids(Batch(puller)) else Ids(Batch(pullers[k]));
      InHands(pullers[k := puller], Move(places, ids, x))
  {
    var ids := if puller.Holding? then Ids(Batch(puller)) else Ids(Batch(pullers[k]));
    forall j: nat | j < |pullers|
      ensures Ids(Batch(pullers[k := puller][j])) == At(Move(places, ids, x), Held(j))
    {
      AtMove(places, ids, x, Held(j));
      if j != k {
        assert At(places, Held(j)) !! At(places, Held(k));
      }
    }
  }

  // --- what the handlers use ----------------------------------------------------------

  /** A pooled key is never consumed, so the assertion in `allocate` holds and its INSERT meets no primary key. */
  lemma PooledIsUnbound(w: World, p: Peer, i: nat)
    requires Placed(w) && p in w.ekm.pool.queues && i < |w.ekm.pool.queues[p]|
    ensures var id := w.ekm.pool.queues[p][i].key.id;
      id in w.places && w.places[id] == Queued(p) && id !in w.ekm.tables.bindings
  {
    var e := w.ekm.pool.queues[p][i];
    assert e in w.ekm.pool.queues[p];
    assert e.key.id in Ids(w.ekm.pool.queues[p]);
  }

  /** An object without a KEK row has no `ekm` binding. */
  lemma UnkeyedIsUnbound(t: Tables, places: map<KeyId, Place>, obj: ObjectId)
    requires InKeks(t.kek, places) && InBindings(t.bindings, places) && obj !in t.kek
    ensures !Occupied(t, ForEkm, obj)
  {
  }

  /** The first use of an external key commits a row for the popped unit, and its binding meets no constraint. */
  lemma FirstUseCommits(c: Settings, w: World, q: WrapRequest, fault: Fault)
    requires Placed(w) && c.bindPeer in w.ekm.pool.queues && w.ekm.pool.queues[c.bindPeer] != []
    requires q.plaintext.Some? && q.obj !in w.ekm.tables.kek
    ensures var p := c.bindPeer;
      var key := w.ekm.pool.queues[p][0].key;
      var out := Wrap(c, w.ekm, q, fault);
      && out.0.pool == w.ekm.pool.(queues := w.ekm.pool.queues[p := w.ekm.pool.queues[p][1..]])
      && out.0.tables.kek == (if fault == BeforePut then w.ekm.tables.kek
                              else WithKek(w.ekm.tables, c.localKey, q.obj, key.id, key.material, q.kekNonce).kek)
      && out.0.tables.bindings == (if fault == BeforePut || fault == BeforeBind then w.ekm.tables.bindings
                                   else w.ekm.tables.bindings[key.id := Row(ForEkm, q.obj, p)])
      && out.1 == (if fault == NoFault then Wrapped(Seal(key.material, q.nonce, q.plaintext.value, q.aad)) else Failed)
  {
    var p := c.bindPeer;
    var key := w.ekm.pool.queues[p][0].key;
    PooledIsUnbound(w, p, 0);
    UnkeyedIsUnbound(w.ekm.tables, w.places, q.obj);
    assert !Occupied(WithKek(w.ekm.tables, c.localKey, q.obj, key.id, key.material, q.kekNonce), ForEkm, q.obj) by {
      assert !Occupied(w.ekm.tables, ForEkm, q.obj);
    }
  }

  // --- every step keeps every identifier in its place -----------------------------------

  lemma PlacedFirstUse(c: Config, w: World, q: WrapRequest, fault: Fault)
    requires Placed(w) && c.settings.bindPeer in w.ekm.pool.queues && w.ekm.pool.queues[c.settings.bindPeer] != []
    requires q.plaintext.Some? && q.obj !in w.ekm.tables.kek
    ensures Placed(Next(c, w, WrapCall(q, fault)))
  {
    hide Wrap, InQueues, InHands;
    var p := c.settings.bindPeer;
    var front := w.ekm.pool.queues[p];
    var id := front[0].key.id;
    var v := Next(c, w, WrapCall(q, fault));
    FirstUseCommits(c.settings, w, q, fault);
    PooledIsUnbound(w, p, 0);
    assert front[..1] == [front[0]];
    assert Ids(front[..1]) == {id};
    var x := if fault == BeforePut then Lost else KekOf(q.obj);
    assert v.places == Move(w.places, {id}, x) by {
      assert q.obj !in w.ekm.tables.kek;
    }
    LeaveQueue(w.ekm.pool.queues, w.places, p, 1, x);
    MoveHands(w.pullers, w.places, {id}, x);
    if fault == BeforePut {
      MoveKeks(w.ekm.tables.kek, w.places, {id}, x);
      MoveBindings(w.ekm.tables.bindings, w.places, {id}, x);
    } else {
      NewKek(w.ekm.tables, w.places, q.obj, v.ekm.tables.kek[q.obj], Row(ForEkm, q.obj, p));
    }
  }

  /** A pooled identifier becomes the unit of an unkeyed object, with or without its binding. */
  lemma NewKek(t: Tables, places: map<KeyId, Place>, obj: ObjectId, row: KekRow, binding: Row)
    requires InKeks(t.kek, places) && InBindings(t.bindings, places) && obj !in t.kek
    requires row.unit in places && places[row.unit].Queued?
    requires binding.purpose == ForEkm && binding.objectId == obj
    ensures var after := Move(places, {row.unit}, KekOf(obj));
      InKeks(t.kek[obj := row], after) && InBindings(t.bindings, after) && InBindings(t.bindings[row.unit := binding], after)
  {
    var after := Move(places, {row.unit}, KekOf(obj));
    forall o | o in t.kek[obj := row] ensures At(after, KekOf(o)) == {t.kek[obj := row][o].unit} {
      AtMove(places, {row.unit}, KekOf(obj), KekOf(o));
      if o == obj {
        assert At(places, KekOf(o)) == {};
      } else {
        assert row.unit !in At(places, KekOf(o));
      }
    }
  }

  lemma PlacedWrap(c: Config, w: World, q: WrapRequest, fault: Fault)
    requires Placed(w)
    ensures Placed(Next(c, w, WrapCall(q, fault)))
  {
    var p := c.settings.bindPeer;
    if p in w.ekm.pool.queues && w.ekm.pool.queues[p] != [] && q.plaintext.Some? && q.obj !in w.ekm.tables.kek {
      PlacedFirstUse(c, w, q, fault);
    } else {
      hide InQueues, InHands, InKeks, InBindings, Bound, Occupied, WithKek, FirstUse;
      assert Wrap(c.settings, w.ekm, q, fault).0 == w.ekm;
      NothingGone(w, p, Lost);
    }
  }

  /** Serving nothing moves nothing. */
  lemma NothingGone(w: World, p: Peer, x: Place)
    ensures p in w.ekm.pool.queues ==> Served(w, w.ekm, p, x).places == w.places
  {
    if p in w.ekm.pool.queues {
      assert w.ekm.pool.queues[p][..0] == [];
    }
  }

  /** A request for a fresh key pops one and commits at most its binding. */
  lemma NewKeyCommits(e: Ekm, p: Peer, purpose: Purpose, fault: Fault)
    requires p in e.pool.queues && e.pool.queues[p] != [] && purpose != ForEkm
    ensures var id := e.pool.queues[p][0].key.id;
      var after := NewKey(e, p, purpose, fault).0;
      && after.pool == e.pool.(queues := e.pool.queues[p := e.pool.queues[p][1..]])
      && (after.tables == e.tables || after.tables == e.tables.(bindings := e.tables.bindings[id := Row(purpose, p + ":" + id, p)]))
  {
  }

  /** A pooled identifier is handed over under a binding of its own. */
  lemma NewDelivery(bindings: map<KeyId, Row>, places: map<KeyId, Place>, id: KeyId, row: Row)
    requires InBindings(bindings, places) && row.purpose != ForEkm
    requires id in places && places[id].Queued?
    ensures InBindings(bindings[id := row], Move(places, {id}, Handed))
  {
  }

  lemma PlacedDelivery(c: Config, w: World, p: Peer, purpose: Purpose, fault: Fault)
    requires Placed(w) && p in w.ekm.pool.queues && w.ekm.pool.queues[p] != [] && purpose != ForEkm
    ensures Placed(Next(c, w, NewKeyCall(p, purpose, fault)))
  {
    hide InQueues, InHands, InKeks, InBindings, NewKey, Move, Past;
    var front := w.ekm.pool.queues[p];
    var id := front[0].key.id;
    var e := NewKey(w.ekm, p, purpose, fault).0;
    NewKeyCommits(w.ekm, p, purpose, fault);
    PooledIsUnbound(w, p, 0);
    FrontIds(front);
    hide Ids;
    var x := if e.tables == w.ekm.tables then Lost else Handed;
    LeaveQueue(w.ekm.pool.queues, w.places, p, 1, x);
    MoveHands(w.pullers, w.places, {id}, x);
    MoveKeks(w.ekm.tables.kek, w.places, {id}, x);
    if x == Lost {
      MoveBindings(w.ekm.tables.bindings, w.places, {id}, x);
    } else {
      NewDelivery(w.ekm.tables.bindings, w.places, id, Row(purpose, p + ":" + id, p));
    }
  }

  lemma FrontIds(front: seq<Entry>)
    requires front != []
    ensures front[..1] == [front[0]] && Ids(front[..1]) == {front[0].key.id}
  {
    assert front[..1] == [front[0]];
  }

  lemma PlacedNewKey(c: Config, w: World, p: Peer, purpose: Purpose, fault: Fault)
    requires Placed(w)
    ensures Placed(Next(c, w, NewKeyCall(p, purpose, fault)))
  {
    if p in w.ekm.pool.queues && w.ekm.pool.queues[p] != [] && purpose != ForEkm {
      PlacedDelivery(c, w, p, purpose, fault);
    } else {
      hide InQueues, InHands, InKeks, InBindings;
      NothingGone(w, p, Lost);
    }
  }

  lemma PlacedEvict(c: Config, w: World, p: Peer, cutoff: real)
    requires Placed(w) && Possible(c, w, Evict(p, cutoff))
    ensures Placed(Next(c, w, Evict(p, cutoff)))
  {
    hide InQueues, InHands, InKeks, InBindings;
    var q := w.ekm.pool.queues[p];
    var m := |q| - |DropOlder(q, cutoff)|;
    LeaveQueue(w.ekm.pool.queues, w.places, p, m, Expired);
    var ids := Ids(q[..m]);
    MoveHands(w.pullers, w.places, ids, Expired);
    MoveKeks(w.ekm.tables.kek, w.places, ids, Expired);
    MoveBindings(w.ekm.tables.bindings, w.places, ids, Expired);
  }

  lemma PlacedAnswer(c: Config, w: World, k: nat, keys: seq<Key>)
    requires Placed(w) && Possible(c, w, SourceAnswers(k, keys))
    ensures Placed(Next(c, w, SourceAnswers(k, keys)))
  {
    hide InQueues, InHands, InKeks, InBindings;
    var batch := Stamp(keys, w.now);
    ChangeHands(w.pullers, w.places, k, Holding(w.pullers[k].peer, batch), Held(k));
    MoveQueues(w.ekm.pool.queues, w.places, Ids(batch), Held(k));
    MoveKeks(w.ekm.tables.kek, w.places, Ids(batch), Held(k));
    MoveBindings(w.ekm.tables.bindings, w.places, Ids(batch), Held(k));
  }

  lemma PlacedAppend(c: Config, w: World, k: nat)
    requires Placed(w) && Possible(c, w, AppendBatch(k))
    ensures Placed(Next(c, w, AppendBatch(k)))
  {
    hide InQueues, InKeks, InBindings;
    var p, batch := w.pullers[k].peer, w.pullers[k].batch;
    var ids := Ids(batch);
    assert Distinct(Batch(w.pullers[k])) && ids == At(w.places, Held(k));
    hide InHands;
    JoinQueue(w.ekm.pool.queues, w.places, p, batch);
    ChangeHands(w.pullers, w.places, k, Idle, Queued(p));
    MoveKeks(w.ekm.tables.kek, w.places, ids, Queued(p));
    MoveBindings(w.ekm.tables.bindings, w.places, ids, Queued(p));
  }

  /** With the pool and the pullers' hands emptied, nothing is left in them. */
  lemma NothingVolatile(queues: Queues, pullers: seq<Puller>, places: map<KeyId, Place>)
    requires forall id | id in places :: !places[id].Held? && !places[id].Queued?
    requires (forall p | p in queues :: queues[p] == []) && (forall k: nat | k < |pullers| :: pullers[k].Idle?)
    ensures InQueues(queues, places) && InHands(pullers, places)
  {
  }

  lemma PlacedRestart(c: Config, w: World, at: real)
    requires Placed(w)
    ensures Placed(Next(c, w, Restart(at)))
  {
    hide InKeks, InBindings, InQueues, InHands;
    var v := Next(c, w, Restart(at));
    var ids := Volatile(w.places);
    NothingVolatile(v.ekm.pool.queues, v.pullers, v.places);
    MoveKeks(w.ekm.tables.kek, w.places, ids, Lost);
    MoveBindings(w.ekm.tables.bindings, w.places, ids, Lost);
  }

  /** A puller that held nothing still holds nothing. */
  lemma PlacedPuller(c: Config, w: World, ev: Event)
    requires Placed(w) && Possible(c, w, ev) && (ev.Tick? || ev.ReadSize? || ev.SourceFails?)
    ensures Placed(Next(c, w, ev))
  {
    hide InQueues, InKeks, InBindings;
  }

  lemma PlacedStep(c: Config, w: World, ev: Event)
    requires Placed(w) && Possible(c, w, ev)
    ensures Placed(Next(c, w, ev))
  {
    hide Placed, Next, Possible;
    match ev
    case Tick(_) => PlacedPuller(c, w, ev);
    case ReadSize(_, _) => PlacedPuller(c, w, ev);
    case SourceFails(_, _) => PlacedPuller(c, w, ev);
    case SourceAnswers(k, keys) => PlacedAnswer(c, w, k, keys);
    case AppendBatch(k) => PlacedAppend(c, w, k);
    case Evict(p, cutoff) => PlacedEvict(c, w, p, cutoff);
    case WrapCall(q, fault) => PlacedWrap(c, w, q, fault);
    case NewKeyCall(p, purpose, fault) => PlacedNewKey(c, w, p, purpose, fault);
    case Restart(at) => PlacedRestart(c, w, at);
  }

  // --- whole runs -----------------------------------------------------------------------

  lemma PlacedAtFirst(peers: set<Peer>, pullers: nat, now: real)
    ensures Placed(Begin(peers, pullers, now))
  {
  }

  lemma {:induction false} PlacedRun(c: Config, w: World, events: seq<Event>)
    requires Placed(w) && Run(c, w, events).Some?
    ensures Placed(Run(c, w, events).value)
  {
    hide Placed, Next, Possible;
    if events != [] {
      var v := LastEvent(c, w, events);
      PlacedRun(c, w, events[..|events| - 1]);
      PlacedStep(c, v, events[|events| - 1]);
    }
  }

  /** Serving a request moves pooled identifiers only. */
  lemma ServingMovesPooled(w: World, e: Ekm, p: Peer, x: Place, id: KeyId)
    requires Placed(w) && id in w.places && Spent(w.places[id])
    requires p in w.ekm.pool.queues && p in e.pool.queues && |e.pool.queues[p]| <= |w.ekm.pool.queues[p]|
    ensures var after := Served(w, e, p, x).places; id in after && after[id] == w.places[id]
  {
    hide InHands, InKeks, InBindings;
    var q := w.ekm.pool.queues[p];
    assert id !in At(w.places, Queued(p));
  }

  lemma SpentThroughHandlers(c: Config, w: World, ev: Event, id: KeyId)
    requires Placed(w) && Possible(c, w, ev) && id in w.places && Spent(w.places[id])
    requires ev.Evict? || ev.WrapCall? || ev.NewKeyCall?
    ensures var after := Next(c, w, ev).places; id in after && after[id] == w.places[id]
  {
    hide Placed, Served, Wrap, NewKey;
    match ev
    case Evict(p, cutoff) =>
      var q := w.ekm.pool.queues;
      ServingMovesPooled(w, w.ekm.(pool := w.ekm.pool.(queues := q[p := DropOlder(q[p], cutoff)])), p, Expired, id);
    case WrapCall(q, fault) =>
      var p := c.settings.bindPeer;
      var e := Wrap(c.settings, w.ekm, q, fault).0;
      WrapPops(c.settings, w.ekm, q, fault);
      if p in w.ekm.pool.queues {
        ServingMovesPooled(w, e, p, if e.tables.kek == w.ekm.tables.kek then Lost else KekOf(q.obj), id);
      }
    case NewKeyCall(p, purpose, fault) =>
      var e := NewKey(w.ekm, p, purpose, fault).0;
      NewKeyPops(w.ekm, p, purpose, fault);
      if p in w.ekm.pool.queues {
        ServingMovesPooled(w, e, p, if e.tables == w.ekm.tables then Lost else Handed, id);
      }
  }

  /** A spent identifier stays exactly where it was spent. */
  lemma SpentStays(c: Config, w: World, ev: Event, id: KeyId)
    requires Placed(w) && Possible(c, w, ev) && id in w.places && Spent(w.places[id])
    ensures var after := Next(c, w, ev).places; id in after && after[id] == w.places[id]
  {
    if ev.Evict? || ev.WrapCall? || ev.NewKeyCall? {
      SpentThroughHandlers(c, w, ev, id);
    } else {
      hide InQueues, InKeks, InBindings, Wrap, NewKey, AfterWrap, Served;
      if ev.AppendBatch? {
        assert id !in At(w.places, Held(ev.k));
      }
    }
  }

  lemma {:induction false} SpentForEver(c: Config, w: World, events: seq<Event>, id: KeyId)
    requires Placed(w) && Run(c, w, events).Some? && id in w.places && Spent(w.places[id])
    ensures var after := Run(c, w, events).value.places; id in after && after[id] == w.places[id]
  {
    hide Placed, Next, Possible;
    if events != [] {
      var v := LastEvent(c, w, events);
      PlacedRun(c, w, events[..|events| - 1]);
      SpentForEver(c, w, events[..|events| - 1], id);
      SpentStays(c, v, events[|events| - 1], id);
    }
  }

  /** An identifier is in use by the tables. */
  predicate InTables(t: Tables, id: KeyId) {
    id in t.bindings || exists o | o in t.kek :: t.kek[o].unit == id
  }

  /** Whether an identifier is where its place says. */
  ghost predicate Found(w: World, id: KeyId)
    requires id in w.places
  {
    match w.places[id]
    case Held(k) => k < |w.pullers| && id in Ids(Batch(w.pullers[k]))
    case Queued(p) => p in w.ekm.pool.queues && id in Ids(w.ekm.pool.queues[p])
    case KekOf(o) => o in w.ekm.tables.kek && w.ekm.tables.kek[o].unit == id
    case Handed => id in w.ekm.tables.bindings && w.ekm.tables.bindings[id].purpose != ForEkm
    case _ => !InTables(w.ekm.tables, id)
  }

  /** No identifier serves twice, and none is pooled once it serves or is gone. */
  ghost predicate SingleUse(w: World) {
    && (forall p, q, i: nat, j: nat | p in w.ekm.pool.queues && q in w.ekm.pool.queues
          && i < |w.ekm.pool.queues[p]| && j < |w.ekm.pool.queues[q]|
          && w.ekm.pool.queues[p][i].key.id == w.ekm.pool.queues[q][j].key.id :: p == q && i == j)
    && (forall p, e | p in w.ekm.pool.queues && e in w.ekm.pool.queues[p] :: !InTables(w.ekm.tables, e.key.id))
    && (forall a, b | a in w.ekm.tables.kek && b in w.ekm.tables.kek
          && w.ekm.tables.kek[a].unit == w.ekm.tables.kek[b].unit :: a == b)
    && (forall o, id | o in w.ekm.tables.kek && id in w.ekm.tables.bindings && w.ekm.tables.kek[o].unit == id ::
          w.ekm.tables.bindings[id].purpose == ForEkm && w.ekm.tables.bindings[id].objectId == o)
  }

  lemma PooledOnce(w: World, p: Peer, q: Peer, i: nat, j: nat)
    requires Placed(w) && p in w.ekm.pool.queues && q in w.ekm.pool.queues
    requires i < |w.ekm.pool.queues[p]| && j < |w.ekm.pool.queues[q]|
    requires w.ekm.pool.queues[p][i].key.id == w.ekm.pool.queues[q][j].key.id
    ensures p == q && i == j
  {
    PooledIsUnbound(w, p, i);
    PooledIsUnbound(w, q, j);
    assert Distinct(w.ekm.pool.queues[p]);
  }

  lemma UnitsAreKeks(w: World, o: ObjectId)
    requires Placed(w) && o in w.ekm.tables.kek
    ensures var id := w.ekm.tables.kek[o].unit; id in w.places && w.places[id] == KekOf(o)
  {
    assert w.ekm.tables.kek[o].unit in At(w.places, KekOf(o));
  }

  lemma PlacedMeansSingleUse(w: World)
    requires Placed(w)
    ensures SingleUse(w)
  {
    forall p, q, i: nat, j: nat | p in w.ekm.pool.queues && q in w.ekm.pool.queues
      && i < |w.ekm.pool.queues[p]| && j < |w.ekm.pool.queues[q]|
      && w.ekm.pool.queues[p][i].key.id == w.ekm.pool.queues[q][j].key.id
      ensures p == q && i == j
    {
      PooledOnce(w, p, q, i, j);
    }
    forall o | o in w.ekm.tables.kek
      ensures var id := w.ekm.tables.kek[o].unit; id in w.places && w.places[id] == KekOf(o)
    {
      UnitsAreKeks(w, o);
    }
    forall p, e | p in w.ekm.pool.queues && e in w.ekm.pool.queues[p] ensures !InTables(w.ekm.tables, e.key.id) {
      hide Placed;
      var i :| 0 <= i < |w.ekm.pool.queues[p]| && w.ekm.pool.queues[p][i] == e;
      PooledIsUnbound(w, p, i);
    }
    hide InQueues, InHands;
  }

  lemma PlacedMeansFound(w: World, id: KeyId)
    requires Placed(w) && id in w.places
    ensures Found(w, id)
  {
    match w.places[id]
    case Held(k) => assert id in At(w.places, Held(k));
    case Queued(p) => assert id in At(w.places, Queued(p));
    case KekOf(o) => assert id in At(w.places, KekOf(o));
    case Handed =>
    case _ =>
      forall o | o in w.ekm.tables.kek ensures w.ekm.tables.kek[o].unit != id {
        UnitsAreKeks(w, o);
      }
  }

  /**
   * From an empty store, on every run with its faults and restarts: no unit serves twice, and every
   * identifier ever issued is in exactly the one place the ledger names.
   */
  lemma EveryUnitServesOnce(c: Config, peers: set<Peer>, pullers: nat, now: real, events: seq<Event>)
    requires Run(c, Begin(peers, pullers, now), events).Some?
    ensures var w := Run(c, Begin(peers, pullers, now), events).value;
      SingleUse(w) && forall id | id in w.places :: Found(w, id)
  {
    var w := Run(c, Begin(peers, pullers, now), events).value;
    PlacedAtFirst(peers, pullers, now);
    hide Placed, Begin, SingleUse, Found;
    PlacedRun(c, Begin(peers, pullers, now), events);
    PlacedMeansSingleUse(w);
    forall id | id in w.places ensures Found(w, id) {
      PlacedMeansFound(w, id);
    }
  }

  /** A delivered key was pooled, and is handed over for good. */
  lemma DeliveryHandsOver(c: Config, w: World, p: Peer, purpose: Purpose, fault: Fault)
    requires Placed(w) && NewKey(w.ekm, p, purpose, fault).1.Delivered?
    ensures var id := NewKey(w.ekm, p, purpose, fault).1.key.id;
      var after := Next(c, w, NewKeyCall(p, purpose, fault)).places;
      && id in w.places && w.places[id] == Queued(p)
      && id in after && after[id] == Handed
  {
    hide InHands, InKeks, InBindings;
    PooledIsUnbound(w, p, 0);
    var q := w.ekm.pool.queues[p];
    assert q[..1] == [q[0]];
    assert Ids(q[..1]) == {q[0].key.id};
  }

  /** Two answers to requests for fresh keys never carry the same key, however far apart they are. */
  lemma DeliveredOnce(c: Config, w: World, p: Peer, purpose: Purpose, fault: Fault, events: seq<Event>,
                      p': Peer, purpose': Purpose, fault': Fault)
    requires Placed(w) && NewKey(w.ekm, p, purpose, fault).1.Delivered?
    requires Run(c, Next(c, w, NewKeyCall(p, purpose, fault)), events).Some?
    requires
      var v := Run(c, Next(c, w, NewKeyCall(p, purpose, fault)), events).value;
      NewKey(v.ekm, p', purpose', fault').1.Delivered?
    ensures
      var v := Run(c, Next(c, w, NewKeyCall(p, purpose, fault)), events).value;
      NewKey(w.ekm, p, purpose, fault).1.key.id != NewKey(v.ekm, p', purpose', fault').1.key.id
  {
    hide Placed, Next, NewKey, Run;
    var ev := NewKeyCall(p, purpose, fault);
    var v := Run(c, Next(c, w, ev), events).value;
    DeliveryHandsOver(c, w, p, purpose, fault);
    PlacedStep(c, w, ev);
    PlacedRun(c, Next(c, w, ev), events);
    SpentForEver(c, Next(c, w, ev), events, NewKey(w.ekm, p, purpose, fault).1.key.id);
    DeliveryHandsOver(c, v, p', purpose', fault');
  }
}
