/** The durable round trip: a KEK is written once, and every blob a wrap returned unwraps for ever. */
module EkmRoundTrip {
  import opened Options
  import opened FiniteSums
  import opened Aead
  import opened EkmStore
  import opened KeyPools
  import opened EkmService
  import opened EkmRuns
  import opened EkmUnits

  /** Every KEK row opens under the local key and its own object identifier. */
  ghost predicate Readable(c: Settings, t: Tables) {
    forall o | o in t.kek :: t.kek[o].material.Sealed?
      && t.kek[o].material.key == c.localKey && t.kek[o].material.aad == Encode(o)
  }

  /** Every blob returned so far opens under the KEK its object has now. */
  ghost predicate Recoverable(w: World) {
    forall a | a in w.answered ::
      && a.obj in w.ekm.tables.kek && w.ekm.tables.kek[a.obj].material.Sealed?
      && Open(w.ekm.tables.kek[a.obj].material.plaintext, a.blob, a.aad) == Some(a.plaintext)
  }

  /** A KEK row lacks its binding exactly when its first wrap was cut short. */
  ghost predicate BoundUnlessInterrupted(w: World) {
    && (forall o | o in w.ekm.tables.kek :: w.ekm.tables.kek[o].unit in w.ekm.tables.bindings <==> o !in w.interrupted)
    && (forall o | o in w.interrupted :: o in w.ekm.tables.kek)
  }

  ghost predicate Durable(c: Config, w: World) {
    Placed(w) && Readable(c.settings, w.ekm.tables) && Recoverable(w) && BoundUnlessInterrupted(w)
  }

  /** No KEK row of `a` is missing from `b` or differs in it. */
  ghost predicate Retained(a: Tables, b: Tables) {
    forall o | o in a.kek :: o in b.kek && b.kek[o] == a.kek[o]
  }

  // --- one step -----------------------------------------------------------------------

  /** What a first wrap leaves behind, by where it was cut short. */
  lemma FirstUseLeaves(c: Config, w: World, q: WrapRequest, fault: Fault)
    requires Placed(w) && c.settings.bindPeer in w.ekm.pool.queues && w.ekm.pool.queues[c.settings.bindPeer] != []
    requires q.plaintext.Some? && q.obj !in w.ekm.tables.kek
    ensures var p := c.settings.bindPeer;
      var key := w.ekm.pool.queues[p][0].key;
      var v := Next(c, w, WrapCall(q, fault));
      && v.ekm.tables.kek == (if fault == BeforePut then w.ekm.tables.kek
           else w.ekm.tables.kek[q.obj := KekRow(key.id, Sealed(c.settings.localKey, q.kekNonce, Encode(q.obj), key.material))])
      && v.ekm.tables.bindings == (if fault == BeforePut || fault == BeforeBind then w.ekm.tables.bindings
           else w.ekm.tables.bindings[key.id := Row(ForEkm, q.obj, p)])
      && v.answered == (if fault != NoFault then w.answered
           else w.answered + {Answered(q.obj, q.aad, q.plaintext.value, Sealed(key.material, q.nonce, q.aad, q.plaintext.value))})
      && v.interrupted == (if fault == BeforeBind then w.interrupted + {q.obj} else w.interrupted)
  {
    hide Wrap, Encode, Ids, Move, Past;
    var key := w.ekm.pool.queues[c.settings.bindPeer][0].key;
    FirstUseCommits(c.settings, w, q, fault);
    PooledIsUnbound(w, c.settings.bindPeer, 0);
    hide Placed;
    assert fault != BeforePut ==> q.obj in Wrap(c.settings, w.ekm, q, fault).0.tables.kek;
    assert fault != BeforePut && fault != BeforeBind ==> key.id in Wrap(c.settings, w.ekm, q, fault).0.tables.bindings;
  }

  lemma RetainedFirstUse(c: Config, w: World, q: WrapRequest, fault: Fault)
    requires Durable(c, w) && c.settings.bindPeer in w.ekm.pool.queues && w.ekm.pool.queues[c.settings.bindPeer] != []
    requires q.plaintext.Some? && q.obj !in w.ekm.tables.kek
    ensures var v := Next(c, w, WrapCall(q, fault));
      Readable(c.settings, v.ekm.tables) && Recoverable(v) && Retained(w.ekm.tables, v.ekm.tables)
  {
    hide Next, Encode, Placed, BoundUnlessInterrupted;
    FirstUseLeaves(c, w, q, fault);
    var v := Next(c, w, WrapCall(q, fault));
    forall a | a in v.answered ensures a.obj in v.ekm.tables.kek && v.ekm.tables.kek[a.obj].material.Sealed?
      && Open(v.ekm.tables.kek[a.obj].material.plaintext, a.blob, a.aad) == Some(a.plaintext)
    {
      if a in w.answered {
        hide Open;
        assert v.ekm.tables.kek[a.obj] == w.ekm.tables.kek[a.obj];
      }
    }
    hide Open;
  }

  lemma BoundFirstUse(c: Config, w: World, q: WrapRequest, fault: Fault)
    requires Durable(c, w) && c.settings.bindPeer in w.ekm.pool.queues && w.ekm.pool.queues[c.settings.bindPeer] != []
    requires q.plaintext.Some? && q.obj !in w.ekm.tables.kek
    ensures BoundUnlessInterrupted(Next(c, w, WrapCall(q, fault)))
  {
    hide Next, Encode, Placed, Readable, Recoverable;
    FirstUseLeaves(c, w, q, fault);
    OtherUnits(w, c.settings.bindPeer);
  }

  /** The next pooled key is bound nowhere, and is the unit of no KEK row. */
  lemma OtherUnits(w: World, p: Peer)
    requires Placed(w) && p in w.ekm.pool.queues && w.ekm.pool.queues[p] != []
    ensures var id := w.ekm.pool.queues[p][0].key.id;
      id !in w.ekm.tables.bindings && forall o | o in w.ekm.tables.kek :: w.ekm.tables.kek[o].unit != id
  {
    hide Placed;
    PooledIsUnbound(w, p, 0);
    forall o | o in w.ekm.tables.kek ensures w.ekm.tables.kek[o].unit != w.ekm.pool.queues[p][0].key.id {
      UnitsAreKeks(w, o);
    }
  }

  /** Wrapping under an existing KEK row leaves the EKM alone. */
  lemma WrapAgain(c: Settings, e: Ekm, q: WrapRequest, fault: Fault)
    requires Readable(c, e.tables) && q.obj in e.tables.kek && q.plaintext.Some?
    ensures Wrap(c, e, q, fault) == (e, Sealing(e.tables.kek[q.obj].material.plaintext, q, fault))
  {
  }

  /** Unless it is a first use, a wrap changes no table, and returns nothing that does not unwrap. */
  lemma OtherWrapLeaves(c: Config, w: World, q: WrapRequest, fault: Fault)
    requires Readable(c.settings, w.ekm.tables)
    requires q.plaintext.None? || q.obj in w.ekm.tables.kek
      || c.settings.bindPeer !in w.ekm.pool.queues || w.ekm.pool.queues[c.settings.bindPeer] == []
    ensures var v := Next(c, w, WrapCall(q, fault));
      && v.ekm.tables == w.ekm.tables && v.interrupted == w.interrupted
      && (v.answered == w.answered || (q.plaintext.Some? && q.obj in w.ekm.tables.kek && v.answered == w.answered + {
            Answered(q.obj, q.aad, q.plaintext.value,
                     Sealed(w.ekm.tables.kek[q.obj].material.plaintext, q.nonce, q.aad, q.plaintext.value))}))
  {
    if q.plaintext.Some? && q.obj in w.ekm.tables.kek {
      WrapAgain(c.settings, w.ekm, q, fault);
      hide Wrap, Encode;
    } else {
      hide Encode, FirstUse;
    }
  }

  lemma DurableWrap(c: Config, w: World, q: WrapRequest, fault: Fault)
    requires Durable(c, w)
    ensures var v := Next(c, w, WrapCall(q, fault));
      && Readable(c.settings, v.ekm.tables) && Recoverable(v) && BoundUnlessInterrupted(v)
      && Retained(w.ekm.tables, v.ekm.tables)
  {
    hide Next, Placed;
    var p := c.settings.bindPeer;
    if p in w.ekm.pool.queues && w.ekm.pool.queues[p] != [] && q.plaintext.Some? && q.obj !in w.ekm.tables.kek {
      RetainedFirstUse(c, w, q, fault);
      BoundFirstUse(c, w, q, fault);
    } else {
      OtherWrapLeaves(c, w, q, fault);
    }
  }

  /** A request for a fresh key leaves the KEK rows alone, and at most binds the next pooled key. */
  lemma NewKeyLeaves(c: Config, w: World, p: Peer, purpose: Purpose, fault: Fault)
    ensures var v := Next(c, w, NewKeyCall(p, purpose, fault));
      && v.ekm.tables.kek == w.ekm.tables.kek && v.answered == w.answered && v.interrupted == w.interrupted
      && (v.ekm.tables.bindings == w.ekm.tables.bindings
          || (p in w.ekm.pool.queues && w.ekm.pool.queues[p] != [] && v.ekm.tables.bindings.Keys
                == w.ekm.tables.bindings.Keys + {w.ekm.pool.queues[p][0].key.id}))
  {
    hide Occupied, Ids, Move, Past;
    if p in w.ekm.pool.queues && w.ekm.pool.queues[p] != [] && purpose != ForEkm {
      NewKeyCommits(w.ekm, p, purpose, fault);
      hide NewKey;
    }
  }

  lemma DurableNewKey(c: Config, w: World, p: Peer, purpose: Purpose, fault: Fault)
    requires Durable(c, w)
    ensures var v := Next(c, w, NewKeyCall(p, purpose, fault));
      && Readable(c.settings, v.ekm.tables) && Recoverable(v) && BoundUnlessInterrupted(v)
      && Retained(w.ekm.tables, v.ekm.tables)
  {
    hide Next, Placed, Encode, Open;
    NewKeyLeaves(c, w, p, purpose, fault);
    if p in w.ekm.pool.queues && w.ekm.pool.queues[p] != [] {
      OtherUnits(w, p);
    }
  }

  lemma DurableElsewhere(c: Config, w: World, ev: Event)
    requires Possible(c, w, ev) && !ev.WrapCall? && !ev.NewKeyCall?
    ensures var v := Next(c, w, ev);
      v.ekm.tables == w.ekm.tables && v.answered == w.answered && v.interrupted == w.interrupted
  {
    hide Move, Ids, Volatile, Past, DropOlder;
  }

  lemma DurableStep(c: Config, w: World, ev: Event)
    requires Durable(c, w) && Possible(c, w, ev)
    ensures Durable(c, Next(c, w, ev)) && Retained(w.ekm.tables, Next(c, w, ev).ekm.tables)
  {
    hide Placed, Next, Possible;
    PlacedStep(c, w, ev);
    if ev.WrapCall? {
      DurableWrap(c, w, ev.request, ev.fault);
    } else if ev.NewKeyCall? {
      DurableNewKey(c, w, ev.peer, ev.purpose, ev.fault);
    } else {
      DurableElsewhere(c, w, ev);
    }
  }

  // --- whole runs -----------------------------------------------------------------------

  lemma {:induction false} DurableRun(c: Config, w: World, events: seq<Event>)
    requires Durable(c, w) && Run(c, w, events).Some?
    ensures Durable(c, Run(c, w, events).value)
    ensures Retained(w.ekm.tables, Run(c, w, events).value.ekm.tables)
    ensures w.answered <= Run(c, w, events).value.answered
  {
    hide Durable, Possible;
    if events != [] {
      var v := LastEvent(c, w, events);
      var ev := events[|events| - 1];
      DurableRun(c, w, events[..|events| - 1]);
      DurableStep(c, v, ev);
      AnsweredGrows(c, v, ev);
    }
  }

  lemma AnsweredGrows(c: Config, w: World, ev: Event)
    requires Possible(c, w, ev)
    ensures w.answered <= Next(c, w, ev).answered
  {
    hide Wrap, NewKey;
  }

  /** Whatever happens afterwards, an object keeps the KEK row its first wrap committed. */
  lemma KekWrittenOnce(c: Config, peers: set<Peer>, pullers: nat, now: real, before: seq<Event>, after: seq<Event>, o: ObjectId)
    requires Run(c, Begin(peers, pullers, now), before).Some?
    requires Run(c, Run(c, Begin(peers, pullers, now), before).value, after).Some?
    requires var w := Run(c, Begin(peers, pullers, now), before).value; o in w.ekm.tables.kek
    ensures var w := Run(c, Begin(peers, pullers, now), before).value;
      var v := Run(c, w, after).value;
      o in v.ekm.tables.kek && v.ekm.tables.kek[o] == w.ekm.tables.kek[o]
  {
    assert Durable(c, Begin(peers, pullers, now)) by { PlacedAtFirst(peers, pullers, now); }
    hide Durable, Run, Begin;
    DurableRun(c, Begin(peers, pullers, now), before);
    DurableRun(c, Run(c, Begin(peers, pullers, now), before).value, after);
  }

  /**
   * Every blob that a wrap ever returned unwraps to its plaintext under the same object and associated data,
   * at every later point, through crashes between commits and restarts.
   */
  lemma EveryBlobUnwraps(c: Config, peers: set<Peer>, pullers: nat, now: real, before: seq<Event>,
                         q: WrapRequest, fault: Fault, after: seq<Event>)
    requires Run(c, Begin(peers, pullers, now), before).Some?
    requires var w := Run(c, Begin(peers, pullers, now), before).value;
      && Wrap(c.settings, w.ekm, q, fault).1.Wrapped?
      && Run(c, Next(c, w, WrapCall(q, fault)), after).Some?
    ensures var w := Run(c, Begin(peers, pullers, now), before).value;
      var v := Run(c, Next(c, w, WrapCall(q, fault)), after).value;
      q.plaintext.Some?
      && Unwrap(c.settings, v.ekm, q.obj, Some(Wrap(c.settings, w.ekm, q, fault).1.blob), q.aad) == Unwrapped(q.plaintext.value)
  {
    var w := Run(c, Begin(peers, pullers, now), before).value;
    assert Durable(c, Begin(peers, pullers, now)) by { PlacedAtFirst(peers, pullers, now); }
    hide Durable, Run, Begin;
    var ev := WrapCall(q, fault);
    var a := Answered(q.obj, q.aad, q.plaintext.value, Wrap(c.settings, w.ekm, q, fault).1.blob);
    DurableRun(c, Begin(peers, pullers, now), before);
    assert a in Next(c, w, ev).answered by { hide Wrap; }
    DurableStep(c, w, ev);
    DurableRun(c, Next(c, w, ev), after);
    AnswerUnwraps(c, Run(c, Next(c, w, ev), after).value, a);
  }

  lemma AnswerUnwraps(c: Config, w: World, a: Answered)
    requires Durable(c, w) && a in w.answered
    ensures Unwrap(c.settings, w.ekm, a.obj, Some(a.blob), a.aad) == Unwrapped(a.plaintext)
  {
    hide Placed, BoundUnlessInterrupted;
  }

  /**
   * An `ekm` binding names the unit of its object's KEK row; and an object with a KEK row has its binding
   * exactly when no fault struck between the two commits of its first wrap.
   */
  lemma BindingsAgree(c: Config, peers: set<Peer>, pullers: nat, now: real, events: seq<Event>)
    requires Run(c, Begin(peers, pullers, now), events).Some?
    ensures var w := Run(c, Begin(peers, pullers, now), events).value;
      var t := w.ekm.tables;
      && (forall id | id in t.bindings && t.bindings[id].purpose == ForEkm ::
            t.bindings[id].objectId in t.kek && t.kek[t.bindings[id].objectId].unit == id)
      && (forall o | o in t.kek :: Occupied(t, ForEkm, o) <==> o !in w.interrupted)
  {
    assert Durable(c, Begin(peers, pullers, now)) by { PlacedAtFirst(peers, pullers, now); }
    DurableRun(c, Begin(peers, pullers, now), events);
    var w := Run(c, Begin(peers, pullers, now), events).value;
    hide Run, Begin, Readable, Recoverable, InQueues, InHands;
    var t := w.ekm.tables;
    forall id | id in t.bindings && t.bindings[id].purpose == ForEkm
      ensures t.bindings[id].objectId in t.kek && t.kek[t.bindings[id].objectId].unit == id
    {
      assert id in At(w.places, KekOf(t.bindings[id].objectId));
    }
    forall o | o in t.kek ensures Occupied(t, ForEkm, o) <==> o !in w.interrupted {
      UnitsAreKeks(w, o);
    }
  }

  /**
   * The service's own description has every wrapped key bound before it answers. A first wrap cut short
   * between its commits breaks that for good: the retry answers, and no binding of the object is ever made by it.
   */
  lemma AnsweredWithoutBinding(c: Config, w: World, q: WrapRequest)
    requires Durable(c, w) && c.settings.bindPeer in w.ekm.pool.queues && w.ekm.pool.queues[c.settings.bindPeer] != []
    requires q.plaintext.Some? && q.obj !in w.ekm.tables.kek
    ensures var cut := Next(c, w, WrapCall(q, BeforeBind));
      var retried := Next(c, cut, WrapCall(q, NoFault));
      && Wrap(c.settings, cut.ekm, q, NoFault).1.Wrapped?
      && !Occupied(retried.ekm.tables, ForEkm, q.obj)
  {
    var cut := Next(c, w, WrapCall(q, BeforeBind));
    FirstUseCommits(c.settings, w, q, BeforeBind);
    UnkeyedIsUnbound(w.ekm.tables, w.places, q.obj);
    assert q.obj in cut.ekm.tables.kek && cut.ekm.tables.bindings == w.ekm.tables.bindings;
    DurableStep(c, w, WrapCall(q, BeforeBind));
    WrapAgain(c.settings, cut.ekm, q, NoFault);
  }

  // --- how many bindings there are ------------------------------------------------------

  ghost function UnitOf(t: Tables): ObjectId -> KeyId {
    (o: ObjectId) => if o in t.kek then t.kek[o].unit else ""
  }

  lemma UnitsDiffer(w: World, o: ObjectId, r: ObjectId)
    requires InKeks(w.ekm.tables.kek, w.places) && o in w.ekm.tables.kek && r in w.ekm.tables.kek && o != r
    ensures w.ekm.tables.kek[o].unit != w.ekm.tables.kek[r].unit
  {
    assert w.ekm.tables.kek[o].unit in At(w.places, KekOf(o));
    assert w.ekm.tables.kek[r].unit in At(w.places, KekOf(r));
  }

  /** Each of these objects has a unit of its own, and none of these was delivered. */
  lemma UnitsCount(w: World, objs: set<ObjectId>)
    requires InKeks(w.ekm.tables.kek, w.places) && objs <= w.ekm.tables.kek.Keys
    ensures |Image(objs, UnitOf(w.ekm.tables))| == |objs|
    ensures Image(objs, UnitOf(w.ekm.tables)) !! At(w.places, Handed)
  {
    forall o, r | o in objs && r in objs && o != r ensures UnitOf(w.ekm.tables)(o) != UnitOf(w.ekm.tables)(r) {
      UnitsDiffer(w, o, r);
    }
    forall o | o in objs ensures UnitOf(w.ekm.tables)(o) !in At(w.places, Handed) {
      assert w.ekm.tables.kek[o].unit in At(w.places, KekOf(o));
    }
    hide InKeks, UnitOf, At;
    ImageSize(objs, UnitOf(w.ekm.tables));
  }

  /** The bound identifiers are those delivered and the units of the objects whose first wrap was not cut short. */
  lemma BoundExactly(c: Config, w: World)
    requires Durable(c, w)
    ensures w.ekm.tables.bindings.Keys
         == At(w.places, Handed) + Image(w.ekm.tables.kek.Keys - w.interrupted, UnitOf(w.ekm.tables))
  {
    hide Readable, Recoverable, InQueues, InHands;
    var t := w.ekm.tables;
    forall o | o in t.kek ensures t.kek[o].unit in At(w.places, KekOf(o)) {
    }
    forall id | id in t.bindings && t.bindings[id].purpose == ForEkm
      ensures var o := t.bindings[id].objectId; o in t.kek && UnitOf(t)(o) == id
    {
      assert id in At(w.places, KekOf(t.bindings[id].objectId));
    }
  }

  /**
   * On every run the number of bindings the status reports is the number of keys delivered, plus the number of
   * objects with a KEK row whose first wrap was not cut short between its commits.
   */
  lemma BindingsCounted(c: Config, peers: set<Peer>, pullers: nat, now: real, events: seq<Event>)
    requires Run(c, Begin(peers, pullers, now), events).Some?
    ensures var w := Run(c, Begin(peers, pullers, now), events).value;
      |w.ekm.tables.bindings| == |At(w.places, Handed)| + |w.ekm.tables.kek.Keys - w.interrupted|
  {
    assert Durable(c, Begin(peers, pullers, now)) by { PlacedAtFirst(peers, pullers, now); }
    DurableRun(c, Begin(peers, pullers, now), events);
    hide *;
    BindingsNumber(c, Run(c, Begin(peers, pullers, now), events).value);
  }

  lemma BindingsNumber(c: Config, w: World)
    requires Durable(c, w)
    ensures |w.ekm.tables.bindings| == |At(w.places, Handed)| + |w.ekm.tables.kek.Keys - w.interrupted|
  {
    BoundExactly(c, w);
    UnitsCount(w, w.ekm.tables.kek.Keys - w.interrupted);
    hide *;
    assert |w.ekm.tables.bindings| == |w.ekm.tables.bindings.Keys|;
  }
}
