/** When a request for a fresh key is refused as already bound: the object names `/new` invents may collide. */
module EkmNames {
  import opened Options
  import opened Aead
  import opened EkmStore
  import opened KeyPools
  import opened EkmService
  import opened EkmRuns
  import opened EkmUnits
  import opened EkmRoundTrip

  /** Every delivery is bound to the object named after its peer and its key. */
  ghost predicate Named(t: Tables) {
    forall id | id in t.bindings && t.bindings[id].purpose != ForEkm ::
      t.bindings[id].objectId == t.bindings[id].peer + ":" + id
  }

  lemma NamedWrap(c: Settings, e: Ekm, q: WrapRequest, fault: Fault)
    requires Named(e.tables)
    ensures Named(Wrap(c, e, q, fault).0.tables)
  {
    hide Encode, Open;
  }

  lemma NamedNewKey(e: Ekm, p: Peer, purpose: Purpose, fault: Fault)
    requires Named(e.tables)
    ensures Named(NewKey(e, p, purpose, fault).0.tables)
  {
  }

  lemma TablesFrom(c: Config, w: World, ev: Event)
    requires Possible(c, w, ev)
    ensures Next(c, w, ev).ekm.tables ==
      match ev
      case WrapCall(q, fault) => Wrap(c.settings, w.ekm, q, fault).0.tables
      case NewKeyCall(p, purpose, fault) => NewKey(w.ekm, p, purpose, fault).0.tables
      case _ => w.ekm.tables
  {
    hide Wrap, Ids, Move, Past, Bound;
    if !ev.WrapCall? && !ev.NewKeyCall? {
      DurableElsewhere(c, w, ev);
    }
  }

  lemma {:induction false} NamedRun(c: Config, peers: set<Peer>, pullers: nat, now: real, events: seq<Event>)
    requires Run(c, Begin(peers, pullers, now), events).Some?
    ensures Named(Run(c, Begin(peers, pullers, now), events).value.ekm.tables)
  {
    if events != [] {
      hide Named, Next, Possible, Begin, Wrap, NewKey;
      var v := LastEvent(c, Begin(peers, pullers, now), events);
      var ev := events[|events| - 1];
      NamedRun(c, peers, pullers, now, events[..|events| - 1]);
      TablesFrom(c, v, ev);
      match ev
      case WrapCall(q, fault) => NamedWrap(c.settings, v.ekm, q, fault);
      case NewKeyCall(p, purpose, fault) => NamedNewKey(v.ekm, p, purpose, fault);
      case _ =>
    }
  }

  /** Some key delivered for the same purpose has the object name the next key of `p` would get. */
  ghost predicate Collides(w: World, p: Peer, purpose: Purpose)
    requires p in w.ekm.pool.queues && w.ekm.pool.queues[p] != []
  {
    exists id :: id in w.ekm.tables.bindings && w.ekm.tables.bindings[id].purpose == purpose
      && w.ekm.tables.bindings[id].peer + ":" + id == p + ":" + w.ekm.pool.queues[p][0].key.id
  }

  /** On every run: a fresh key is refused as already bound, and lost, exactly when its object name collides. */
  lemma RefusedExactly(c: Config, peers: set<Peer>, pullers: nat, now: real, events: seq<Event>, p: Peer, purpose: Purpose)
    requires Run(c, Begin(peers, pullers, now), events).Some? && purpose != ForEkm
    requires var w := Run(c, Begin(peers, pullers, now), events).value;
      p in w.ekm.pool.queues && w.ekm.pool.queues[p] != []
    ensures var w := Run(c, Begin(peers, pullers, now), events).value;
      && (NewKey(w.ekm, p, purpose, NoFault).1 == Refused(400) <==> Collides(w, p, purpose))
      && (NewKey(w.ekm, p, purpose, NoFault).1.Delivered? <==> !Collides(w, p, purpose))
      && var id, after := w.ekm.pool.queues[p][0].key.id, Next(c, w, NewKeyCall(p, purpose, NoFault)).places;
         id in after && after[id] == if Collides(w, p, purpose) then Lost else Handed
  {
    NamedRun(c, peers, pullers, now, events);
    PlacedRunFromBegin(c, peers, pullers, now, events);
    hide *;
    RefusedAt(c, Run(c, Begin(peers, pullers, now), events).value, p, purpose);
  }

  lemma PlacedRunFromBegin(c: Config, peers: set<Peer>, pullers: nat, now: real, events: seq<Event>)
    requires Run(c, Begin(peers, pullers, now), events).Some?
    ensures Placed(Run(c, Begin(peers, pullers, now), events).value)
  {
    hide *;
    PlacedAtFirst(peers, pullers, now);
    PlacedRun(c, Begin(peers, pullers, now), events);
  }

  lemma RefusedAt(c: Config, w: World, p: Peer, purpose: Purpose)
    requires Placed(w) && Named(w.ekm.tables) && purpose != ForEkm && p in w.ekm.pool.queues && w.ekm.pool.queues[p] != []
    ensures NewKey(w.ekm, p, purpose, NoFault).1 == Refused(400) <==> Collides(w, p, purpose)
    ensures NewKey(w.ekm, p, purpose, NoFault).1.Delivered? <==> !Collides(w, p, purpose)
    ensures var id, after := w.ekm.pool.queues[p][0].key.id, Next(c, w, NewKeyCall(p, purpose, NoFault)).places;
      id in after && after[id] == if Collides(w, p, purpose) then Lost else Handed
  {
    hide *;
    PooledIsUnbound(w, p, 0);
    NameTaken(w, p, purpose);
    FirstOut(c, w, p, purpose);
    PoppedAnswer(w.ekm, p, purpose);
  }

  /** A popped key that is not bound is refused or delivered, as its name decides. */
  lemma PoppedAnswer(e: Ekm, p: Peer, purpose: Purpose)
    requires purpose != ForEkm && p in e.pool.queues && e.pool.queues[p] != [] && e.pool.queues[p][0].key.id !in e.tables.bindings
    ensures NewKey(e, p, purpose, NoFault).1
         == var key := e.pool.queues[p][0].key;
            if Occupied(e.tables, purpose, p + ":" + key.id) then Refused(400) else Delivered(key, p)
  {
    hide Occupied;
  }

  /** The popped key is handed over if its binding was made, and lost otherwise. */
  lemma FirstOut(c: Config, w: World, p: Peer, purpose: Purpose)
    requires Placed(w) && p in w.ekm.pool.queues && w.ekm.pool.queues[p] != [] && purpose != ForEkm
    ensures var id, after := w.ekm.pool.queues[p][0].key.id, Next(c, w, NewKeyCall(p, purpose, NoFault)).places;
      id in after && after[id] == if NewKey(w.ekm, p, purpose, NoFault).1.Delivered? then Handed else Lost
  {
    hide InQueues, InHands, InKeks, InBindings, Occupied;
    var q := w.ekm.pool.queues[p];
    var id := q[0].key.id;
    assert q[..1] == [q[0]];
    assert Ids(q[..1]) == {id};
    assert NewKey(w.ekm, p, purpose, NoFault).1.Delivered? ==> id !in w.ekm.tables.bindings;
  }

  lemma NameTaken(w: World, p: Peer, purpose: Purpose)
    requires Named(w.ekm.tables) && purpose != ForEkm && p in w.ekm.pool.queues && w.ekm.pool.queues[p] != []
    ensures Occupied(w.ekm.tables, purpose, p + ":" + w.ekm.pool.queues[p][0].key.id) <==> Collides(w, p, purpose)
  {
  }

  predicate ColonFree(id: KeyId) {
    forall i | 0 <= i < |id| :: id[i] != ':'
  }

  /** The part behind the last colon of a name is determined by the name. */
  lemma NameDetermines(a: string, x: KeyId, b: string, y: KeyId)
    requires a + ":" + x == b + ":" + y && ColonFree(x) && ColonFree(y)
    ensures x == y
  {
    var name := a + ":" + x;
    assert name == b + ":" + y;
    assert name[|a|] == ':' && name[|b|] == ':';
    assert forall j | |a| < j < |name| :: name[j] == x[j - |a| - 1];
    assert forall j | |b| < j < |name| :: name[j] == y[j - |b| - 1];
    assert |a| == |b|;
    assert x == name[|a| + 1..] && y == name[|b| + 1..];
  }

  /** So with identifiers that hold no colon, as UUIDs do, no fresh key is ever refused as already bound. */
  lemma NeverRefused(w: World, p: Peer, purpose: Purpose)
    requires Placed(w) && p in w.ekm.pool.queues && w.ekm.pool.queues[p] != []
    requires forall id | id in w.places :: ColonFree(id)
    ensures !Collides(w, p, purpose)
  {
    var fresh' := w.ekm.pool.queues[p][0].key.id;
    PooledIsUnbound(w, p, 0);
    forall id | id in w.ekm.tables.bindings
      ensures w.ekm.tables.bindings[id].peer + ":" + id != p + ":" + fresh'
    {
      assert id in w.places;
      hide Placed, ColonFree;
      if w.ekm.tables.bindings[id].peer + ":" + id == p + ":" + fresh' {
        NameDetermines(w.ekm.tables.bindings[id].peer, id, p, fresh');
      }
    }
  }

  // --- a collision --------------------------------------------------------------------

  /** A puller fetches one key for `p`. */
  function FetchOne(p: Peer, key: Key): seq<Event> {
    [ReadSize(0, p), SourceAnswers(0, [key]), AppendBatch(0)]
  }

  /** The puller is idle, and no key is pooled for `p`. */
  predicate Wants(w: World, p: Peer) {
    w.pullers == [Idle] && p in w.ekm.pool.queues && w.ekm.pool.queues[p] == []
  }

  lemma RunOne(c: Config, w: World, ev: Event)
    requires Possible(c, w, ev)
    ensures Run(c, w, [ev]) == Some(Next(c, w, ev))
  {
    hide Possible, Next;
    assert [ev][..0] == [];
    assert Run(c, w, []) == Some(w);
  }

  lemma RunThree(c: Config, w: World, a: Event, b: Event, d: Event)
    requires Possible(c, w, a) && Possible(c, Next(c, w, a), b) && Possible(c, Next(c, Next(c, w, a), b), d)
    ensures Run(c, w, [a, b, d]) == Some(Next(c, Next(c, Next(c, w, a), b), d))
  {
    hide Possible, Next;
    RunOne(c, w, a);
    assert [a, b][..1] == [a] && [a, b, d][..2] == [a, b];
  }

  lemma SizeRead(c: Config, w: World, p: Peer)
    requires 0 < c.target && Wants(w, p)
    ensures Possible(c, w, ReadSize(0, p))
    ensures Next(c, w, ReadSize(0, p)) == w.(pullers := [Calling(p, Room(c.target, 0))])
  {
  }

  lemma OneAnswered(c: Config, w: World, p: Peer, n: nat, key: Key)
    requires w.pullers == [Calling(p, n)] && 0 < n && key.id !in w.places
    ensures Possible(c, w, SourceAnswers(0, [key]))
    ensures var v := Next(c, w, SourceAnswers(0, [key]));
      && v.pullers == [Holding(p, [Entry(key, w.now)])] && v.places.Keys == w.places.Keys + {key.id}
      && v.ekm.tables == w.ekm.tables && v.ekm.pool.queues == w.ekm.pool.queues
  {
    var batch := Stamp([key], w.now);
    assert batch == [Entry(key, w.now)];
    assert Ids(batch) == {key.id};
  }

  lemma OneAppended(c: Config, w: World, p: Peer, e: Entry)
    requires w.pullers == [Holding(p, [e])] && p in w.ekm.pool.queues && w.ekm.pool.queues[p] == [] && e.key.id in w.places
    ensures Possible(c, w, AppendBatch(0))
    ensures var v := Next(c, w, AppendBatch(0));
      && v.pullers == [Idle] && v.places.Keys == w.places.Keys
      && v.ekm.tables == w.ekm.tables && v.ekm.pool.queues == w.ekm.pool.queues[p := [e]]
  {
    hide Past;
    assert Ids([e]) == {e.key.id};
    assert w.ekm.pool.queues[p] + [e] == [e];
  }

  lemma OneFetched(c: Config, w: World, p: Peer, key: Key)
    requires 0 < c.target && Wants(w, p) && key.id !in w.places
    ensures Run(c, w, FetchOne(p, key)).Some?
    ensures var v := Run(c, w, FetchOne(p, key)).value;
      && v.pullers == [Idle] && v.places.Keys == w.places.Keys + {key.id}
      && v.ekm.tables == w.ekm.tables && v.ekm.pool.queues == w.ekm.pool.queues[p := [Entry(key, w.now)]]
  {
    hide Run, Possible, Next;
    SizeRead(c, w, p);
    var first := Next(c, w, ReadSize(0, p));
    OneAnswered(c, first, p, Room(c.target, 0), key);
    OneAppended(c, Next(c, first, SourceAnswers(0, [key])), p, Entry(key, w.now));
    RunThree(c, w, ReadSize(0, p), SourceAnswers(0, [key]), AppendBatch(0));
  }

  /** A delivery from a pool of one key binds that key to its name and empties the queue. */
  lemma OneDelivered(c: Config, w: World, p: Peer, key: Key, purpose: Purpose, at: real)
    requires purpose != ForEkm && p in w.ekm.pool.queues && w.ekm.pool.queues[p] == [Entry(key, at)]
    requires w.ekm.tables == Tables(map[], map[]) && key.id in w.places
    ensures NewKey(w.ekm, p, purpose, NoFault).1 == Delivered(key, p)
    ensures var v := Next(c, w, NewKeyCall(p, purpose, NoFault));
      && v.ekm.tables == Tables(map[key.id := Row(purpose, p + ":" + key.id, p)], map[])
      && v.ekm.pool.queues == w.ekm.pool.queues[p := []] && v.places.Keys == w.places.Keys && v.pullers == w.pullers
  {
    var q := w.ekm.pool.queues[p];
    assert q[..1] == [Entry(key, at)];
    assert Ids(q[..1]) == {key.id};
  }

  lemma {:induction false} RunOn(c: Config, w: World, first: seq<Event>, rest: seq<Event>)
    requires Run(c, w, first).Some?
    ensures Run(c, w, first + rest) == Run(c, Run(c, w, first).value, rest)
  {
    hide Possible, Next;
    if rest == [] {
      assert first + rest == first;
    } else {
      var n := |rest| - 1;
      RunOn(c, w, first, rest[..n]);
      assert (first + rest)[..|first| + n] == first + rest[..n];
    }
  }

  /** Two peers fetch a key each, and the first of them has its key delivered in between. */
  function Collision(p: Peer, first: Key, r: Peer, second: Key, purpose: Purpose): seq<Event> {
    FetchOne(p, first) + [NewKeyCall(p, purpose, NoFault)] + FetchOne(r, second)
  }

  /** An EKM just started for these two peers, with one puller. */
  predicate Fresh(w: World, p: Peer, r: Peer) {
    p != r && Wants(w, p) && Wants(w, r) && w.ekm.tables == Tables(map[], map[]) && w.places == map[]
  }

  /** The first key is delivered. */
  lemma FirstDelivered(c: Config, w: World, p: Peer, first: Key, r: Peer, purpose: Purpose)
    requires 0 < c.target && purpose != ForEkm && Fresh(w, p, r)
    ensures Run(c, w, FetchOne(p, first)).Some?
    ensures NewKey(Run(c, w, FetchOne(p, first)).value.ekm, p, purpose, NoFault).1 == Delivered(first, p)
    ensures var events := FetchOne(p, first) + [NewKeyCall(p, purpose, NoFault)];
      && Run(c, w, events).Some?
      && var u := Run(c, w, events).value;
         && Wants(u, r) && u.places.Keys == {first.id}
         && u.ekm.tables == Tables(map[first.id := Row(purpose, p + ":" + first.id, p)], map[])
  {
    hide Run, FetchOne, Next, NewKey;
    OneFetched(c, w, p, first);
    var v := Run(c, w, FetchOne(p, first)).value;
    var ev := NewKeyCall(p, purpose, NoFault);
    OneDelivered(c, v, p, first, purpose, w.now);
    RunOne(c, v, ev);
    RunOn(c, w, FetchOne(p, first), [ev]);
  }

  /** Whenever two identifiers have the same name for two peers, the second delivery for the same purpose is refused. */
  lemma SameNameRefused(c: Config, p: Peer, first: Key, r: Peer, second: Key, purpose: Purpose, now: real)
    requires 0 < c.target && purpose != ForEkm && first.id != second.id && p + ":" + first.id == r + ":" + second.id
    ensures var w := Begin({p, r}, 1, now);
      && Run(c, w, FetchOne(p, first)).Some?
      && NewKey(Run(c, w, FetchOne(p, first)).value.ekm, p, purpose, NoFault).1 == Delivered(first, p)
      && Run(c, w, Collision(p, first, r, second, purpose)).Some?
      && NewKey(Run(c, w, Collision(p, first, r, second, purpose)).value.ekm, r, purpose, NoFault).1 == Refused(400)
  {
    var w := Begin({p, r}, 1, now);
    assert Fresh(w, p, r) by { NamesApart(p, first.id, r, second.id); }
    hide Begin, Run, FetchOne, NewKey, Fresh;
    FirstDelivered(c, w, p, first, r, purpose);
    var delivered := FetchOne(p, first) + [NewKeyCall(p, purpose, NoFault)];
    var u := Run(c, w, delivered).value;
    OneFetched(c, u, r, second);
    RunOn(c, w, delivered, FetchOne(r, second));
    var z := Run(c, u, FetchOne(r, second)).value;
    assert first.id in z.ekm.tables.bindings;
    PoppedAnswer(z.ekm, r, purpose);
  }

  lemma NamesApart(p: Peer, x: KeyId, r: Peer, y: KeyId)
    requires p + ":" + x == r + ":" + y && x != y
    ensures p != r
  {
    assert (p + ":" + x)[|p| + 1..] == x;
    assert (r + ":" + y)[|r| + 1..] == y;
  }

  /** Identifiers with a colon can collide across peers. */
  lemma ColonsCollide(c: Config, x: Bytes, y: Bytes, now: real)
    requires 0 < c.target
    ensures var first, second := Key("B:c", x), Key("c", y);
      var w := Run(c, Begin({"A", "A:B"}, 1, now), Collision("A", first, "A:B", second, ForVpn));
      w.Some? && NewKey(w.value.ekm, "A:B", ForVpn, NoFault).1 == Refused(400)
  {
    assert "A" + ":" + "B:c" == "A:B:c";
    assert "A:B" + ":" + "c" == "A:B:c";
    assert |"B:c"| == 3 && |"c"| == 1;
    hide *;
    SameNameRefused(c, "A", Key("B:c", x), "A:B", Key("c", y), ForVpn, now);
  }
}
