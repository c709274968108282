/** The pool under interleaving: how large queues grow, in which order they stay, and what went through them. */
module EkmPools {
  import opened Options
  import opened EkmStore
  import opened KeyPools
  import opened EkmService
  import opened EkmRuns

  // --- what one step does to one queue ----------------------------------------------

  /** The front of a queue, possibly nothing, was removed and recorded as removed. */
  ghost predicate FrontRemoved(w: World, v: World, p: Peer)
    requires p in w.ekm.pool.queues && p in v.ekm.pool.queues
  {
    var q, q' := w.ekm.pool.queues[p], v.ekm.pool.queues[p];
    && |q'| <= |q| && q' == q[|q| - |q'|..]
    && Past(v.removed, p) == Past(w.removed, p) + q[..|q| - |q'|]
    && Past(v.received, p) == Past(w.received, p)
  }

  ghost predicate BatchJoined(w: World, v: World, p: Peer, batch: seq<Entry>)
    requires p in w.ekm.pool.queues && p in v.ekm.pool.queues
  {
    && v.ekm.pool.queues[p] == w.ekm.pool.queues[p] + batch
    && Past(v.received, p) == Past(w.received, p) + batch
    && Past(v.removed, p) == Past(w.removed, p)
  }

  ghost predicate Emptied(v: World, p: Peer)
    requires p in v.ekm.pool.queues
  {
    v.ekm.pool.queues[p] == [] && Past(v.received, p) == [] && Past(v.removed, p) == []
  }

  lemma Unserved(w: World, v: World, p: Peer)
    requires p in w.ekm.pool.queues && v.ekm.pool.queues == w.ekm.pool.queues
    requires v.removed == w.removed && v.received == w.received
    ensures FrontRemoved(w, v, p)
  {
    assert w.ekm.pool.queues[p][..0] == [];
  }

  lemma ServedOwnFront(w: World, e: Ekm, p: Peer, x: Place)
    requires p in w.ekm.pool.queues && p in e.pool.queues
    requires var q, q' := w.ekm.pool.queues[p], e.pool.queues[p]; |q'| <= |q| && q' == q[|q| - |q'|..]
    ensures FrontRemoved(w, Served(w, e, p, x), p)
  {
    hide Move, Ids;
  }

  lemma ServedFront(w: World, e: Ekm, r: Peer, x: Place, p: Peer)
    requires AtMostPopped(w.ekm.pool, e.pool, r) && r in w.ekm.pool.queues && p in w.ekm.pool.queues
    ensures FrontRemoved(w, Served(w, e, r, x), p)
  {
    var q, q' := w.ekm.pool.queues[p], e.pool.queues[p];
    if p == r {
      hide Served, FrontRemoved;
      assert |q'| <= |q| && q' == q[|q| - |q'|..];
      ServedOwnFront(w, e, p, x);
    } else {
      hide Move, Ids;
      var v := Served(w, e, r, x);
      assert q' == q && q[..0] == [] && Past(v.removed, p) == Past(w.removed, p);
    }
  }

  lemma HandlerEffect(c: Config, w: World, ev: Event, p: Peer)
    requires Possible(c, w, ev) && p in w.ekm.pool.queues
    requires ev.WrapCall? || ev.NewKeyCall? || ev.Evict?
    ensures Next(c, w, ev).ekm.pool.queues.Keys == w.ekm.pool.queues.Keys
    ensures FrontRemoved(w, Next(c, w, ev), p)
  {
    hide FrontRemoved, Wrap, NewKey;
    match ev
    case WrapCall(q, fault) =>
      var r, e := c.settings.bindPeer, Wrap(c.settings, w.ekm, q, fault).0;
      WrapPops(c.settings, w.ekm, q, fault);
      if r in w.ekm.pool.queues {
        var x := if e.tables.kek == w.ekm.tables.kek then Lost else KekOf(q.obj);
        ServedFront(w, e, r, x, p);
        SameFront(w, Served(w, e, r, x), Next(c, w, ev), p);
      } else {
        Unserved(w, Next(c, w, ev), p);
      }
    case NewKeyCall(r, purpose, fault) =>
      var e := NewKey(w.ekm, r, purpose, fault).0;
      NewKeyPops(w.ekm, r, purpose, fault);
      if r in w.ekm.pool.queues {
        ServedFront(w, e, r, if e.tables == w.ekm.tables then Lost else Handed, p);
      } else {
        Unserved(w, w, p);
      }
    case Evict(r, cutoff) =>
      EvictEffect(c, w, r, cutoff, p);
  }

  lemma SameFront(w: World, v: World, v': World, p: Peer)
    requires p in w.ekm.pool.queues && p in v.ekm.pool.queues && FrontRemoved(w, v, p)
    requires v'.ekm.pool == v.ekm.pool && v'.removed == v.removed && v'.received == v.received
    ensures FrontRemoved(w, v', p)
  {
  }

  lemma EvictEffect(c: Config, w: World, r: Peer, cutoff: real, p: Peer)
    requires r in w.ekm.pool.queues && p in w.ekm.pool.queues
    ensures FrontRemoved(w, Next(c, w, Evict(r, cutoff)), p)
  {
    hide Move, Ids;
    assert w.ekm.pool.queues[p][..0] == [];
  }

  /** Every step removes from the front, appends a held batch at the back, or forgets the pool. */
  lemma QueueEffect(c: Config, w: World, ev: Event, p: Peer)
    requires Possible(c, w, ev) && p in w.ekm.pool.queues
    ensures Next(c, w, ev).ekm.pool.queues.Keys == w.ekm.pool.queues.Keys
    ensures var v := Next(c, w, ev);
      if ev.Restart? then Emptied(v, p)
      else if ev.AppendBatch? && w.pullers[ev.k].peer == p then BatchJoined(w, v, p, w.pullers[ev.k].batch)
      else FrontRemoved(w, v, p)
  {
    if ev.WrapCall? || ev.NewKeyCall? || ev.Evict? {
      hide FrontRemoved, Next;
      HandlerEffect(c, w, ev, p);
    } else if !ev.Restart? && !(ev.AppendBatch? && w.pullers[ev.k].peer == p) {
      hide Move, Ids;
      assert w.ekm.pool.queues[p][..0] == [];
    } else {
      hide Move, Ids, Volatile;
    }
  }

  /** With nothing in between, the three steps of a puller are one peer's turn in `pull_once`. */
  lemma UninterruptedTurn(c: Config, w: World, k: nat, p: Peer, keys: seq<Key>)
    requires Possible(c, w, ReadSize(k, p)) && 0 < Room(c.target, |w.ekm.pool.queues[p]|)
    requires |keys| <= Room(c.target, |w.ekm.pool.queues[p]|)
    requires Distinct(Stamp(keys, w.now)) && Ids(Stamp(keys, w.now)) !! w.places.Keys
    ensures var events := [ReadSize(k, p), SourceAnswers(k, keys), AppendBatch(k)];
      Run(c, w, events).Some?
      && Run(c, w, events).value.ekm.pool == PulledFor(w.ekm.pool, c.target, p, Keys(keys), w.now)
  {
    hide Distinct, Ids, Move, Stamp;
    var events := [ReadSize(k, p), SourceAnswers(k, keys), AppendBatch(k)];
    var first := Next(c, w, events[0]);
    var second := Next(c, first, events[1]);
    assert events[..2] == [events[0], events[1]] && events[..2][..1] == [events[0]];
    assert Run(c, w, events[..2][..1]) == Some(first) by {
      assert [events[0]][..0] == [];
      assert Run(c, w, []) == Some(w);
    }
    assert Run(c, w, events[..2]) == Some(second);
  }

  // --- conservation -------------------------------------------------------------------

  /** What left each queue, in order, followed by what is still in it, is what it received. */
  ghost predicate Conserved(w: World) {
    forall p | p in w.ekm.pool.queues :: Past(w.removed, p) + w.ekm.pool.queues[p] == Past(w.received, p)
  }

  lemma ConservedStep(c: Config, w: World, ev: Event)
    requires Conserved(w) && Possible(c, w, ev)
    ensures Conserved(Next(c, w, ev))
  {
    hide Next, Past;
    var v := Next(c, w, ev);
    forall p | p in v.ekm.pool.queues ensures Past(v.removed, p) + v.ekm.pool.queues[p] == Past(v.received, p) {
      if p !in w.ekm.pool.queues {
        OtherPeers(c, w, ev, p);
      }
      QueueEffect(c, w, ev, p);
      var q, q' := w.ekm.pool.queues[p], v.ekm.pool.queues[p];
      if |q'| <= |q| {
        assert q == q[..|q| - |q'|] + q[|q| - |q'|..];
      }
    }
  }

  lemma OtherPeers(c: Config, w: World, ev: Event, p: Peer)
    requires Possible(c, w, ev) && p !in w.ekm.pool.queues
    ensures p !in Next(c, w, ev).ekm.pool.queues
  {
    hide Move, Ids, Volatile, Wrap, NewKey;
    match ev
    case WrapCall(q, fault) => WrapPops(c.settings, w.ekm, q, fault);
    case NewKeyCall(r, purpose, fault) => NewKeyPops(w.ekm, r, purpose, fault);
    case _ =>
  }

  /** First in, first out, over whole runs: allocations and evictions take a queue's keys in the order they came. */
  lemma {:induction false} FirstInFirstOut(c: Config, peers: set<Peer>, pullers: nat, now: real, events: seq<Event>)
    requires Run(c, Begin(peers, pullers, now), events).Some?
    ensures Conserved(Run(c, Begin(peers, pullers, now), events).value)
  {
    if events != [] {
      hide Conserved, Next, Possible, Begin;
      var v := LastEvent(c, Begin(peers, pullers, now), events);
      FirstInFirstOut(c, peers, pullers, now, events[..|events| - 1]);
      ConservedStep(c, v, events[|events| - 1]);
    }
  }

  // --- the bound ------------------------------------------------------------------------

  /** How many keys a puller may still append to the queue of `p`. */
  function Claim(puller: Puller, p: Peer): nat {
    match puller
    case Idle => 0
    case Calling(r, n) => if r == p then n else 0
    case Holding(r, batch) => if r == p then |batch| else 0
  }

  function Claims(pullers: seq<Puller>, p: Peer): nat {
    if pullers == [] then 0 else Claims(pullers[..|pullers| - 1], p) + Claim(pullers[|pullers| - 1], p)
  }

  /** The most one request asks for. */
  function Share(target: int): nat {
    if target <= 0 then 0 else Room(target, 0)
  }

  lemma {:induction false} ClaimsUpdate(pullers: seq<Puller>, k: nat, puller: Puller, p: Peer)
    requires k < |pullers|
    ensures Claims(pullers[k := puller], p) == Claims(pullers, p) - Claim(pullers[k], p) + Claim(puller, p)
  {
    hide Claim;
    var n := |pullers| - 1;
    if k < n {
      ClaimsUpdate(pullers[..n], k, puller, p);
      assert pullers[k := puller][..n] == pullers[..n][k := puller];
    } else {
      assert pullers[k := puller][..n] == pullers[..n];
    }
  }

  lemma {:induction false} ClaimsBound(pullers: seq<Puller>, p: Peer, share: nat)
    requires forall x | x in pullers :: Claim(x, p) <= share
    ensures Claims(pullers, p) <= |pullers| * share
  {
    hide Claim;
    if pullers != [] {
      var n := |pullers| - 1;
      ClaimsBound(pullers[..n], p, share);
      assert (n + 1) * share == n * share + share;
      assert pullers[n] in pullers;
    }
  }

  /** With one of the pullers claiming nothing, the others claim at most a share each. */
  lemma {:induction false} OthersBound(pullers: seq<Puller>, k: nat, p: Peer, share: nat)
    requires k < |pullers| && Claim(pullers[k], p) == 0
    requires forall x | x in pullers :: Claim(x, p) <= share
    ensures Claims(pullers, p) <= (|pullers| - 1) * share
  {
    hide Claim;
    var n := |pullers| - 1;
    if k < n {
      OthersBound(pullers[..n], k, p, share);
      assert n * share == (n - 1) * share + share;
      assert pullers[n] in pullers;
    } else {
      ClaimsBound(pullers[..n], p, share);
    }
  }

  ghost predicate Modest(c: Config, pullers: seq<Puller>) {
    forall x, p | x in pullers :: Claim(x, p) <= Share(c.target)
  }

  /** Queue and claims together stay within the target plus a share for each further puller. */
  ghost predicate WithinBound(c: Config, w: World, p: Peer)
    requires p in w.ekm.pool.queues
  {
    |w.ekm.pool.queues[p]| + Claims(w.pullers, p)
      <= (if c.target <= 0 then 0 else c.target) + (|w.pullers| - 1) * Share(c.target)
  }

  ghost predicate Bounded(c: Config, w: World) {
    && |w.pullers| > 0
    && Modest(c, w.pullers)
    && forall p | p in w.ekm.pool.queues :: WithinBound(c, w, p)
  }

  lemma ModestStep(c: Config, w: World, ev: Event)
    requires Modest(c, w.pullers) && Possible(c, w, ev)
    ensures Modest(c, Next(c, w, ev).pullers) && |Next(c, w, ev).pullers| == |w.pullers|
  {
    hide Wrap, NewKey, Move, Ids, Volatile, Past;
    if ev.SourceAnswers? {
      assert Claim(w.pullers[ev.k], w.pullers[ev.k].peer) <= Share(c.target);
    } else if ev.WrapCall? || ev.NewKeyCall? {
      assert Next(c, w, ev).pullers == w.pullers;
    }
  }

  lemma {:induction false} NoClaims(n: nat, p: Peer)
    ensures Claims(seq(n, _ => Idle), p) == 0
  {
    if n > 0 {
      NoClaims(n - 1, p);
      assert seq(n, _ => Idle)[..n - 1] == seq(n - 1, _ => Idle);
    }
  }

  lemma BoundAtRead(c: Config, w: World, k: nat, r: Peer, p: Peer)
    requires Bounded(c, w) && Possible(c, w, ReadSize(k, r)) && p in w.ekm.pool.queues
    ensures WithinBound(c, Next(c, w, ReadSize(k, r)), p)
  {
    var x := Next(c, w, ReadSize(k, r)).pullers[k];
    ClaimsUpdate(w.pullers, k, x, p);
    OthersBound(w.pullers, k, p, Share(c.target));
    assert WithinBound(c, w, p);
  }

  /** What a puller does after its size read never makes queue and claims grow. */
  lemma BoundAfterRead(c: Config, w: World, ev: Event, p: Peer)
    requires Bounded(c, w) && Possible(c, w, ev) && p in w.ekm.pool.queues
    requires ev.SourceFails? || ev.SourceAnswers? || ev.AppendBatch?
    ensures WithinBound(c, Next(c, w, ev), p)
  {
    hide Ids, Move, Past, Modest;
    var v := Next(c, w, ev);
    ClaimsUpdate(w.pullers, ev.k, v.pullers[ev.k], p);
    assert v.pullers == w.pullers[ev.k := v.pullers[ev.k]];
    assert WithinBound(c, w, p);
  }

  lemma BoundedStep(c: Config, w: World, ev: Event)
    requires Bounded(c, w) && Possible(c, w, ev)
    ensures Bounded(c, Next(c, w, ev))
  {
    ModestStep(c, w, ev);
    var v := Next(c, w, ev);
    forall p | p in v.ekm.pool.queues ensures WithinBound(c, v, p) {
      hide Next, Modest;
      if p !in w.ekm.pool.queues {
        OtherPeers(c, w, ev, p);
      }
      if ev.ReadSize? {
        BoundAtRead(c, w, ev.k, ev.peer, p);
      } else if ev.SourceFails? || ev.SourceAnswers? || ev.AppendBatch? {
        BoundAfterRead(c, w, ev, p);
      } else {
        QueueEffect(c, w, ev, p);
        PullersElsewhere(c, w, ev, p);
        assert WithinBound(c, w, p);
      }
    }
  }

  lemma PullersElsewhere(c: Config, w: World, ev: Event, p: Peer)
    requires Possible(c, w, ev) && !ev.ReadSize? && !ev.SourceFails? && !ev.SourceAnswers? && !ev.AppendBatch?
    ensures var v := Next(c, w, ev);
      |v.pullers| == |w.pullers| && if ev.Restart? then Claims(v.pullers, p) == 0 else v.pullers == w.pullers
  {
    hide Wrap, NewKey, Move, Ids, Volatile, Past;
    NoClaims(|w.pullers|, p);
  }

  lemma {:induction false} BoundedRun(c: Config, peers: set<Peer>, pullers: nat, now: real, events: seq<Event>)
    requires Run(c, Begin(peers, pullers, now), events).Some? && pullers > 0
    ensures var w := Run(c, Begin(peers, pullers, now), events).value; Bounded(c, w) && |w.pullers| == pullers
  {
    if events == [] {
      forall p | p in peers ensures WithinBound(c, Begin(peers, pullers, now), p) {
        NoClaims(pullers, p);
      }
    } else {
      hide Bounded, Next, Possible, Begin;
      var v := LastEvent(c, Begin(peers, pullers, now), events);
      BoundedRun(c, peers, pullers, now, events[..|events| - 1]);
      BoundedStep(c, v, events[|events| - 1]);
      ModestLength(c, v, events[|events| - 1]);
    }
  }

  lemma ModestLength(c: Config, w: World, ev: Event)
    requires Bounded(c, w) && Possible(c, w, ev)
    ensures |Next(c, w, ev).pullers| == |w.pullers|
  {
    ModestStep(c, w, ev);
  }

  /**
   * With any number of pullers, allocations, evictions and restarts interleaved, no queue exceeds the target by
   * more than one request for each further puller; so it is at most `pullers * target`, and `target` for one.
   */
  lemma PoolBound(c: Config, peers: set<Peer>, pullers: nat, now: real, events: seq<Event>, p: Peer)
    requires Run(c, Begin(peers, pullers, now), events).Some? && pullers > 0 && c.target >= 0
    requires p in Run(c, Begin(peers, pullers, now), events).value.ekm.pool.queues
    ensures var size := |Run(c, Begin(peers, pullers, now), events).value.ekm.pool.queues[p]|;
      && size <= c.target + (pullers - 1) * Share(c.target)
      && size <= pullers * c.target
      && (pullers == 1 ==> size <= c.target)
  {
    hide Run, Begin;
    BoundedRun(c, peers, pullers, now, events);
    var w := Run(c, Begin(peers, pullers, now), events).value;
    assert WithinBound(c, w, p);
    hide Bounded, Claims;
    SharesWithinTarget(pullers, c.target);
  }

  lemma SharesWithinTarget(pullers: nat, target: nat)
    requires pullers > 0
    ensures target + (pullers - 1) * Share(target) <= pullers * target
    ensures pullers == 1 ==> (pullers - 1) * Share(target) == 0
  {
    ProductGrows(pullers - 1, Share(target), target);
    OneMoreProduct(pullers - 1, target);
  }

  lemma ProductGrows(n: nat, a: nat, b: nat)
    requires a <= b
    ensures n * a <= n * b
  {
  }

  lemma OneMoreProduct(n: nat, a: nat)
    ensures (n + 1) * a == n * a + a
  {
  }

  // --- the order ------------------------------------------------------------------------

  ghost predicate Sorted(q: seq<Entry>, latest: real) {
    && (forall i, j | 0 <= i < j < |q| :: q[i].receivedAt <= q[j].receivedAt)
    && (forall e | e in q :: e.receivedAt <= latest)
  }

  /** With one puller: queues are sorted, and nothing in them is later than the batch in its hands. */
  ghost predicate Ordered(w: World) {
    && |w.pullers| == 1
    && Sorted(Batch(w.pullers[0]), w.now)
    && forall p | p in w.ekm.pool.queues :: Sorted(w.ekm.pool.queues[p] + Batch(w.pullers[0]), w.now)
  }

  /** A batch received now may join a sorted queue, or wait for it to. */
  lemma SortedBatch(q: seq<Entry>, keys: seq<Key>, now: real)
    requires Sorted(q, now)
    ensures Sorted(Stamp(keys, now), now) && Sorted(q + Stamp(keys, now), now)
  {
  }

  lemma SortedPrefix(q: seq<Entry>, b: seq<Entry>, latest: real)
    requires Sorted(q + b, latest)
    ensures Sorted(q, latest)
  {
    assert forall i | 0 <= i < |q| :: (q + b)[i] == q[i];
  }

  lemma OrderedPuller(c: Config, w: World, ev: Event, p: Peer)
    requires Ordered(w) && Possible(c, w, ev) && p in w.ekm.pool.queues
    requires ev.SourceAnswers? || ev.AppendBatch? || ev.Tick? || ev.ReadSize? || ev.SourceFails?
    ensures var v := Next(c, w, ev);
      && p in v.ekm.pool.queues && |v.pullers| == 1
      && Sorted(v.ekm.pool.queues[p] + Batch(v.pullers[0]), v.now)
  {
    hide Ids, Move, Past, Distinct, Sorted;
    var q, b := w.ekm.pool.queues[p], Batch(w.pullers[0]);
    assert Sorted(q + b, w.now);
    SortedPrefix(q, b, w.now);
    assert q + [] == q;
    match ev
    case SourceAnswers(k, keys) => SortedBatch(q, keys, w.now);
    case AppendBatch(k) => assert q + b + [] == q + b;
    case Tick(at) => SortedLater(q + b, w.now, at);
    case _ =>
  }

  lemma SortedLater(q: seq<Entry>, latest: real, later: real)
    requires Sorted(q, latest) && latest <= later
    ensures Sorted(q, later)
  {
  }

  lemma SortedSuffix(q: seq<Entry>, m: nat, b: seq<Entry>, latest: real)
    requires m <= |q| && Sorted(q + b, latest)
    ensures Sorted(q[m..] + b, latest)
  {
    assert forall i | 0 <= i < |q[m..] + b| :: (q[m..] + b)[i] == (q + b)[m + i];
  }

  lemma OrderedHandlers(c: Config, w: World, ev: Event, p: Peer)
    requires Ordered(w) && Possible(c, w, ev) && p in w.ekm.pool.queues
    requires ev.Evict? || ev.WrapCall? || ev.NewKeyCall?
    ensures var v := Next(c, w, ev);
      && p in v.ekm.pool.queues && |v.pullers| == 1
      && Sorted(v.ekm.pool.queues[p] + Batch(v.pullers[0]), v.now)
  {
    hide Next, Past, Sorted, Possible;
    QueueEffect(c, w, ev, p);
    PullersAndClock(c, w, ev);
    var q := w.ekm.pool.queues[p];
    SortedSuffix(q, |q| - |Next(c, w, ev).ekm.pool.queues[p]|, Batch(w.pullers[0]), w.now);
  }

  lemma OrderedRestart(c: Config, w: World, at: real, p: Peer)
    requires Ordered(w) && p in w.ekm.pool.queues
    ensures var v := Next(c, w, Restart(at));
      && p in v.ekm.pool.queues && |v.pullers| == 1
      && Sorted(v.ekm.pool.queues[p] + Batch(v.pullers[0]), v.now)
  {
    hide Volatile, Move;
    var v := Next(c, w, Restart(at));
    assert v.ekm.pool.queues[p] + Batch(v.pullers[0]) == [];
  }

  lemma PullersAndClock(c: Config, w: World, ev: Event)
    requires Possible(c, w, ev) && (ev.Evict? || ev.WrapCall? || ev.NewKeyCall?)
    ensures Next(c, w, ev).pullers == w.pullers && Next(c, w, ev).now == w.now
  {
    hide Wrap, NewKey, Move, Ids, Past;
  }

  lemma OrderedStep(c: Config, w: World, ev: Event)
    requires Ordered(w) && Possible(c, w, ev)
    ensures Ordered(Next(c, w, ev))
  {
    hide Next, Sorted;
    var v := Next(c, w, ev);
    OrderedHands(c, w, ev);
    forall p | p in v.ekm.pool.queues ensures Sorted(v.ekm.pool.queues[p] + Batch(v.pullers[0]), v.now) {
      if p !in w.ekm.pool.queues {
        OtherPeers(c, w, ev, p);
      }
      if ev.Restart? {
        OrderedRestart(c, w, ev.at, p);
      } else if ev.Evict? || ev.WrapCall? || ev.NewKeyCall? {
        OrderedHandlers(c, w, ev, p);
      } else {
        OrderedPuller(c, w, ev, p);
      }
    }
  }

  lemma OrderedHands(c: Config, w: World, ev: Event)
    requires Ordered(w) && Possible(c, w, ev)
    ensures |Next(c, w, ev).pullers| == 1 && Sorted(Batch(Next(c, w, ev).pullers[0]), Next(c, w, ev).now)
  {
    if ev.Evict? || ev.WrapCall? || ev.NewKeyCall? {
      PullersAndClock(c, w, ev);
      hide Next;
    } else {
      hide Ids, Move, Past, Distinct, Volatile;
    }
  }

  lemma {:induction false} OrderedRun(c: Config, peers: set<Peer>, now: real, events: seq<Event>)
    requires Run(c, Begin(peers, 1, now), events).Some?
    ensures Ordered(Run(c, Begin(peers, 1, now), events).value)
  {
    if events != [] {
      hide Ordered, Next, Possible, Begin;
      var v := LastEvent(c, Begin(peers, 1, now), events);
      OrderedRun(c, peers, now, events[..|events| - 1]);
      OrderedStep(c, v, events[|events| - 1]);
    }
  }

  /** With the one background puller, evicting from the front removes exactly the stale keys, on every run. */
  lemma EvictionFilters(c: Config, peers: set<Peer>, now: real, events: seq<Event>, p: Peer, cutoff: real)
    requires Run(c, Begin(peers, 1, now), events).Some?
    requires p in Run(c, Begin(peers, 1, now), events).value.ekm.pool.queues
    ensures var q := Run(c, Begin(peers, 1, now), events).value.ekm.pool.queues[p];
      DropOlder(q, cutoff) == Fresh(q, cutoff)
  {
    hide Run, Begin;
    OrderedRun(c, peers, now, events);
    var w := Run(c, Begin(peers, 1, now), events).value;
    var q, b := w.ekm.pool.queues[p], Batch(w.pullers[0]);
    assert Sorted(q + b, w.now);
    assert StaleFirst(q, cutoff) by {
      forall i, j | 0 <= i < j < |q| && q[j].receivedAt < cutoff ensures q[i].receivedAt < cutoff {
        assert (q + b)[i] == q[i] && (q + b)[j] == q[j];
      }
    }
    EvictionIsFilteringExactly(q, cutoff);
  }
}
