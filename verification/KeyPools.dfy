/** Per-peer buffers of unconsumed QKD keys. */
module KeyPools {
  import opened Aead
  import opened EkmStore

  datatype Key = Key(id: KeyId, material: Bytes)

  datatype Entry = Entry(key: Key, receivedAt: real)

  type Queues = map<Peer, seq<Entry>>

  datatype Pool = Pool(queues: Queues, sourceAvailable: bool)

  /** What the QKD source says to one request for keys; Rejected covers every other exception. */
  datatype Answer = Unavailable | Rejected | Keys(keys: seq<Key>)

  datatype Allocation = UnknownPeer | Empty | Taken(key: Key, rest: Pool)

  const MAX_PER_REQUEST := 100

  // --- specification ----------------------------------------------------------

  /** How many keys a pull asks for; nothing is asked for unless it is positive. */
  function Room(target: int, size: nat): int {
    if target - size < MAX_PER_REQUEST then target - size else MAX_PER_REQUEST
  }

  function Stamp(keys: seq<Key>, at: real): (entries: seq<Entry>) {
    seq(|keys|, i requires 0 <= i < |keys| => Entry(keys[i], at))
  }

  function Appended(pool: Pool, p: Peer, batch: seq<Entry>): Pool
    requires p in pool.queues
  {
    pool.(queues := pool.queues[p := pool.queues[p] + batch])
  }

  /** The pool after one peer's turn in a pull, when nothing else touches the pool meanwhile. */
  function PulledFor(pool: Pool, target: int, p: Peer, answer: Answer, at: real): Pool
    requires p in pool.queues
  {
    if Room(target, |pool.queues[p]|) <= 0 then pool
    else match answer
      case Unavailable => pool.(sourceAvailable := false)
      case Rejected => pool
      case Keys(keys) => Appended(pool, p, Stamp(keys, at)).(sourceAvailable := true)
  }

  /** The pool after a whole pull over `peers`. */
  function Pulled(pool: Pool, target: int, peers: seq<Peer>, answers: seq<Answer>, times: seq<real>): (after: Pool)
    requires |answers| == |times| == |peers|
    requires forall p | p in peers :: p in pool.queues
    ensures after.queues.Keys == pool.queues.Keys
  {
    if peers == [] then pool
    else
      var n := |peers| - 1;
      PulledFor(Pulled(pool, target, peers[..n], answers[..n], times[..n]), target, peers[n], answers[n], times[n])
  }

  lemma NonePulled(pool: Pool, target: int)
    ensures Pulled(pool, target, [], [], []) == pool
  {
  }

  lemma PulledOneMore(pool: Pool, target: int, peers: seq<Peer>, answers: seq<Answer>, times: seq<real>, i: nat)
    requires |answers| == |times| == |peers| && i < |peers|
    requires forall p | p in peers :: p in pool.queues
    ensures Pulled(pool, target, peers[..i + 1], answers[..i + 1], times[..i + 1])
         == PulledFor(Pulled(pool, target, peers[..i], answers[..i], times[..i]), target, peers[i], answers[i], times[i])
  {
    hide PulledFor;
    assert peers[..i + 1][..i] == peers[..i] && answers[..i + 1][..i] == answers[..i] && times[..i + 1][..i] == times[..i];
  }

  /** What is left of a queue after popping stale entries from its front. */
  function DropOlder(q: seq<Entry>, cutoff: real): (rest: seq<Entry>)
    ensures |rest| <= |q| && rest == q[|q| - |rest|..]
  {
    if q != [] && q[0].receivedAt < cutoff then DropOlder(q[1..], cutoff) else q
  }

  /** The entries of a queue that are not stale. */
  function Fresh(q: seq<Entry>, cutoff: real): seq<Entry> {
    if q == [] then []
    else (if q[0].receivedAt < cutoff then [] else [q[0]]) + Fresh(q[1..], cutoff)
  }

  function AllocatedFrom(pool: Pool, p: Peer): Allocation {
    if p !in pool.queues then UnknownPeer
    else if pool.queues[p] == [] then Empty
    else Taken(pool.queues[p][0].key, pool.(queues := pool.queues[p := pool.queues[p][1..]]))
  }

  // --- the pool itself ----------------------------------------------------------

  class KeyPool {
    const peers: seq<Peer>
    const target: int
    const ttl: real
    var queues: Queues
    var sourceAvailable: bool

    ghost predicate Valid()
      reads this
    {
      queues.Keys == set p | p in peers
    }

    ghost function Contents(): Pool
      reads this
    {
      Pool(queues, sourceAvailable)
    }

    constructor (peers: seq<Peer>, target: int, ttl: real)
      ensures this.peers == peers && this.target == target && this.ttl == ttl
      ensures Valid() && Contents() == Pool(map p | p in peers :: [], true)
    {
      this.peers := peers;
      this.target := target;
      this.ttl := ttl;
      queues := map p | p in peers :: [];
      sourceAvailable := true;
    }

    method PullOnce(answers: seq<Answer>, times: seq<real>)
      requires Valid() && |answers| == |times| == |peers|
      modifies this
      ensures Valid()
      ensures Contents() == Pulled(old(Contents()), target, peers, answers, times)
    {
      ghost var before := Contents();
      hide Pulled, Stamp;
      NonePulled(before, target);
      for i := 0 to |peers|
        invariant Valid()
        invariant Contents() == Pulled(before, target, peers[..i], answers[..i], times[..i])
      {
        PulledOneMore(before, target, peers, answers, times, i);
        var p := peers[i];
        var n := Room(target, |queues[p]|);
        if n > 0 {
          match answers[i]
          case Unavailable =>
            sourceAvailable := false;
          case Rejected =>
          case Keys(keys) =>
            sourceAvailable := true;
            Append(p, keys, times[i]);
        }
      }
      assert peers[..|peers|] == peers && answers[..|peers|] == answers && times[..|peers|] == times;
    }

    method Append(p: Peer, keys: seq<Key>, receivedAt: real)
      requires p in queues
      modifies this`queues
      ensures Contents() == Appended(old(Contents()), p, Stamp(keys, receivedAt))
    {
      ghost var q, batch := queues[p], Stamp(keys, receivedAt);
      for i := 0 to |keys|
        invariant p in queues && queues == old(queues)[p := queues[p]]
        invariant queues[p] == q + batch[..i]
      {
        assert batch[..i + 1] == batch[..i] + [batch[i]];
        queues := queues[p := queues[p] + [Entry(keys[i], receivedAt)]];
      }
      assert batch[..|keys|] == batch;
    }

    /** `clock[p]` is the time read just before the queue of `p` is treated. */
    method ExpireOnce(clock: map<Peer, real>)
      requires Valid() && queues.Keys <= clock.Keys
      modifies this`queues
      ensures Valid()
      ensures queues == map p | p in old(queues) :: DropOlder(old(queues)[p], clock[p] - ttl)
    {
      hide DropOlder;
      var todo := queues.Keys;
      while todo != {}
        invariant todo <= queues.Keys == old(queues).Keys
        invariant forall p | p in todo :: queues[p] == old(queues)[p]
        invariant forall p | p in queues && p !in todo :: queues[p] == DropOlder(old(queues)[p], clock[p] - ttl)
        decreases todo
      {
        var p :| p in todo;
        Evict(p, clock[p] - ttl);
        todo := todo - {p};
      }
    }

    method Evict(p: Peer, cutoff: real)
      requires p in queues
      modifies this`queues
      ensures queues == old(queues)[p := DropOlder(old(queues)[p], cutoff)]
    {
      while queues[p] != [] && queues[p][0].receivedAt < cutoff
        invariant p in queues && queues == old(queues)[p := queues[p]]
        invariant DropOlder(queues[p], cutoff) == DropOlder(old(queues)[p], cutoff)
        decreases |queues[p]|
      {
        queues := queues[p := queues[p][1..]];
      }
    }

    method Allocate(p: Peer) returns (allocation: Allocation)
      requires Valid()
      modifies this`queues
      ensures Valid()
      ensures allocation == AllocatedFrom(old(Contents()), p)
      ensures Contents() == if allocation.Taken? then allocation.rest else old(Contents())
    {
      if p !in queues {
        return UnknownPeer;
      }
      if queues[p] == [] {
        return Empty;
      }
      var key := queues[p][0].key;
      queues := queues[p := queues[p][1..]];
      return Taken(key, Pool(queues, sourceAvailable));
    }
  }

  // --- what the specification means -------------------------------------------------

  /** No stale entry stands behind a fresh one. */
  ghost predicate StaleFirst(q: seq<Entry>, cutoff: real) {
    forall i, j | 0 <= i < j < |q| && q[j].receivedAt < cutoff :: q[i].receivedAt < cutoff
  }

  lemma {:induction false} AllFresh(q: seq<Entry>, cutoff: real)
    requires forall e | e in q :: e.receivedAt >= cutoff
    ensures Fresh(q, cutoff) == q
  {
    if q != [] {
      AllFresh(q[1..], cutoff);
    }
  }

  lemma {:induction false} FreshIn(q: seq<Entry>, cutoff: real)
    ensures forall e | e in Fresh(q, cutoff) :: e.receivedAt >= cutoff
  {
    if q != [] {
      FreshIn(q[1..], cutoff);
    }
  }

  /** Behind a stale front, only the rest matters. */
  lemma StaleFirstRest(q: seq<Entry>, cutoff: real)
    requires q != [] && q[0].receivedAt < cutoff
    ensures StaleFirst(q, cutoff) <==> StaleFirst(q[1..], cutoff)
  {
    assert forall i | 0 <= i < |q[1..]| :: q[1..][i] == q[i + 1];
    assert forall i | 0 < i < |q| :: q[i] == q[1..][i - 1];
  }

  /** Popping stale entries from the front is filtering by age exactly when no stale entry stands behind a fresh one. */
  lemma {:induction false} EvictionIsFilteringExactly(q: seq<Entry>, cutoff: real)
    ensures DropOlder(q, cutoff) == Fresh(q, cutoff) <==> StaleFirst(q, cutoff)
  {
    if q != [] && q[0].receivedAt < cutoff {
      hide StaleFirst;
      StaleFirstRest(q, cutoff);
      EvictionIsFilteringExactly(q[1..], cutoff);
    } else if q != [] {
      hide Fresh;
      FreshIn(q, cutoff);
      if StaleFirst(q, cutoff) {
        AllFresh(q, cutoff);
      }
    }
  }

  lemma PulledLast(pool: Pool, target: int, peers: seq<Peer>, answers: seq<Answer>, times: seq<real>)
    requires |answers| == |times| == |peers| && peers != []
    requires forall p | p in peers :: p in pool.queues
    ensures var n := |peers| - 1;
      Pulled(pool, target, peers, answers, times)
      == PulledFor(Pulled(pool, target, peers[..n], answers[..n], times[..n]), target, peers[n], answers[n], times[n])
  {
    hide PulledFor;
  }

  /** A turn touches no other peer's queue. */
  lemma TurnElsewhere(pool: Pool, target: int, p: Peer, answer: Answer, at: real, q: Peer)
    requires p in pool.queues && q in pool.queues && p != q
    ensures PulledFor(pool, target, p, answer, at).queues[q] == pool.queues[q]
  {
    hide Stamp, Room;
  }

  /** A peer's queue after its turns, and only its turns, of a pull; a name listed twice has two. */
  function Topped(q: seq<Entry>, target: int, p: Peer, peers: seq<Peer>, answers: seq<Answer>, times: seq<real>): (after: seq<Entry>)
    requires |answers| == |times| == |peers|
    ensures q <= after
  {
    if peers == [] then q
    else
      var n := |peers| - 1;
      var before := Topped(q, target, p, peers[..n], answers[..n], times[..n]);
      if peers[n] == p && 0 < Room(target, |before|) && answers[n].Keys? then before + Stamp(answers[n].keys, times[n])
      else before
  }

  /** In its turns of a pull, the source gives a peer no more keys than it was asked for. */
  predicate Measured(q: seq<Entry>, target: int, p: Peer, peers: seq<Peer>, answers: seq<Answer>, times: seq<real>)
    requires |answers| == |times| == |peers|
  {
    forall i: nat | i < |peers| && peers[i] == p && answers[i].Keys? ::
      var room := Room(target, |Topped(q, target, p, peers[..i], answers[..i], times[..i])|);
      0 < room ==> |answers[i].keys| <= room
  }

  lemma TurnTops(pool: Pool, target: int, p: Peer, answer: Answer, at: real)
    requires p in pool.queues
    ensures PulledFor(pool, target, p, answer, at).queues[p]
         == var q := pool.queues[p]; if 0 < Room(target, |q|) && answer.Keys? then q + Stamp(answer.keys, at) else q
  {
    hide Stamp, Room;
  }

  /** An uninterrupted pull gives each queue its own turns, and nothing more. */
  lemma {:induction false} PullTopsUp(pool: Pool, target: int, peers: seq<Peer>, answers: seq<Answer>, times: seq<real>, p: Peer)
    requires |answers| == |times| == |peers|
    requires forall p | p in peers :: p in pool.queues
    requires p in pool.queues
    ensures Pulled(pool, target, peers, answers, times).queues[p]
         == Topped(pool.queues[p], target, p, peers, answers, times)
  {
    if peers == [] {
      NonePulled(pool, target);
    } else {
      hide Pulled, PulledFor, Room, Stamp;
      var n := |peers| - 1;
      var before := Pulled(pool, target, peers[..n], answers[..n], times[..n]);
      PulledLast(pool, target, peers, answers, times);
      PullTopsUp(pool, target, peers[..n], answers[..n], times[..n], p);
      if p != peers[n] {
        TurnElsewhere(before, target, peers[n], answers[n], times[n], p);
      } else {
        TurnTops(before, target, p, answers[n], times[n]);
      }
    }
  }

  /** A pull fills no queue beyond the target, and shortens none. */
  lemma {:induction false} PullStopsAtTarget(q: seq<Entry>, target: int, p: Peer, peers: seq<Peer>, answers: seq<Answer>, times: seq<real>)
    requires |answers| == |times| == |peers| && Measured(q, target, p, peers, answers, times)
    ensures |q| <= |Topped(q, target, p, peers, answers, times)|
    ensures |Topped(q, target, p, peers, answers, times)| <= if target < |q| then |q| else target
  {
    if peers != [] {
      var n := |peers| - 1;
      assert Measured(q, target, p, peers[..n], answers[..n], times[..n]) by {
        forall i: nat | i < n && peers[i] == p && answers[i].Keys?
          ensures var room := Room(target, |Topped(q, target, p, peers[..n][..i], answers[..n][..i], times[..n][..i])|);
            0 < room ==> |answers[i].keys| <= room
        {
          assert peers[..n][..i] == peers[..i] && answers[..n][..i] == answers[..i] && times[..n][..i] == times[..i];
        }
      }
      PullStopsAtTarget(q, target, p, peers[..n], answers[..n], times[..n]);
    }
  }

  /** In its turns of a pull, the source gives a peer all the keys it was asked for. */
  predicate InFull(q: seq<Entry>, target: int, p: Peer, peers: seq<Peer>, answers: seq<Answer>, times: seq<real>)
    requires |answers| == |times| == |peers|
  {
    forall i: nat | i < |peers| && peers[i] == p ::
      var room := Room(target, |Topped(q, target, p, peers[..i], answers[..i], times[..i])|);
      0 < room ==> answers[i].Keys? && |answers[i].keys| == room
  }

  /** How many turns a peer has. */
  function Turns(peers: seq<Peer>, p: Peer): nat {
    if peers == [] then 0 else Turns(peers[..|peers| - 1], p) + if peers[|peers| - 1] == p then 1 else 0
  }

  lemma InFullBefore(q: seq<Entry>, target: int, p: Peer, peers: seq<Peer>, answers: seq<Answer>, times: seq<real>)
    requires |answers| == |times| == |peers| && peers != [] && InFull(q, target, p, peers, answers, times)
    ensures var n := |peers| - 1; InFull(q, target, p, peers[..n], answers[..n], times[..n])
  {
    var n := |peers| - 1;
    forall i: nat | i < n && peers[i] == p
      ensures var room := Room(target, |Topped(q, target, p, peers[..n][..i], answers[..n][..i], times[..n][..i])|);
        0 < room ==> answers[i].Keys? && |answers[i].keys| == room
    {
      assert peers[..n][..i] == peers[..i] && answers[..n][..i] == answers[..i] && times[..n][..i] == times[..i];
    }
  }

  /**
   * A source that answers in full fills every queue below the target by a hundred keys a turn, up to the target; and a
   * queue at the target stays as it was.
   */
  lemma {:induction false} PullFills(q: seq<Entry>, target: int, p: Peer, peers: seq<Peer>, answers: seq<Answer>, times: seq<real>)
    requires |answers| == |times| == |peers| && InFull(q, target, p, peers, answers, times)
    ensures |Topped(q, target, p, peers, answers, times)|
         == if target <= |q| then |q|
            else if |q| + 100 * Turns(peers, p) < target then |q| + 100 * Turns(peers, p)
            else target
  {
    if peers != [] {
      var n := |peers| - 1;
      InFullBefore(q, target, p, peers, answers, times);
      PullFills(q, target, p, peers[..n], answers[..n], times[..n]);
      assert peers[n] == p ==>
        var room := Room(target, |Topped(q, target, p, peers[..n], answers[..n], times[..n])|);
        0 < room ==> answers[n].Keys? && |answers[n].keys| == room;
      hide InFull;
    }
  }

  /** What one turn adds are the keys of the answer, in order, received at that time. */
  lemma TurnAdds(pool: Pool, target: int, p: Peer, keys: seq<Key>, at: real)
    requires p in pool.queues && |pool.queues[p]| < target
    ensures var before, after := pool.queues[p], PulledFor(pool, target, p, Keys(keys), at).queues[p];
      && |after| == |before| + |keys| && before <= after
      && forall i | 0 <= i < |keys| :: after[|before| + i] == Entry(keys[i], at)
  {
  }

  /** The `i`-th turn of a pull decides whether the source counts as available. */
  predicate Decisive(pool: Pool, target: int, peers: seq<Peer>, answers: seq<Answer>, times: seq<real>, i: nat)
    requires |answers| == |times| == |peers| && i < |peers|
    requires forall p | p in peers :: p in pool.queues
  {
    var before := Pulled(pool, target, peers[..i], answers[..i], times[..i]);
    0 < Room(target, |before.queues[peers[i]]|) && !answers[i].Rejected?
  }

  /** After an uninterrupted pull the source counts as available by the last decisive turn. */
  lemma {:induction false} LastTurnDecides(pool: Pool, target: int, peers: seq<Peer>, answers: seq<Answer>, times: seq<real>, i: nat)
    requires |answers| == |times| == |peers| && i <= |peers|
    requires forall p | p in peers :: p in pool.queues
    requires i < |peers| ==> Decisive(pool, target, peers, answers, times, i)
    requires forall j: nat | j < |peers| && (i < j || i == |peers|) :: !Decisive(pool, target, peers, answers, times, j)
    ensures Pulled(pool, target, peers, answers, times).sourceAvailable
         == if i < |peers| then answers[i].Keys? else pool.sourceAvailable
  {
    hide Room, Stamp, Pulled;
    if peers == [] {
      NonePulled(pool, target);
    } else {
      var n := |peers| - 1;
      PulledLast(pool, target, peers, answers, times);
      if i != n {
        assert !Decisive(pool, target, peers, answers, times, n);
        forall j: nat | j < n
          ensures Decisive(pool, target, peers[..n], answers[..n], times[..n], j) == Decisive(pool, target, peers, answers, times, j)
        {
          assert peers[..n][..j] == peers[..j] && answers[..n][..j] == answers[..j] && times[..n][..j] == times[..j];
        }
        hide Decisive;
        LastTurnDecides(pool, target, peers[..n], answers[..n], times[..n], if i == |peers| then n else i);
      }
    }
  }
}
