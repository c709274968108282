/** The simulated key delivery entity: issue, retrieval exactly once, and the counters it reports. */
module QkdSim {
  import opened Options
  import opened Aead

  type KeyId = string
  type Sae = string

  datatype SimKey = SimKey(id: KeyId, material: Bytes, pair: (Sae, Sae))

  datatype Books = Books(
    sourceAvailable: bool,
    keys: map<KeyId, SimKey>,
    consumedIds: set<KeyId>,
    issuedCount: nat,
    consumedKeys: nat,
    consumedBits: nat,
    keyRequests: nat,
    failedKeyRequests: nat,
    deletedBits: nat)

  datatype Reply = Delivered(keys: seq<SimKey>) | Refused(status: nat)

  const KEY_BITS := 256
  const MAX_KEY_PER_REQUEST := 100

  // --- specification ----------------------------------------------------------

  function MasterFor(saes: seq<Sae>, slave: Sae): Sae {
    if saes == [] then slave else if saes[0] != slave then saes[0] else MasterFor(saes[1..], slave)
  }

  function Issued(b: Books, pair: (Sae, Sae), draw: (KeyId, Bytes)): Books {
    b.(keys := b.keys[draw.0 := SimKey(draw.0, draw.1, pair)], issuedCount := b.issuedCount + 1,
       consumedKeys := b.consumedKeys + 1, consumedBits := b.consumedBits + KEY_BITS)
  }

  function AllIssued(b: Books, pair: (Sae, Sae), draws: seq<(KeyId, Bytes)>): Books {
    if draws == [] then b
    else
      var n := |draws| - 1;
      Issued(AllIssued(b, pair, draws[..n]), pair, draws[n])
  }

  function KeysOf(pair: (Sae, Sae), draws: seq<(KeyId, Bytes)>): seq<SimKey> {
    seq(|draws|, i requires 0 <= i < |draws| => SimKey(draws[i].0, draws[i].1, pair))
  }

  /** `number` is None when the query parameter is no integer; `draws` are the identifiers and bits the request draws. */
  function EncKeys(b: Books, saes: seq<Sae>, slave: Sae, number: Option<int>, draws: seq<(KeyId, Bytes)>): (Books, Reply) {
    if slave !in saes then (b, Refused(404))
    else if number.None? || number.value < 1 || MAX_KEY_PER_REQUEST < number.value then (b, Refused(400))
    else if !b.sourceAvailable then (b.(failedKeyRequests := b.failedKeyRequests + 1), Refused(503))
    else
      var pair := (MasterFor(saes, slave), slave);
      (AllIssued(b.(keyRequests := b.keyRequests + 1), pair, draws), Delivered(KeysOf(pair, draws)))
  }

  /** The first `j` identifiers are known, not yet retrieved and distinct, and the next one, if any, is not so. */
  ghost predicate StopsAt(b: Books, ids: seq<KeyId>, j: nat) {
    && j <= |ids|
    && (forall i | 0 <= i < j :: ids[i] in b.keys && ids[i] !in b.consumedIds)
    && (forall h, i | 0 <= h < i < j :: ids[h] != ids[i])
    && (j < |ids| ==> ids[j] !in b.keys || ids[j] in b.consumedIds || ids[j] in ids[..j])
  }

  /** How many keys a retrieval consumes before it stops. */
  function Retrievable(b: Books, ids: seq<KeyId>): (j: nat)
    ensures StopsAt(b, ids, j)
  {
    if ids == [] then 0
    else
      var n := |ids| - 1;
      var j := Retrievable(b, ids[..n]);
      assert forall i | 0 <= i < n :: ids[..n][i] == ids[i];
      assert j < n ==> ids[..n][..j] == ids[..j];
      if j == n && ids[n] in b.keys && ids[n] !in b.consumedIds && ids[n] !in ids[..n] then n + 1 else j
  }

  function Retrieved(b: Books, ids: seq<KeyId>): Books {
    b.(consumedIds := b.consumedIds + (set id | id in ids), deletedBits := b.deletedBits + KEY_BITS * |ids|)
  }

  /** `ids` is None when the request names no key. */
  function DecKeys(b: Books, saes: seq<Sae>, master: Sae, ids: Option<seq<KeyId>>): (Books, Reply) {
    if master !in saes then (b, Refused(404))
    else if ids.None? then (b, Refused(400))
    else
      var j := Retrievable(b, ids.value);
      (Retrieved(b, ids.value[..j]),
       if j < |ids.value| then Refused(if ids.value[j] !in b.keys then 404 else 400)
       else Delivered(seq(j, i requires 0 <= i < j => b.keys[ids.value[i]])))
  }

  // --- the store and the two handlers -----------------------------------------------

  class KeyStore {
    const inventory: int
    const saes: seq<Sae>
    var sourceAvailable: bool
    var keys: map<KeyId, SimKey>
    var consumedIds: set<KeyId>
    var issuedCount: nat
    var consumedKeys: nat
    var consumedBits: nat
    var keyRequests: nat
    var failedKeyRequests: nat
    var deletedBits: nat

    constructor (inventory: int, saes: seq<Sae>)
      ensures this.inventory == inventory && this.saes == saes && Contents() == Empty()
    {
      this.inventory := inventory;
      this.saes := saes;
      sourceAvailable := true;
      keys := map[];
      consumedIds := {};
      issuedCount, consumedKeys, consumedBits := 0, 0, 0;
      keyRequests, failedKeyRequests, deletedBits := 0, 0, 0;
    }

    ghost function Contents(): Books
      reads this
    {
      Books(sourceAvailable, keys, consumedIds, issuedCount, consumedKeys, consumedBits, keyRequests, failedKeyRequests, deletedBits)
    }

    method Available() returns (n: int)
      ensures n == AvailableCount(Contents(), inventory)
    {
      n := inventory - issuedCount;
    }

    method Pending() returns (n: int)
      ensures n == PendingCount(Contents())
    {
      n := |keys| - |consumedIds|;
    }

    method NewKey(pair: (Sae, Sae), draw: (KeyId, Bytes)) returns (key: SimKey)
      modifies this
      ensures Contents() == Issued(old(Contents()), pair, draw) && key == SimKey(draw.0, draw.1, pair)
    {
      key := SimKey(draw.0, draw.1, pair);
      keys := keys[draw.0 := key];
      issuedCount := issuedCount + 1;
      consumedKeys := consumedKeys + 1;
      consumedBits := consumedBits + KEY_BITS;
    }

    method Consume(id: KeyId) returns (key: Option<SimKey>)
      modifies this
      ensures key == if id in old(keys) && id !in old(consumedIds) then Some(old(keys)[id]) else None
      ensures Contents() == if key.Some? then Retrieved(old(Contents()), [id]) else old(Contents())
    {
      if id !in keys || id in consumedIds {
        return None;
      }
      assert (set other | other in [id]) == {id};
      consumedIds := consumedIds + {id};
      deletedBits := deletedBits + KEY_BITS;
      key := Some(keys[id]);
    }

    method HandleEncKeys(slave: Sae, number: Option<int>, draws: seq<(KeyId, Bytes)>) returns (reply: Reply)
      requires number.Some? && 1 <= number.value <= MAX_KEY_PER_REQUEST ==> |draws| == number.value
      modifies this
      ensures (Contents(), reply) == EncKeys(old(Contents()), saes, slave, number, draws)
    {
      if slave !in saes {
        return Refused(404);
      }
      if number.None? || number.value < 1 || MAX_KEY_PER_REQUEST < number.value {
        return Refused(400);
      }
      var master := MasterFor(saes, slave);
      if !sourceAvailable {
        failedKeyRequests := failedKeyRequests + 1;
        return Refused(503);
      }
      keyRequests := keyRequests + 1;
      ghost var before := Contents();
      var issued := [];
      for i := 0 to number.value
        invariant Contents() == AllIssued(before, (master, slave), draws[..i])
        invariant issued == KeysOf((master, slave), draws[..i])
      {
        assert draws[..i + 1][..i] == draws[..i];
        var key := NewKey((master, slave), draws[i]);
        issued := issued + [key];
      }
      assert draws[..number.value] == draws;
      reply := Delivered(issued);
    }

    method HandleDecKeys(master: Sae, ids: Option<seq<KeyId>>) returns (reply: Reply)
      modifies this
      ensures (Contents(), reply) == DecKeys(old(Contents()), saes, master, ids)
    {
      if master !in saes {
        return Refused(404);
      }
      if ids.None? {
        return Refused(400);
      }
      ghost var before := Contents();
      ghost var stop := Retrievable(before, ids.value);
      var found := [];
      for i := 0 to |ids.value|
        invariant StopsAt(before, ids.value[..i], i) && i <= stop
        invariant Contents() == Retrieved(before, ids.value[..i])
        invariant found == seq(i, h requires 0 <= h < i => before.keys[ids.value[h]])
      {
        StopsOnce(before, ids.value, i, stop);
        if ids.value[i] !in keys {
          return Refused(404);
        }
        if ids.value[i] in consumedIds {
          return Refused(400);
        }
        RetrievedOneMore(before, ids.value, i);
        var key := Consume(ids.value[i]);
        found := found + [key.value];
      }
      assert ids.value[..|ids.value|] == ids.value;
      reply := Delivered(found);
    }
  }

  /** A retrieval that got as far as `i` stops there exactly when the identifier at `i` is unknown or used up by then. */
  lemma StopsOnce(b: Books, ids: seq<KeyId>, i: nat, stop: nat)
    requires i < |ids| && i <= stop && StopsAt(b, ids, stop) && StopsAt(b, ids[..i], i)
    ensures var used := Retrieved(b, ids[..i]).consumedIds;
      stop == i <==> ids[i] !in b.keys || ids[i] in used
    ensures i < stop ==> StopsAt(b, ids[..i + 1], i + 1)
  {
    assert forall h | 0 <= h < i :: ids[..i][h] == ids[h];
    assert i < stop ==> forall h | 0 <= h <= i :: ids[..i + 1][h] == ids[h];
  }

  lemma RetrievedOneMore(b: Books, ids: seq<KeyId>, i: nat)
    requires i < |ids|
    ensures Retrieved(Retrieved(b, ids[..i]), [ids[i]]) == Retrieved(b, ids[..i + 1])
  {
    assert ids[..i + 1] == ids[..i] + [ids[i]];
  }

  function Empty(): Books {
    Books(true, map[], {}, 0, 0, 0, 0, 0, 0)
  }

  function AvailableCount(b: Books, inventory: int): int {
    inventory - b.issuedCount
  }

  function PendingCount(b: Books): int {
    |b.keys| - |b.consumedIds|
  }

  // --- request sequences -----------------------------------------------------------

  datatype Request =
    | Enc(slave: Sae, number: Option<int>, draws: seq<(KeyId, Bytes)>)
    | Dec(master: Sae, ids: Option<seq<KeyId>>)
    | SetSource(available: bool)

  function Served(b: Books, saes: seq<Sae>, q: Request): (Books, Reply) {
    match q
    case Enc(slave, number, draws) => EncKeys(b, saes, slave, number, draws)
    case Dec(master, ids) => DecKeys(b, saes, master, ids)
    case SetSource(available) => (b.(sourceAvailable := available), Delivered([]))
  }

  function ServedAll(b: Books, saes: seq<Sae>, requests: seq<Request>): Books {
    if requests == [] then b
    else
      var n := |requests| - 1;
      Served(ServedAll(b, saes, requests[..n]), saes, requests[n]).0
  }

  /** The identifiers a request draws are new and distinct. */
  ghost predicate FreshDraws(b: Books, q: Request) {
    q.Enc? ==>
      && (forall i | 0 <= i < |q.draws| :: q.draws[i].0 !in b.keys)
      && (forall h, i | 0 <= h < i < |q.draws| :: q.draws[h].0 != q.draws[i].0)
  }

  ghost predicate AllFresh(b: Books, saes: seq<Sae>, requests: seq<Request>) {
    forall i | 0 <= i < |requests| :: FreshDraws(ServedAll(b, saes, requests[..i]), requests[i])
  }

  // --- at most once ------------------------------------------------------------------

  /** A successful retrieval returns exactly the keys asked for, in order, and none of them was retrieved before. */
  lemma DeliveryIsExact(b: Books, saes: seq<Sae>, master: Sae, ids: seq<KeyId>)
    requires DecKeys(b, saes, master, Some(ids)).1.Delivered?
    ensures var (after, reply) := DecKeys(b, saes, master, Some(ids));
      && |reply.keys| == |ids|
      && (forall i | 0 <= i < |ids| :: ids[i] in b.keys && reply.keys[i] == b.keys[ids[i]]
            && ids[i] !in b.consumedIds && ids[i] in after.consumedIds)
      && (forall h, i | 0 <= h < i < |ids| :: ids[h] != ids[i])
  {
    assert ids[..|ids|] == ids;
  }

  /** A retrieval that fails has used up exactly the keys before the one it failed on, and returned none of them. */
  lemma FailureBurnsThePrefix(b: Books, saes: seq<Sae>, master: Sae, ids: seq<KeyId>)
    requires master in saes && DecKeys(b, saes, master, Some(ids)).1.Refused?
    ensures var (after, reply) := DecKeys(b, saes, master, Some(ids));
      exists j: nat | j < |ids| && StopsAt(b, ids, j) ::
        && after.consumedIds == b.consumedIds + (set id | id in ids[..j])
        && after.deletedBits == b.deletedBits + KEY_BITS * j
        && reply.status == if ids[j] in b.keys then 400 else 404
  {
    assert StopsAt(b, ids, Retrievable(b, ids));
  }

  lemma {:induction false} AllIssuedKeys(b: Books, pair: (Sae, Sae), draws: seq<(KeyId, Bytes)>)
    ensures var after := AllIssued(b, pair, draws);
      && after.consumedIds == b.consumedIds && after.deletedBits == b.deletedBits
      && after.keys.Keys == b.keys.Keys + (set i | 0 <= i < |draws| :: draws[i].0)
      && after.issuedCount == b.issuedCount + |draws|
      && after.consumedKeys == b.consumedKeys + |draws|
      && after.consumedBits == b.consumedBits + KEY_BITS * |draws|
  {
    if draws != [] {
      var n := |draws| - 1;
      AllIssuedKeys(b, pair, draws[..n]);
      assert (set i | 0 <= i < |draws| :: draws[i].0) == (set i | 0 <= i < n :: draws[..n][i].0) + {draws[n].0} by {
        assert forall i | 0 <= i < n :: draws[..n][i] == draws[i];
      }
    }
  }

  lemma {:induction false} ConsumedStays(b: Books, saes: seq<Sae>, requests: seq<Request>)
    ensures b.consumedIds <= ServedAll(b, saes, requests).consumedIds
  {
    if requests != [] {
      var n := |requests| - 1;
      ConsumedStays(b, saes, requests[..n]);
      var q := requests[n];
      if q.Enc? {
        var c := ServedAll(b, saes, requests[..n]);
        AllIssuedKeys(c.(keyRequests := c.keyRequests + 1), (MasterFor(saes, q.slave), q.slave), q.draws);
      }
    }
  }

  /** No key is returned by two successful retrievals, whatever is asked in between and even if identifiers repeat. */
  lemma AtMostOnce(b: Books, saes: seq<Sae>, master: Sae, ids: seq<KeyId>, between: seq<Request>, master': Sae, ids': seq<KeyId>)
    requires DecKeys(b, saes, master, Some(ids)).1.Delivered?
    requires DecKeys(ServedAll(DecKeys(b, saes, master, Some(ids)).0, saes, between), saes, master', Some(ids')).1.Delivered?
    ensures forall id | id in ids :: id !in ids'
  {
    hide DecKeys;
    var after := DecKeys(b, saes, master, Some(ids)).0;
    DeliveryIsExact(b, saes, master, ids);
    ConsumedStays(after, saes, between);
    DeliveryIsExact(ServedAll(after, saes, between), saes, master', ids');
    assert forall id | id in ids :: id in after.consumedIds;
  }

  // --- the counters ------------------------------------------------------------------

  /** The key and bit counters are determined by how many keys were issued and how many retrieved. */
  ghost predicate Balanced(b: Books) {
    && b.consumedIds <= b.keys.Keys
    && |b.keys| == b.issuedCount
    && b.consumedKeys == b.issuedCount
    && b.consumedBits == KEY_BITS * b.issuedCount
    && b.deletedBits == KEY_BITS * |b.consumedIds|
    && PendingCount(b) == b.issuedCount - |b.consumedIds|
  }

  lemma {:induction false} DrawCount(draws: seq<(KeyId, Bytes)>)
    requires forall h, i | 0 <= h < i < |draws| :: draws[h].0 != draws[i].0
    ensures |set i | 0 <= i < |draws| :: draws[i].0| == |draws|
  {
    if draws != [] {
      var n := |draws| - 1;
      DrawCount(draws[..n]);
      assert (set i | 0 <= i < |draws| :: draws[i].0) == (set i | 0 <= i < n :: draws[..n][i].0) + {draws[n].0} by {
        assert forall i | 0 <= i < n :: draws[..n][i] == draws[i];
      }
    }
  }

  lemma {:induction false} IdCount(ids: seq<KeyId>)
    requires forall h, i | 0 <= h < i < |ids| :: ids[h] != ids[i]
    ensures |set id | id in ids| == |ids|
  {
    if ids != [] {
      var n := |ids| - 1;
      IdCount(ids[..n]);
      assert (set id | id in ids) == (set id | id in ids[..n]) + {ids[n]} by {
        assert ids == ids[..n] + [ids[n]];
      }
    }
  }

  lemma BalancedIssue(b: Books, pair: (Sae, Sae), draws: seq<(KeyId, Bytes)>)
    requires Balanced(b)
    requires forall i | 0 <= i < |draws| :: draws[i].0 !in b.keys
    requires forall h, i | 0 <= h < i < |draws| :: draws[h].0 != draws[i].0
    ensures Balanced(AllIssued(b, pair, draws))
  {
    hide AllIssued;
    AllIssuedKeys(b, pair, draws);
    DrawCount(draws);
    var drawn := set i | 0 <= i < |draws| :: draws[i].0;
    assert |b.keys.Keys + drawn| == |b.keys.Keys| + |drawn| by {
      assert drawn !! b.keys.Keys;
    }
    assert |AllIssued(b, pair, draws).keys| == |AllIssued(b, pair, draws).keys.Keys|;
  }

  lemma BalancedEnc(b: Books, saes: seq<Sae>, slave: Sae, number: Option<int>, draws: seq<(KeyId, Bytes)>)
    requires Balanced(b) && FreshDraws(b, Enc(slave, number, draws))
    ensures Balanced(EncKeys(b, saes, slave, number, draws).0)
  {
    hide AllIssued, MasterFor, KeysOf;
    BalancedIssue(b.(keyRequests := b.keyRequests + 1), (MasterFor(saes, slave), slave), draws);
  }

  lemma BalancedDec(b: Books, saes: seq<Sae>, master: Sae, ids: Option<seq<KeyId>>)
    requires Balanced(b)
    ensures Balanced(DecKeys(b, saes, master, ids).0)
  {
    if ids.Some? {
      var used := ids.value[..Retrievable(b, ids.value)];
      IdCount(used);
      var fresh' := set id | id in used;
      assert fresh' !! b.consumedIds;
      assert |b.consumedIds + fresh'| == |b.consumedIds| + |fresh'|;
    }
  }

  /** How many requests for keys were answered with keys, and how many because the source was down were not. */
  function RequestCounts(saes: seq<Sae>, requests: seq<Request>): (nat, nat) {
    if requests == [] then (0, 0)
    else
      var n := |requests| - 1;
      var (answered, failed) := RequestCounts(saes, requests[..n]);
      var reply := Served(ServedAll(Empty(), saes, requests[..n]), saes, requests[n]).1;
      (if requests[n].Enc? && reply.Delivered? then answered + 1 else answered,
       if requests[n].Enc? && reply == Refused(503) then failed + 1 else failed)
  }

  lemma CountsServed(b: Books, saes: seq<Sae>, q: Request)
    ensures var (after, reply) := Served(b, saes, q);
      && after.keyRequests == b.keyRequests + (if q.Enc? && reply.Delivered? then 1 else 0)
      && after.failedKeyRequests == b.failedKeyRequests + (if q.Enc? && reply == Refused(503) then 1 else 0)
  {
    if q.Enc? {
      hide MasterFor, KeysOf;
      IssueCountsNone(b.(keyRequests := b.keyRequests + 1), (MasterFor(saes, q.slave), q.slave), q.draws);
    }
  }

  lemma {:induction false} IssueCountsNone(b: Books, pair: (Sae, Sae), draws: seq<(KeyId, Bytes)>)
    ensures AllIssued(b, pair, draws).keyRequests == b.keyRequests
    ensures AllIssued(b, pair, draws).failedKeyRequests == b.failedKeyRequests
  {
    if draws != [] {
      IssueCountsNone(b, pair, draws[..|draws| - 1]);
    }
  }

  /** Over any request sequence `key_requests` and `num_failed` count exactly the answered and the failed requests for keys. */
  lemma {:induction false} RequestsCounted(saes: seq<Sae>, requests: seq<Request>)
    ensures var b := ServedAll(Empty(), saes, requests);
      (b.keyRequests, b.failedKeyRequests) == RequestCounts(saes, requests)
  {
    hide Served;
    if requests != [] {
      var n := |requests| - 1;
      RequestsCounted(saes, requests[..n]);
      CountsServed(ServedAll(Empty(), saes, requests[..n]), saes, requests[n]);
    }
  }

  /** Over any request sequence with fresh identifiers the key and bit counters stay balanced. */
  lemma {:induction false} CountersBalance(saes: seq<Sae>, requests: seq<Request>)
    requires AllFresh(Empty(), saes, requests)
    ensures Balanced(ServedAll(Empty(), saes, requests))
  {
    if requests != [] {
      var n := |requests| - 1;
      assert AllFresh(Empty(), saes, requests[..n]) by {
        forall i | 0 <= i < n ensures FreshDraws(ServedAll(Empty(), saes, requests[..n][..i]), requests[..n][i]) {
          assert requests[..n][..i] == requests[..i];
        }
      }
      CountersBalance(saes, requests[..n]);
      var b, q := ServedAll(Empty(), saes, requests[..n]), requests[n];
      assert FreshDraws(b, q);
      match q
      case Enc(slave, number, draws) => BalancedEnc(b, saes, slave, number, draws);
      case Dec(master, ids) => BalancedDec(b, saes, master, ids);
      case SetSource(_) =>
    }
  }

  // --- the inventory -----------------------------------------------------------------

  /** How many keys the answer to a request carries out, and how many a retrieval uses up, even if it then fails. */
  function KeyCount(b: Books, saes: seq<Sae>, q: Request): (nat, nat) {
    match q
    case Enc(_, _, _) => (var reply := Served(b, saes, q).1; if reply.Delivered? then |reply.keys| else 0, 0)
    case Dec(master, ids) => (0, if master in saes && ids.Some? then Retrievable(b, ids.value) else 0)
    case SetSource(_) => (0, 0)
  }

  function KeyCounts(saes: seq<Sae>, requests: seq<Request>): (nat, nat) {
    if requests == [] then (0, 0)
    else
      var n := |requests| - 1;
      var (issued, retrieved) := KeyCounts(saes, requests[..n]);
      var (more, used) := KeyCount(ServedAll(Empty(), saes, requests[..n]), saes, requests[n]);
      (issued + more, retrieved + used)
  }

  lemma EncCounts(b: Books, saes: seq<Sae>, slave: Sae, number: Option<int>, draws: seq<(KeyId, Bytes)>)
    ensures var (after, reply) := EncKeys(b, saes, slave, number, draws);
      && after.consumedIds == b.consumedIds
      && after.issuedCount == b.issuedCount + if reply.Delivered? then |reply.keys| else 0
  {
    hide AllIssued, MasterFor;
    AllIssuedKeys(b.(keyRequests := b.keyRequests + 1), (MasterFor(saes, slave), slave), draws);
  }

  lemma DecCounts(b: Books, saes: seq<Sae>, master: Sae, ids: Option<seq<KeyId>>)
    ensures var after := DecKeys(b, saes, master, ids).0;
      && after.issuedCount == b.issuedCount
      && |after.consumedIds| == |b.consumedIds| + if master in saes && ids.Some? then Retrievable(b, ids.value) else 0
  {
    if ids.Some? {
      var used := ids.value[..Retrievable(b, ids.value)];
      IdCount(used);
      var fresh' := set id | id in used;
      assert fresh' !! b.consumedIds;
      assert |b.consumedIds + fresh'| == |b.consumedIds| + |fresh'|;
    }
  }

  lemma KeysServed(b: Books, saes: seq<Sae>, q: Request)
    ensures var after := Served(b, saes, q).0;
      after.issuedCount == b.issuedCount + KeyCount(b, saes, q).0 && |after.consumedIds| == |b.consumedIds| + KeyCount(b, saes, q).1
  {
    hide EncKeys, DecKeys, Retrievable;
    match q
    case Enc(slave, number, draws) => EncCounts(b, saes, slave, number, draws);
    case Dec(master, ids) => DecCounts(b, saes, master, ids);
    case SetSource(_) =>
  }

  lemma ServedLast(b: Books, saes: seq<Sae>, requests: seq<Request>)
    requires requests != []
    ensures var n := |requests| - 1;
      ServedAll(b, saes, requests) == Served(ServedAll(b, saes, requests[..n]), saes, requests[n]).0
  {
    hide Served;
  }

  lemma CountedLast(saes: seq<Sae>, requests: seq<Request>)
    requires requests != []
    ensures var n := |requests| - 1;
      var (issued, retrieved) := KeyCounts(saes, requests[..n]);
      var (more, used) := KeyCount(ServedAll(Empty(), saes, requests[..n]), saes, requests[n]);
      KeyCounts(saes, requests) == (issued + more, retrieved + used)
  {
    hide ServedAll, KeyCount, Empty;
  }

  lemma NothingCounted(saes: seq<Sae>, requests: seq<Request>)
    requires requests == []
    ensures ServedAll(Empty(), saes, requests) == Empty() && KeyCounts(saes, requests) == (0, 0)
    ensures Empty().issuedCount == 0 && |Empty().consumedIds| == 0
  {
    hide Served, KeyCount;
  }

  lemma {:induction false} KeysCounted(saes: seq<Sae>, requests: seq<Request>)
    ensures var b := ServedAll(Empty(), saes, requests);
      (b.issuedCount, |b.consumedIds|) == KeyCounts(saes, requests)
  {
    hide *;
    if requests == [] {
      NothingCounted(saes, requests);
    } else {
      var n := |requests| - 1;
      KeysCounted(saes, requests[..n]);
      KeysServed(ServedAll(Empty(), saes, requests[..n]), saes, requests[n]);
      ServedLast(Empty(), saes, requests);
      CountedLast(saes, requests);
    }
  }

  /**
   * Over any request sequence with fresh identifiers the reported numbers agree with the answers given: what is
   * available is the inventory less the keys the answers carried, and what is pending are those not retrieved since; so
   * available, pending and retrieved keys add up to the inventory.
   */
  lemma {:induction false} InventoryConserved(saes: seq<Sae>, requests: seq<Request>, inventory: int)
    requires AllFresh(Empty(), saes, requests)
    ensures var b, counts := ServedAll(Empty(), saes, requests), KeyCounts(saes, requests);
      && (AvailableCount(b, inventory), PendingCount(b)) == (inventory - counts.0, counts.0 - counts.1)
      && |b.consumedIds| == counts.1
  {
    hide ServedAll, KeyCounts;
    KeysCounted(saes, requests);
    CountersBalance(saes, requests);
  }
}
