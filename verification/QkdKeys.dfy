/** The keys themselves: what a request for keys answers with is what is stored, and what a later retrieval returns. */
module QkdKeys {
  import opened Options
  import opened Aead
  import opened QkdSim

  // --- who the other side is --------------------------------------------------------------

  /** The master of a slave is the first party other than it, and the slave itself only when there is no other. */
  lemma {:induction false} MasterExactly(saes: seq<Sae>, slave: Sae)
    ensures var m := MasterFor(saes, slave);
      if m == slave then forall s | s in saes :: s == slave
      else exists i: nat :: i < |saes| && saes[i] == m && forall j: nat | j < i :: saes[j] == slave
  {
    if saes != [] && saes[0] == slave {
      MasterExactly(saes[1..], slave);
      var m := MasterFor(saes[1..], slave);
      assert saes == [slave] + saes[1..];
      if m != slave {
        var i: nat :| i < |saes[1..]| && saes[1..][i] == m && forall j: nat | j < i :: saes[1..][j] == slave;
        assert saes[i + 1] == m;
        forall j: nat | j < i + 1 ensures saes[j] == slave {
          if j > 0 { assert saes[1..][j - 1] == saes[j]; }
        }
      }
    }
  }

  // --- what a request for keys is answered with -----------------------------------------------

  /** A query parameter that is no integer, or out of range. */
  predicate BadNumber(number: Option<int>) {
    number.None? || !(1 <= number.value <= MAX_KEY_PER_REQUEST)
  }

  /** A request for keys is answered with keys, or refused without issuing any. */
  lemma EncAnswersExactly(b: Books, saes: seq<Sae>, slave: Sae, number: Option<int>, draws: seq<(KeyId, Bytes)>)
    ensures var (after, reply) := EncKeys(b, saes, slave, number, draws);
      && (reply == Refused(404) <==> slave !in saes)
      && (reply == Refused(400) <==> slave in saes && BadNumber(number))
      && (reply == Refused(503) <==> slave in saes && !BadNumber(number) && !b.sourceAvailable)
      && (reply.Delivered? <==> slave in saes && !BadNumber(number) && b.sourceAvailable)
      && (reply.Refused? ==> after.keys == b.keys && after.consumedIds == b.consumedIds && after.issuedCount == b.issuedCount)
  {
    hide AllIssued, KeysOf, MasterFor;
  }

  /** Keys drawn under new and distinct identifiers are all stored as drawn, and no other key changes. */
  lemma {:induction false} AllStored(b: Books, pair: (Sae, Sae), draws: seq<(KeyId, Bytes)>)
    requires forall i | 0 <= i < |draws| :: draws[i].0 !in b.keys
    requires forall h, i | 0 <= h < i < |draws| :: draws[h].0 != draws[i].0
    ensures var after := AllIssued(b, pair, draws);
      && (forall i | 0 <= i < |draws| :: draws[i].0 in after.keys && after.keys[draws[i].0] == SimKey(draws[i].0, draws[i].1, pair))
      && (forall id | id in b.keys :: id in after.keys && after.keys[id] == b.keys[id])
      && after.consumedIds == b.consumedIds
  {
    if draws != [] {
      var n := |draws| - 1;
      AllStored(b, pair, draws[..n]);
      assert forall i | 0 <= i < n :: draws[..n][i] == draws[i];
    }
  }

  /** Every key retrieved has been issued. */
  predicate OnlyIssuedRetrieved(b: Books) {
    b.consumedIds <= b.keys.Keys
  }

  /** These keys are stored, bytes and all, under different identifiers, and none has been retrieved. */
  ghost predicate Waiting(b: Books, keys: seq<SimKey>) {
    && (forall i | 0 <= i < |keys| :: keys[i].id in b.keys && b.keys[keys[i].id] == keys[i] && keys[i].id !in b.consumedIds)
    && (forall h, i | 0 <= h < i < |keys| :: keys[h].id != keys[i].id)
  }

  /** As many keys as asked for, as drawn, for the right pair of parties, and stored as answered. */
  lemma AnsweredIsStored(b: Books, saes: seq<Sae>, slave: Sae, number: Option<int>, draws: seq<(KeyId, Bytes)>)
    requires FreshDraws(b, Enc(slave, number, draws)) && OnlyIssuedRetrieved(b)
    requires !BadNumber(number) ==> |draws| == number.value
    requires EncKeys(b, saes, slave, number, draws).1.Delivered?
    ensures var (after, reply) := EncKeys(b, saes, slave, number, draws);
      && |reply.keys| == number.value
      && (forall i | 0 <= i < |draws| :: reply.keys[i] == SimKey(draws[i].0, draws[i].1, (MasterFor(saes, slave), slave)))
      && Waiting(after, reply.keys)
  {
    hide MasterFor;
    AllStored(b.(keyRequests := b.keyRequests + 1), (MasterFor(saes, slave), slave), draws);
    hide AllIssued;
  }

  // --- until they are retrieved -----------------------------------------------------------------

  /** The request does not ask for any of these keys. */
  predicate Spares(q: Request, keys: seq<SimKey>) {
    q.Dec? && q.ids.Some? ==> forall i | 0 <= i < |keys| :: keys[i].id !in q.ids.value
  }

  lemma WaitingStep(b: Books, saes: seq<Sae>, q: Request, keys: seq<SimKey>)
    requires Waiting(b, keys) && FreshDraws(b, q) && Spares(q, keys)
    ensures Waiting(Served(b, saes, q).0, keys)
  {
    match q
    case Enc(slave, number, draws) =>
      hide MasterFor, KeysOf;
      AllStored(b.(keyRequests := b.keyRequests + 1), (MasterFor(saes, slave), slave), draws);
      hide AllIssued;
    case Dec(master, ids) =>
      if ids.Some? {
        assert forall id | id in ids.value[..Retrievable(b, ids.value)] :: id in ids.value;
      }
    case SetSource(_) =>
  }

  lemma {:induction false} WaitingRun(b: Books, saes: seq<Sae>, requests: seq<Request>, keys: seq<SimKey>)
    requires Waiting(b, keys) && AllFresh(b, saes, requests) && forall q | q in requests :: Spares(q, keys)
    ensures Waiting(ServedAll(b, saes, requests), keys)
  {
    if requests != [] {
      var n := |requests| - 1;
      assert AllFresh(b, saes, requests[..n]) by { FreshPrefix(b, saes, requests); }
      assert FreshDraws(ServedAll(b, saes, requests[..n]), requests[n]);
      hide Waiting, FreshDraws, Served, Spares;
      WaitingRun(b, saes, requests[..n], keys);
      WaitingStep(ServedAll(b, saes, requests[..n]), saes, requests[n], keys);
    }
  }

  lemma FreshPrefix(b: Books, saes: seq<Sae>, requests: seq<Request>)
    requires requests != [] && AllFresh(b, saes, requests)
    ensures AllFresh(b, saes, requests[..|requests| - 1])
  {
    hide FreshDraws, Served;
    var n := |requests| - 1;
    forall i | 0 <= i < n ensures FreshDraws(ServedAll(b, saes, requests[..n][..i]), requests[..n][i]) {
      assert requests[..n][..i] == requests[..i];
    }
  }

  function IdsOf(keys: seq<SimKey>): seq<KeyId> {
    seq(|keys|, i requires 0 <= i < |keys| => keys[i].id)
  }

  /** Waiting keys are returned, bytes and order included, by one retrieval of their identifiers. */
  lemma WaitingDelivered(b: Books, saes: seq<Sae>, master: Sae, keys: seq<SimKey>)
    requires Waiting(b, keys) && master in saes
    ensures DecKeys(b, saes, master, Some(IdsOf(keys))).1 == Delivered(keys)
  {
    var ids := IdsOf(keys);
    var j := Retrievable(b, ids);
    assert StopsAt(b, ids, |ids|);
    OneStop(b, ids, j, |ids|);
    assert seq(j, i requires 0 <= i < j => b.keys[ids[i]]) == keys;
    hide Retrievable;
  }

  /**
   * What a request for keys was answered with is exactly what a later retrieval of the same identifiers returns, after
   * any requests in between that draw fresh identifiers and do not ask for those keys.
   */
  lemma IssuedThenRetrieved(b: Books, saes: seq<Sae>, slave: Sae, number: Option<int>, draws: seq<(KeyId, Bytes)>,
                            between: seq<Request>, master: Sae)
    requires FreshDraws(b, Enc(slave, number, draws)) && OnlyIssuedRetrieved(b)
    requires !BadNumber(number) ==> |draws| == number.value
    requires EncKeys(b, saes, slave, number, draws).1.Delivered? && master in saes
    requires var (after, reply) := EncKeys(b, saes, slave, number, draws);
      AllFresh(after, saes, between) && forall q | q in between :: Spares(q, reply.keys)
    ensures var (after, reply) := EncKeys(b, saes, slave, number, draws);
      DecKeys(ServedAll(after, saes, between), saes, master, Some(IdsOf(reply.keys))).1 == reply
  {
    AnsweredIsStored(b, saes, slave, number, draws);
    var (after, reply) := EncKeys(b, saes, slave, number, draws);
    hide *;
    WaitingRun(after, saes, between, reply.keys);
    WaitingDelivered(ServedAll(after, saes, between), saes, master, reply.keys);
  }

  /** On every request sequence only issued keys have been retrieved. */
  lemma OnlyIssuedOnRuns(saes: seq<Sae>, requests: seq<Request>)
    requires AllFresh(Empty(), saes, requests)
    ensures OnlyIssuedRetrieved(ServedAll(Empty(), saes, requests))
  {
    CountersBalance(saes, requests);
    hide ServedAll, AllFresh;
  }

  // --- what a retrieval is answered with ----------------------------------------------------------

  /** A retrieval delivers exactly when every identifier asked for is known, not retrieved and asked for once. */
  lemma DecAnswersExactly(b: Books, saes: seq<Sae>, master: Sae, ids: Option<seq<KeyId>>)
    ensures var reply := DecKeys(b, saes, master, ids).1;
      && (reply == Refused(404) <==>
            master !in saes || (ids.Some? && exists j: nat :: j < |ids.value| && StopsAt(b, ids.value, j) && ids.value[j] !in b.keys))
      && (reply.Delivered? <==> master in saes && ids.Some? && StopsAt(b, ids.value, |ids.value|))
      && (reply == Refused(400) <==>
            master in saes && (ids.None? || exists j: nat :: j < |ids.value| && StopsAt(b, ids.value, j) && ids.value[j] in b.keys))
  {
    if ids.Some? {
      var k := Retrievable(b, ids.value);
      forall j: nat | StopsAt(b, ids.value, j) ensures j == k {
        OneStop(b, ids.value, j, k);
      }
    }
    hide Retrievable, StopsAt;
  }

  /** A retrieval stops at one place only. */
  lemma OneStop(b: Books, ids: seq<KeyId>, j: nat, k: nat)
    requires StopsAt(b, ids, j) && StopsAt(b, ids, k)
    ensures j == k
  {
  }
}
