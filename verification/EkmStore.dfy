/** The persistent binding store: two uniquely keyed tables, with atomic commits. */
module EkmStore {
  import opened Options
  import opened Aead

  type KeyId = string
  type ObjectId = string
  type Peer = string

  datatype Purpose = ForEkm | ForVpn | ForFile

  datatype Row = Row(purpose: Purpose, objectId: ObjectId, peer: Peer)

  datatype KekRow = KekRow(unit: KeyId, material: Blob)

  /** The contents of both tables; the map keys are the two primary keys. */
  datatype Tables = Tables(bindings: map<KeyId, Row>, kek: map<ObjectId, KekRow>)

  datatype KekAnswer = NoKek | Kek(material: Bytes) | Unreadable

  /** Some binding already has this purpose and object. */
  predicate Occupied(t: Tables, purpose: Purpose, obj: ObjectId) {
    exists id | id in t.bindings :: t.bindings[id].purpose == purpose && t.bindings[id].objectId == obj
  }

  /** The tables after an INSERT into `bindings`; None when one of its two uniqueness constraints refuses it. */
  function Bound(t: Tables, id: KeyId, purpose: Purpose, obj: ObjectId, peer: Peer): Option<Tables> {
    if id in t.bindings || Occupied(t, purpose, obj) then None
    else Some(t.(bindings := t.bindings[id := Row(purpose, obj, peer)]))
  }

  /** The tables after an INSERT OR REPLACE into `kek`. */
  function WithKek(t: Tables, localKey: Bytes, obj: ObjectId, unit: KeyId, material: Bytes, nonce: Bytes): Tables {
    t.(kek := t.kek[obj := KekRow(unit, Seal(localKey, nonce, material, Encode(obj)))])
  }

  function ReadKek(t: Tables, localKey: Bytes, obj: ObjectId): KekAnswer {
    if obj !in t.kek then NoKek
    else match Open(localKey, t.kek[obj].material, Encode(obj))
      case Some(material) => Kek(material)
      case None => Unreadable
  }

  ghost predicate UniqueObjects(t: Tables) {
    forall a, b | a in t.bindings && b in t.bindings
      && t.bindings[a].purpose == t.bindings[b].purpose && t.bindings[a].objectId == t.bindings[b].objectId ::
      a == b
  }

  class Store {
    const localKey: Bytes
    var bindings: map<KeyId, Row>
    var kek: map<ObjectId, KekRow>

    ghost function Contents(): Tables
      reads this
    {
      Tables(bindings, kek)
    }

    /** Opens the database file holding `saved`. */
    constructor (localKey: Bytes, saved: Tables)
      ensures this.localKey == localKey && Contents() == saved
    {
      this.localKey := localKey;
      bindings := saved.bindings;
      kek := saved.kek;
    }

    method Bind(id: KeyId, purpose: Purpose, obj: ObjectId, peer: Peer) returns (alreadyBound: bool)
      modifies this`bindings
      ensures alreadyBound == Bound(old(Contents()), id, purpose, obj, peer).None?
      ensures Contents() == if alreadyBound then old(Contents()) else Bound(old(Contents()), id, purpose, obj, peer).value
      ensures old(UniqueObjects(Contents())) ==> UniqueObjects(Contents())
    {
      alreadyBound := id in bindings
        || exists other | other in bindings :: bindings[other].purpose == purpose && bindings[other].objectId == obj;
      assert alreadyBound == (id in bindings || Occupied(Contents(), purpose, obj));
      if !alreadyBound {
        bindings := bindings[id := Row(purpose, obj, peer)];
      }
    }

    method IsConsumed(id: KeyId) returns (consumed: bool)
      ensures consumed <==> id in Contents().bindings
    {
      consumed := id in bindings;
    }

    method PutKek(obj: ObjectId, unit: KeyId, material: Bytes, nonce: Bytes)
      modifies this`kek
      ensures Contents() == WithKek(old(Contents()), localKey, obj, unit, material, nonce)
      ensures ReadKek(Contents(), localKey, obj) == Kek(material)
    {
      var encMaterial := Seal(localKey, nonce, material, Encode(obj));
      kek := kek[obj := KekRow(unit, encMaterial)];
    }

    method GetKek(obj: ObjectId) returns (answer: KekAnswer)
      ensures answer == ReadKek(Contents(), localKey, obj)
    {
      if obj !in kek {
        return NoKek;
      }
      var material := Open(localKey, kek[obj].material, Encode(obj));
      answer := match material case Some(m) => Kek(m) case None => Unreadable;
    }

    method Count() returns (n: nat)
      ensures n == |Contents().bindings|
    {
      n := |bindings|;
    }
  }
}
