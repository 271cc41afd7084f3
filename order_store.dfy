/**
 * The `payments` table: orders keyed by payment id, with the row-level
 * operations the routes issue (INSERT, UPDATE of status and proxy data,
 * DELETE, SELECT ... ORDER BY timestamp DESC) and the invariant every
 * stored row keeps.
 */
module OrderStore {
  import opened Options
  import opened Catalog
  import opened Quantity
  import opened Credentials

  /** The two values the `status` column ever takes. */
  datatype Status = Pending | Success

  /** One row; `timestamp` is the creation instant, a tick of a monotone clock. */
  datatype Order = Order(
    regionId: string,
    countryId: string,
    amount: int,
    quantity: int,
    status: Status,
    proxyData: seq<Credential>,
    timestamp: nat)

  type Table = map<string, Order>

  datatype StoreError = DuplicateKey

  /** INSERT: the PRIMARY KEY on `payment_id` refuses an id already present. */
  function Insert(t: Table, id: string, o: Order): (r: Result<Table, StoreError>)
    ensures r.Err? <==> id in t
    ensures r.Err? ==> r.error == DuplicateKey
    ensures r.Ok? ==> r.value.Keys == t.Keys + {id} && r.value[id] == o
    ensures r.Ok? ==> forall k :: k in t ==> r.value[k] == t[k]
  {
    if id in t then Err(DuplicateKey) else Ok(t[id := o])
  }

  /** `UPDATE payments SET status=?, proxy_data=? WHERE payment_id=?`: a no-op when no row matches. */
  function SetStatusAndData(t: Table, id: string, status: Status, data: seq<Credential>): (r: Table)
    ensures r.Keys == t.Keys
    ensures id in t ==> r[id] == t[id].(status := status, proxyData := data)
    ensures forall k :: k in t && k != id ==> r[k] == t[k]
  {
    if id in t then t[id := t[id].(status := status, proxyData := data)] else t
  }

  /** `DELETE FROM payments WHERE payment_id=?`: removing a missing id is not an error. */
  function Delete(t: Table, id: string): (r: Table)
    ensures id !in r
    ensures r.Keys == t.Keys - {id}
    ensures forall k :: k in r ==> r[k] == t[k]
  {
    t - {id}
  }

  /** Deleting twice is deleting once. */
  lemma DeleteIdempotent(t: Table, id: string)
    ensures Delete(Delete(t, id), id) == Delete(t, id)
  {
  }

  /**
   * What a row promises: a catalogue selection, a quantity in [1, 20], the
   * amount fixed at price times quantity, a creation time before `clock`, no
   * credentials while pending and exactly `quantity` well-formed ones once
   * confirmed.
   */
  predicate OrderWellFormed(cat: Catalog, o: Order, clock: nat) {
    && ValidSelection(cat, o.regionId, o.countryId)
    && MinQuantity <= o.quantity <= MaxQuantity
    && o.amount == Price(cat, o.regionId, o.countryId) * o.quantity
    && o.timestamp < clock
    && (o.status == Pending ==> o.proxyData == [])
    && (o.status == Success ==>
          |o.proxyData| == o.quantity &&
          forall i :: 0 <= i < |o.proxyData| ==> ValidCredential(o.proxyData[i]))
  }

  /** Every row is well formed and no two rows share a creation time. */
  predicate WellFormed(cat: Catalog, t: Table, clock: nat) {
    && (forall id :: id in t ==> OrderWellFormed(cat, t[id], clock))
    && (forall a, b :: a in t && b in t && a != b ==> t[a].timestamp != t[b].timestamp)
  }

  /** In a well-formed table a row holds credentials exactly when it is confirmed, and its amount is positive. */
  lemma CredentialsIffSuccess(cat: Catalog, t: Table, clock: nat, id: string)
    requires WellPriced(cat) && WellFormed(cat, t, clock) && id in t
    ensures |t[id].proxyData| > 0 <==> t[id].status == Success
    ensures t[id].amount > 0
  {
    var o := t[id];
    assert OrderWellFormed(cat, o, clock);
    assert Price(cat, o.regionId, o.countryId) > 0;
  }

  /** Inserting a well-formed row stamped with the current clock keeps the table well formed once the clock ticks. */
  lemma InsertPreserves(cat: Catalog, t: Table, clock: nat, id: string, o: Order)
    requires WellFormed(cat, t, clock)
    requires id !in t && o.timestamp == clock && OrderWellFormed(cat, o, clock + 1)
    ensures WellFormed(cat, t[id := o], clock + 1)
  {
    var t' := t[id := o];
    forall k | k in t'
      ensures OrderWellFormed(cat, t'[k], clock + 1)
    {
      if k != id {
        assert OrderWellFormed(cat, t[k], clock);
      }
    }
  }

  /** Confirming a row with exactly `quantity` well-formed credentials keeps the table well formed. */
  lemma ConfirmPreserves(cat: Catalog, t: Table, clock: nat, id: string, data: seq<Credential>)
    requires WellFormed(cat, t, clock) && id in t
    requires |data| == t[id].quantity
    requires forall i :: 0 <= i < |data| ==> ValidCredential(data[i])
    ensures WellFormed(cat, SetStatusAndData(t, id, Success, data), clock)
  {
    var t' := SetStatusAndData(t, id, Success, data);
    forall k | k in t'
      ensures OrderWellFormed(cat, t'[k], clock)
    {
      assert OrderWellFormed(cat, t[k], clock);
    }
  }

  lemma DeletePreserves(cat: Catalog, t: Table, clock: nat, id: string)
    requires WellFormed(cat, t, clock)
    ensures WellFormed(cat, Delete(t, id), clock)
  {
  }

  /** Some id of `ids` has the latest creation time among them. */
  lemma {:induction false} NewestExists(t: Table, ids: set<string>)
    requires ids != {} && ids <= t.Keys
    ensures exists k :: k in ids && forall j :: j in ids ==> t[j].timestamp <= t[k].timestamp
  {
    var x :| x in ids;
    if ids != {x} {
      var rest := ids - {x};
      NewestExists(t, rest);
      var k :| k in rest && forall j :: j in rest ==> t[j].timestamp <= t[k].timestamp;
      if t[x].timestamp <= t[k].timestamp {
        assert forall j :: j in ids ==> t[j].timestamp <= t[k].timestamp;
      } else {
        assert forall j :: j in ids ==> t[j].timestamp <= t[x].timestamp;
      }
    }
  }

  /**
   * `SELECT ... FROM payments ORDER BY timestamp DESC`: every id exactly
   * once, newest first.
   */
  method NewestFirst(t: Table) returns (ids: seq<string>)
    ensures |ids| == |t|
    ensures forall i :: 0 <= i < |ids| ==> ids[i] in t
    ensures forall k :: k in t ==> k in ids
    ensures forall i, j :: 0 <= i < j < |ids| ==> ids[i] != ids[j]
    ensures forall i, j :: 0 <= i < j < |ids| ==> t[ids[i]].timestamp >= t[ids[j]].timestamp
  {
    ids := [];
    var rest := t.Keys;
    while rest != {}
      invariant rest <= t.Keys
      invariant |ids| + |rest| == |t|
      invariant forall i :: 0 <= i < |ids| ==> ids[i] in t && ids[i] !in rest
      invariant forall k :: k in t ==> k in rest || k in ids
      invariant forall i, j :: 0 <= i < j < |ids| ==> ids[i] != ids[j]
      invariant forall i, j :: 0 <= i < j < |ids| ==> t[ids[i]].timestamp >= t[ids[j]].timestamp
      invariant forall i, k :: 0 <= i < |ids| && k in rest ==> t[ids[i]].timestamp >= t[k].timestamp
      decreases rest
    {
      NewestExists(t, rest);
      var k :| k in rest && forall j :: j in rest ==> t[j].timestamp <= t[k].timestamp;
      ids := ids + [k];
      rest := rest - {k};
    }
  }
}
