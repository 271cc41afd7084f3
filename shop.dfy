/**
 * The payment lifecycle of the storefront: the buyer's purchase and status
 * check, and the administrator's confirm, delete and listing actions, over
 * the `payments` table, the buyer's session and the administrator's flash
 * message.
 */
module Shop {
  import opened Options
  import opened Decimal
  import opened Catalog
  import opened Quantity
  import opened Credentials
  import opened OrderStore

  /** The buyer's session keys that the lifecycle reads and writes. */
  datatype Session = Session(
    paymentId: Option<string>,
    regionId: Option<string>,
    countryId: Option<string>,
    amount: Option<int>,
    quantity: Option<int>,
    proxiesData: Option<seq<Credential>>)

  const EmptySession: Session := Session(None, None, None, None, None, None)

  /** The flash message shown once on the next admin page, with its category ("success" or "error"). */
  datatype AdminMessage = AdminMessage(text: string, category: string)

  const DeletedMessage: AdminMessage := AdminMessage("Платеж удален", "success")
  const NotFoundMessage: AdminMessage := AdminMessage("Платеж не найден", "error")
  const ConfirmedMessage: AdminMessage := AdminMessage("Платеж подтвержден! Данные прокси сгенерированы.", "success")

  /** What the purchase route answers: a redirect to the catalogue or the bank-transfer page. */
  datatype PurchasePage = BackToCatalog | PaymentDetails(paymentId: string, amount: int, quantity: int)

  /** What the status route answers. */
  datatype PaymentView =
    | NoPayment
    | Waiting(paymentId: string, amount: int, quantity: int)
    | Fulfilled(countryName: string, proxies: seq<Credential>, amount: int, quantity: int)
    | Cached(countryName: string, proxies: seq<Credential>, cachedAmount: Option<int>, cachedQuantity: Option<int>)

  /** One line of the admin listing; `confirmOffered` is whether the confirm button is shown. */
  datatype AdminRow = AdminRow(
    paymentId: string,
    countryName: string,
    amount: int,
    quantity: int,
    status: Status,
    timestamp: nat,
    confirmOffered: bool)

  /** `f"proxy_{random.randint(10000, 99999)}"` for the raw value `raw`. */
  function PaymentId(raw: int): (id: string)
    ensures HasNumberedSuffix(id, "proxy_", 10000, 99999)
  {
    var n := RandInt(10000, 99999, raw);
    RenderedSuffix("proxy_", n, 10000, 99999);
    "proxy_" + Render(n)
  }

  /** The session holds a payment id that Python treats as true (present and non-empty). */
  predicate HasPaymentId(s: Session) {
    s.paymentId.Some? && s.paymentId.value != ""
  }

  /** The session names a region and a country, and the catalogue offers that pair. */
  predicate SessionSelects(cat: Catalog, s: Session) {
    s.regionId.Some? && s.countryId.Some? && ValidSelection(cat, s.regionId.value, s.countryId.value)
  }

  /**
   * `_get_country_name(session.get("region_id"), session.get("country_id"))`:
   * a missing key never validates; a session naming an offered pair shows
   * that country's catalogue name, and in a catalogue whose names avoid the
   * fallback, the fallback is shown exactly when the session names no
   * offered pair.
   */
  function SessionCountryName(cat: Catalog, s: Session): (name: string)
    ensures s.regionId.None? || s.countryId.None? ==> name == UnknownCountry
    ensures s.regionId.Some? && s.countryId.Some? ==> name == CountryName(cat, s.regionId.value, s.countryId.value)
    ensures SessionSelects(cat, s) ==> name == cat[s.regionId.value].countries[s.countryId.value].name
    ensures NamesKnown(cat) ==> (name == UnknownCountry <==> !SessionSelects(cat, s))
  {
    if s.regionId.Some? && s.countryId.Some? then CountryName(cat, s.regionId.value, s.countryId.value)
    else UnknownCountry
  }

  /** The listing line for row `id`; confirmation is offered unless the row is confirmed. */
  function RowFor(cat: Catalog, id: string, o: Order): (row: AdminRow)
    ensures row.paymentId == id && row.status == o.status && row.timestamp == o.timestamp
    ensures row.confirmOffered <==> o.status != Success
  {
    AdminRow(id, CountryName(cat, o.regionId, o.countryId), o.amount, o.quantity, o.status, o.timestamp,
             o.status != Success)
  }

  /** The admin listing of `t`: every row exactly once, newest first. */
  predicate IsListing(cat: Catalog, t: Table, rows: seq<AdminRow>) {
    && |rows| == |t|
    && (forall i :: 0 <= i < |rows| ==> rows[i].paymentId in t)
    && (forall k :: k in t ==> exists i :: 0 <= i < |rows| && rows[i].paymentId == k)
    && (forall i, j :: 0 <= i < j < |rows| ==> rows[i].paymentId != rows[j].paymentId)
    && (forall i, j :: 0 <= i < j < |rows| ==> rows[i].timestamp >= rows[j].timestamp)
    && (forall i :: 0 <= i < |rows| ==> rows[i] == RowFor(cat, rows[i].paymentId, t[rows[i].paymentId]))
  }

  /** Rendering the ids of the newest-first query one by one gives the admin listing. */
  lemma ListingFromOrder(cat: Catalog, t: Table, ids: seq<string>, rows: seq<AdminRow>)
    requires |ids| == |t|
    requires forall i :: 0 <= i < |ids| ==> ids[i] in t
    requires forall k :: k in t ==> k in ids
    requires forall i, j :: 0 <= i < j < |ids| ==> ids[i] != ids[j]
    requires forall i, j :: 0 <= i < j < |ids| ==> t[ids[i]].timestamp >= t[ids[j]].timestamp
    requires |rows| == |ids|
    requires forall j :: 0 <= j < |ids| ==> rows[j] == RowFor(cat, ids[j], t[ids[j]])
    ensures IsListing(cat, t, rows)
  {
    forall k | k in t
      ensures exists i :: 0 <= i < |rows| && rows[i].paymentId == k
    {
      var j :| 0 <= j < |ids| && ids[j] == k;
      assert rows[j].paymentId == k;
    }
  }

  /** The loop of `admin_panel` over the newest-first query, one listing line per row. */
  method ListRows(cat: Catalog, t: Table) returns (rows: seq<AdminRow>)
    ensures IsListing(cat, t, rows)
    ensures forall i :: 0 <= i < |rows| ==> (rows[i].confirmOffered <==> t[rows[i].paymentId].status != Success)
    ensures forall i :: 0 <= i < |rows| ==>
              rows[i].countryName == CountryName(cat, t[rows[i].paymentId].regionId, t[rows[i].paymentId].countryId)
  {
    var ids := NewestFirst(t);
    rows := [];
    var i := 0;
    while i < |ids|
      invariant 0 <= i <= |ids|
      invariant |rows| == i
      invariant forall j :: 0 <= j < i ==> rows[j] == RowFor(cat, ids[j], t[ids[j]])
    {
      var o := t[ids[i]];
      rows := rows + [RowFor(cat, ids[i], o)];
      i := i + 1;
    }
    ListingFromOrder(cat, t, ids, rows);
  }

  class Shop {
    const catalog: Catalog
    var payments: Table
    var clock: nat
    var session: Session
    var adminMessage: Option<AdminMessage>

    ghost predicate Valid()
      reads this
    {
      WellPriced(catalog) && WellFormed(catalog, payments, clock)
    }

    constructor (cat: Catalog)
      requires WellPriced(cat)
      ensures Valid()
      ensures catalog == cat && payments == map[] && clock == 0
      ensures session == EmptySession && adminMessage == None
    {
      catalog := cat;
      payments := map[];
      clock := 0;
      session := EmptySession;
      adminMessage := None;
    }

    /**
     * `create_payment`: an invalid selection changes nothing; otherwise the
     * session is updated first and then a pending row is inserted, which the
     * primary key refuses when the drawn id is already taken.
     */
    method CreatePayment(regionId: string, countryId: string, quantityArg: Option<string>, idDraw: int)
      returns (page: PurchasePage)
      requires Valid()
      modifies this`session, this`payments, this`clock
      ensures Valid()
      ensures !ValidSelection(catalog, regionId, countryId) ==>
        page == BackToCatalog && session == old(session) && payments == old(payments) && clock == old(clock)
      ensures ValidSelection(catalog, regionId, countryId) ==>
        var q := QuantityOf(quantityArg);
        var amount := Price(catalog, regionId, countryId) * q;
        var id := PaymentId(idDraw);
        && session == old(session).(paymentId := Some(id), regionId := Some(regionId), countryId := Some(countryId),
                                    amount := Some(amount), quantity := Some(q))
        && SessionCountryName(catalog, session) == catalog[regionId].countries[countryId].name
        && (id in old(payments) ==>
              page == BackToCatalog && payments == old(payments) && clock == old(clock))
        && (id !in old(payments) ==>
              && page == PaymentDetails(id, amount, q)
              && payments == old(payments)[id := Order(regionId, countryId, amount, q, Pending, [], old(clock))]
              && clock == old(clock) + 1)
    {
      if !ValidSelection(catalog, regionId, countryId) {
        return BackToCatalog;
      }
      var quantity := QuantityOf(quantityArg);
      var totalAmount := Price(catalog, regionId, countryId) * quantity;
      var paymentId := PaymentId(idDraw);
      session := session.(paymentId := Some(paymentId), regionId := Some(regionId), countryId := Some(countryId),
                          amount := Some(totalAmount), quantity := Some(quantity));
      var order := Order(regionId, countryId, totalAmount, quantity, Pending, [], clock);
      var inserted := Insert(payments, paymentId, order);
      if inserted.Err? {
        return BackToCatalog;
      }
      InsertPreserves(catalog, payments, clock, paymentId, order);
      payments := inserted.value;
      clock := clock + 1;
      page := PaymentDetails(paymentId, totalAmount, quantity);
    }

    /**
     * `check_payment`: no id in the session redirects; a missing row falls
     * back to the credentials cached in the session; a confirmed row is shown
     * and cached; any other row is shown as still pending.
     */
    method CheckPayment() returns (view: PaymentView)
      requires Valid()
      modifies this`session
      ensures Valid()
      ensures !HasPaymentId(old(session)) ==> view == NoPayment && session == old(session)
      ensures HasPaymentId(old(session)) && old(session).paymentId.value !in payments ==>
        && session == old(session)
        && view == (if old(session).proxiesData.Some?
                    then Cached(SessionCountryName(catalog, old(session)), old(session).proxiesData.value,
                                old(session).amount, old(session).quantity)
                    else NoPayment)
      ensures HasPaymentId(old(session)) && old(session).paymentId.value in payments ==>
        var row := payments[old(session).paymentId.value];
        && (row.status == Success ==>
              && view == Fulfilled(SessionCountryName(catalog, old(session)), row.proxyData, row.amount, row.quantity)
              && session == old(session).(proxiesData := Some(row.proxyData), amount := Some(row.amount),
                                          quantity := Some(row.quantity)))
        && (row.status != Success ==>
              view == Waiting(old(session).paymentId.value, row.amount, row.quantity) && session == old(session))
    {
      if !HasPaymentId(session) {
        return NoPayment;
      }
      var paymentId := session.paymentId.value;
      if paymentId !in payments {
        if session.proxiesData.Some? {
          return Cached(SessionCountryName(catalog, session), session.proxiesData.value, session.amount, session.quantity);
        }
        return NoPayment;
      }
      var row := payments[paymentId];
      if row.status == Success {
        session := session.(proxiesData := Some(row.proxyData), amount := Some(row.amount), quantity := Some(row.quantity));
        return Fulfilled(SessionCountryName(catalog, session), row.proxyData, row.amount, row.quantity);
      }
      view := Waiting(paymentId, row.amount, row.quantity);
    }

    /**
     * `confirm_payment`: a missing id only sets the not-found message;
     * otherwise that one row becomes confirmed with a fresh batch of
     * `quantity` credentials, whatever its status was.
     */
    method ConfirmPayment(paymentId: string, rand: Entropy)
      requires Valid()
      modifies this`payments, this`adminMessage
      ensures Valid()
      ensures paymentId !in old(payments) ==>
        payments == old(payments) && adminMessage == Some(NotFoundMessage)
      ensures paymentId in old(payments) ==>
        && payments == SetStatusAndData(old(payments), paymentId, Success,
                                        GenerateProxyData(old(payments)[paymentId].quantity, rand))
        && adminMessage == Some(ConfirmedMessage)
    {
      if paymentId !in payments {
        adminMessage := Some(NotFoundMessage);
        return;
      }
      var quantity := payments[paymentId].quantity;
      var proxiesData := GenerateProxyData(quantity, rand);
      ConfirmPreserves(catalog, payments, clock, paymentId, proxiesData);
      payments := SetStatusAndData(payments, paymentId, Success, proxiesData);
      adminMessage := Some(ConfirmedMessage);
    }

    /** `delete_payment`: the row is gone afterwards and the success message is set either way. */
    method DeletePayment(paymentId: string)
      requires Valid()
      modifies this`payments, this`adminMessage
      ensures Valid()
      ensures payments == Delete(old(payments), paymentId)
      ensures adminMessage == Some(DeletedMessage)
    {
      DeletePreserves(catalog, payments, clock, paymentId);
      payments := Delete(payments, paymentId);
      adminMessage := Some(DeletedMessage);
    }

    /**
     * `admin_panel`: pops the flash message and lists every row exactly
     * once, newest first, offering confirmation only for unconfirmed rows.
     */
    method AdminPanel() returns (message: Option<AdminMessage>, rows: seq<AdminRow>)
      requires Valid()
      modifies this`adminMessage
      ensures Valid()
      ensures message == old(adminMessage) && adminMessage == None
      ensures IsListing(catalog, payments, rows)
      ensures forall i :: 0 <= i < |rows| ==>
                (rows[i].confirmOffered <==> payments[rows[i].paymentId].status != Success)
    {
      message := adminMessage;
      adminMessage := None;
      rows := ListRows(catalog, payments);
    }
  }

  /** The shop as the program starts it: on its own catalogue, with no payments. */
  method OpenShop() returns (shop: Shop)
    ensures fresh(shop) && shop.Valid()
    ensures shop.catalog == Proxies && shop.payments == map[] && shop.session == EmptySession
    ensures ValidSelection(shop.catalog, "europe", "greece") && Price(shop.catalog, "europe", "greece") == 199
  {
    ProxiesWellFormed();
    GreeceListed();
    shop := new Shop(Proxies);
  }

  /**
   * A purchase of five Greek proxies at 199 each, followed through
   * confirmation and deletion, as a client of the operations above.
   */
  method PurchaseScenario(idDraw: int, rand: Entropy) {
    var cat := map["europe" := Region("Европа", map["greece" := Country("Греция", 199)])];
    var shop := new Shop(cat);
    assert ValidSelection(cat, "europe", "greece") && Price(cat, "europe", "greece") == 199;
    assert QuantityOf(Some("5")) == 5 by {
      QuantityOfRequest(5);
      assert IntRender(5) == "5";
    }
    var id := PaymentId(idDraw);
    var page := shop.CreatePayment("europe", "greece", Some("5"), idDraw);
    assert page == PaymentDetails(id, 995, 5);

    var view := shop.CheckPayment();
    assert view == Waiting(id, 995, 5);

    shop.ConfirmPayment(id, rand);
    var batch := GenerateProxyData(5, rand);
    view := shop.CheckPayment();
    assert view.Fulfilled? && view.proxies == batch && |batch| == 5 && view.amount == 995;
    assert forall i :: 0 <= i < 5 ==> 1000 <= batch[i].port <= 9999 && ValidIp(batch[i].ip);

    shop.DeletePayment(id);
    assert id !in shop.payments;
    view := shop.CheckPayment();
    assert view.Cached? && view.proxies == batch;
  }
}
