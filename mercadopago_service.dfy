/**
 * The front end's MercadoPago service (Ecos-oraculo/src/app/services/mercadopago.service.ts):
 * the order defaults, reading the checkout result from the return address,
 * the snapshot kept in `localStorage` across the redirect, cleaning the
 * address, and the per-service "paid" flag in `sessionStorage`.
 */
module PaymentService {
  import opened Wrappers
  import opened Text
  import opened Records
  import opened BrowserState

  // ---------------------------------------------------------------- orders

  /** The argument of `createOrder`: every field may be left out. */
  datatype OrderInput = OrderInput(
    amount: Option<int>, serviceName: Option<string>, serviceId: Option<string>,
    firstName: Option<string>, lastName: Option<string>, email: Option<string>,
    categoryId: Option<string>, description: Option<string>)

  /** The body `createOrder` posts to the back end. */
  datatype OrderData = OrderData(
    amount: int, serviceName: string, serviceId: string,
    firstName: string, lastName: string, email: string,
    categoryId: string, description: string)

  const DefaultOrder := OrderData(15000, "Servicio Ecos del Oráculo", "1", "Usuario", "Ecos",
                                  "usuario@ecosoraculo.com", "services", "Servicio espiritual personalizado")

  /** `{ ...defaultData, ...orderData }`: a supplied field wins over the default. */
  function WithDefaults(o: OrderInput): OrderData
  {
    OrderData(
      o.amount.UnwrapOr(DefaultOrder.amount), o.serviceName.UnwrapOr(DefaultOrder.serviceName),
      o.serviceId.UnwrapOr(DefaultOrder.serviceId), o.firstName.UnwrapOr(DefaultOrder.firstName),
      o.lastName.UnwrapOr(DefaultOrder.lastName), o.email.UnwrapOr(DefaultOrder.email),
      o.categoryId.UnwrapOr(DefaultOrder.categoryId), o.description.UnwrapOr(DefaultOrder.description))
  }

  /** The input that supplies every field of `d`. */
  function Supplying(d: OrderData): OrderInput
  {
    OrderInput(Some(d.amount), Some(d.serviceName), Some(d.serviceId), Some(d.firstName),
               Some(d.lastName), Some(d.email), Some(d.categoryId), Some(d.description))
  }

  /** Supplying every field sends exactly those values; supplying none sends the defaults. */
  lemma WithDefaultsExtremes(d: OrderData)
    ensures WithDefaults(Supplying(d)) == d
    ensures WithDefaults(OrderInput(None, None, None, None, None, None, None, None)) == DefaultOrder
  {
  }

  /**
   * Field by field, the merged body carries the caller's value where one was
   * supplied and the default otherwise: changing one supplied field changes
   * that field of the body and nothing else.
   */
  lemma {:induction false} WithDefaultsFieldwise(o: OrderInput, name: string)
    ensures WithDefaults(o.(serviceName := Some(name))) == WithDefaults(o).(serviceName := name)
    ensures WithDefaults(o.(serviceName := None)) == WithDefaults(o).(serviceName := DefaultOrder.serviceName)
    ensures o.amount.Some? ==> WithDefaults(o).amount == o.amount.value
    ensures o.amount.None? ==> WithDefaults(o).amount == 15000
    ensures o.serviceId.None? ==> WithDefaults(o).serviceId == "1"
  {
  }

  /** The order as the front end sees it come back from the back end. */
  datatype OrderReply = OrderReply(initPoint: string, sandboxInitPoint: string)

  /** `order.sandbox_init_point || order.init_point`. */
  function CheckoutUrl(order: OrderReply): (url: string)
    ensures order.sandboxInitPoint != "" ==> url == order.sandboxInitPoint
    ensures order.sandboxInitPoint == "" ==> url == order.initPoint
  {
    OrElse(order.sandboxInitPoint, order.initPoint)
  }

  /**
   * `redirectToPayment(url)`: an empty address is refused with an error,
   * any other one is assigned to `window.location.href`.
   */
  method RedirectToPayment(b: Browser, url: string) returns (r: Result<(), string>)
    modifies b
    ensures url != "" ==> r.Success? && b.navigation == Some(url)
    ensures url == "" ==> r == Result.Failure("URL de pago no válida") && b.navigation == old(b.navigation)
    ensures b.session == old(b.session) && b.local == old(b.local) && b.location == old(b.location)
  {
    if url != "" {
      b.navigation := Some(url);
      r := Success(());
    } else {
      r := Result.Failure("URL de pago no válida");
    }
  }

  // --------------------------------------------------- the return address

  /** The result of a checkout, as the declared type allows it. */
  datatype Status = Approved | Pending | Rejected | Failure

  datatype PaymentStatus = PaymentStatus(
    isPaid: bool, status: Option<Status>, paymentId: Option<string>, serviceId: Option<string>,
    externalReference: Option<string>, collectionStatus: Option<string>)

  /** `new URLSearchParams(search).get(name)`. */
  function Param(q: map<string, string>, name: string): (r: Option<string>)
    ensures r.Some? <==> name in q
  {
    if name in q then Some(q[name]) else None
  }

  predicate ApprovedSignal(q: map<string, string>)
  {
    Param(q, "collection_status") == Some("approved") || Param(q, "status") == Some("approved")
    || Param(q, "status") == Some("success")
  }

  predicate PendingSignal(q: map<string, string>)
  {
    Param(q, "collection_status") == Some("pending") || Param(q, "collection_status") == Some("in_process")
    || Param(q, "status") == Some("pending")
  }

  predicate RejectedSignal(q: map<string, string>)
  {
    Param(q, "collection_status") == Some("rejected") || Param(q, "status") == Some("rejected")
    || Param(q, "status") == Some("failure")
  }

  /**
   * `checkPaymentStatusFromUrl`: approval wins over pending, which wins over
   * rejection; `failure` is folded into `Rejected`, so the status is never
   * `Failure`; only an approval counts as paid.
   */
  function CheckPaymentStatus(q: map<string, string>): (r: PaymentStatus)
    ensures r.status != Some(Status.Failure)
    ensures r.isPaid <==> r.status == Some(Approved)
    ensures r.status.None? <==> !ApprovedSignal(q) && !PendingSignal(q) && !RejectedSignal(q)
    ensures r.serviceId == Param(q, "service") && r.collectionStatus == Param(q, "collection_status")
    ensures r.paymentId.Some? ==> r.paymentId == Param(q, "payment_id") || r.paymentId == Param(q, "collection_id")
  {
    var paymentId := if Param(q, "payment_id").Some? && Param(q, "payment_id").value != ""
                     then Param(q, "payment_id") else Param(q, "collection_id");
    var status := if ApprovedSignal(q) then Some(Approved)
                  else if PendingSignal(q) then Some(Pending)
                  else if RejectedSignal(q) then Some(Rejected)
                  else None;
    PaymentStatus(ApprovedSignal(q), status, paymentId, Param(q, "service"),
                  Param(q, "external_reference"), Param(q, "collection_status"))
  }

  /** Which status each combination of signals gives: the order of precedence. */
  lemma StatusPrecedence(q: map<string, string>)
    ensures ApprovedSignal(q) ==> CheckPaymentStatus(q).status == Some(Approved)
    ensures !ApprovedSignal(q) && PendingSignal(q) ==> CheckPaymentStatus(q).status == Some(Pending)
    ensures !ApprovedSignal(q) && !PendingSignal(q) && RejectedSignal(q) ==> CheckPaymentStatus(q).status == Some(Rejected)
  {
  }

  /** `payment_id` when it is present and not empty, `collection_id` otherwise. */
  lemma PaymentIdChoice(q: map<string, string>)
    ensures "payment_id" in q && q["payment_id"] != "" ==> CheckPaymentStatus(q).paymentId == Some(q["payment_id"])
    ensures ("payment_id" !in q || q["payment_id"] == "") ==> CheckPaymentStatus(q).paymentId == Param(q, "collection_id")
  {
  }

  /** `hasPaymentParams`. */
  predicate HasPaymentParams(q: map<string, string>)
  {
    "collection_status" in q || "payment_id" in q || "status" in q
  }

  /**
   * A classified status needs one of the parameters `hasPaymentParams` looks
   * for; the converse fails: a lone `payment_id` passes the test and yields no status.
   */
  lemma StatusNeedsParams(q: map<string, string>)
    ensures CheckPaymentStatus(q).status.Some? ==> HasPaymentParams(q)
    ensures HasPaymentParams(map["payment_id" := "1"]) && CheckPaymentStatus(map["payment_id" := "1"]).status.None?
  {
    var lone := map["payment_id" := "1"];
    assert Param(lone, "status") == None && Param(lone, "collection_status") == None;
  }

  // ---------------------------------------------------- the URL cleaner

  const ParamsToRemove: seq<string> := [
    "status", "collection_status", "payment_id", "collection_id", "external_reference", "payment_type",
    "merchant_order_id", "preference_id", "site_id", "processing_mode", "merchant_account_id", "service"]

  /**
   * The address after `cleanPaymentParamsFromUrl`: when any listed parameter
   * is present, the address becomes the bare path, so every parameter goes,
   * listed or not; otherwise it is left as it was.
   */
  function CleanedUrl(u: Url): (r: Url)
    ensures r.pathname == u.pathname
    ensures (exists p :: p in ParamsToRemove && p in u.query) ==> r.query == map[]
    ensures (forall p :: p in ParamsToRemove ==> p !in u.query) ==> r == u
  {
    if exists p :: p in ParamsToRemove && p in u.query then Url(u.pathname, map[]) else u
  }

  /** After cleaning, the page no longer looks like a return from checkout, and cleaning again changes nothing. */
  lemma CleanedUrlHasNoPaymentParams(u: Url)
    ensures !HasPaymentParams(CleanedUrl(u).query)
    ensures CleanPaymentStatusNone(u)
    ensures CleanedUrl(CleanedUrl(u)) == CleanedUrl(u)
  {
    var r := CleanedUrl(u);
    assert ParamsToRemove[0] == "status" && ParamsToRemove[1] == "collection_status" && ParamsToRemove[2] == "payment_id";
    if exists p :: p in ParamsToRemove && p in u.query {
      assert r.query == map[];
    } else {
      assert r == u;
      assert "status" !in u.query && "collection_status" !in u.query && "payment_id" !in u.query;
    }
  }

  /** The status read from a cleaned address is always "none". */
  predicate CleanPaymentStatusNone(u: Url)
  {
    CheckPaymentStatus(CleanedUrl(u).query).status.None?
  }

  /**
   * `cleanPaymentParamsFromUrl`: walks the list, deleting each parameter that
   * is present and remembering whether any was, then replaces the address by
   * the bare path when one was found.
   */
  method CleanPaymentParamsFromUrl(b: Browser)
    modifies b
    ensures b.location == CleanedUrl(old(b.location))
    ensures b.session == old(b.session) && b.local == old(b.local) && b.navigation == old(b.navigation)
  {
    ghost var original := b.location.query;
    var query := b.location.query;
    var hasParams := false;
    var i := 0;
    while i < |ParamsToRemove|
      invariant 0 <= i <= |ParamsToRemove|
      invariant query.Keys <= original.Keys
      invariant forall k :: k in original ==> k in query || k in ParamsToRemove[..i]
      invariant hasParams <==> exists j :: 0 <= j < i && ParamsToRemove[j] in original
    {
      var param := ParamsToRemove[i];
      if param in query {
        query := query - {param};
        hasParams := true;
      } else if param in original {
        var j :| 0 <= j < i && ParamsToRemove[j] == param;
        assert ParamsToRemove[j] in original;
      }
      assert ParamsToRemove[..i + 1] == ParamsToRemove[..i] + [param];
      i := i + 1;
    }
    assert ParamsToRemove[..i] == ParamsToRemove;
    if hasParams {
      b.location := Url(b.location.pathname, map[]);
    } else {
      assert forall p :: p in ParamsToRemove ==> p !in original;
    }
  }

  // ------------------------------------------ the snapshot across checkout

  const PaymentDataKey := "mercadopago_payment_data"
  const PaymentBackupKey := "mercadopago_payment_data_backup"

  /** `localStorage` after `savePaymentData(snapshot)`: the same record, time-stamped, under both keys. */
  function SavedPaymentData(local: Storage, snapshot: PaymentSnapshot, savedAt: string): (r: Storage)
    ensures PaymentDataKey in r && PaymentBackupKey in r
    ensures r[PaymentDataKey] == r[PaymentBackupKey] == Json(PaymentDoc(PaymentRecord(snapshot, savedAt)))
  {
    var doc := Json(PaymentDoc(PaymentRecord(snapshot, savedAt)));
    local[PaymentDataKey := doc][PaymentBackupKey := doc]
  }

  /** `localStorage` after `clearPaymentData`. */
  function ClearedPaymentData(local: Storage): (r: Storage)
    ensures PaymentDataKey !in r && PaymentBackupKey !in r
  {
    local - {PaymentDataKey, PaymentBackupKey}
  }

  /** Saving and clearing touch the two payment keys and no other. */
  lemma PaymentDataKeysOnly(local: Storage, snapshot: PaymentSnapshot, savedAt: string, k: string)
    requires k != PaymentDataKey && k != PaymentBackupKey
    ensures k in SavedPaymentData(local, snapshot, savedAt) <==> k in local
    ensures k in local ==> SavedPaymentData(local, snapshot, savedAt)[k] == local[k]
    ensures k in ClearedPaymentData(local) <==> k in local
    ensures k in local ==> ClearedPaymentData(local)[k] == local[k]
  {
  }

  /**
   * `getPaymentData`: the primary copy when it is present and not empty,
   * else the backup; a copy that does not parse as a payment record gives
   * null, without trying the other copy.
   */
  function GetPaymentData(local: Storage): (r: Option<PaymentRecord>)
    ensures r.Some? && HasItem(local, PaymentDataKey) ==> local[PaymentDataKey] == Json(PaymentDoc(r.value))
    ensures r.Some? && !HasItem(local, PaymentDataKey) ==> PaymentBackupKey in local && local[PaymentBackupKey] == Json(PaymentDoc(r.value))
    ensures !HasItem(local, PaymentDataKey) && !HasItem(local, PaymentBackupKey) ==> r.None?
  {
    var key := if HasItem(local, PaymentDataKey) then PaymentDataKey else PaymentBackupKey;
    if !HasItem(local, key) then None
    else match local[key]
      case Json(PaymentDoc(record)) => Some(record)
      case _ => None
  }

  /** Saving then reading gives the record back; after clearing there is nothing to read. */
  lemma SaveThenGet(local: Storage, snapshot: PaymentSnapshot, savedAt: string)
    ensures GetPaymentData(SavedPaymentData(local, snapshot, savedAt)) == Some(PaymentRecord(snapshot, savedAt))
    ensures GetPaymentData(ClearedPaymentData(local)) == None
  {
    assert HasItem(SavedPaymentData(local, snapshot, savedAt), PaymentDataKey);
  }

  /** With the primary copy gone, the backup is read; a broken primary hides a good backup. */
  lemma BackupFallback(local: Storage, record: PaymentRecord)
    ensures GetPaymentData((local - {PaymentDataKey})[PaymentBackupKey := Json(PaymentDoc(record))]) == Some(record)
    ensures GetPaymentData(local[PaymentDataKey := Text("x")][PaymentBackupKey := Json(PaymentDoc(record))]) == None
  {
    var l1 := (local - {PaymentDataKey})[PaymentBackupKey := Json(PaymentDoc(record))];
    assert !HasItem(l1, PaymentDataKey);
    assert HasItem(l1, PaymentBackupKey);
    var l2 := local[PaymentDataKey := Text("x")][PaymentBackupKey := Json(PaymentDoc(record))];
    assert RawItem(l2, PaymentDataKey) == Some("x");
  }

  /** `savePaymentData`. */
  method SavePaymentData(b: Browser, snapshot: PaymentSnapshot, savedAt: string)
    modifies b
    ensures b.local == SavedPaymentData(old(b.local), snapshot, savedAt)
    ensures b.session == old(b.session) && b.location == old(b.location) && b.navigation == old(b.navigation)
  {
    var doc := Json(PaymentDoc(PaymentRecord(snapshot, savedAt)));
    b.local := b.local[PaymentDataKey := doc];
    b.local := b.local[PaymentBackupKey := doc];
  }

  /** `clearPaymentData`. */
  method ClearPaymentData(b: Browser)
    modifies b
    ensures b.local == ClearedPaymentData(old(b.local))
    ensures b.session == old(b.session) && b.location == old(b.location) && b.navigation == old(b.navigation)
  {
    b.local := b.local - {PaymentDataKey};
    b.local := b.local - {PaymentBackupKey};
  }

  // ------------------------------------------------ the per-service flag

  function ServicePaidKey(serviceId: string): string
  {
    "service_paid_" + serviceId
  }

  /** Different services use different keys. */
  lemma ServicePaidKeyInjective(a: string, b: string)
    ensures ServicePaidKey(a) == ServicePaidKey(b) ==> a == b
  {
    var prefix := "service_paid_";
    if ServicePaidKey(a) == ServicePaidKey(b) {
      assert a == ServicePaidKey(a)[|prefix|..];
      assert b == ServicePaidKey(b)[|prefix|..];
    }
  }

  /** `isServicePaid(id)`. */
  predicate IsServicePaid(session: Storage, serviceId: string)
  {
    IsTrueItem(session, ServicePaidKey(serviceId))
  }

  /** `sessionStorage` after `saveServicePaymentStatus(id, paid)`. */
  function MarkedServicePaid(session: Storage, serviceId: string, paid: bool): Storage
  {
    session[ServicePaidKey(serviceId) := Text(if paid then "true" else "false")]
  }

  /** The flag reads back as written, other services are untouched, and writing twice is writing once. */
  lemma {:induction false} ServicePaidReadAfterWrite(session: Storage, id: string, other: string, paid: bool)
    ensures IsServicePaid(MarkedServicePaid(session, id, paid), id) == paid
    ensures other != id ==> IsServicePaid(MarkedServicePaid(session, id, paid), other) == IsServicePaid(session, other)
    ensures MarkedServicePaid(MarkedServicePaid(session, id, paid), id, paid) == MarkedServicePaid(session, id, paid)
  {
    ServicePaidKeyInjective(id, other);
  }

  /** `saveServicePaymentStatus`. */
  method SaveServicePaymentStatus(b: Browser, serviceId: string, paid: bool)
    modifies b
    ensures b.session == MarkedServicePaid(old(b.session), serviceId, paid)
    ensures b.local == old(b.local) && b.location == old(b.location) && b.navigation == old(b.navigation)
  {
    b.SetSession(ServicePaidKey(serviceId), Text(if paid then "true" else "false"));
  }
}
