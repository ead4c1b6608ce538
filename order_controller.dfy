/**
 * The back end's MercadoPago controller (Ecos-backend/src/controllers/mercadopago.ts):
 * the table of the nine services, `createOrder`, which turns a request into
 * a checkout preference, and `getServices`.
 *
 * The MercadoPago SDK is a parameter: a function from the preference sent
 * to the outcome of `preference.create`.
 */
module OrderController {
  import opened Wrappers
  import opened Text

  /** One row of `SERVICES_CONFIG`. */
  datatype ServiceEntry = ServiceEntry(path: string, defaultName: string, defaultDescription: string, defaultPrice: nat)

  /** The table's keys, in `Object.keys` order. */
  const ServiceIds: seq<string> := ["1", "2", "3", "4", "5", "6", "7", "8", "9"]

  const Services: map<string, ServiceEntry> := map[
    "1" := ServiceEntry("descripcion-cartas", "Lectura de cartas tarot",
                        "Lectura personalizada de cartas del tarot con interpretación detallada", 15000),
    "2" := ServiceEntry("significado-suenos", "Significado de Sueños",
                        "Interpretación profesional de tus sueños", 12000),
    "3" := ServiceEntry("Informacion-zodiaco", "Información del Zodiaco",
                        "Análisis completo de tu signo zodiacal", 10000),
    "4" := ServiceEntry("lectura-numerologia", "Lectura de Numerología",
                        "Descubre el significado de tus números personales", 14000),
    "5" := ServiceEntry("mapa-vocacional", "Mapa Vocacional",
                        "Descubre tu camino profesional ideal", 18000),
    "6" := ServiceEntry("animal-interior", "Animal Interior",
                        "Conoce tu animal espiritual guía", 11000),
    "7" := ServiceEntry("tabla-nacimiento", "Tabla de Nacimiento",
                        "Análisis numerológico de tu fecha de nacimiento", 13000),
    "8" := ServiceEntry("horoscopo", "Horóscopo Personalizado",
                        "Predicciones detalladas para tu signo", 9000),
    "9" := ServiceEntry("calculadora-amor", "Calculadora del Amor",
                        "Compatibilidad amorosa y análisis de pareja", 12000)]

  const BaseUrl := "https://d9fa48254b53.ngrok-free.app"
  const NotificationUrl := "https://api.ecosoraculo.com/api/mercadopago/webhook"

  /** The table's keys, spelled out. */
  lemma ServiceKeys()
    ensures Services.Keys == {"1", "2", "3", "4", "5", "6", "7", "8", "9"}
  {
  }

  /** Each service's page. */
  lemma ServicePaths()
    ensures Services["1"].path == "descripcion-cartas" && Services["2"].path == "significado-suenos"
    ensures Services["3"].path == "Informacion-zodiaco" && Services["4"].path == "lectura-numerologia"
    ensures Services["5"].path == "mapa-vocacional" && Services["6"].path == "animal-interior"
    ensures Services["7"].path == "tabla-nacimiento" && Services["8"].path == "horoscopo"
    ensures Services["9"].path == "calculadora-amor"
  {
  }

  /** The key list is the table's key set, without repetition, and every row has a name, a description and a positive price. */
  lemma ServiceTable()
    ensures forall id :: id in Services <==> id in ServiceIds
    ensures forall i, j :: 0 <= i < j < |ServiceIds| ==> ServiceIds[i] != ServiceIds[j]
    ensures forall id :: id in Services ==>
      Services[id].defaultPrice > 0 && Services[id].defaultName != "" && Services[id].defaultDescription != ""
  {
    ServiceKeys();
    forall i, j | 0 <= i < j < |ServiceIds| ensures ServiceIds[i] != ServiceIds[j] {
      assert ServiceIds[i][0] != ServiceIds[j][0];
    }
    forall id | id in Services
      ensures Services[id].defaultPrice > 0 && Services[id].defaultName != "" && Services[id].defaultDescription != ""
    {
      assert id in ServiceIds;
      var i :| 0 <= i < |ServiceIds| && ServiceIds[i] == id;
      assert Services[ServiceIds[i]].defaultPrice > 0;
    }
  }

  // --------------------------------------------------------- the request

  /**
   * The fields of `req.body` that `createOrder` reads; a field left out is
   * `None`. The amount is a number, and 0 is falsy.
   */
  datatype OrderRequest = OrderRequest(
    serviceId: Option<string>, amount: Option<int>, serviceName: Option<string>,
    firstName: Option<string>, lastName: Option<string>, email: Option<string>,
    categoryId: Option<string>, description: Option<string>)

  /** A destructuring default: used only when the field is left out. */
  function Given(v: Option<string>, default: string): string
  {
    v.UnwrapOr(default)
  }

  /** `value || fallback` on a field that may be left out: an empty string falls back too. */
  function OrFallback(v: Option<string>, fallback: string): (r: string)
    ensures v.Some? && v.value != "" ==> r == v.value
    ensures v.None? || v == Some("") ==> r == fallback
  {
    if v.Some? then OrElse(v.value, fallback) else fallback
  }

  /** The service id after its default. */
  function RequestedId(req: OrderRequest): string
  {
    Given(req.serviceId, "1")
  }

  /** `amount || serviceConfig.defaultPrice`: a missing amount and an amount of 0 both fall back. */
  function FinalAmount(req: OrderRequest, entry: ServiceEntry): (a: int)
    ensures req.amount.Some? && req.amount.value != 0 ==> a == req.amount.value
    ensures req.amount.None? || req.amount == Some(0) ==> a == entry.defaultPrice
  {
    if req.amount.Some? && req.amount.value != 0 then req.amount.value else entry.defaultPrice
  }

  // -------------------------------------------------------- the preference

  datatype Item = Item(id: string, title: string, quantity: nat, unitPrice: int, categoryId: string, description: string)
  datatype Payer = Payer(name: string, surname: string, email: string)
  datatype BackUrls = BackUrls(success: string, failure: string, pending: string)
  datatype Preference = Preference(
    items: seq<Item>, payer: Payer, backUrls: BackUrls, notificationUrl: string,
    externalReference: string, excludedPaymentMethods: seq<string>, installments: nat, autoReturn: string)

  /** `ECOS-${serviceId}-${Date.now()}`, with the clock reading as a parameter. */
  function ExternalReference(serviceId: string, now: nat): string
  {
    "ECOS-" + serviceId + "-" + NatToString(now)
  }

  /** The reference splits back, on `-`, into the marker, the service id and the time, when the id holds no `-`. */
  lemma ExternalReferenceRoundTrip(serviceId: string, now: nat)
    requires FreeOf(serviceId, {'-'})
    ensures SplitOn(ExternalReference(serviceId, now), {'-'}) == ["ECOS", serviceId, NatToString(now)]
    ensures ParseNat(SplitOn(ExternalReference(serviceId, now), {'-'})[2]) == Some(now)
  {
    var digits := NatToString(now);
    NatToStringFreeOf(now, {'-'});
    SplitOnFree(digits, {'-'});
    SplitOnAfterFree(serviceId, '-', digits, {'-'});
    assert FreeOf("ECOS", {'-'});
    assert ExternalReference(serviceId, now) == "ECOS" + ['-'] + (serviceId + ['-'] + digits);
    SplitOnAfterFree("ECOS", '-', serviceId + ['-'] + digits, {'-'});
    ParseNatToString(now);
  }

  /** `${BASE_URL}/<page>?status=<status>&service=<id>`. */
  function ReturnUrl(page: string, status: string, serviceId: string): string
  {
    BaseUrl + "/" + page + "?status=" + status + "&service=" + serviceId
  }

  /** The return addresses: the service's own page on success, the welcome page otherwise. */
  function ReturnUrls(serviceId: string, path: string): BackUrls
  {
    BackUrls(ReturnUrl(path, "success", serviceId), ReturnUrl("welcome", "failure", serviceId),
             ReturnUrl("welcome", "pending", serviceId))
  }

  /**
   * The body passed to `preference.create` for a known service: one item
   * priced at the final amount, the payer, the return addresses, the
   * reference, two excluded methods, three instalments, automatic return on approval.
   */
  function BuildPreference(req: OrderRequest, now: nat): (p: Preference)
    requires RequestedId(req) in Services
    ensures |p.items| == 1 && p.items[0].quantity == 1 && p.items[0].id == RequestedId(req)
    ensures p.items[0].unitPrice != 0 && p.items[0].title != "" && p.items[0].description != ""
    ensures p.items[0].unitPrice == FinalAmount(req, Services[RequestedId(req)])
    ensures p.externalReference == ExternalReference(RequestedId(req), now)
    ensures p.backUrls == ReturnUrls(RequestedId(req), Services[RequestedId(req)].path)
    ensures p.items[0].title == if req.serviceName.Some? && req.serviceName.value != "" then req.serviceName.value
                                else Services[RequestedId(req)].defaultName
    ensures p.items[0].description == if req.description.Some? && req.description.value != "" then req.description.value
                                      else Services[RequestedId(req)].defaultDescription
    ensures p.items[0].categoryId == if req.categoryId.Some? then req.categoryId.value else "services"
    ensures p.notificationUrl == NotificationUrl
    ensures p.excludedPaymentMethods == ["efecty", "pse"] && p.installments == 3 && p.autoReturn == "approved"
  {
    ServiceTable();
    var id := RequestedId(req);
    var entry := Services[id];
    Preference(
      [Item(id, OrFallback(req.serviceName, entry.defaultName), 1, FinalAmount(req, entry),
            Given(req.categoryId, "services"), OrFallback(req.description, entry.defaultDescription))],
      Payer(Given(req.firstName, "Usuario"), Given(req.lastName, "Ecos"), Given(req.email, "usuario@example.com")),
      ReturnUrls(id, entry.path),
      NotificationUrl,
      ExternalReference(id, now),
      ["efecty", "pse"],
      3,
      "approved")
  }

  /** The buyer fields take the caller's values, with their own defaults only when left out (an empty name stays empty). */
  lemma PayerDefaults(req: OrderRequest, now: nat)
    requires RequestedId(req) in Services
    ensures req.firstName.None? ==> BuildPreference(req, now).payer.name == "Usuario"
    ensures req.firstName.Some? ==> BuildPreference(req, now).payer.name == req.firstName.value
    ensures req.lastName.None? ==> BuildPreference(req, now).payer.surname == "Ecos"
    ensures req.lastName.Some? ==> BuildPreference(req, now).payer.surname == req.lastName.value
    ensures req.email.None? ==> BuildPreference(req, now).payer.email == "usuario@example.com"
    ensures req.email.Some? ==> BuildPreference(req, now).payer.email == req.email.value
  {
  }

  // ---------------------------------------------------------- the response

  /** What the SDK gives back: its preference id and the two checkout addresses. */
  datatype SdkResult = SdkResult(id: string, initPoint: string, sandboxInitPoint: string)
  datatype SdkOutcome = Created(result: SdkResult) | SdkFailed

  datatype ServiceInfo = ServiceInfo(id: string, path: string, name: string)

  /** The three answers `createOrder` can send. */
  datatype Response =
    | InvalidService(error: string, validServices: seq<string>)
    | OrderCreated(result: SdkResult, serviceInfo: ServiceInfo)
    | ServerError(error: string)
  {
    function StatusCode(): nat
    {
      match this
      case InvalidService(_, _) => 400
      case OrderCreated(_, _) => 200
      case ServerError(_) => 500
    }
  }

  /**
   * `createOrder`: an id outside the table is refused with 400 and the list
   * of valid ids; otherwise the preference is sent, and the answer is the
   * SDK's result extended with the service's id, path and final name, or
   * 500 when the SDK fails.
   */
  function CreateOrder(req: OrderRequest, now: nat, sdk: Preference -> SdkOutcome): (r: Response)
    ensures r.InvalidService? <==> RequestedId(req) !in Services
    ensures r.InvalidService? ==> r == InvalidService("Servicio no válido", ServiceIds)
    ensures r.ServerError? ==> r.error == "Error creating order" && sdk(BuildPreference(req, now)).SdkFailed?
    ensures r.OrderCreated? ==>
              && RequestedId(req) in Services
              && sdk(BuildPreference(req, now)) == Created(r.result)
              && r.serviceInfo.id == RequestedId(req) && r.serviceInfo.path == Services[RequestedId(req)].path
              && r.serviceInfo.name == BuildPreference(req, now).items[0].title
  {
    var id := RequestedId(req);
    if id !in Services then InvalidService("Servicio no válido", ServiceIds)
    else
      var preference := BuildPreference(req, now);
      match sdk(preference)
      case Created(result) => OrderCreated(result, ServiceInfo(id, Services[id].path, preference.items[0].title))
      case SdkFailed => ServerError("Error creating order")
  }

  /** The status codes: 400 exactly for unknown ids, 200 exactly when the SDK created the preference. */
  lemma CreateOrderStatus(req: OrderRequest, now: nat, sdk: Preference -> SdkOutcome)
    ensures CreateOrder(req, now, sdk).StatusCode() == 400 <==> RequestedId(req) !in Services
    ensures CreateOrder(req, now, sdk).StatusCode() == 200 <==>
      RequestedId(req) in Services && sdk(BuildPreference(req, now)).Created?
    ensures req.serviceId.None? ==> CreateOrder(req, now, sdk).StatusCode() != 400
  {
  }

  /** One entry of `getServices`: the id next to its row. */
  datatype ServiceListing = ServiceListing(id: string, config: ServiceEntry)

  /** `getServices`: one listing per table key, in key order. */
  function GetServices(): (r: seq<ServiceListing>)
    ensures |r| == |ServiceIds|
    ensures forall i :: 0 <= i < |r| ==> r[i].id == ServiceIds[i] && r[i].id in Services && r[i].config == Services[r[i].id]
  {
    ServiceTable();
    seq(|ServiceIds|, i requires 0 <= i < |ServiceIds| => ServiceListing(ServiceIds[i], Services[ServiceIds[i]]))
  }

  /** Every listed id is accepted by `createOrder`, and every accepted id is listed exactly once. */
  lemma ListedIdsAreAccepted(req: OrderRequest, now: nat, sdk: Preference -> SdkOutcome)
    ensures forall l :: l in GetServices() ==> l.id in Services
    ensures !CreateOrder(req, now, sdk).InvalidService? ==>
      exists i :: 0 <= i < |GetServices()| && GetServices()[i].id == RequestedId(req)
    ensures forall i, j :: 0 <= i < j < |GetServices()| ==> GetServices()[i].id != GetServices()[j].id
  {
    ServiceTable();
    var listing := GetServices();
    if !CreateOrder(req, now, sdk).InvalidService? {
      var i :| 0 <= i < |ServiceIds| && ServiceIds[i] == RequestedId(req);
      assert listing[i].id == RequestedId(req);
    }
  }

  // ------------------------------------- the lookup as the controller writes it

  /**
   * The names every plain JavaScript object inherits from `Object.prototype`;
   * `SERVICES_CONFIG[name]` is a function or an object for each of them,
   * never `undefined`.
   */
  const InheritedNames: set<string> := {
    "constructor", "toString", "toLocaleString", "valueOf", "hasOwnProperty", "isPrototypeOf",
    "propertyIsEnumerable", "__proto__", "__defineGetter__", "__defineSetter__",
    "__lookupGetter__", "__lookupSetter__"}

  /** `!SERVICES_CONFIG[serviceId]` as written: false for the table's keys and for the inherited names. */
  predicate PassesLookupAsWritten(serviceId: string)
  {
    serviceId in Services || serviceId in InheritedNames
  }

  /**
   * The success address as the controller writes it: for an inherited name
   * the row's `path` is `undefined`, which the template prints as the text
   * "undefined"; `None` when the request is refused.
   */
  function SuccessUrlAsWritten(serviceId: string): (r: Option<string>)
    ensures r.Some? <==> PassesLookupAsWritten(serviceId)
  {
    if serviceId in Services then Some(ReturnUrls(serviceId, Services[serviceId].path).success)
    else if serviceId in InheritedNames then Some(ReturnUrls(serviceId, "undefined").success)
    else None
  }

  /**
   * The lookup lets through an id that is not a service: `toString` is not
   * refused, and its buyer is sent back to a page named "undefined". The
   * modelled `CreateOrder` refuses it.
   */
  lemma InheritedNamePassesLookup(req: OrderRequest, now: nat, sdk: Preference -> SdkOutcome)
    requires req.serviceId == Some("toString")
    ensures PassesLookupAsWritten("toString") && "toString" !in Services
    ensures SuccessUrlAsWritten("toString") == Some(ReturnUrl("undefined", "success", "toString"))
    ensures CreateOrder(req, now, sdk) == InvalidService("Servicio no válido", ServiceIds)
  {
    ServiceKeys();
    assert "toString" in InheritedNames;
  }

  /** On the table's own keys the written lookup and the modelled one agree. */
  lemma LookupAgreesOnTableIds(serviceId: string)
    requires serviceId !in InheritedNames
    ensures PassesLookupAsWritten(serviceId) <==> serviceId in Services
    ensures serviceId in Services ==> SuccessUrlAsWritten(serviceId) == Some(ReturnUrls(serviceId, Services[serviceId].path).success)
  {
  }
}
