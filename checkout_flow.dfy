/**
 * How the two halves of the checkout meet: the return addresses the back end
 * hands to MercadoPago, read back by the browser as a path and a query, and
 * classified by the front end's `checkPaymentStatusFromUrl`.
 *
 * The browser's reading of an address is given here as a reference
 * definition: the part after the site's origin is split at `?` into the path
 * and the query, and the query at `&` and `=` into names and values.
 */
module CheckoutFlow {
  import opened Wrappers
  import opened Text
  import opened Records
  import opened PaymentService
  import opened OrderController

  /** The characters that delimit the parts of an address. */
  const Delimiters: set<char> := {'?', '&', '='}

  /** The name/value pairs of a query string; for a repeated name the first value is kept, as `URLSearchParams.get` does. */
  function QueryPairs(pairs: seq<string>): map<string, string>
  {
    if pairs == [] then map[]
    else if pairs[0] == "" then QueryPairs(pairs[1..])
    else
      var nameValue := SplitOn(pairs[0], {'='});
      QueryPairs(pairs[1..])[nameValue[0] := if |nameValue| > 1 then nameValue[1] else ""]
  }

  /** `new URLSearchParams(search)` for a query without escapes. */
  function ParseQuery(query: string): map<string, string>
  {
    QueryPairs(SplitOn(query, {'&'}))
  }

  /** The page the browser shows for an address on the site's origin, or `None` for another origin. */
  function ReturnAddress(link: string): (r: Option<Url>)
    ensures r.Some? <==> |BaseUrl| <= |link| && link[..|BaseUrl|] == BaseUrl
  {
    if |BaseUrl| <= |link| && link[..|BaseUrl|] == BaseUrl then
      var parts := SplitOn(link[|BaseUrl|..], {'?'});
      Some(Url(parts[0], if |parts| > 1 then ParseQuery(parts[1]) else map[]))
    else None
  }

  /** `status=<status>&service=<id>` reads as exactly those two parameters. */
  lemma {:induction false} StatusQuery(status: string, serviceId: string)
    requires FreeOf(status, Delimiters) && FreeOf(serviceId, Delimiters) && status != ""
    ensures ParseQuery("status=" + status + "&service=" + serviceId) == map["status" := status, "service" := serviceId]
  {
    var first := "status=" + status;
    var second := "service=" + serviceId;
    assert FreeOf("status", Delimiters) && FreeOf("service", Delimiters);
    FreeOfAppend("status=", status, {'&'});
    FreeOfAppend("service=", serviceId, {'&'});
    assert "status=" + status + "&service=" + serviceId == first + ['&'] + second;
    SplitOnAfterFree(first, '&', second, {'&'});
    SplitOnFree(second, {'&'});
    var pairs := SplitOn(first + ['&'] + second, {'&'});
    assert pairs == [first, second];
    assert first == "status" + ['='] + status;
    SplitOnAfterFree("status", '=', status, {'='});
    SplitOnFree(status, {'='});
    assert second == "service" + ['='] + serviceId;
    SplitOnAfterFree("service", '=', serviceId, {'='});
    SplitOnFree(serviceId, {'='});
    assert pairs[1..] == [second];
    assert pairs[1..][1..] == [];
    assert QueryPairs([second]) == map["service" := serviceId];
  }

  /** An address on the site's origin followed by `/<page>?<query>` shows page `/<page>` with the parsed query. */
  lemma {:induction false} AddressParts(page: string, query: string)
    requires FreeOf(page, Delimiters) && FreeOf(query, {'?'})
    ensures ReturnAddress(BaseUrl + "/" + page + "?" + query) == Some(Url("/" + page, ParseQuery(query)))
  {
    var link := BaseUrl + "/" + page + "?" + query;
    assert link[..|BaseUrl|] == BaseUrl;
    var rest := link[|BaseUrl|..];
    assert rest == ("/" + page) + ['?'] + query;
    assert FreeOf("/", {'?'});
    FreeOfAppend("/", page, {'?'});
    SplitOnAfterFree("/" + page, '?', query, {'?'});
    SplitOnFree(query, {'?'});
  }

  /** The page names of the table hold none of the address delimiters. */
  lemma PageNamesAreAddressSafe()
    ensures FreeOf("descripcion-cartas", Delimiters) && FreeOf("significado-suenos", Delimiters)
    ensures FreeOf("Informacion-zodiaco", Delimiters) && FreeOf("lectura-numerologia", Delimiters)
    ensures FreeOf("mapa-vocacional", Delimiters)
  {
  }

  /** The rest of the page names, and the welcome page. */
  lemma MorePageNamesAreAddressSafe()
    ensures FreeOf("animal-interior", Delimiters) && FreeOf("tabla-nacimiento", Delimiters)
    ensures FreeOf("horoscopo", Delimiters) && FreeOf("calculadora-amor", Delimiters)
    ensures FreeOf("welcome", Delimiters)
  {
  }

  /** The ids and paths in the table hold none of the address delimiters. */
  lemma TableIsAddressSafe()
    ensures forall id :: id in Services ==> FreeOf(id, Delimiters) && FreeOf(Services[id].path, Delimiters)
  {
    ServiceKeys();
    ServicePaths();
    PageNamesAreAddressSafe();
    MorePageNamesAreAddressSafe();
  }

  /** `status=<status>&service=<id>` after the page, with no `?` anywhere in it. */
  lemma {:induction false} ReturnAddressOf(page: string, status: string, serviceId: string)
    requires FreeOf(page, Delimiters) && FreeOf(status, Delimiters) && FreeOf(serviceId, Delimiters) && status != ""
    ensures ReturnAddress(ReturnUrl(page, status, serviceId)) == Some(Url("/" + page, map["status" := status, "service" := serviceId]))
  {
    var query := "status=" + status + "&service=" + serviceId;
    StatusQuery(status, serviceId);
    assert FreeOf("status=", {'?'}) && FreeOf("&service=", {'?'});
    FreeOfAppend("status=", status, {'?'});
    FreeOfAppend("status=" + status, "&service=", {'?'});
    FreeOfAppend("status=" + status + "&service=", serviceId, {'?'});
    assert BaseUrl + "/" + page + "?status=" + status + "&service=" + serviceId == BaseUrl + "/" + page + "?" + query;
    AddressParts(page, query);
  }

  /**
   * The three return queries, as the front end classifies them: success is
   * an approved, paid return naming the service; failure is rejected;
   * pending is pending. All three pass `hasPaymentParams`.
   */
  lemma ReturnQueriesClassify(serviceId: string)
    ensures
      var q := map["status" := "success", "service" := serviceId];
      && CheckPaymentStatus(q).status == Some(Approved) && CheckPaymentStatus(q).isPaid
      && CheckPaymentStatus(q).serviceId == Some(serviceId) && HasPaymentParams(q)
    ensures
      var q := map["status" := "failure", "service" := serviceId];
      CheckPaymentStatus(q).status == Some(Rejected) && !CheckPaymentStatus(q).isPaid && HasPaymentParams(q)
    ensures
      var q := map["status" := "pending", "service" := serviceId];
      CheckPaymentStatus(q).status == Some(Pending) && !CheckPaymentStatus(q).isPaid && HasPaymentParams(q)
  {
  }

  /** The three return addresses for any id and page free of delimiters. */
  lemma {:induction false} ReturnUrlsLandOn(serviceId: string, path: string)
    requires FreeOf(serviceId, Delimiters) && FreeOf(path, Delimiters)
    ensures ReturnAddress(ReturnUrls(serviceId, path).success)
            == Some(Url("/" + path, map["status" := "success", "service" := serviceId]))
    ensures ReturnAddress(ReturnUrls(serviceId, path).failure)
            == Some(Url("/welcome", map["status" := "failure", "service" := serviceId]))
    ensures ReturnAddress(ReturnUrls(serviceId, path).pending)
            == Some(Url("/welcome", map["status" := "pending", "service" := serviceId]))
  {
    MorePageNamesAreAddressSafe();
    assert FreeOf("success", Delimiters) && FreeOf("failure", Delimiters) && FreeOf("pending", Delimiters);
    ReturnAddressOf(path, "success", serviceId);
    assert "/" + "welcome" == "/welcome";
    ReturnAddressOf("welcome", "failure", serviceId);
    ReturnAddressOf("welcome", "pending", serviceId);
  }

  /**
   * Every return address the controller builds for a service of the table,
   * read back by the browser, lands with exactly the status and the service
   * id in its query: success on the service's own page, failure and pending
   * on the welcome page. The query each carries is classified as approved
   * and paid for that service, rejected, and pending.
   */
  lemma ReturnUrlsLand(serviceId: string)
    requires serviceId in Services
    ensures ReturnAddress(ReturnUrls(serviceId, Services[serviceId].path).success)
            == Some(Url("/" + Services[serviceId].path, map["status" := "success", "service" := serviceId]))
    ensures ReturnAddress(ReturnUrls(serviceId, Services[serviceId].path).failure)
            == Some(Url("/welcome", map["status" := "failure", "service" := serviceId]))
    ensures ReturnAddress(ReturnUrls(serviceId, Services[serviceId].path).pending)
            == Some(Url("/welcome", map["status" := "pending", "service" := serviceId]))
    ensures var q := ReturnAddress(ReturnUrls(serviceId, Services[serviceId].path).success).value.query;
      && CheckPaymentStatus(q).status == Some(Approved) && CheckPaymentStatus(q).isPaid
      && CheckPaymentStatus(q).serviceId == Some(serviceId)
    ensures var q := ReturnAddress(ReturnUrls(serviceId, Services[serviceId].path).failure).value.query;
      CheckPaymentStatus(q).status == Some(Rejected) && !CheckPaymentStatus(q).isPaid
    ensures var q := ReturnAddress(ReturnUrls(serviceId, Services[serviceId].path).pending).value.query;
      CheckPaymentStatus(q).status == Some(Pending) && !CheckPaymentStatus(q).isPaid
  {
    TableIsAddressSafe();
    ReturnUrlsLandOn(serviceId, Services[serviceId].path);
    ReturnQueriesClassify(serviceId);
  }
}
