/**
 * The remote resource client: the only component that talks to the commerce
 * platform's plugin API.
 *
 * `Route` is the endpoint table (each client function fixes a method, a path
 * template and the body shape), `BuildRequest` authenticates a call and
 * attaches its body, and `Classify` turns the HTTP response into a payload or
 * a `TebexApiError`. The network call itself is not modelled: the response is
 * an input.
 */
module TebexClient {
  import opened Wrappers
  import opened JsonValue
  import opened Encoding

  const BaseUrl: string := "https://plugin.tebex.io"
  const SecretHeader: string := "X-Tebex-Secret"
  const JsonMediaType: string := "application/json"
  const MissingSecretMessage: string :=
    "TEBEX_SECRET environment variable is not set. Get your secret key from https://server.tebex.io/settings/servers"

  // ---------------------------------------------------------------------------
  // Errors.

  /** A non-ok HTTP response: its status, status text and body text, verbatim. */
  datatype TebexApiError = TebexApiError(status: int, statusText: string, body: string) {
    function Name(): string { "TebexApiError" }

    function Message(): string {
      MessagePrefix + IntToDecimal(status) + " " + statusText + ": " + body
    }
  }

  const MessagePrefix: string := "Tebex API error "

  /** The text of `s` up to the first `sep`. */
  function Before(s: string, sep: char): (r: string)
    ensures r <= s && sep !in r
  {
    if s == [] || s[0] == sep then [] else [s[0]] + Before(s[1..], sep)
  }

  /** The status a reader of an error message recovers from it: the number after the prefix. */
  function MessageStatus(m: string): Option<int> {
    if MessagePrefix <= m then ParseInteger(Before(m[|MessagePrefix|..], ' ')) else None
  }

  lemma {:induction false} BeforeSeparator(a: string, sep: char, b: string)
    requires sep !in a
    ensures Before(a + [sep] + b, sep) == a
  {
    if a == [] {
      assert (a + [sep] + b)[0] == sep;
    } else {
      BeforeSeparator(a[1..], sep, b);
      assert (a + [sep] + b)[1..] == a[1..] + [sep] + b;
      assert [a[0]] + a[1..] == a;
    }
  }

  /** An error message names the status it was built from, and ends with the response body verbatim. */
  lemma MessageCarriesError(e: TebexApiError)
    ensures MessageStatus(e.Message()) == Some(e.status)
    ensures |e.body| <= |e.Message()| && e.Message()[|e.Message()| - |e.body|..] == e.body
  {
    var digits := IntToDecimal(e.status);
    var rest := " " + e.statusText + ": " + e.body;
    assert e.Message() == MessagePrefix + (digits + rest);
    assert e.Message()[|MessagePrefix|..] == digits + [' '] + (e.statusText + ": " + e.body);
    assert ' ' !in digits by {
      forall k | 0 <= k < |digits| ensures digits[k] != ' ' {}
    }
    BeforeSeparator(digits, ' ', e.statusText + ": " + e.body);
    IntDecimalRoundTrip(e.status);
  }

  /** The secret is missing: thrown before any request is attempted. */
  datatype ConfigurationError = ConfigurationError(message: string)

  // ---------------------------------------------------------------------------
  // The secret.

  /** JavaScript truthiness of the environment variable: unset and "" are both missing. */
  predicate SecretSet(env: Option<string>) {
    env.Some? && env.value != ""
  }

  function GetSecret(env: Option<string>): (r: Result<string, ConfigurationError>)
    ensures r.Success? <==> SecretSet(env)
    ensures r.Success? ==> r.value == env.value
    ensures r.Failure? ==> r.error == ConfigurationError(MissingSecretMessage)
  {
    if env.None? || env.value == "" then Failure(ConfigurationError(MissingSecretMessage))
    else Success(env.value)
  }

  // ---------------------------------------------------------------------------
  // Requests.

  datatype HttpMethod = GET | POST | PUT | DELETE

  /** What is handed to `fetch`: the URL and the init object (method, headers, JSON body). */
  datatype HttpRequest = HttpRequest(verb: HttpMethod, url: string, headers: map<string, string>, body: Option<Json>)

  /**
   * Reads the secret, then fills the header map and the init object: the
   * secret and `Accept` headers always, and the content type together with the
   * serialised body only when there is a body.
   */
  method BuildRequest(env: Option<string>, verb: HttpMethod, path: string, body: Option<Json>)
    returns (r: Result<HttpRequest, ConfigurationError>)
    ensures r.Failure? <==> !SecretSet(env)
    ensures r.Failure? ==> r.error == ConfigurationError(MissingSecretMessage)
    ensures r.Success? ==>
      && r.value.verb == verb
      && r.value.url == BaseUrl + path
      && r.value.body == body
      && r.value.headers.Keys == {SecretHeader, "Accept"} + (if body.Some? then {"Content-Type"} else {})
      && r.value.headers[SecretHeader] == env.value
      && r.value.headers["Accept"] == JsonMediaType
      && ("Content-Type" in r.value.headers <==> body.Some?)
      && (body.Some? ==> r.value.headers["Content-Type"] == JsonMediaType)
  {
    var secret :- GetSecret(env);
    var headers := map[SecretHeader := secret, "Accept" := JsonMediaType];
    var payload: Option<Json> := None;
    if body.Some? {
      headers := headers["Content-Type" := JsonMediaType];
      payload := body;
    }
    r := Success(HttpRequest(verb, BaseUrl + path, headers, payload));
  }

  // ---------------------------------------------------------------------------
  // Responses.

  /**
   * What `fetch` resolved to: the status line, the body as text (read for an
   * error), and what `res.json()` resolves to (read for a success).
   */
  datatype HttpResponse = HttpResponse(status: int, statusText: string, text: string, parsed: Json) {
    /** `Response.ok`: the status is in the range 200-299. */
    predicate Ok() { 200 <= status <= 299 }
  }

  /** What a successful call returns: `undefined` for 204 No Content, otherwise the parsed body. */
  datatype Payload = NoData | Data(json: Json)

  function Classify(res: HttpResponse): (r: Result<Payload, TebexApiError>)
    ensures r.Failure? <==> !res.Ok()
    ensures r.Failure? ==> r.error.status == res.status && r.error.statusText == res.statusText && r.error.body == res.text
    ensures r == Success(NoData) <==> res.status == 204
    ensures r.Success? && res.status != 204 ==> r.value == Data(res.parsed)
  {
    if !res.Ok() then Failure(TebexApiError(res.status, res.statusText, res.text))
    else if res.status == 204 then Success(NoData)
    else Success(Data(res.parsed))
  }

  // ---------------------------------------------------------------------------
  // The endpoint table.

  datatype PackageOrder = PackageOrder(packageId: int, options: Option<map<string, string>>)

  datatype ManualPayment = ManualPayment(ign: string, price: real, packages: seq<PackageOrder>)

  /** One client function applied to its arguments. */
  datatype Endpoint =
    | GetStoreInfo
    | ListPayments(limit: Option<int>)
    | GetPayment(transactionId: string)
    | CreateManualPayment(payment: ManualPayment)
    | UpdatePayment(transactionId: string, update: map<string, string>)
    | AddPaymentNote(transactionId: string, note: string)
    | ListCoupons
    | GetCoupon(couponId: int)
    | CreateCoupon(coupon: map<string, Json>)
    | DeleteCoupon(couponId: int)
    | ListSales
    | ListBans
    | CreateBan(ban: map<string, Json>)
    | ListGiftCards
    | GetGiftCard(giftCardId: int)
    | CreateGiftCard(giftCard: map<string, Json>)
    | TopupGiftCard(giftCardId: int, amount: real)
    | VoidGiftCard(giftCardId: int)
    | GetPlayerPackages(playerIdentifier: string)
    | ListPackages

  /** The `request(method, path, body)` call a client function makes. */
  datatype Call = Call(verb: HttpMethod, path: string, body: Option<Json>)

  function StringsJson(m: map<string, string>): Json {
    JObj(map k | k in m :: JStr(m[k]))
  }

  /** `?pager.limit=N` when the limit is truthy (given and not 0), nothing otherwise. */
  function LimitQuery(limit: Option<int>): string {
    if limit.Some? && limit.value != 0 then "?pager.limit=" + IntToDecimal(limit.value) else ""
  }

  /** One element of the manual-payment body: `package_id` renamed to `id`, options defaulting to `{}`. */
  function PackageLine(o: PackageOrder): Json {
    JObj(map["id" := JNum(o.packageId as real),
             "options" := StringsJson(if o.options.Some? then o.options.value else map[])])
  }

  function PackageLines(orders: seq<PackageOrder>): (r: seq<Json>)
    ensures |r| == |orders|
    ensures forall i :: 0 <= i < |orders| ==> r[i] == PackageLine(orders[i])
  {
    if orders == [] then [] else [PackageLine(orders[0])] + PackageLines(orders[1..])
  }

  function ManualPaymentBody(p: ManualPayment): Json {
    JObj(map["ign" := JStr(p.ign), "price" := JNum(p.price), "packages" := JArr(PackageLines(p.packages))])
  }

  function Route(e: Endpoint): Call {
    match e
    case GetStoreInfo => Call(GET, "/information", None)
    case ListPayments(limit) => Call(GET, "/payments" + LimitQuery(limit), None)
    case GetPayment(id) => Call(GET, "/payments/" + EncodeURIComponent(id), None)
    case CreateManualPayment(p) => Call(POST, "/payments", Some(ManualPaymentBody(p)))
    case UpdatePayment(id, data) => Call(PUT, "/payments/" + EncodeURIComponent(id), Some(StringsJson(data)))
    case AddPaymentNote(id, note) =>
      Call(POST, "/payments/" + EncodeURIComponent(id) + "/note", Some(JObj(map["note" := JStr(note)])))
    case ListCoupons => Call(GET, "/coupons", None)
    case GetCoupon(id) => Call(GET, "/coupons/" + IntToDecimal(id), None)
    case CreateCoupon(data) => Call(POST, "/coupons", Some(JObj(data)))
    case DeleteCoupon(id) => Call(DELETE, "/coupons/" + IntToDecimal(id), None)
    case ListSales => Call(GET, "/sales", None)
    case ListBans => Call(GET, "/bans", None)
    case CreateBan(data) => Call(POST, "/bans", Some(JObj(data)))
    case ListGiftCards => Call(GET, "/gift-cards", None)
    case GetGiftCard(id) => Call(GET, "/gift-cards/" + IntToDecimal(id), None)
    case CreateGiftCard(data) => Call(POST, "/gift-cards", Some(JObj(data)))
    case TopupGiftCard(id, amount) => Call(PUT, "/gift-cards/" + IntToDecimal(id), Some(JObj(map["amount" := JNum(amount)])))
    case VoidGiftCard(id) => Call(DELETE, "/gift-cards/" + IntToDecimal(id), None)
    case GetPlayerPackages(id) => Call(GET, "/player/" + EncodeURIComponent(id) + "/packages", None)
    case ListPackages => Call(GET, "/listing", None)
  }
}
