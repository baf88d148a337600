/**
 * The remote API's reading of a request: which endpoint a method, path and
 * body address, and with which arguments. It is the partner of the client's
 * endpoint table: every call the client builds reads back as the endpoint it
 * was built from, so two client calls produce the same request exactly when
 * they have the same canonical form (a falsy limit and absent package options
 * are canonicalised).
 */
module Routing {
  import opened Wrappers
  import opened JsonValue
  import opened Encoding
  import opened TebexClient

  /** `s.split(sep)`. */
  function Split(s: string, sep: char): (r: seq<string>)
    ensures |r| >= 1
    decreases |s|
  {
    if s == [] then [""]
    else
      var rest := Split(s[1..], sep);
      if s[0] == sep then [""] + rest else [[s[0]] + rest[0]] + rest[1..]
  }

  /** The path before the first '?', and the query after it when there is one. */
  function CutQuery(s: string): (r: (string, Option<string>))
    decreases |s|
  {
    if s == [] then ("", None)
    else if s[0] == '?' then ("", Some(s[1..]))
    else
      var r := CutQuery(s[1..]);
      ([s[0]] + r.0, r.1)
  }

  function Segments(path: string): Option<seq<string>> {
    if |path| >= 1 && path[0] == '/' then Some(Split(path[1..], '/')) else None
  }

  const LimitParameter: string := "pager.limit="

  function ReadStrings(body: Json): Option<map<string, string>> {
    if body.JObj? && forall k :: k in body.fields ==> body.fields[k].JStr? then
      Some(map k | k in body.fields :: body.fields[k].s)
    else None
  }

  function ReadOrder(line: Json): Option<PackageOrder> {
    if line.JObj? && "id" in line.fields && "options" in line.fields
       && line.fields["id"].JNum? && IsInt(line.fields["id"].n) then
      var options :- ReadStrings(line.fields["options"]);
      Some(PackageOrder(line.fields["id"].n.Floor, Some(options)))
    else None
  }

  function ReadOrders(lines: seq<Json>): (r: Option<seq<PackageOrder>>)
    ensures r.Some? ==> |r.value| == |lines|
  {
    if lines == [] then Some([])
    else
      var head :- ReadOrder(lines[0]);
      var tail :- ReadOrders(lines[1..]);
      Some([head] + tail)
  }

  function ReadManualPayment(body: Json): Option<ManualPayment> {
    if body.JObj? && "ign" in body.fields && "price" in body.fields && "packages" in body.fields
       && body.fields["ign"].JStr? && body.fields["price"].JNum? && body.fields["packages"].JArr? then
      var orders :- ReadOrders(body.fields["packages"].items);
      Some(ManualPayment(body.fields["ign"].s, body.fields["price"].n, orders))
    else None
  }

  function ParseGet(segs: seq<string>, query: Option<string>): Option<Endpoint> {
    if query.Some? then
      if segs == ["payments"] && LimitParameter <= query.value then
        var n :- ParseInteger(query.value[|LimitParameter|..]);
        Some(ListPayments(Some(n)))
      else None
    else if segs == ["information"] then Some(GetStoreInfo)
    else if segs == ["payments"] then Some(ListPayments(None))
    else if segs == ["coupons"] then Some(ListCoupons)
    else if segs == ["sales"] then Some(ListSales)
    else if segs == ["bans"] then Some(ListBans)
    else if segs == ["gift-cards"] then Some(ListGiftCards)
    else if segs == ["listing"] then Some(ListPackages)
    else if |segs| == 2 && segs[0] == "payments" then
      var id :- DecodeURIComponent(segs[1]);
      Some(GetPayment(id))
    else if |segs| == 2 && segs[0] == "coupons" then
      var n :- ParseInteger(segs[1]);
      Some(GetCoupon(n))
    else if |segs| == 2 && segs[0] == "gift-cards" then
      var n :- ParseInteger(segs[1]);
      Some(GetGiftCard(n))
    else if |segs| == 3 && segs[0] == "player" && segs[2] == "packages" then
      var id :- DecodeURIComponent(segs[1]);
      Some(GetPlayerPackages(id))
    else None
  }

  function ParsePost(segs: seq<string>, body: Json): Option<Endpoint> {
    if segs == ["payments"] then
      var p :- ReadManualPayment(body);
      Some(CreateManualPayment(p))
    else if |segs| == 3 && segs[0] == "payments" && segs[2] == "note" then
      if body.JObj? && "note" in body.fields && body.fields["note"].JStr? then
        var id :- DecodeURIComponent(segs[1]);
        Some(AddPaymentNote(id, body.fields["note"].s))
      else None
    else if !body.JObj? then None
    else if segs == ["coupons"] then Some(CreateCoupon(body.fields))
    else if segs == ["bans"] then Some(CreateBan(body.fields))
    else if segs == ["gift-cards"] then Some(CreateGiftCard(body.fields))
    else None
  }

  function ParsePut(segs: seq<string>, body: Json): Option<Endpoint> {
    if |segs| == 2 && segs[0] == "payments" then
      var id :- DecodeURIComponent(segs[1]);
      var update :- ReadStrings(body);
      Some(UpdatePayment(id, update))
    else if |segs| == 2 && segs[0] == "gift-cards" && body.JObj? && "amount" in body.fields && body.fields["amount"].JNum? then
      var n :- ParseInteger(segs[1]);
      Some(TopupGiftCard(n, body.fields["amount"].n))
    else None
  }

  function ParseDelete(segs: seq<string>): Option<Endpoint> {
    if |segs| == 2 && segs[0] == "coupons" then
      var n :- ParseInteger(segs[1]);
      Some(DeleteCoupon(n))
    else if |segs| == 2 && segs[0] == "gift-cards" then
      var n :- ParseInteger(segs[1]);
      Some(VoidGiftCard(n))
    else None
  }

  /** The endpoint and arguments a request addresses, if any. */
  function ParseRoute(c: Call): Option<Endpoint> {
    var cut := CutQuery(c.path);
    var segs :- Segments(cut.0);
    match c.verb
    case GET => if c.body.Some? then None else ParseGet(segs, cut.1)
    case POST => if c.body.None? || cut.1.Some? then None else ParsePost(segs, c.body.value)
    case PUT => if c.body.None? || cut.1.Some? then None else ParsePut(segs, c.body.value)
    case DELETE => if c.body.Some? || cut.1.Some? then None else ParseDelete(segs)
  }

  /**
   * The arguments as the request carries them: a falsy limit is the same as no
   * limit, and an omitted package option map is the same as `{}`.
   */
  function Canonical(e: Endpoint): Endpoint {
    match e
    case ListPayments(limit) => if limit.Some? && limit.value != 0 then e else ListPayments(None)
    case CreateManualPayment(p) =>
      CreateManualPayment(p.(packages := CanonicalOrders(p.packages)))
    case _ => e
  }

  function CanonicalOrder(o: PackageOrder): PackageOrder {
    PackageOrder(o.packageId, Some(if o.options.Some? then o.options.value else map[]))
  }

  function CanonicalOrders(orders: seq<PackageOrder>): seq<PackageOrder> {
    seq(|orders|, i requires 0 <= i < |orders| => CanonicalOrder(orders[i]))
  }

  // ---------------------------------------------------------------------------
  // Every request the client builds reads back as the endpoint it came from.

  /** Neither a path separator nor the start of a query. */
  predicate Plain(s: string) {
    '/' !in s && '?' !in s
  }

  lemma SafeIsPlain(s: string)
    requires AllSafe(s)
    ensures Plain(s)
  {
    forall i | 0 <= i < |s| ensures s[i] != '/' && s[i] != '?' {
      assert UriSafe(s[i]);
    }
  }

  lemma DecimalIsPlain(i: int)
    ensures Plain(IntToDecimal(i))
  {
    var r := IntToDecimal(i);
    forall k | 0 <= k < |r| ensures r[k] != '/' && r[k] != '?' {
    }
  }

  lemma {:induction false} SplitWhole(a: string, sep: char)
    requires sep !in a
    ensures Split(a, sep) == [a]
  {
    if a != [] {
      SplitWhole(a[1..], sep);
      assert [a[0]] + a[1..] == a;
    }
  }

  lemma {:induction false} SplitAfter(a: string, sep: char, b: string)
    requires sep !in a
    ensures Split(a + [sep] + b, sep) == [a] + Split(b, sep)
  {
    if a == [] {
      assert (a + [sep] + b)[1..] == b;
    } else {
      SplitAfter(a[1..], sep, b);
      assert (a + [sep] + b)[1..] == a[1..] + [sep] + b;
      assert [a[0]] + a[1..] == a;
    }
  }

  lemma {:induction false} CutWhole(a: string)
    requires '?' !in a
    ensures CutQuery(a) == (a, None)
  {
    if a != [] {
      CutWhole(a[1..]);
      assert [a[0]] + a[1..] == a;
    }
  }

  lemma {:induction false} CutAfter(a: string, b: string)
    requires '?' !in a
    ensures CutQuery(a + "?" + b) == (a, Some(b))
  {
    if a == [] {
      assert (a + "?" + b)[1..] == b;
    } else {
      CutAfter(a[1..], b);
      assert (a + "?" + b)[1..] == a[1..] + "?" + b;
      assert [a[0]] + a[1..] == a;
    }
  }

  lemma OneSegment(a: string)
    requires Plain(a)
    ensures CutQuery("/" + a) == ("/" + a, None)
    ensures Segments("/" + a) == Some([a])
  {
    var p := "/" + a;
    CutWhole(p);
    assert p[1..] == a;
    SplitWhole(a, '/');
    assert Segments(p) == Some([a]);
  }

  lemma TwoSegments(a: string, b: string)
    requires Plain(a) && Plain(b)
    ensures CutQuery("/" + a + "/" + b) == ("/" + a + "/" + b, None)
    ensures Segments("/" + a + "/" + b) == Some([a, b])
  {
    var p := "/" + a + "/" + b;
    CutWhole(p);
    assert p[1..] == a + ['/'] + b;
    SplitAfter(a, '/', b);
    SplitWhole(b, '/');
    assert Split(p[1..], '/') == [a] + [b];
    assert [a] + [b] == [a, b];
  }

  lemma ThreeSegments(a: string, b: string, c: string)
    requires Plain(a) && Plain(b) && Plain(c)
    ensures CutQuery("/" + a + "/" + b + "/" + c) == ("/" + a + "/" + b + "/" + c, None)
    ensures Segments("/" + a + "/" + b + "/" + c) == Some([a, b, c])
  {
    CutWhole("/" + a + "/" + b + "/" + c);
    ThreeSplit(a, b, c);
  }

  lemma ThreeSplit(a: string, b: string, c: string)
    requires Plain(a) && Plain(b) && Plain(c)
    ensures Segments("/" + a + "/" + b + "/" + c) == Some([a, b, c])
  {
    var p := "/" + a + "/" + b + "/" + c;
    var q := b + ['/'] + c;
    assert p[1..] == a + ['/'] + q;
    SplitAfter(a, '/', q);
    SplitAfter(b, '/', c);
    SplitWhole(c, '/');
    assert Split(q, '/') == [b] + [c];
    assert Split(p[1..], '/') == [a] + ([b] + [c]);
    assert [a] + ([b] + [c]) == [a, b, c];
  }

  /** A path written with its literal prefix, regrouped segment by segment. */
  lemma ItemPath(pre: string, name: string, x: string)
    requires pre == "/" + name + "/"
    ensures pre + x == "/" + name + "/" + x
  {
  }

  lemma ActionPath(pre: string, name: string, x: string, post: string, action: string)
    requires pre == "/" + name + "/" && post == "/" + action
    ensures pre + x + post == "/" + name + "/" + x + "/" + action
  {
  }

  lemma ReadStringsRoundTrip(m: map<string, string>)
    ensures ReadStrings(StringsJson(m)) == Some(m)
  {
    var back := map k | k in StringsJson(m).fields :: StringsJson(m).fields[k].s;
    assert back == m;
  }

  lemma ReadOrderRoundTrip(o: PackageOrder)
    ensures ReadOrder(PackageLine(o)) == Some(CanonicalOrder(o))
  {
    ReadStringsRoundTrip(if o.options.Some? then o.options.value else map[]);
  }

  lemma {:induction false} ReadOrdersRoundTrip(orders: seq<PackageOrder>)
    ensures ReadOrders(PackageLines(orders)) == Some(CanonicalOrders(orders))
  {
    if orders != [] {
      var lines := PackageLines(orders);
      ReadOrderRoundTrip(orders[0]);
      LinesTail(orders);
      ReadOrdersRoundTrip(orders[1..]);
      CanonicalOrdersCons(orders);
      ReadOrdersCons(lines);
    } else {
      assert CanonicalOrders(orders) == [];
    }
  }

  lemma LinesTail(orders: seq<PackageOrder>)
    requires orders != []
    ensures PackageLines(orders)[0] == PackageLine(orders[0])
    ensures PackageLines(orders)[1..] == PackageLines(orders[1..])
  {
  }

  lemma CanonicalOrdersCons(orders: seq<PackageOrder>)
    requires orders != []
    ensures CanonicalOrders(orders) == [CanonicalOrder(orders[0])] + CanonicalOrders(orders[1..])
  {
  }

  lemma ReadOrdersCons(lines: seq<Json>)
    requires lines != []
    ensures ReadOrders(lines) ==
      if ReadOrder(lines[0]).Some? && ReadOrders(lines[1..]).Some?
      then Some([ReadOrder(lines[0]).value] + ReadOrders(lines[1..]).value) else None
  {
  }

  /** Once the path is cut and split, the method and body choose the parser. */
  lemma ParseRouteStep(c: Call, path: string, query: Option<string>, segs: seq<string>)
    requires CutQuery(c.path) == (path, query) && Segments(path) == Some(segs)
    ensures c.verb == GET && c.body.None? ==> ParseRoute(c) == ParseGet(segs, query)
    ensures c.verb == POST && c.body.Some? && query.None? ==> ParseRoute(c) == ParsePost(segs, c.body.value)
    ensures c.verb == PUT && c.body.Some? && query.None? ==> ParseRoute(c) == ParsePut(segs, c.body.value)
    ensures c.verb == DELETE && c.body.None? && query.None? ==> ParseRoute(c) == ParseDelete(segs)
  {
  }

  lemma GetCollectionStep(c: Call, name: string)
    requires Plain(name) && c.path == "/" + name && c.verb == GET && c.body.None?
    ensures ParseRoute(c) == ParseGet([name], None)
  {
    OneSegment(name);
    ParseRouteStep(c, c.path, None, [name]);
  }

  lemma PostCollectionStep(c: Call, name: string)
    requires Plain(name) && c.path == "/" + name && c.verb == POST && c.body.Some?
    ensures ParseRoute(c) == ParsePost([name], c.body.value)
  {
    OneSegment(name);
    ParseRouteStep(c, c.path, None, [name]);
  }

  lemma ItemStep(c: Call, name: string, x: string)
    requires Plain(name) && Plain(x) && c.path == "/" + name + "/" + x
    ensures c.verb == GET && c.body.None? ==> ParseRoute(c) == ParseGet([name, x], None)
    ensures c.verb == PUT && c.body.Some? ==> ParseRoute(c) == ParsePut([name, x], c.body.value)
    ensures c.verb == DELETE && c.body.None? ==> ParseRoute(c) == ParseDelete([name, x])
  {
    TwoSegments(name, x);
    ParseRouteStep(c, c.path, None, [name, x]);
  }

  lemma ActionGetStep(c: Call, name: string, x: string, action: string)
    requires Plain(name) && Plain(x) && Plain(action) && c.path == "/" + name + "/" + x + "/" + action
    requires c.verb == GET && c.body.None?
    ensures ParseRoute(c) == ParseGet([name, x, action], None)
  {
    ThreeSegments(name, x, action);
    ParseRouteStep(c, c.path, None, [name, x, action]);
  }

  lemma ActionPostStep(c: Call, name: string, x: string, action: string)
    requires Plain(name) && Plain(x) && Plain(action) && c.path == "/" + name + "/" + x + "/" + action
    requires c.verb == POST && c.body.Some?
    ensures ParseRoute(c) == ParsePost([name, x, action], c.body.value)
  {
    ThreeSegments(name, x, action);
    ParseRouteStep(c, c.path, None, [name, x, action]);
  }

  // The parser's side of each encoded path, stated for any segment that
  // decodes, so that the encoder's definition stays out of these proofs.

  lemma ParsesPayment(c: Call, x: string, id: string)
    requires c == Call(GET, "/payments/" + x, None)
    requires Plain(x) && DecodeURIComponent(x) == Some(id)
    ensures ParseRoute(c) == Some(GetPayment(id))
  {
    ItemPath("/payments/", "payments", x);
    ItemStep(c, "payments", x);
  }

  lemma ParsesPaymentUpdate(c: Call, x: string, id: string, m: map<string, string>)
    requires c == Call(PUT, "/payments/" + x, Some(StringsJson(m)))
    requires Plain(x) && DecodeURIComponent(x) == Some(id)
    ensures ParseRoute(c) == Some(UpdatePayment(id, m))
  {
    ItemPath("/payments/", "payments", x);
    ItemStep(c, "payments", x);
    ReadStringsRoundTrip(m);
  }

  lemma ParsesPaymentNote(c: Call, x: string, id: string, note: string)
    requires c == Call(POST, "/payments/" + x + "/note", Some(JObj(map["note" := JStr(note)])))
    requires Plain(x) && DecodeURIComponent(x) == Some(id)
    ensures ParseRoute(c) == Some(AddPaymentNote(id, note))
  {
    ActionPath("/payments/", "payments", x, "/note", "note");
    ActionPostStep(c, "payments", x, "note");
  }

  lemma ParsesPlayer(c: Call, x: string, id: string)
    requires c == Call(GET, "/player/" + x + "/packages", None)
    requires Plain(x) && DecodeURIComponent(x) == Some(id)
    ensures ParseRoute(c) == Some(GetPlayerPackages(id))
  {
    ActionPath("/player/", "player", x, "/packages", "packages");
    ActionGetStep(c, "player", x, "packages");
  }

  lemma ParsesLimitQuery(digits: string, n: int)
    requires ParseInteger(digits) == Some(n)
    ensures ParseGet(["payments"], Some(LimitParameter + digits)) == Some(ListPayments(Some(n)))
  {
    assert (LimitParameter + digits)[|LimitParameter|..] == digits;
  }

  lemma QueryStep(c: Call, name: string, query: string)
    requires Plain(name) && c.path == "/" + name + "?" + query
    ensures c.verb == GET && c.body.None? ==> ParseRoute(c) == ParseGet([name], Some(query))
  {
    OneSegment(name);
    CutAfter("/" + name, query);
    ParseRouteStep(c, "/" + name, Some(query), [name]);
  }

  lemma ParsesLimit(c: Call, digits: string, n: int)
    requires c == Call(GET, "/payments" + ("?pager.limit=" + digits), None)
    requires ParseInteger(digits) == Some(n)
    ensures ParseRoute(c) == Some(ListPayments(Some(n)))
  {
    var query := LimitParameter + digits;
    assert c.path == "/" + "payments" + "?" + query;
    QueryStep(c, "payments", query);
    ParsesLimitQuery(digits, n);
  }

  lemma ReadManualPaymentRoundTrip(p: ManualPayment)
    ensures ReadManualPayment(ManualPaymentBody(p)) == Some(Canonical(CreateManualPayment(p)).payment)
  {
    var body := ManualPaymentBody(p);
    ReadOrdersRoundTrip(p.packages);
    assert body.fields["ign"] == JStr(p.ign);
    assert body.fields["price"] == JNum(p.price);
    assert body.fields["packages"] == JArr(PackageLines(p.packages));
  }

  lemma ManualPaymentRoundTrip(p: ManualPayment)
    ensures ParseRoute(Route(CreateManualPayment(p))) == Some(Canonical(CreateManualPayment(p)))
  {
    ReadManualPaymentRoundTrip(p);
    assert Route(CreateManualPayment(p)).path == "/" + "payments";
    PostCollectionStep(Route(CreateManualPayment(p)), "payments");
  }

  lemma ListPaymentsRoundTrip(limit: Option<int>)
    ensures ParseRoute(Route(ListPayments(limit))) == Some(Canonical(ListPayments(limit)))
  {
    var c := Route(ListPayments(limit));
    if limit.Some? && limit.value != 0 {
      IntDecimalRoundTrip(limit.value);
      ParsesLimit(c, IntToDecimal(limit.value), limit.value);
    } else {
      assert c.path == "/" + "payments";
      GetCollectionStep(c, "payments");
    }
  }

  lemma PaymentRoundTrip(id: string)
    ensures ParseRoute(Route(GetPayment(id))) == Some(GetPayment(id))
  {
    var x := EncodeURIComponent(id);
    SafeIsPlain(x);
    UriComponentRoundTrip(id);
    ParsesPayment(Route(GetPayment(id)), x, id);
  }

  lemma UpdatePaymentRoundTrip(id: string, m: map<string, string>)
    ensures ParseRoute(Route(UpdatePayment(id, m))) == Some(UpdatePayment(id, m))
  {
    var x := EncodeURIComponent(id);
    SafeIsPlain(x);
    UriComponentRoundTrip(id);
    ParsesPaymentUpdate(Route(UpdatePayment(id, m)), x, id, m);
  }

  lemma PaymentNoteRoundTrip(id: string, note: string)
    ensures ParseRoute(Route(AddPaymentNote(id, note))) == Some(AddPaymentNote(id, note))
  {
    var x := EncodeURIComponent(id);
    SafeIsPlain(x);
    UriComponentRoundTrip(id);
    ParsesPaymentNote(Route(AddPaymentNote(id, note)), x, id, note);
  }

  lemma ParsesCoupon(c: Call, x: string, n: int)
    requires c == Call(GET, "/coupons/" + x, None) || c == Call(DELETE, "/coupons/" + x, None)
    requires Plain(x) && ParseInteger(x) == Some(n)
    ensures ParseRoute(c) == Some(if c.verb == GET then GetCoupon(n) else DeleteCoupon(n))
  {
    ItemPath("/coupons/", "coupons", x);
    ItemStep(c, "coupons", x);
  }

  lemma ParsesGiftCard(c: Call, x: string, n: int)
    requires c == Call(GET, "/gift-cards/" + x, None) || c == Call(DELETE, "/gift-cards/" + x, None)
    requires Plain(x) && ParseInteger(x) == Some(n)
    ensures ParseRoute(c) == Some(if c.verb == GET then GetGiftCard(n) else VoidGiftCard(n))
  {
    ItemPath("/gift-cards/", "gift-cards", x);
    ItemStep(c, "gift-cards", x);
  }

  lemma ParsesTopup(c: Call, x: string, n: int, amount: real)
    requires c == Call(PUT, "/gift-cards/" + x, Some(JObj(map["amount" := JNum(amount)])))
    requires Plain(x) && ParseInteger(x) == Some(n)
    ensures ParseRoute(c) == Some(TopupGiftCard(n, amount))
  {
    ItemPath("/gift-cards/", "gift-cards", x);
    ItemStep(c, "gift-cards", x);
  }

  lemma CouponRoundTrip(id: int)
    ensures ParseRoute(Route(GetCoupon(id))) == Some(GetCoupon(id))
  {
    var x := IntToDecimal(id);
    DecimalIsPlain(id);
    IntDecimalRoundTrip(id);
    ParsesCoupon(Route(GetCoupon(id)), x, id);
  }

  lemma DeleteCouponRoundTrip(id: int)
    ensures ParseRoute(Route(DeleteCoupon(id))) == Some(DeleteCoupon(id))
  {
    var x := IntToDecimal(id);
    DecimalIsPlain(id);
    IntDecimalRoundTrip(id);
    ParsesCoupon(Route(DeleteCoupon(id)), x, id);
  }

  lemma GiftCardRoundTrip(id: int)
    ensures ParseRoute(Route(GetGiftCard(id))) == Some(GetGiftCard(id))
  {
    var x := IntToDecimal(id);
    DecimalIsPlain(id);
    IntDecimalRoundTrip(id);
    ParsesGiftCard(Route(GetGiftCard(id)), x, id);
  }

  lemma TopupRoundTrip(id: int, amount: real)
    ensures ParseRoute(Route(TopupGiftCard(id, amount))) == Some(TopupGiftCard(id, amount))
  {
    var x := IntToDecimal(id);
    DecimalIsPlain(id);
    IntDecimalRoundTrip(id);
    ParsesTopup(Route(TopupGiftCard(id, amount)), x, id, amount);
  }

  lemma VoidRoundTrip(id: int)
    ensures ParseRoute(Route(VoidGiftCard(id))) == Some(VoidGiftCard(id))
  {
    var x := IntToDecimal(id);
    DecimalIsPlain(id);
    IntDecimalRoundTrip(id);
    ParsesGiftCard(Route(VoidGiftCard(id)), x, id);
  }

  lemma PlayerRoundTrip(id: string)
    ensures ParseRoute(Route(GetPlayerPackages(id))) == Some(GetPlayerPackages(id))
  {
    var x := EncodeURIComponent(id);
    SafeIsPlain(x);
    UriComponentRoundTrip(id);
    ParsesPlayer(Route(GetPlayerPackages(id)), x, id);
  }

  /** A collection read: `GET /name`. */
  lemma ListingCase(e: Endpoint, name: string)
    requires Plain(name) && Route(e) == Call(GET, "/" + name, None) && ParseGet([name], None) == Some(e)
    ensures ParseRoute(Route(e)) == Some(e)
  {
    GetCollectionStep(Route(e), name);
  }

  lemma ListingRoundTrip(e: Endpoint)
    requires e.GetStoreInfo? || e.ListCoupons? || e.ListSales? || e.ListBans? || e.ListGiftCards? || e.ListPackages?
    ensures ParseRoute(Route(e)) == Some(e)
  {
    if e.GetStoreInfo? || e.ListCoupons? || e.ListSales? {
      StoreListingRoundTrip(e);
    } else {
      CatalogueListingRoundTrip(e);
    }
  }

  lemma StoreListingRoundTrip(e: Endpoint)
    requires e.GetStoreInfo? || e.ListCoupons? || e.ListSales?
    ensures ParseRoute(Route(e)) == Some(e)
  {
    match e
    case GetStoreInfo => ListingCase(e, "information");
    case ListCoupons => ListingCase(e, "coupons");
    case ListSales => ListingCase(e, "sales");
  }

  lemma CatalogueListingRoundTrip(e: Endpoint)
    requires e.ListBans? || e.ListGiftCards? || e.ListPackages?
    ensures ParseRoute(Route(e)) == Some(e)
  {
    match e
    case ListBans => ListingCase(e, "bans");
    case ListGiftCards => ListingCase(e, "gift-cards");
    case ListPackages => ListingCase(e, "listing");
  }

  /** A creation: `POST /name` with the arguments as the body. */
  lemma CreationCase(e: Endpoint, name: string, body: Json)
    requires Plain(name) && Route(e) == Call(POST, "/" + name, Some(body)) && ParsePost([name], body) == Some(e)
    ensures ParseRoute(Route(e)) == Some(e)
  {
    PostCollectionStep(Route(e), name);
  }

  lemma CreationRoundTrip(e: Endpoint)
    requires e.CreateCoupon? || e.CreateBan? || e.CreateGiftCard?
    ensures ParseRoute(Route(e)) == Some(e)
  {
    match e
    case CreateCoupon(data) => CreationCase(e, "coupons", JObj(data));
    case CreateBan(data) => CreationCase(e, "bans", JObj(data));
    case CreateGiftCard(data) => CreationCase(e, "gift-cards", JObj(data));
  }

  /** The remote API reads every client call back as the endpoint, and the arguments, it was built from. */
  lemma RouteRoundTrip(e: Endpoint)
    ensures ParseRoute(Route(e)) == Some(Canonical(e))
  {
    match e
    case ListPayments(limit) => ListPaymentsRoundTrip(limit);
    case GetPayment(id) => PaymentRoundTrip(id);
    case CreateManualPayment(p) => ManualPaymentRoundTrip(p);
    case UpdatePayment(id, m) => UpdatePaymentRoundTrip(id, m);
    case AddPaymentNote(id, note) => PaymentNoteRoundTrip(id, note);
    case GetCoupon(id) => CouponRoundTrip(id);
    case DeleteCoupon(id) => DeleteCouponRoundTrip(id);
    case GetGiftCard(id) => GiftCardRoundTrip(id);
    case TopupGiftCard(id, amount) => TopupRoundTrip(id, amount);
    case VoidGiftCard(id) => VoidRoundTrip(id);
    case GetPlayerPackages(id) => PlayerRoundTrip(id);
    case CreateCoupon(_) => CreationRoundTrip(e);
    case CreateBan(_) => CreationRoundTrip(e);
    case CreateGiftCard(_) => CreationRoundTrip(e);
    case _ => ListingRoundTrip(e);
  }

  /** Canonicalising an endpoint does not change the request it makes. */
  lemma RouteOfCanonical(e: Endpoint)
    ensures Route(Canonical(e)) == Route(e)
  {
    match e
    case CreateManualPayment(p) =>
      var q := Canonical(e).payment;
      assert PackageLines(q.packages) == PackageLines(p.packages);
    case _ =>
  }

  /** Two client calls make the same request exactly when they agree up to canonical form. */
  lemma RouteInjective(e1: Endpoint, e2: Endpoint)
    ensures Route(e1) == Route(e2) <==> Canonical(e1) == Canonical(e2)
  {
    RouteRoundTrip(e1);
    RouteRoundTrip(e2);
    RouteOfCanonical(e1);
    RouteOfCanonical(e2);
  }
}
