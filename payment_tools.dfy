/**
 * The payment operations: list, get, create a manual payment, update, and add
 * a note. Each has a parameter contract, a handler that turns the validated
 * arguments into one client call, and a reply; update and add-note reply
 * `{success: true}` when the client returns nothing.
 */
module PaymentTools {
  import opened Wrappers
  import opened JsonValue
  import opened Encoding
  import opened Schema
  import opened Render
  import C = TebexClient
  import R = Routing

  datatype Tool = ListPayments | GetPayment | CreateManualPayment | UpdatePayment | AddPaymentNote

  function Name(t: Tool): string {
    match t
    case ListPayments => "list-payments"
    case GetPayment => "get-payment"
    case CreateManualPayment => "create-manual-payment"
    case UpdatePayment => "update-payment"
    case AddPaymentNote => "add-payment-note"
  }

  // ---------------------------------------------------------------------------
  // Contracts.

  const TransactionId: Field := Field("transaction_id", SString(1), Required)

  /** One element of `packages`: an integer package id and a string map of options defaulting to `{}`. */
  const PackageItem: Schema := SObject([
    Field("package_id", SNumber([IntCheck]), Required),
    Field("options", SStringRecord, Default(JObj(map[])))])

  function Params(t: Tool): Contract {
    match t
    case ListPayments => [Field("limit", SNumber([IntCheck, MinCheck(1.0), MaxCheck(100.0)]), Optional)]
    case GetPayment => [TransactionId]
    case CreateManualPayment =>
      [Field("ign", SString(1), Required),
       Field("price", SNumber([MinCheck(0.0)]), Required),
       Field("packages", SArray(PackageItem, 1), Required)]
    case UpdatePayment =>
      [TransactionId, Field("username", SString(0), Optional), Field("status", SString(0), Optional)]
    case AddPaymentNote => [TransactionId, Field("note", SString(1), Required)]
  }

  lemma ParamsWellFormed(t: Tool)
    ensures WellFormed(SObject(Params(t)))
  {
  }

  // ---------------------------------------------------------------------------
  // Handlers.

  /** JavaScript truthiness of an optional string: given and not empty. */
  predicate Truthy(v: Option<string>) {
    v.Some? && v.value != ""
  }

  /** The update body: exactly the truthy ones of `username` and `status`. */
  function UpdateData(username: Option<string>, status: Option<string>): (data: map<string, string>)
    ensures data.Keys <= {"username", "status"}
    ensures "username" in data <==> Truthy(username)
    ensures "status" in data <==> Truthy(status)
    ensures "username" in data ==> data["username"] == username.value
    ensures "status" in data ==> data["status"] == status.value
    ensures forall k :: k in data ==> data[k] != ""
  {
    (if Truthy(username) then map["username" := username.value] else map[])
    + (if Truthy(status) then map["status" := status.value] else map[])
  }

  /** The update-payment handler's statements: start from `{}` and assign each truthy field. */
  method BuildUpdateData(username: Option<string>, status: Option<string>) returns (data: map<string, string>)
    ensures data == UpdateData(username, status)
  {
    data := map[];
    if username.Some? && username.value != "" {
      data := data["username" := username.value];
    }
    if status.Some? && status.value != "" {
      data := data["status" := status.value];
    }
  }

  function OptionalText(args: map<string, Json>, key: string): Option<string> {
    if key in args && args[key].JStr? then Some(args[key].s) else None
  }

  function Strings(m: Json): map<string, string>
    requires Conforms(SStringRecord, m)
  {
    map key | key in m.fields :: m.fields[key].s
  }

  /** One validated package as the client function takes it. */
  function Order(item: Json): C.PackageOrder
    requires Normal(PackageItem, item)
  {
    FieldOf(PackageItem.fields, item, 0);
    FieldOf(PackageItem.fields, item, 1);
    C.PackageOrder(item.fields["package_id"].n.Floor, Some(Strings(item.fields["options"])))
  }

  function Orders(items: seq<Json>): (r: seq<C.PackageOrder>)
    requires forall k :: 0 <= k < |items| ==> Normal(PackageItem, items[k])
    ensures |r| == |items|
    ensures forall k :: 0 <= k < |items| ==> r[k] == Order(items[k])
  {
    seq(|items|, k requires 0 <= k < |items| => Order(items[k]))
  }

  /** The client call a handler makes with its validated arguments. */
  function Request(t: Tool, args: map<string, Json>): C.Endpoint
    requires Normal(SObject(Params(t)), JObj(args))
  {
    match t
    case ListPayments =>
      FieldOf(Params(t), JObj(args), 0);
      C.ListPayments(if "limit" in args then Some(args["limit"].n.Floor) else None)
    case GetPayment =>
      FieldOf(Params(t), JObj(args), 0);
      C.GetPayment(args["transaction_id"].s)
    case CreateManualPayment =>
      FieldOf(Params(t), JObj(args), 0);
      FieldOf(Params(t), JObj(args), 1);
      FieldOf(Params(t), JObj(args), 2);
      C.CreateManualPayment(C.ManualPayment(args["ign"].s, args["price"].n, Orders(args["packages"].items)))
    case UpdatePayment =>
      FieldOf(Params(t), JObj(args), 0);
      C.UpdatePayment(args["transaction_id"].s,
                      UpdateData(OptionalText(args, "username"), OptionalText(args, "status")))
    case AddPaymentNote =>
      FieldOf(Params(t), JObj(args), 0);
      FieldOf(Params(t), JObj(args), 1);
      C.AddPaymentNote(args["transaction_id"].s, args["note"].s)
  }

  const Succeeded: Json := JObj(map["success" := JBool(true)])

  /** The envelope: update and add-note fall back to `{success: true}`, the others render the result. */
  function Reply(t: Tool, result: C.Payload): Envelope {
    match t
    case UpdatePayment => Render.Reply(result, Some(Succeeded))
    case AddPaymentNote => Render.Reply(result, Some(Succeeded))
    case _ => Render.Reply(result, None)
  }

  // ---------------------------------------------------------------------------
  // Properties.

  /** `limit` is accepted exactly when it is absent or an integer from 1 to 100. */
  lemma LimitBounds(raw: map<string, Json>)
    ensures Validate(Params(ListPayments), raw).Success? <==>
      ("limit" in raw ==> raw["limit"].JNum? && IsInt(raw["limit"].n) && 1.0 <= raw["limit"].n <= 100.0)
  {
    var f := Params(ListPayments)[0];
    ValidateAccepts(Params(ListPayments), raw);
    assert Validate(Params(ListPayments), raw).Success? <==> FieldConforms(f, raw);
    if "limit" in raw && raw["limit"].JNum? {
      NumberBounds(f.schema.checks, raw["limit"].n);
    }
  }

  /** The chain `.int().min(1).max(100)` holds of `x` exactly when `x` is an integer from 1 to 100. */
  lemma NumberBounds(checks: seq<NumberCheck>, x: real)
    requires checks == [IntCheck, MinCheck(1.0), MaxCheck(100.0)]
    ensures (forall k :: 0 <= k < |checks| ==> Passes(checks[k], x)) <==> IsInt(x) && 1.0 <= x <= 100.0
  {
    assert Passes(checks[0], x) <==> IsInt(x);
    assert Passes(checks[1], x) <==> 1.0 <= x;
    assert Passes(checks[2], x) <==> x <= 100.0;
  }

  /** Every transaction id must be a non-empty string: an empty or missing one is rejected. */
  lemma TransactionIdRequired(t: Tool, raw: map<string, Json>)
    requires t.GetPayment? || t.UpdatePayment? || t.AddPaymentNote?
    ensures Validate(Params(t), raw).Success? ==>
      "transaction_id" in raw && raw["transaction_id"].JStr? && raw["transaction_id"].s != ""
  {
    ValidateAccepts(Params(t), raw);
    assert FieldConforms(Params(t)[0], raw) ==>
      ("transaction_id" in raw && raw["transaction_id"].JStr? && |raw["transaction_id"].s| >= 1);
  }

  /**
   * A manual payment is accepted exactly when the name is a non-empty string,
   * the price a number of at least 0, and the packages a non-empty array of
   * objects, each with an integer package id and, if given, string options.
   */
  lemma ManualPaymentBounds(raw: map<string, Json>)
    ensures Validate(Params(CreateManualPayment), raw).Success? <==>
      && "ign" in raw && raw["ign"].JStr? && raw["ign"].s != ""
      && "price" in raw && raw["price"].JNum? && raw["price"].n >= 0.0
      && "packages" in raw && raw["packages"].JArr? && |raw["packages"].items| >= 1
      && forall k :: 0 <= k < |raw["packages"].items| ==> PackageAccepted(raw["packages"].items[k])
  {
    ValidateAccepts(Params(CreateManualPayment), raw);
    if "packages" in raw && raw["packages"].JArr? {
      var items := raw["packages"].items;
      forall k | 0 <= k < |items| ensures Conforms(PackageItem, items[k]) <==> PackageAccepted(items[k]) {
        PackageBounds(items[k]);
      }
    }
  }

  predicate PackageAccepted(item: Json) {
    && item.JObj? && "package_id" in item.fields
    && item.fields["package_id"].JNum? && IsInt(item.fields["package_id"].n)
    && ("options" in item.fields ==> Conforms(SStringRecord, item.fields["options"]))
  }

  lemma PackageBounds(item: Json)
    ensures Conforms(PackageItem, item) <==> PackageAccepted(item)
  {
    if item.JObj? {
      var fs := PackageItem.fields;
      assert Conforms(PackageItem, item) <==> FieldConforms(fs[0], item.fields) && FieldConforms(fs[1], item.fields);
      if "package_id" in item.fields && item.fields["package_id"].JNum? {
        var checks := fs[0].schema.checks;
        assert Passes(checks[0], item.fields["package_id"].n) <==> IsInt(item.fields["package_id"].n);
      }
      assert Conforms(SStringRecord, JObj(map[]));
    }
  }

  /** A price of 0 is accepted. */
  lemma FreePaymentAccepted()
    ensures Validate(Params(CreateManualPayment),
      map["ign" := JStr("Steve"), "price" := JNum(0.0),
          "packages" := JArr([JObj(map["package_id" := JNum(5.0)])])]).Success?
  {
    var raw := map["ign" := JStr("Steve"), "price" := JNum(0.0),
                   "packages" := JArr([JObj(map["package_id" := JNum(5.0)])])];
    ManualPaymentBounds(raw);
    assert IsInt(5.0);
    assert PackageAccepted(raw["packages"].items[0]);
  }

  /** A parsed package keeps its id, and its options or `{}` when none were supplied. */
  lemma PackageParsed(item: Json, w: Json, at: seq<Step>)
    requires Parse(PackageItem, item, at) == Success(w)
    ensures item.JObj? && w.JObj? && "package_id" in item.fields && "options" in w.fields
    ensures w.fields["package_id"] == item.fields["package_id"]
    ensures w.fields["options"] == if "options" in item.fields then item.fields["options"] else JObj(map[])
  {
    var fs := PackageItem.fields;
    ObjectValue(fs, item, at, 0);
    ObjectValue(fs, item, at, 1);
    ParseAccepts(PackageItem, item, at);
    assert FieldConforms(fs[0], item.fields);
    ParseFlat(fs[0].schema, item.fields["package_id"], at + [Key("package_id")]);
    if "options" in item.fields {
      ParseFlat(fs[1].schema, item.fields["options"], at + [Key("options")]);
    }
  }

  /** The validated manual-payment arguments: name and price as supplied, packages parsed. */
  lemma ManualPaymentArgs(raw: map<string, Json>, args: map<string, Json>)
    requires Validate(Params(CreateManualPayment), raw) == Success(args)
    ensures Normal(SObject(Params(CreateManualPayment)), JObj(args))
    ensures "ign" in raw && "price" in raw && "packages" in raw
    ensures "ign" in args && "price" in args && "packages" in args
    ensures args["ign"] == raw["ign"] && args["price"] == raw["price"]
    ensures Parse(SArray(PackageItem, 1), raw["packages"], [Key("packages")]) == Success(args["packages"])
  {
    var c := Params(CreateManualPayment);
    ParamsWellFormed(CreateManualPayment);
    ValidateNormal(c, raw);
    ValidateAccepts(c, raw);
    ValidatedField(c, raw, 0);
    ValidatedField(c, raw, 1);
    ValidatedField(c, raw, 2);
    assert FieldConforms(c[0], raw) && FieldConforms(c[1], raw) && FieldConforms(c[2], raw);
    ParseFlat(c[0].schema, raw["ign"], [Key("ign")]);
    ParseFlat(c[1].schema, raw["price"], [Key("price")]);
  }

  lemma PackageForwarded(items: seq<Json>, parsed: Json, k: nat)
    requires Parse(SArray(PackageItem, 1), JArr(items), [Key("packages")]) == Success(parsed)
    requires Normal(SArray(PackageItem, 1), parsed) && k < |items|
    ensures |parsed.items| == |items|
    ensures PackageAccepted(items[k])
    ensures var order, item := Order(parsed.items[k]), items[k].fields;
      && order.packageId as real == item["package_id"].n
      && order.options == Some(Strings(if "options" in item then item["options"] else JObj(map[])))
  {
    var at := [Key("packages"), Index(k)];
    ArrayValue(PackageItem, 1, items, [Key("packages")], k);
    assert [Key("packages")] + [Index(k)] == at;
    PackageParsed(items[k], parsed.items[k], at);
    ParseAccepts(PackageItem, items[k], at);
    PackageBounds(items[k]);
  }

  /**
   * Each validated package reaches the client with its integer id and its
   * options, or `{}` when none were supplied; the list keeps its length and
   * order, and the name and price are passed on as supplied.
   */
  lemma PackagesForwarded(raw: map<string, Json>, args: map<string, Json>)
    requires Validate(Params(CreateManualPayment), raw) == Success(args)
    ensures Normal(SObject(Params(CreateManualPayment)), JObj(args))
    ensures var e := Request(CreateManualPayment, args);
      && "ign" in raw && "price" in raw && "packages" in raw && raw["packages"].JArr?
      && e.payment.ign == raw["ign"].s
      && e.payment.price == raw["price"].n
      && |e.payment.packages| == |raw["packages"].items|
      && forall k :: 0 <= k < |e.payment.packages| ==>
           var item := raw["packages"].items[k];
           && PackageAccepted(item)
           && e.payment.packages[k].packageId as real == item.fields["package_id"].n
           && e.payment.packages[k].options ==
                Some(Strings(if "options" in item.fields then item.fields["options"] else JObj(map[])))
  {
    ManualPaymentArgs(raw, args);
    var c := Params(CreateManualPayment);
    FieldOf(c, JObj(args), 2);
    var items := raw["packages"].items;
    var e := Request(CreateManualPayment, args);
    assert e.payment.packages == Orders(args["packages"].items);
    forall k | 0 <= k < |items|
      ensures var item := items[k];
        && PackageAccepted(item)
        && e.payment.packages[k].packageId as real == item.fields["package_id"].n
        && e.payment.packages[k].options ==
             Some(Strings(if "options" in item.fields then item.fields["options"] else JObj(map[])))
    {
      PackageForwarded(items, args["packages"], k);
    }
  }

  lemma ListPaymentsArgs(raw: map<string, Json>, args: map<string, Json>)
    requires Validate(Params(ListPayments), raw) == Success(args)
    ensures Normal(SObject(Params(ListPayments)), JObj(args))
    ensures "limit" in args <==> "limit" in raw
    ensures "limit" in raw ==>
      (args["limit"] == raw["limit"] && raw["limit"].JNum? && IsInt(raw["limit"].n) && 1.0 <= raw["limit"].n <= 100.0)
  {
    var c := Params(ListPayments);
    ParamsWellFormed(ListPayments);
    ValidateNormal(c, raw);
    LimitBounds(raw);
    ValidatedField(c, raw, 0);
    if "limit" in raw {
      ParseFlat(c[0].schema, raw["limit"], [Key("limit")]);
    }
  }

  /** A validated limit is never 0, so the query is sent exactly when a limit was given. */
  lemma LimitSent(raw: map<string, Json>, args: map<string, Json>)
    requires Validate(Params(ListPayments), raw) == Success(args)
    ensures Normal(SObject(Params(ListPayments)), JObj(args))
    ensures var path := C.Route(Request(ListPayments, args)).path;
      && ("limit" in raw ==>
            (raw["limit"].JNum? && IsInt(raw["limit"].n)
             && path == "/payments" + "?pager.limit=" + IntToDecimal(raw["limit"].n.Floor)))
      && ("limit" !in raw ==> path == "/payments")
  {
    ListPaymentsArgs(raw, args);
    if "limit" in raw {
      assert raw["limit"].n.Floor >= 1;
    }
  }

  /** The validated arguments of a list-payments call are already in the form the remote side reads back. */
  lemma ListPaymentsCanonical(args: map<string, Json>)
    requires Normal(SObject(Params(ListPayments)), JObj(args))
    ensures R.Canonical(Request(ListPayments, args)) == Request(ListPayments, args)
  {
    FieldOf(Params(ListPayments), JObj(args), 0);
    if "limit" in args {
      NumberBounds(Params(ListPayments)[0].schema.checks, args["limit"].n);
      assert args["limit"].n.Floor >= 1;
    }
  }

  lemma ManualPaymentCanonical(args: map<string, Json>)
    requires Normal(SObject(Params(CreateManualPayment)), JObj(args))
    ensures R.Canonical(Request(CreateManualPayment, args)) == Request(CreateManualPayment, args)
  {
    var orders := Request(CreateManualPayment, args).payment.packages;
    assert R.CanonicalOrders(orders) == orders;
  }

  /**
   * The remote side reads every request a payment handler sends back as the
   * client call the handler made, arguments included.
   */
  lemma RequestReadBack(t: Tool, raw: map<string, Json>, args: map<string, Json>)
    requires Validate(Params(t), raw) == Success(args)
    ensures Normal(SObject(Params(t)), JObj(args))
    ensures R.ParseRoute(C.Route(Request(t, args))) == Some(Request(t, args))
  {
    ParamsWellFormed(t);
    ValidateNormal(Params(t), raw);
    R.RouteRoundTrip(Request(t, args));
    match t
    case ListPayments => ListPaymentsCanonical(args);
    case CreateManualPayment => ManualPaymentCanonical(args);
    case _ =>
  }

  /**
   * An update goes to the supplied transaction, with a body holding exactly the
   * non-empty ones of the supplied username and status.
   */
  lemma UpdateSent(raw: map<string, Json>, args: map<string, Json>)
    requires Validate(Params(UpdatePayment), raw) == Success(args)
    ensures Normal(SObject(Params(UpdatePayment)), JObj(args))
    ensures "transaction_id" in raw && raw["transaction_id"].JStr?
    ensures Request(UpdatePayment, args) ==
      C.UpdatePayment(raw["transaction_id"].s, UpdateData(OptionalText(raw, "username"), OptionalText(raw, "status")))
  {
    var c := Params(UpdatePayment);
    ValidateNormal(c, raw);
    ValidateForwards(c, raw);
    assert Forwarded(c[0], raw, args) && Forwarded(c[1], raw, args) && Forwarded(c[2], raw, args);
    assert OptionalText(args, "username") == OptionalText(raw, "username");
    assert OptionalText(args, "status") == OptionalText(raw, "status");
  }

  /**
   * Updating only the status, with the username omitted or empty, sends
   * exactly `{status: "complete"}`.
   */
  lemma StatusOnlyUpdate(raw: map<string, Json>, args: map<string, Json>)
    requires Validate(Params(UpdatePayment), raw) == Success(args)
    requires "username" !in raw || raw["username"] == JStr("")
    requires "status" in raw && raw["status"] == JStr("complete")
    ensures Normal(SObject(Params(UpdatePayment)), JObj(args))
    ensures Request(UpdatePayment, args).update == map["status" := "complete"]
  {
    UpdateSent(raw, args);
    var data := UpdateData(OptionalText(raw, "username"), Some("complete"));
    assert !Truthy(OptionalText(raw, "username"));
    assert data.Keys == {"status"};
  }

  /** Update and add-note render `{success: true}` for a nullish result and the result itself otherwise. */
  lemma ConfirmationFallback(t: Tool, result: C.Payload)
    requires t.UpdatePayment? || t.AddPaymentNote?
    ensures (result.NoData? || result.json == JNull) ==>
      Reply(t, result) == Envelope([TextBlock(Serialized(JObj(map["success" := JBool(true)])))])
    ensures result.Data? && result.json != JNull ==> Reply(t, result) == Envelope([TextBlock(Serialized(result.json))])
  {
  }
}
