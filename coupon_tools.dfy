/**
 * The coupon operations: list, get, create and delete. Creation forwards its
 * validated parameters, defaults filled in, as the request body; deletion
 * renders a confirmation naming the coupon when the client returns nothing.
 */
module CouponTools {
  import opened Wrappers
  import opened JsonValue
  import opened Encoding
  import opened Schema
  import opened Render
  import C = TebexClient
  import R = Routing

  datatype Tool = ListCoupons | GetCoupon | CreateCoupon | DeleteCoupon

  function Name(t: Tool): string {
    match t
    case ListCoupons => "list-coupons"
    case GetCoupon => "get-coupon"
    case CreateCoupon => "create-coupon"
    case DeleteCoupon => "delete-coupon"
  }

  // ---------------------------------------------------------------------------
  // Contracts.

  const CouponId: Field := Field("coupon_id", SNumber([IntCheck]), Required)

  const EffectiveOn: seq<string> := ["cart", "package", "category"]
  const DiscountTypes: seq<string> := ["value", "percentage"]
  const BasketTypes: seq<string> := ["single", "subscription", "both"]

  /** The create-coupon parameters, in declaration order. */
  const NewCoupon: Contract := [
    Field("code", SString(1), Required),
    Field("effective_on", SEnum(EffectiveOn), Required),
    Field("packages", SArray(SNumber([IntCheck]), 0), Optional),
    Field("categories", SArray(SNumber([IntCheck]), 0), Optional),
    Field("discount_type", SEnum(DiscountTypes), Required),
    Field("discount_amount", SNumber([MinCheck(0.0)]), Default(JNum(0.0))),
    Field("discount_percentage", SNumber([MinCheck(0.0), MaxCheck(100.0)]), Default(JNum(0.0))),
    Field("redeem_unlimited", SBoolean, Default(JBool(true))),
    Field("expire_never", SBoolean, Default(JBool(true))),
    Field("expire_limit", SNumber([IntCheck]), Optional),
    Field("expire_date", SString(0), Optional),
    Field("start_date", SString(0), Optional),
    Field("basket_type", SEnum(BasketTypes), Default(JStr("both"))),
    Field("minimum", SNumber([MinCheck(0.0)]), Optional),
    Field("username", SString(0), Optional),
    Field("note", SString(0), Optional)]

  function Params(t: Tool): Contract {
    match t
    case ListCoupons => []
    case GetCoupon => [CouponId]
    case CreateCoupon => NewCoupon
    case DeleteCoupon => [CouponId]
  }

  lemma NewCouponFlat()
    ensures UniqueNames(NewCoupon)
    ensures forall k :: 0 <= k < |NewCoupon| ==> Flat(NewCoupon[k].schema)
  {
  }

  lemma ParamsWellFormed(t: Tool)
    ensures WellFormed(SObject(Params(t)))
  {
    if t.CreateCoupon? {
      NewCouponFlat();
      forall k | 0 <= k < |NewCoupon| ensures FieldWellFormed(NewCoupon[k]) {
      }
    }
  }

  // ---------------------------------------------------------------------------
  // Handlers.

  function CouponNumber(args: map<string, Json>, t: Tool): int
    requires t.GetCoupon? || t.DeleteCoupon?
    requires Normal(SObject(Params(t)), JObj(args))
  {
    FieldOf(Params(t), JObj(args), 0);
    args["coupon_id"].n.Floor
  }

  /** The client call a handler makes with its validated arguments. */
  function Request(t: Tool, args: map<string, Json>): C.Endpoint
    requires Normal(SObject(Params(t)), JObj(args))
  {
    match t
    case ListCoupons => C.ListCoupons
    case GetCoupon => C.GetCoupon(CouponNumber(args, t))
    case CreateCoupon => C.CreateCoupon(args)
    case DeleteCoupon => C.DeleteCoupon(CouponNumber(args, t))
  }

  /** The confirmation delete-coupon renders when the client returns nothing. */
  function Deleted(id: int): Json {
    JObj(map["success" := JBool(true), "message" := JStr("Coupon " + IntToDecimal(id) + " deleted")])
  }

  function Reply(t: Tool, args: map<string, Json>, result: C.Payload): Envelope
    requires Normal(SObject(Params(t)), JObj(args))
  {
    match t
    case DeleteCoupon => Render.Reply(result, Some(Deleted(CouponNumber(args, t))))
    case _ => Render.Reply(result, None)
  }

  // ---------------------------------------------------------------------------
  // Properties.

  /** A coupon id is accepted exactly when it is an integer. */
  lemma CouponIdBounds(t: Tool, raw: map<string, Json>)
    requires t.GetCoupon? || t.DeleteCoupon?
    ensures Validate(Params(t), raw).Success? <==>
      "coupon_id" in raw && raw["coupon_id"].JNum? && IsInt(raw["coupon_id"].n)
  {
    ValidateAccepts(Params(t), raw);
    assert Validate(Params(t), raw).Success? <==> FieldConforms(CouponId, raw);
    if "coupon_id" in raw && raw["coupon_id"].JNum? {
      assert Passes(CouponId.schema.checks[0], raw["coupon_id"].n) <==> IsInt(raw["coupon_id"].n);
    }
  }

  /** An array of integers, as `z.array(z.number().int())` accepts. */
  predicate IntArray(v: Json) {
    v.JArr? && forall k :: 0 <= k < |v.items| ==> v.items[k].JNum? && IsInt(v.items[k].n)
  }

  /**
   * The create-coupon contract in words: a non-empty code, the two required
   * enumerations, integer id lists, non-negative discounts with the percentage
   * at most 100, boolean flags, an integer expiry limit, a known basket type,
   * a non-negative minimum and string dates, username and note.
   */
  predicate CouponAccepted(raw: map<string, Json>) {
    && "code" in raw && raw["code"].JStr? && raw["code"].s != ""
    && "effective_on" in raw && raw["effective_on"].JStr? && raw["effective_on"].s in EffectiveOn
    && ("packages" in raw ==> IntArray(raw["packages"]))
    && ("categories" in raw ==> IntArray(raw["categories"]))
    && "discount_type" in raw && raw["discount_type"].JStr? && raw["discount_type"].s in DiscountTypes
    && ("discount_amount" in raw ==> raw["discount_amount"].JNum? && raw["discount_amount"].n >= 0.0)
    && ("discount_percentage" in raw ==>
          raw["discount_percentage"].JNum? && 0.0 <= raw["discount_percentage"].n <= 100.0)
    && ("redeem_unlimited" in raw ==> raw["redeem_unlimited"].JBool?)
    && ("expire_never" in raw ==> raw["expire_never"].JBool?)
    && ("expire_limit" in raw ==> raw["expire_limit"].JNum? && IsInt(raw["expire_limit"].n))
    && ("expire_date" in raw ==> raw["expire_date"].JStr?)
    && ("start_date" in raw ==> raw["start_date"].JStr?)
    && ("basket_type" in raw ==> raw["basket_type"].JStr? && raw["basket_type"].s in BasketTypes)
    && ("minimum" in raw ==> raw["minimum"].JNum? && raw["minimum"].n >= 0.0)
    && ("username" in raw ==> raw["username"].JStr?)
    && ("note" in raw ==> raw["note"].JStr?)
  }

  lemma IntArrayBounds(v: Json)
    ensures Conforms(SArray(SNumber([IntCheck]), 0), v) <==> IntArray(v)
  {
    if v.JArr? {
      forall k | 0 <= k < |v.items| && v.items[k].JNum?
        ensures Conforms(SNumber([IntCheck]), v.items[k]) <==> IsInt(v.items[k].n)
      {
        assert Passes([IntCheck][0], v.items[k].n) <==> IsInt(v.items[k].n);
      }
    }
  }

  /** The code, the scope and the id lists. */
  lemma LeadingFields(raw: map<string, Json>)
    ensures var c := NewCoupon;
      (FieldConforms(c[0], raw) && FieldConforms(c[1], raw) && FieldConforms(c[2], raw) && FieldConforms(c[3], raw))
      <==>
      (&& "code" in raw && raw["code"].JStr? && raw["code"].s != ""
       && "effective_on" in raw && raw["effective_on"].JStr? && raw["effective_on"].s in EffectiveOn
       && ("packages" in raw ==> IntArray(raw["packages"]))
       && ("categories" in raw ==> IntArray(raw["categories"])))
  {
    var c := NewCoupon;
    assert FieldConforms(c[0], raw) <==> "code" in raw && raw["code"].JStr? && raw["code"].s != "" by {
      if "code" in raw && raw["code"].JStr? {
        assert |raw["code"].s| >= 1 <==> raw["code"].s != "";
      }
    }
    if "packages" in raw {
      IntArrayBounds(raw["packages"]);
    }
    if "categories" in raw {
      IntArrayBounds(raw["categories"]);
    }
  }

  /** The discount kind, its two amounts and the unlimited-redemption flag. */
  lemma DiscountFields(raw: map<string, Json>)
    ensures var c := NewCoupon;
      (FieldConforms(c[4], raw) && FieldConforms(c[5], raw) && FieldConforms(c[6], raw) && FieldConforms(c[7], raw))
      <==>
      (&& "discount_type" in raw && raw["discount_type"].JStr? && raw["discount_type"].s in DiscountTypes
       && ("discount_amount" in raw ==> raw["discount_amount"].JNum? && raw["discount_amount"].n >= 0.0)
       && ("discount_percentage" in raw ==>
             raw["discount_percentage"].JNum? && 0.0 <= raw["discount_percentage"].n <= 100.0)
       && ("redeem_unlimited" in raw ==> raw["redeem_unlimited"].JBool?))
  {
    var c := NewCoupon;
    assert FieldConforms(c[5], raw) <==>
      ("discount_amount" in raw ==> raw["discount_amount"].JNum? && raw["discount_amount"].n >= 0.0)
    by {
      assert Passes(c[5].schema.checks[0], 0.0);
      if "discount_amount" in raw && raw["discount_amount"].JNum? {
        assert Passes(c[5].schema.checks[0], raw["discount_amount"].n) <==> raw["discount_amount"].n >= 0.0;
      }
    }
    assert FieldConforms(c[6], raw) <==>
      ("discount_percentage" in raw ==>
         raw["discount_percentage"].JNum? && 0.0 <= raw["discount_percentage"].n <= 100.0)
    by {
      var checks := c[6].schema.checks;
      assert Passes(checks[0], 0.0) && Passes(checks[1], 0.0);
      if "discount_percentage" in raw && raw["discount_percentage"].JNum? {
        var x := raw["discount_percentage"].n;
        assert Passes(checks[0], x) <==> 0.0 <= x;
        assert Passes(checks[1], x) <==> x <= 100.0;
      }
    }
  }

  /** The last eight create-coupon fields, one by one. */
  lemma TrailingFields(raw: map<string, Json>)
    ensures var c := NewCoupon;
      (FieldConforms(c[8], raw) && FieldConforms(c[9], raw) && FieldConforms(c[10], raw) && FieldConforms(c[11], raw)
       && FieldConforms(c[12], raw) && FieldConforms(c[13], raw) && FieldConforms(c[14], raw) && FieldConforms(c[15], raw))
      <==>
      (&& ("expire_never" in raw ==> raw["expire_never"].JBool?)
       && ("expire_limit" in raw ==> raw["expire_limit"].JNum? && IsInt(raw["expire_limit"].n))
       && ("expire_date" in raw ==> raw["expire_date"].JStr?)
       && ("start_date" in raw ==> raw["start_date"].JStr?)
       && ("basket_type" in raw ==> raw["basket_type"].JStr? && raw["basket_type"].s in BasketTypes)
       && ("minimum" in raw ==> raw["minimum"].JNum? && raw["minimum"].n >= 0.0)
       && ("username" in raw ==> raw["username"].JStr?)
       && ("note" in raw ==> raw["note"].JStr?))
  {
    var c := NewCoupon;
    if "expire_limit" in raw && raw["expire_limit"].JNum? {
      assert Passes(c[9].schema.checks[0], raw["expire_limit"].n) <==> IsInt(raw["expire_limit"].n);
    }
    assert "both" in BasketTypes;
    if "minimum" in raw && raw["minimum"].JNum? {
      assert Passes(c[13].schema.checks[0], raw["minimum"].n) <==> raw["minimum"].n >= 0.0;
    }
  }

  /** A coupon is accepted exactly when its parameters meet the contract in words. */
  lemma NewCouponAccepted(raw: map<string, Json>)
    ensures Validate(NewCoupon, raw).Success? <==> CouponAccepted(raw)
  {
    var c := NewCoupon;
    ValidateAccepts(c, raw);
    LeadingFields(raw);
    DiscountFields(raw);
    TrailingFields(raw);
    if CouponAccepted(raw) {
      EveryField(c, raw);
    }
  }

  lemma EveryField(c: Contract, raw: map<string, Json>)
    requires |c| == 16
    requires FieldConforms(c[0], raw) && FieldConforms(c[1], raw) && FieldConforms(c[2], raw) && FieldConforms(c[3], raw)
    requires FieldConforms(c[4], raw) && FieldConforms(c[5], raw) && FieldConforms(c[6], raw) && FieldConforms(c[7], raw)
    requires FieldConforms(c[8], raw) && FieldConforms(c[9], raw) && FieldConforms(c[10], raw) && FieldConforms(c[11], raw)
    requires FieldConforms(c[12], raw) && FieldConforms(c[13], raw) && FieldConforms(c[14], raw) && FieldConforms(c[15], raw)
    ensures forall k :: 0 <= k < |c| ==> FieldConforms(c[k], raw)
  {
  }

  /**
   * The create-coupon body is the accepted parameters as supplied, with the
   * defaults filled in for omitted fields and undeclared keys dropped.
   */
  lemma NewCouponForwarded(raw: map<string, Json>, args: map<string, Json>)
    requires Validate(NewCoupon, raw) == Success(args)
    ensures Normal(SObject(Params(CreateCoupon)), JObj(args))
    ensures Request(CreateCoupon, args) == C.CreateCoupon(args)
    ensures args.Keys <= NamesFrom(NewCoupon, 0)
    ensures forall k :: 0 <= k < |NewCoupon| ==> Forwarded(NewCoupon[k], raw, args)
  {
    NewCouponFlat();
    ParamsWellFormed(CreateCoupon);
    ValidateNormal(NewCoupon, raw);
    ValidateForwards(NewCoupon, raw);
  }

  /** Omitted discounts are 0, omitted flags are true, and an omitted basket type is "both". */
  lemma NewCouponDefaults(raw: map<string, Json>, args: map<string, Json>)
    requires Validate(NewCoupon, raw) == Success(args)
    ensures "discount_amount" !in raw ==> "discount_amount" in args && args["discount_amount"] == JNum(0.0)
    ensures "discount_percentage" !in raw ==> "discount_percentage" in args && args["discount_percentage"] == JNum(0.0)
    ensures "redeem_unlimited" !in raw ==> "redeem_unlimited" in args && args["redeem_unlimited"] == JBool(true)
    ensures "expire_never" !in raw ==> "expire_never" in args && args["expire_never"] == JBool(true)
    ensures "basket_type" !in raw ==> "basket_type" in args && args["basket_type"] == JStr("both")
  {
    NewCouponForwarded(raw, args);
    assert Forwarded(NewCoupon[5], raw, args) && Forwarded(NewCoupon[6], raw, args);
    assert Forwarded(NewCoupon[7], raw, args) && Forwarded(NewCoupon[8], raw, args);
    assert Forwarded(NewCoupon[12], raw, args);
  }

  /** A cart-wide coupon needs neither packages nor categories, nor any discount amount. */
  lemma CartCouponAccepted()
    ensures Validate(NewCoupon, map["code" := JStr("SUMMER20"), "effective_on" := JStr("cart"),
                                     "discount_type" := JStr("percentage")]).Success?
  {
    var raw := map["code" := JStr("SUMMER20"), "effective_on" := JStr("cart"), "discount_type" := JStr("percentage")];
    NewCouponAccepted(raw);
    assert CouponAccepted(raw);
  }

  /** Delete-coupon renders `{success: true, message: "Coupon N deleted"}` for a nullish result only. */
  lemma DeletionConfirmed(raw: map<string, Json>, args: map<string, Json>, result: C.Payload)
    requires Validate(Params(DeleteCoupon), raw) == Success(args)
    ensures Normal(SObject(Params(DeleteCoupon)), JObj(args))
    ensures "coupon_id" in raw && raw["coupon_id"].JNum? && IsInt(raw["coupon_id"].n)
    ensures var text := Reply(DeleteCoupon, args, result).content[0].text;
      && ((result.NoData? || result.json == JNull) ==>
            text == Serialized(JObj(map["success" := JBool(true),
                                        "message" := JStr("Coupon " + IntToDecimal(raw["coupon_id"].n.Floor) + " deleted")])))
      && (result.Data? && result.json != JNull ==> text == Serialized(result.json))
  {
    ParamsWellFormed(DeleteCoupon);
    ValidateNormal(Params(DeleteCoupon), raw);
    CouponIdBounds(DeleteCoupon, raw);
    ValidatedField(Params(DeleteCoupon), raw, 0);
    ParseFlat(CouponId.schema, raw["coupon_id"], [Key("coupon_id")]);
  }

  /** The remote side reads every coupon request back as the client call the handler made. */
  lemma RequestReadBack(t: Tool, raw: map<string, Json>, args: map<string, Json>)
    requires Validate(Params(t), raw) == Success(args)
    ensures Normal(SObject(Params(t)), JObj(args))
    ensures R.ParseRoute(C.Route(Request(t, args))) == Some(Request(t, args))
  {
    ParamsWellFormed(t);
    ValidateNormal(Params(t), raw);
    R.RouteRoundTrip(Request(t, args));
  }
}
