/**
 * The gift-card operations: list, get, create, top up and void. Amounts must
 * be at least 0.01; voiding renders a confirmation naming the card when the
 * client returns nothing.
 */
module GiftCardTools {
  import opened Wrappers
  import opened JsonValue
  import opened Encoding
  import opened Schema
  import opened Render
  import C = TebexClient
  import R = Routing

  datatype Tool = ListGiftCards | GetGiftCard | CreateGiftCard | TopupGiftCard | VoidGiftCard

  function Name(t: Tool): string {
    match t
    case ListGiftCards => "list-gift-cards"
    case GetGiftCard => "get-gift-card"
    case CreateGiftCard => "create-gift-card"
    case TopupGiftCard => "topup-gift-card"
    case VoidGiftCard => "void-gift-card"
  }

  // ---------------------------------------------------------------------------
  // Contracts.

  const GiftCardId: Field := Field("gift_card_id", SNumber([IntCheck]), Required)

  /** The smallest amount a card is created with or topped up by. */
  const MinimumAmount: real := 0.01

  const Amount: Field := Field("amount", SNumber([MinCheck(MinimumAmount)]), Required)

  function Params(t: Tool): Contract {
    match t
    case ListGiftCards => []
    case GetGiftCard => [GiftCardId]
    case CreateGiftCard => [Amount, Field("expires_at", SString(0), Required), Field("note", SString(0), Optional)]
    case TopupGiftCard => [GiftCardId, Amount]
    case VoidGiftCard => [GiftCardId]
  }

  lemma ParamsWellFormed(t: Tool)
    ensures WellFormed(SObject(Params(t)))
    ensures UniqueNames(Params(t))
    ensures forall k :: 0 <= k < |Params(t)| ==> Flat(Params(t)[k].schema)
  {
  }

  // ---------------------------------------------------------------------------
  // Handlers.

  function CardNumber(args: map<string, Json>, t: Tool): int
    requires t.GetGiftCard? || t.TopupGiftCard? || t.VoidGiftCard?
    requires Normal(SObject(Params(t)), JObj(args))
  {
    FieldOf(Params(t), JObj(args), 0);
    args["gift_card_id"].n.Floor
  }

  /** The client call a handler makes with its validated arguments. */
  function Request(t: Tool, args: map<string, Json>): C.Endpoint
    requires Normal(SObject(Params(t)), JObj(args))
  {
    match t
    case ListGiftCards => C.ListGiftCards
    case GetGiftCard => C.GetGiftCard(CardNumber(args, t))
    case CreateGiftCard => C.CreateGiftCard(args)
    case TopupGiftCard =>
      FieldOf(Params(t), JObj(args), 1);
      C.TopupGiftCard(CardNumber(args, t), args["amount"].n)
    case VoidGiftCard => C.VoidGiftCard(CardNumber(args, t))
  }

  /** The confirmation void-gift-card renders when the client returns nothing. */
  function Voided(id: int): Json {
    JObj(map["success" := JBool(true), "message" := JStr("Gift card " + IntToDecimal(id) + " voided")])
  }

  function Reply(t: Tool, args: map<string, Json>, result: C.Payload): Envelope
    requires Normal(SObject(Params(t)), JObj(args))
  {
    match t
    case VoidGiftCard => Render.Reply(result, Some(Voided(CardNumber(args, t))))
    case _ => Render.Reply(result, None)
  }

  // ---------------------------------------------------------------------------
  // Properties.

  /** A card id alone is accepted exactly when it is an integer. */
  lemma GiftCardIdBounds(t: Tool, raw: map<string, Json>)
    requires t.GetGiftCard? || t.VoidGiftCard?
    ensures Validate(Params(t), raw).Success? <==>
      "gift_card_id" in raw && raw["gift_card_id"].JNum? && IsInt(raw["gift_card_id"].n)
  {
    ValidateAccepts(Params(t), raw);
    assert Validate(Params(t), raw).Success? <==> FieldConforms(GiftCardId, raw);
    if "gift_card_id" in raw && raw["gift_card_id"].JNum? {
      assert Passes(GiftCardId.schema.checks[0], raw["gift_card_id"].n) <==> IsInt(raw["gift_card_id"].n);
    }
  }

  lemma AmountField(raw: map<string, Json>)
    ensures FieldConforms(Amount, raw) <==> "amount" in raw && raw["amount"].JNum? && raw["amount"].n >= MinimumAmount
  {
    if "amount" in raw && raw["amount"].JNum? {
      assert Passes(Amount.schema.checks[0], raw["amount"].n) <==> raw["amount"].n >= MinimumAmount;
    }
  }

  /** A new card is accepted exactly when its amount is at least 0.01 and its expiry a string. */
  lemma NewGiftCardBounds(raw: map<string, Json>)
    ensures Validate(Params(CreateGiftCard), raw).Success? <==>
      && "amount" in raw && raw["amount"].JNum? && raw["amount"].n >= MinimumAmount
      && "expires_at" in raw && raw["expires_at"].JStr?
      && ("note" in raw ==> raw["note"].JStr?)
  {
    ValidateAccepts(Params(CreateGiftCard), raw);
    AmountField(raw);
  }

  /** A top-up is accepted exactly when the card id is an integer and the amount at least 0.01. */
  lemma TopupBounds(raw: map<string, Json>)
    ensures Validate(Params(TopupGiftCard), raw).Success? <==>
      && "gift_card_id" in raw && raw["gift_card_id"].JNum? && IsInt(raw["gift_card_id"].n)
      && "amount" in raw && raw["amount"].JNum? && raw["amount"].n >= MinimumAmount
  {
    ValidateAccepts(Params(TopupGiftCard), raw);
    AmountField(raw);
    if "gift_card_id" in raw && raw["gift_card_id"].JNum? {
      assert Passes(GiftCardId.schema.checks[0], raw["gift_card_id"].n) <==> IsInt(raw["gift_card_id"].n);
    }
  }

  /** Unlike a manual payment's price, a gift-card amount of 0 is rejected. */
  lemma ZeroTopupRejected()
    ensures Validate(Params(TopupGiftCard), map["gift_card_id" := JNum(7.0), "amount" := JNum(0.0)]).Failure?
  {
    TopupBounds(map["gift_card_id" := JNum(7.0), "amount" := JNum(0.0)]);
  }

  /** The create-gift-card body is the accepted parameters as supplied, undeclared keys dropped. */
  lemma NewGiftCardForwarded(raw: map<string, Json>, args: map<string, Json>)
    requires Validate(Params(CreateGiftCard), raw) == Success(args)
    ensures "amount" in args && "expires_at" in args
    ensures forall key :: && (key in args <==> key in raw && key in {"amount", "expires_at", "note"})
                          && (key in args ==> args[key] == raw[key])
  {
    var c := Params(CreateGiftCard);
    ParamsWellFormed(CreateGiftCard);
    ForwardsSupplied(c, raw);
    assert c[0].name == "amount" && c[1].name == "expires_at";
    assert NamesFrom(c, 0) == {"amount", "expires_at", "note"};
  }

  /** A top-up sends the supplied amount, and nothing else, to the supplied card. */
  lemma TopupSent(raw: map<string, Json>, args: map<string, Json>)
    requires Validate(Params(TopupGiftCard), raw) == Success(args)
    ensures Normal(SObject(Params(TopupGiftCard)), JObj(args))
    ensures "gift_card_id" in raw && raw["gift_card_id"].JNum? && "amount" in raw && raw["amount"].JNum?
    ensures Request(TopupGiftCard, args) == C.TopupGiftCard(raw["gift_card_id"].n.Floor, raw["amount"].n)
    ensures C.Route(Request(TopupGiftCard, args)) ==
      C.Call(C.PUT, "/gift-cards/" + IntToDecimal(raw["gift_card_id"].n.Floor),
             Some(JObj(map["amount" := raw["amount"]])))
  {
    var c := Params(TopupGiftCard);
    ParamsWellFormed(TopupGiftCard);
    ValidateNormal(c, raw);
    ValidateForwards(c, raw);
    assert Forwarded(c[0], raw, args) && Forwarded(c[1], raw, args);
    TopupBounds(raw);
  }

  /** Void renders `{success: true, message: "Gift card N voided"}` for a nullish result only. */
  lemma VoidConfirmed(raw: map<string, Json>, args: map<string, Json>, result: C.Payload)
    requires Validate(Params(VoidGiftCard), raw) == Success(args)
    ensures Normal(SObject(Params(VoidGiftCard)), JObj(args))
    ensures "gift_card_id" in raw && raw["gift_card_id"].JNum? && IsInt(raw["gift_card_id"].n)
    ensures var text := Reply(VoidGiftCard, args, result).content[0].text;
      && ((result.NoData? || result.json == JNull) ==>
            text == Serialized(JObj(map["success" := JBool(true),
                                        "message" := JStr("Gift card " + IntToDecimal(raw["gift_card_id"].n.Floor) + " voided")])))
      && (result.Data? && result.json != JNull ==> text == Serialized(result.json))
  {
    var c := Params(VoidGiftCard);
    ParamsWellFormed(VoidGiftCard);
    ValidateNormal(c, raw);
    GiftCardIdBounds(VoidGiftCard, raw);
    ValidateForwards(c, raw);
    assert Forwarded(c[0], raw, args);
  }

  /** The remote side reads every gift-card request back as the client call the handler made. */
  lemma RequestReadBack(t: Tool, raw: map<string, Json>, args: map<string, Json>)
    requires Validate(Params(t), raw) == Success(args)
    ensures Normal(SObject(Params(t)), JObj(args))
    ensures R.ParseRoute(C.Route(Request(t, args))) == Some(Request(t, args))
  {
    ParamsWellFormed(t);
    ValidateNormal(Params(t), raw);
    R.RouteRoundTrip(Request(t, args));
  }
}
