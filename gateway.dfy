/**
 * One tool invocation end to end: the arguments are validated against the
 * tool's contract, the handler picks its client call, the client
 * authenticates and sends it, the response is classified, and a successful
 * result is rendered into the envelope the tool returns.
 *
 * The HTTP exchange is not performed: the response the platform would give is
 * an input, and the request that would go out is an output.
 */
module Gateway {
  import opened Wrappers
  import opened JsonValue
  import opened Schema
  import opened Render
  import C = TebexClient
  import R = Routing
  import PaymentTools
  import CouponTools
  import GiftCardTools
  import BanTools
  import PlayerTools

  datatype Tool =
    | Payment(payment: PaymentTools.Tool)
    | Coupon(coupon: CouponTools.Tool)
    | GiftCard(giftCard: GiftCardTools.Tool)
    | Ban(ban: BanTools.Tool)
    | Player(player: PlayerTools.Tool)

  function Name(t: Tool): string {
    match t
    case Payment(p) => PaymentTools.Name(p)
    case Coupon(c) => CouponTools.Name(c)
    case GiftCard(g) => GiftCardTools.Name(g)
    case Ban(b) => BanTools.Name(b)
    case Player(p) => PlayerTools.Name(p)
  }

  function Params(t: Tool): Contract {
    match t
    case Payment(p) => PaymentTools.Params(p)
    case Coupon(c) => CouponTools.Params(c)
    case GiftCard(g) => GiftCardTools.Params(g)
    case Ban(b) => BanTools.Params(b)
    case Player(p) => PlayerTools.Params(p)
  }

  /**
   * The client call the tool's handler makes with the arguments validation
   * produced; the remote side reads the call's route back as that same call.
   */
  function Target(t: Tool, raw: map<string, Json>): (e: C.Endpoint)
    requires Validate(Params(t), raw).Success?
    ensures R.ParseRoute(C.Route(e)) == Some(e)
  {
    var args := Validate(Params(t), raw).value;
    match t
    case Payment(p) =>
      PaymentTools.RequestReadBack(p, raw, args);
      PaymentTools.Request(p, args)
    case Coupon(c) =>
      CouponTools.RequestReadBack(c, raw, args);
      CouponTools.Request(c, args)
    case GiftCard(g) =>
      GiftCardTools.RequestReadBack(g, raw, args);
      GiftCardTools.Request(g, args)
    case Ban(b) =>
      BanTools.RequestReadBack(b, raw, args);
      BanTools.Request(b, args)
    case Player(p) =>
      PlayerTools.PlayerSent(p, raw, args);
      PlayerTools.Request(p, args)
  }

  /** The envelope the tool's handler returns for a successful call. */
  function Respond(t: Tool, raw: map<string, Json>, result: C.Payload): Envelope
    requires Validate(Params(t), raw).Success?
  {
    var args := Validate(Params(t), raw).value;
    match t
    case Payment(p) => PaymentTools.Reply(p, result)
    case Coupon(c) =>
      CouponTools.ParamsWellFormed(c);
      ValidateNormal(Params(t), raw);
      CouponTools.Reply(c, args, result)
    case GiftCard(g) =>
      GiftCardTools.ParamsWellFormed(g);
      ValidateNormal(Params(t), raw);
      GiftCardTools.Reply(g, args, result)
    case Ban(b) => BanTools.Reply(b, result)
    case Player(p) => PlayerTools.Reply(p, result)
  }

  /**
   * Every envelope holds one block, which shows the result itself whenever
   * the result is neither missing nor null; a missing result is shown as a
   * confirmation exactly by the tools that have one.
   */
  lemma RespondShape(t: Tool, raw: map<string, Json>, result: C.Payload)
    requires Validate(Params(t), raw).Success?
    ensures var r := Respond(t, raw, result);
      && |r.content| == 1
      && (result.Data? && result.json != JNull ==> r.content[0].text == Serialized(result.json))
      && (result.NoData? ==> (r.content[0].text.Serialized? <==> HasFallback(t)))
  {
    var args := Validate(Params(t), raw).value;
    match t
    case Payment(p) => PaymentShape(p, result);
    case Coupon(c) =>
      CouponTools.ParamsWellFormed(c);
      ValidateNormal(Params(t), raw);
      CouponShape(c, args, result);
    case GiftCard(g) =>
      GiftCardTools.ParamsWellFormed(g);
      ValidateNormal(Params(t), raw);
      GiftCardShape(g, args, result);
    case Ban(b) =>
    case Player(p) =>
  }

  lemma PaymentShape(p: PaymentTools.Tool, result: C.Payload)
    ensures var r := PaymentTools.Reply(p, result);
      && |r.content| == 1
      && (result.Data? && result.json != JNull ==> r.content[0].text == Serialized(result.json))
      && (result.NoData? ==> (r.content[0].text.Serialized? <==> p.UpdatePayment? || p.AddPaymentNote?))
  {
  }

  lemma CouponShape(c: CouponTools.Tool, args: map<string, Json>, result: C.Payload)
    requires Normal(SObject(CouponTools.Params(c)), JObj(args))
    ensures var r := CouponTools.Reply(c, args, result);
      && |r.content| == 1
      && (result.Data? && result.json != JNull ==> r.content[0].text == Serialized(result.json))
      && (result.NoData? ==> (r.content[0].text.Serialized? <==> c.DeleteCoupon?))
  {
  }

  lemma GiftCardShape(g: GiftCardTools.Tool, args: map<string, Json>, result: C.Payload)
    requires Normal(SObject(GiftCardTools.Params(g)), JObj(args))
    ensures var r := GiftCardTools.Reply(g, args, result);
      && |r.content| == 1
      && (result.Data? && result.json != JNull ==> r.content[0].text == Serialized(result.json))
      && (result.NoData? ==> (r.content[0].text.Serialized? <==> g.VoidGiftCard?))
  {
  }

  /** The tools that render a confirmation in place of a missing or null result. */
  predicate HasFallback(t: Tool) {
    || t == Payment(PaymentTools.UpdatePayment) || t == Payment(PaymentTools.AddPaymentNote)
    || t == Coupon(CouponTools.DeleteCoupon) || t == GiftCard(GiftCardTools.VoidGiftCard)
  }

  /** How an invocation ends. */
  datatype Outcome =
    | Rejected(issues: seq<Issue>)
    | ConfigFailure(configError: C.ConfigurationError)
    | ApiFailure(apiError: C.TebexApiError)
    | Rendered(envelope: Envelope)

  /**
   * Validates, builds and sends the handler's call, then classifies the
   * platform's `response` and renders the result. `sent` is the request that
   * would go out, if any.
   */
  method Invoke(t: Tool, env: Option<string>, raw: map<string, Json>, response: C.HttpResponse)
    returns (sent: Option<C.HttpRequest>, outcome: Outcome)
    ensures Validate(Params(t), raw).Failure? ==>
      sent.None? && outcome == Rejected(Validate(Params(t), raw).error)
    ensures Validate(Params(t), raw).Success? && !C.SecretSet(env) ==>
      sent.None? && outcome == ConfigFailure(C.ConfigurationError(C.MissingSecretMessage))
    ensures sent.Some? <==> Validate(Params(t), raw).Success? && C.SecretSet(env)
    ensures sent.Some? ==>
      && C.BaseUrl <= sent.value.url
      && C.SecretHeader in sent.value.headers && sent.value.headers[C.SecretHeader] == env.value
      && C.Call(sent.value.verb, sent.value.url[|C.BaseUrl|..], sent.value.body) == C.Route(Target(t, raw))
      && R.ParseRoute(C.Call(sent.value.verb, sent.value.url[|C.BaseUrl|..], sent.value.body)) == Some(Target(t, raw))
    ensures sent.Some? && !response.Ok() ==>
      outcome == ApiFailure(C.TebexApiError(response.status, response.statusText, response.text))
    ensures sent.Some? && response.Ok() ==>
      outcome == Rendered(Respond(t, raw, if response.status == 204 then C.NoData else C.Data(response.parsed)))
  {
    var validated := Validate(Params(t), raw);
    if validated.Failure? {
      return None, Rejected(validated.error);
    }
    var endpoint := Target(t, raw);
    var call := C.Route(endpoint);
    var request := C.BuildRequest(env, call.verb, call.path, call.body);
    if request.Failure? {
      return None, ConfigFailure(request.error);
    }
    sent := Some(request.value);
    assert sent.value.url[|C.BaseUrl|..] == call.path;
    var classified := C.Classify(response);
    if classified.Failure? {
      outcome := ApiFailure(classified.error);
    } else {
      outcome := Rendered(Respond(t, raw, classified.value));
    }
  }

  /** Every tool has its own name. */
  lemma NamesDistinct(t1: Tool, t2: Tool)
    ensures Name(t1) == Name(t2) <==> t1 == t2
  {
  }
}
