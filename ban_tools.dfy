/**
 * The ban operations: list the bans, and ban a user, optionally by IP address,
 * with the validated parameters forwarded as the request body.
 */
module BanTools {
  import opened Wrappers
  import opened JsonValue
  import opened Schema
  import opened Render
  import C = TebexClient
  import R = Routing

  datatype Tool = ListBans | CreateBan

  function Name(t: Tool): string {
    match t
    case ListBans => "list-bans"
    case CreateBan => "create-ban"
  }

  const NewBan: Contract := [
    Field("user", SString(1), Required),
    Field("ip", SString(0), Optional),
    Field("reason", SString(0), Optional)]

  function Params(t: Tool): Contract {
    match t
    case ListBans => []
    case CreateBan => NewBan
  }

  lemma ParamsWellFormed(t: Tool)
    ensures WellFormed(SObject(Params(t)))
    ensures UniqueNames(Params(t))
    ensures forall k :: 0 <= k < |Params(t)| ==> Flat(Params(t)[k].schema)
  {
  }

  /** The client call a handler makes with its validated arguments. */
  function Request(t: Tool, args: map<string, Json>): C.Endpoint {
    match t
    case ListBans => C.ListBans
    case CreateBan => C.CreateBan(args)
  }

  function Reply(t: Tool, result: C.Payload): Envelope {
    Render.Reply(result, None)
  }

  /** A ban is accepted exactly when the user is a non-empty string and the ip and reason, if given, strings. */
  lemma NewBanBounds(raw: map<string, Json>)
    ensures Validate(NewBan, raw).Success? <==>
      && "user" in raw && raw["user"].JStr? && raw["user"].s != ""
      && ("ip" in raw ==> raw["ip"].JStr?)
      && ("reason" in raw ==> raw["reason"].JStr?)
  {
    ValidateAccepts(NewBan, raw);
    if "user" in raw && raw["user"].JStr? {
      assert |raw["user"].s| >= 1 <==> raw["user"].s != "";
    }
  }

  /** The ban body is the accepted parameters as supplied, undeclared keys dropped. */
  lemma NewBanForwarded(raw: map<string, Json>, args: map<string, Json>)
    requires Validate(NewBan, raw) == Success(args)
    ensures Request(CreateBan, args) == C.CreateBan(args)
    ensures args.Keys <= {"user", "ip", "reason"}
    ensures args["user"] == raw["user"]
    ensures forall key :: key in {"ip", "reason"} ==> (key in args <==> key in raw)
    ensures forall key :: key in args ==> key in raw && args[key] == raw[key]
  {
    ParamsWellFormed(CreateBan);
    ForwardsSupplied(NewBan, raw);
    assert NamesFrom(NewBan, 0) == {"user", "ip", "reason"};
  }

  /** The remote side reads every ban request back as the client call the handler made. */
  lemma RequestReadBack(t: Tool, raw: map<string, Json>, args: map<string, Json>)
    requires Validate(Params(t), raw) == Success(args)
    ensures R.ParseRoute(C.Route(Request(t, args))) == Some(Request(t, args))
  {
    R.RouteRoundTrip(Request(t, args));
  }
}
