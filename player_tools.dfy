/**
 * The player operation: the active packages of a player, looked up by a
 * username or UUID that travels percent-encoded as one path segment.
 */
module PlayerTools {
  import opened Wrappers
  import opened JsonValue
  import opened Encoding
  import opened Schema
  import opened Render
  import C = TebexClient
  import R = Routing

  datatype Tool = GetPlayerPackages

  function Name(t: Tool): string {
    "get-player-packages"
  }

  const PlayerIdentifier: Field := Field("player_identifier", SString(1), Required)

  function Params(t: Tool): Contract {
    [PlayerIdentifier]
  }

  lemma ParamsWellFormed(t: Tool)
    ensures WellFormed(SObject(Params(t)))
  {
  }

  /** The client call the handler makes with its validated arguments. */
  function Request(t: Tool, args: map<string, Json>): C.Endpoint
    requires Normal(SObject(Params(t)), JObj(args))
  {
    FieldOf(Params(t), JObj(args), 0);
    C.GetPlayerPackages(args["player_identifier"].s)
  }

  function Reply(t: Tool, result: C.Payload): Envelope {
    Render.Reply(result, None)
  }

  /** An identifier is accepted exactly when it is a non-empty string. */
  lemma PlayerIdentifierBounds(t: Tool, raw: map<string, Json>)
    ensures Validate(Params(t), raw).Success? <==>
      "player_identifier" in raw && raw["player_identifier"].JStr? && raw["player_identifier"].s != ""
  {
    ValidateAccepts(Params(t), raw);
    if "player_identifier" in raw && raw["player_identifier"].JStr? {
      assert |raw["player_identifier"].s| >= 1 <==> raw["player_identifier"].s != "";
    }
  }

  /**
   * The identifier is sent verbatim, percent-encoded into a single path
   * segment, and the remote side decodes it back to what was supplied.
   */
  lemma PlayerSent(t: Tool, raw: map<string, Json>, args: map<string, Json>)
    requires Validate(Params(t), raw) == Success(args)
    ensures Normal(SObject(Params(t)), JObj(args))
    ensures "player_identifier" in raw && raw["player_identifier"].JStr?
    ensures var id := raw["player_identifier"].s;
      && Request(t, args) == C.GetPlayerPackages(id)
      && C.Route(Request(t, args)) == C.Call(C.GET, "/player/" + EncodeURIComponent(id) + "/packages", None)
      && '/' !in EncodeURIComponent(id) && '?' !in EncodeURIComponent(id)
      && R.ParseRoute(C.Route(Request(t, args))) == Some(C.GetPlayerPackages(id))
  {
    var c := Params(t);
    ParamsWellFormed(t);
    ValidateNormal(c, raw);
    ValidatedField(c, raw, 0);
    PlayerIdentifierBounds(t, raw);
    ParseFlat(PlayerIdentifier.schema, raw["player_identifier"], [Key("player_identifier")]);
    var id := raw["player_identifier"].s;
    var e := EncodeURIComponent(id);
    assert !UriSafe('/') && !UriSafe('?');
    assert '/' !in e && '?' !in e by {
      assert AllSafe(e);
    }
    R.RouteRoundTrip(Request(t, args));
  }
}
