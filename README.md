# Tebex plugin-API gateway, modelled in Dafny

This project models the core of an MCP server that exposes store-management
operations of the Tebex commerce platform as named tools. The modelled parts
are the payments, coupons, gift cards, bans and player-package tools. Each
tool:

1. validates its JSON arguments against a declared parameter contract (a zod
   shape);
2. calls one function of the plugin-API client with the validated values;
3. the client authenticates the call with the store secret and sends
   `METHOD https://plugin.tebex.io<path>` with an optional JSON body;
4. the HTTP response is turned into a result or a `TebexApiError`;
5. the result is rendered as one text block, with a confirmation object in
   place of a missing result for the operations that have one.

Modules, one file each:

- `Wrappers`, `JsonValue`: `Option`/`Result`, and JSON values. Numbers are
  `real`.
- `Schema`: the parameter contracts and the one generic validator. Bounds are
  inclusive, unknown keys are stripped, defaults are filled in, and issues
  carry the path of the offending field. The lemmas state what validation
  accepts, what it returns, and that it is idempotent.
- `Encoding`: decimal rendering of integers (as a template literal renders
  them) and `encodeURIComponent` (UTF-8, percent-escaped). Each is given an
  inverse and proved injective.
- `TebexClient` (`src/tebex-client.ts`): the secret lookup, request building
  (`BuildRequest`, an imperative method that fills the header map), response
  classification, `TebexApiError` and its message, and the endpoint table
  `Route` (verb, path and body of every client function).
- `Routing`: the API side's reading of a request. It is the partner of
  `Route`: every call the client builds reads back as the endpoint it came
  from, so two client calls produce the same request exactly when they have
  the same canonical form (a falsy limit and absent package options are
  canonicalised).
- `Render`: the envelope and the `result ?? fallback` substitution.
- `PaymentTools`, `CouponTools`, `GiftCardTools`, `BanTools`, `PlayerTools`
  (`src/tools/*.ts`): each tool's name, parameter contract, handler and
  rendering, plus the acceptance bounds and forwarding properties of each
  contract.
- `Gateway`: one invocation end to end. The `Invoke` method validates, builds
  the request, classifies a given HTTP response and renders the outcome.

Three behaviours of the code are worth stating outright, because a reader
might expect otherwise:

- Errors are not turned into text envelopes. The handlers have no error
  handling, so a missing secret and a non-ok response propagate to the
  caller. `Gateway.Invoke` reports them as `ConfigFailure` and `ApiFailure`
  outcomes.
- A confirmation object replaces a missing result in four operations:
  `delete-coupon` and `void-gift-card` (with a message naming the id), and
  `update-payment` and `add-payment-note` (`{success: true}`).
- `??` substitutes the fallback for a JSON `null` result as well as for a
  204 response with no content.

## Model

| member | source | states |
|---|---|---|
| TebexClient.GetSecret | src/tebex-client.ts:14-22 | succeeds exactly when the variable is set and non-empty (JavaScript truthiness), returning it unchanged; otherwise fails with the fixed configuration message |
| TebexClient.BuildRequest | src/tebex-client.ts:24-43 | fails exactly when the secret is missing; otherwise the URL is the base URL followed by the path, the verb and body are kept, the secret and `Accept: application/json` headers are always present, and `Content-Type: application/json` is present exactly when there is a body |
| TebexClient.Classify | src/tebex-client.ts:45-55 | a status outside 200-299 fails with an error carrying status, status text and body text verbatim; 204 is the no-data result; any other ok status yields the parsed body |
| TebexClient.MessageCarriesError | src/tebex-client.ts:3-11 | an error's message reads back the status it was built from and ends with the response body verbatim |
| TebexClient.BeforeSeparator | src/tebex-client.ts:9 | reading a message up to the first space after the prefix recovers exactly the status digits |
| TebexClient.PackageLines | src/tebex-client.ts:93-96 | the manual-payment body has one package line per order, in order, each renaming `package_id` to `id` with options defaulting to `{}` |
| Routing.RouteRoundTrip | src/tebex-client.ts:58-217 | every client call reads back, from its verb, path and body alone, as the endpoint that produced it (up to the canonical form of a falsy limit and of absent package options) |
| Routing.RouteOfCanonical | src/tebex-client.ts:76-99 | the canonical form of an endpoint sends the same request as the endpoint itself |
| Routing.RouteInjective | src/tebex-client.ts:58-217 | two client calls send the same request exactly when they have the same canonical form |
| Routing.ListPaymentsRoundTrip | src/tebex-client.ts:76-79 | `/payments` with `?pager.limit=N` for a truthy limit, and no query otherwise, reads back as that listing |
| Routing.PaymentRoundTrip | src/tebex-client.ts:81-83 | `GET /payments/<encoded id>` reads back as a request for that transaction id |
| Routing.ManualPaymentRoundTrip | src/tebex-client.ts:85-99 | the manual-payment body reads back as the buyer, price and package orders it was built from |
| Routing.ReadOrdersRoundTrip | src/tebex-client.ts:93-96 | the package lines read back as the orders, with absent options as `{}` |
| Routing.UpdatePaymentRoundTrip | src/tebex-client.ts:101-110 | `PUT /payments/<encoded id>` with the update body reads back as that update |
| Routing.PaymentNoteRoundTrip | src/tebex-client.ts:112-121 | `POST /payments/<encoded id>/note` with `{note}` reads back as that note |
| Routing.CouponRoundTrip | src/tebex-client.ts:129-131 | `GET /coupons/<decimal id>` reads back as that coupon id |
| Routing.DeleteCouponRoundTrip | src/tebex-client.ts:154-156 | `DELETE /coupons/<decimal id>` reads back as that deletion |
| Routing.GiftCardRoundTrip | src/tebex-client.ts:184-186 | `GET /gift-cards/<decimal id>` reads back as that card |
| Routing.TopupRoundTrip | src/tebex-client.ts:196-198 | `PUT /gift-cards/<id>` with `{amount}` reads back as that card and amount |
| Routing.VoidRoundTrip | src/tebex-client.ts:200-202 | `DELETE /gift-cards/<id>` reads back as voiding that card |
| Routing.PlayerRoundTrip | src/tebex-client.ts:206-211 | `GET /player/<encoded id>/packages` reads back as that player's packages |
| Routing.ListingRoundTrip | src/tebex-client.ts:60-217 | each of the six fixed listings (information, coupons, sales, bans, gift cards, packages) reads back as itself |
| Routing.CreationRoundTrip | src/tebex-client.ts:133-194 | a coupon, ban or gift-card creation posts its argument object as the body and reads back as that creation |
| Encoding.IntDecimalRoundTrip | src/tebex-client.ts:129-131 | the decimal text of an id in a path parses back to the id |
| Encoding.IntToDecimalInjective | src/tebex-client.ts:184-202 | distinct ids give distinct path segments |
| Encoding.UriComponentRoundTrip | src/tebex-client.ts:81-83 | percent-decoding the encoding of any string gives the string back |
| Encoding.EncodeURIComponentInjective | src/tebex-client.ts:206-211 | distinct identifiers give distinct encoded path segments |
| Encoding.EncodeURIComponent | src/tebex-client.ts:107 | the encoding contains only unreserved characters and escapes, so never `/` or `?`, and is at least as long as the input |
| Encoding.EncodeUnreserved | src/tebex-client.ts:118 | an identifier made only of unreserved characters is sent unchanged |
| Encoding.CharRoundTrip | src/tebex-client.ts:82 | the escapes of one character decode to that character, whatever follows |
| Schema.ValidateAccepts | src/tools/coupons.ts:35-97 | a contract accepts the arguments exactly when every declared field conforms: required fields present, optional ones absent or well typed, every bound met |
| Schema.ParseAccepts | src/tools/payments.ts:46-62 | parsing a value succeeds exactly when it conforms to the schema, at any nesting depth |
| Schema.ParseNormal | src/tools/payments.ts:49-61 | a parsed value has defaults filled in and no undeclared keys |
| Schema.NormalFixed | src/tools/payments.ts:46-62 | a value already in normal form parses to itself |
| Schema.ValidateNormal | src/tools/coupons.ts:35-97 | validated arguments are in normal form, and validating them again returns them unchanged |
| Schema.ValidatedField | src/tools/coupons.ts:51-86 | a supplied field holds its parsed value; an absent defaulted field holds its parsed default; an absent optional field is missing |
| Schema.ParseFlat | src/tools/gift-cards.ts:36-40 | a value of a flat schema (no nested object) is returned as given |
| Schema.ValidateForwards | src/tools/coupons.ts:98-99 | a contract of flat fields drops only undeclared keys and adds only defaults |
| Schema.ForwardsSupplied | src/tools/bans.ts:22-27 | without defaults, the arguments are exactly the supplied declared fields, unchanged, and include every required field |
| Schema.NumberIssues | src/tools/payments.ts:10-15 | a number draws no issue exactly when it passes every chained check, and each issue names the field's path |
| Render.Coalesce | src/tools/payments.ts:95 | the fallback replaces a missing or null result, and any other result is kept |
| Render.Reply | src/tools/payments.ts:20-22 | the envelope holds one block, which is the serialised result (undefined only for a missing result with no fallback) |
| Render.FallbackOnlyForNullish | src/tools/coupons.ts:112-118 | a fallback changes the reply only for a missing or null result, and a missing result shows the fallback |
| PaymentTools.LimitBounds | src/tools/payments.ts:10-16 | `list-payments` accepts exactly when the limit is absent or an integer from 1 to 100 |
| PaymentTools.NumberBounds | src/tools/payments.ts:11-14 | the chained int, min(1) and max(100) checks hold together exactly when the value is an integer in [1, 100] |
| PaymentTools.ListPaymentsArgs | src/tools/payments.ts:18-19 | the limit reaches the client exactly when supplied, unchanged |
| PaymentTools.LimitSent | src/tools/payments.ts:18-19 | the path carries `?pager.limit=N` exactly when a limit was supplied |
| PaymentTools.TransactionIdRequired | src/tools/payments.ts:30-33 | get, update and note are accepted only with a non-empty transaction id |
| PaymentTools.ManualPaymentBounds | src/tools/payments.ts:47-61 | `create-manual-payment` accepts exactly when the name is non-empty, the price is at least 0, and there is at least one package with an integer id and string options |
| PaymentTools.PackageBounds | src/tools/payments.ts:51-58 | a package item is accepted exactly when its id is an integer and its options, if given, are a string record |
| PaymentTools.FreePaymentAccepted | src/tools/payments.ts:48 | a price of 0 is accepted |
| PaymentTools.PackageParsed | src/tools/payments.ts:53-57 | a parsed package keeps its id and gets `{}` as options when none were given |
| PaymentTools.ManualPaymentArgs | src/tools/payments.ts:63-64 | name and price are forwarded unchanged, and the packages as parsed |
| PaymentTools.PackageForwarded | src/tools/payments.ts:63-64 | each order carries its item's package id and its options, or `{}` |
| PaymentTools.PackagesForwarded | src/tools/payments.ts:63-64 | the client receives the buyer, the price and one order per supplied package, in order |
| PaymentTools.ListPaymentsCanonical | src/tools/payments.ts:18-19 | a validated listing request is already canonical |
| PaymentTools.ManualPaymentCanonical | src/tools/payments.ts:63-64 | a validated manual payment is already canonical, since options are always present |
| PaymentTools.UpdateData | src/tools/payments.ts:89-91 | the update body holds `username`/`status` exactly when the supplied value is truthy (present and non-empty), and then that value; it never holds an empty string |
| PaymentTools.BuildUpdateData | src/tools/payments.ts:89-91 | the handler's step-by-step body equals that specification |
| PaymentTools.UpdateSent | src/tools/payments.ts:88-93 | the update goes to the supplied transaction id with the truthy fields only |
| PaymentTools.StatusOnlyUpdate | src/tools/payments.ts:88-93 | a status of `complete` with the username omitted or empty sends the body `{status: "complete"}` only |
| PaymentTools.ConfirmationFallback | src/tools/payments.ts:95 | update and note render `{success: true}` for a missing or null result, and the result otherwise |
| PaymentTools.RequestReadBack | src/tools/payments.ts:18-113 | every payment request reads back as the client call the handler made |
| CouponTools.CouponIdBounds | src/tools/coupons.ts:22 | get and delete accept exactly when `coupon_id` is an integer |
| CouponTools.IntArrayBounds | src/tools/coupons.ts:40-47 | a package or category list is accepted exactly when it is an array of integers |
| CouponTools.LeadingFields | src/tools/coupons.ts:36-47 | the code is non-empty, `effective_on` is cart, package or category, and the id lists hold integers |
| CouponTools.DiscountFields | src/tools/coupons.ts:48-65 | the discount type is value or percentage, the amount is at least 0, the percentage is in [0, 100], and the redemption flag is a boolean |
| CouponTools.TrailingFields | src/tools/coupons.ts:66-96 | expiry flag, integer limit, date strings, basket type in single/subscription/both, a minimum of at least 0, and string username and note |
| CouponTools.NewCouponAccepted | src/tools/coupons.ts:36-96 | `create-coupon` accepts exactly when all sixteen field conditions hold |
| CouponTools.NewCouponForwarded | src/tools/coupons.ts:98-99 | the client receives the supplied fields unchanged, with undeclared keys dropped and defaults added |
| CouponTools.NewCouponDefaults | src/tools/coupons.ts:51-86 | omitted fields get discount amount 0, percentage 0, unlimited redemption, never-expire, and basket type `both` |
| CouponTools.CartCouponAccepted | src/tools/coupons.ts:36-96 | a code, `cart` and `percentage` alone make a valid coupon |
| CouponTools.DeletionConfirmed | src/tools/coupons.ts:112-118 | delete renders `{success: true, message: "Coupon N deleted"}` for a missing or null result, and the result otherwise |
| CouponTools.RequestReadBack | src/tools/coupons.ts:10-113 | every coupon request reads back as the client call the handler made |
| GiftCardTools.GiftCardIdBounds | src/tools/gift-cards.ts:22 | get and void accept exactly when `gift_card_id` is an integer |
| GiftCardTools.AmountField | src/tools/gift-cards.ts:36 | the amount conforms exactly when it is a number of at least 0.01 |
| GiftCardTools.NewGiftCardBounds | src/tools/gift-cards.ts:36-40 | `create-gift-card` accepts exactly when the amount is at least 0.01, the expiry is a string, and the note is absent or a string |
| GiftCardTools.TopupBounds | src/tools/gift-cards.ts:54-55 | `topup-gift-card` accepts exactly when the id is an integer and the amount is at least 0.01 |
| GiftCardTools.ZeroTopupRejected | src/tools/gift-cards.ts:55 | a top-up of 0 is rejected |
| GiftCardTools.NewGiftCardForwarded | src/tools/gift-cards.ts:42-43 | the client receives exactly the supplied amount, expiry and note, unchanged |
| GiftCardTools.TopupSent | src/tools/gift-cards.ts:57-58 | the top-up is `PUT /gift-cards/<id>` with the body `{amount}` |
| GiftCardTools.VoidConfirmed | src/tools/gift-cards.ts:71-77 | void renders `{success: true, message: "Gift card N voided"}` for a missing or null result, and the result otherwise |
| GiftCardTools.RequestReadBack | src/tools/gift-cards.ts:10-72 | every gift-card request reads back as the client call the handler made |
| BanTools.NewBanBounds | src/tools/bans.ts:22-24 | `create-ban` accepts exactly when the user is a non-empty string and ip and reason are absent or strings |
| BanTools.NewBanForwarded | src/tools/bans.ts:26-27 | the client receives exactly the supplied user, ip and reason, unchanged |
| BanTools.RequestReadBack | src/tools/bans.ts:9-27 | every ban request reads back as the client call the handler made |
| PlayerTools.PlayerIdentifierBounds | src/tools/players.ts:10-13 | accepted exactly when the identifier is a non-empty string |
| PlayerTools.PlayerSent | src/tools/players.ts:15-16 | the raw identifier is encoded into `/player/<id>/packages` without `/` or `?`, and reads back as itself |
| Gateway.Target | src/tools/payments.ts:18-111 | the client call a handler makes with validated arguments reads back as itself |
| Gateway.RespondShape | src/tools/coupons.ts:100-118 | every reply is one block showing a non-null result; a missing result is replaced by a confirmation exactly for update, note, delete-coupon and void |
| Gateway.Invoke | src/tebex-client.ts:24-56 | a rejection sends nothing; a missing secret sends nothing and fails with the configuration message; otherwise it sends the authenticated request that reads back as the handler's call, fails with the status, status text and body of a non-ok response, and renders 204 as no data and other successes as the parsed body |
| Gateway.NamesDistinct | src/tools/coupons.ts:7-107 | no two modelled tools share a name |

## Left out

- Network I/O, `fetch`, `res.text()`, `res.json()`: the HTTP response is an input record holding the status, the status text, the body text and the parsed body.
- A success body that is not valid JSON makes `res.json()` reject. That failure is not modelled; the parsed body is given.
- The environment lookup: the secret is passed as `Option<string>`.
- Asynchrony and promises: each operation is one sequential round trip.
- `JSON.stringify(value, null, 2)` layout: a text block records which JSON value was serialised, or that it was `undefined`; request bodies are kept as JSON values.
- Numbers are exact reals. Float rounding, `-0`, and the exponent form that decimal rendering switches to from 1e21 are not modelled; path ids are integers rendered in plain decimal.
- Strings are sequences of Unicode scalar values. A JavaScript string holding a lone surrogate cannot be represented, so the URIError that `encodeURIComponent` throws on it is not modelled. zod's `min(1)` agrees with the model on non-empty strings.
- A string record (`z.record(z.string())`) with a non-string value is reported as one issue at the record's own path, not one issue per offending key at that key's path: map keys carry no order from which the model could list them deterministically.
- zod's issue objects and messages: an issue records only the path and the violated constraint.
- `src/server.ts` and the MCP SDK's tool registration and dispatch: the `Gateway.Tool` datatype stands in for the registry.
- `src/tools/store.ts`, `src/tools/sales.ts`, `src/tools/packages.ts`: each takes no parameters and makes one fixed GET. Their endpoints are in the client table and covered by `Routing.ListingRoundTrip`.
- Gateway.NamesDistinct: stated for the modelled tools only, since the store, sales and packages tools are not part of this model.
- GiftCardTools.NewGiftCardForwarded: states what reaches the client; the request itself is covered by `GiftCardTools.RequestReadBack`.
