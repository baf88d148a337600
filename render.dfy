/**
 * How every operation turns the client's result into the value it hands back:
 * an envelope holding exactly one text block with the serialised result, after
 * the optional `result ?? fallback` substitution some operations apply.
 *
 * The text layout produced by `JSON.stringify(value, null, 2)` is not
 * modelled; a block records which JSON value was serialised, or that the
 * serialised value was `undefined` (for which `JSON.stringify` yields no text).
 */
module Render {
  import opened Wrappers
  import opened JsonValue
  import opened TebexClient

  /** What `JSON.stringify` produced for the block. */
  datatype Text = Undefined | Serialized(value: Json)

  /** A `{ type: "text", text }` block. */
  datatype TextBlock = TextBlock(text: Text)

  /** The `{ content: [...] }` object an operation returns. */
  datatype Envelope = Envelope(content: seq<TextBlock>)

  /** `result ?? fallback`: the fallback replaces a missing (204) result and a JSON `null`. */
  function Coalesce(result: Payload, fallback: Json): (r: Json)
    ensures result.NoData? || result.json == JNull ==> r == fallback
    ensures result.Data? && result.json != JNull ==> r == result.json
  {
    match result
    case NoData => fallback
    case Data(JNull) => fallback
    case Data(j) => j
  }

  /**
   * The envelope of an operation: one block holding the result, after the
   * fallback substitution when the operation has one.
   */
  function Reply(result: Payload, fallback: Option<Json>): (r: Envelope)
    ensures |r.content| == 1
    ensures r.content[0].text.Undefined? <==> result.NoData? && fallback.None?
    ensures fallback.None? && result.Data? ==> r.content[0].text == Serialized(result.json)
    ensures fallback.Some? ==> r.content[0].text == Serialized(Coalesce(result, fallback.value))
  {
    var value: Option<Json> :=
      if fallback.Some? then Some(Coalesce(result, fallback.value))
      else if result.Data? then Some(result.json)
      else None;
    Envelope([TextBlock(if value.Some? then Serialized(value.value) else Undefined)])
  }

  /** A fallback never masks a real result: it only changes what a nullish result renders as. */
  lemma FallbackOnlyForNullish(result: Payload, fallback: Json)
    ensures Reply(result, Some(fallback)) != Reply(result, None) ==>
      result.NoData? || result.json == JNull
    ensures result.Data? && result.json != JNull ==> Reply(result, Some(fallback)) == Reply(result, None)
    ensures result.NoData? ==> Reply(result, Some(fallback)).content[0].text == Serialized(fallback)
  {
  }
}
