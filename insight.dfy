/**
 * The parse gate of the insight step: the cleaned reply is handed to a JSON
 * parser, and an insight row is built only when the parsed value is an object
 * (the only kind of value that supports `.get`).  The parser itself is not
 * modelled; it is a parameter, any partial function from text to a value.
 */
module Insight {
  import opened Common
  import opened Cleanup

  /** A value produced by `json.loads`; an object becomes a Python dict. */
  datatype Json =
    | JNull
    | JBool(b: bool)
    | JNumber(n: real)
    | JString(s: string)
    | JArray(items: seq<Json>)
    | JObject(fields: map<string, Json>)

  /** An abstract JSON parser: `None` stands for the exception `json.loads` raises. */
  type Parser = string -> Option<Json>

  /** Row of the `insights_gemini` table (the timestamp is assigned by the server and omitted). */
  datatype InsightRow = InsightRow(cityId: int, riskLevel: Json, alertMessage: Json, recommendation: Json)

  /** `dados.get(key)`: an absent key reads as `None`, which is also what JSON `null` becomes. */
  function Get(fields: map<string, Json>, key: string): Json
  {
    if key in fields then fields[key] else JNull
  }

  /**
   * The row the insight step would insert for the raw reply `raw` of city `cityId`,
   * or `None` when parsing raises or the parsed value has no `.get`.
   */
  function RowFromReply(cityId: int, raw: string, parse: Parser): Option<InsightRow>
  {
    match parse(Clean(raw))
    case Some(JObject(fields)) =>
      Some(InsightRow(cityId, Get(fields, "nivel_risco"), Get(fields, "mensagem_alerta"), Get(fields, "recomendacao")))
    case _ => None
  }

  /** The parsed value is an object. */
  predicate IsObject(v: Option<Json>)
  {
    v.Some? && v.value.JObject?
  }

  /**
   * A row is built exactly when the cleaned reply parses to an object; it then
   * carries the values of the three keys as they are, with `None` for absent
   * keys, and whatever the risk value is (it is not checked against the four levels).
   */
  lemma RowGate(cityId: int, raw: string, parse: Parser)
    ensures RowFromReply(cityId, raw, parse).Some? <==> IsObject(parse(Clean(raw)))
    ensures IsObject(parse(Clean(raw))) ==>
      var m := parse(Clean(raw)).value.fields;
      var row := RowFromReply(cityId, raw, parse).value;
      row.cityId == cityId &&
      (row.riskLevel == if "nivel_risco" in m then m["nivel_risco"] else JNull) &&
      (row.alertMessage == if "mensagem_alerta" in m then m["mensagem_alerta"] else JNull) &&
      (row.recommendation == if "recomendacao" in m then m["recomendacao"] else JNull)
  {
  }

  /**
   * A reply wrapped in a markdown fence, "```json" + body + "```", whose fence-free
   * body parses (after stripping) to an object, yields the row holding that
   * object's three values.
   */
  lemma FencedReplyRow(cityId: int, body: string, parse: Parser, fields: map<string, Json>)
    requires !Contains(body, Fence)
    requires parse(Strip(body)) == Some(JObject(fields))
    ensures RowFromReply(cityId, JsonFence + body + Fence, parse) ==
      Some(InsightRow(cityId, Get(fields, "nivel_risco"), Get(fields, "mensagem_alerta"), Get(fields, "recomendacao")))
  {
    CleanFenced(body);
  }

  /** The same reply cleaned again gives the same row: the clean-up is a normal form. */
  lemma RowStableUnderClean(cityId: int, raw: string, parse: Parser)
    ensures RowFromReply(cityId, Clean(raw), parse) == RowFromReply(cityId, raw, parse)
  {
    CleanIdempotent(raw);
  }
}
