/** The query route (backend/controllers/queryController.js): validate the
    request, then hand dialect, schema and prompt to the query generator and
    pass its answer through. The generator is an oracle given as a parameter. */
module QueryController {
  import opened JsValues

  /** The dialects the handler accepts, in the order its error lists them. */
  const SupportedDatabases: seq<string> := ["MongoDB", "PostgreSQL", "MySQL"]

  const MissingFieldsError := "Schema, prompt, and database are required."
  const GenerationFailedError := "Failed to generate query."

  /** The body of `POST /api/generate-query`. */
  datatype QueryBody = QueryBody(schema: JsValue, prompt: JsValue, database: JsValue)

  /** The arguments the generator is called with. */
  datatype GenCall = GenCall(database: string, schema: JsValue, prompt: JsValue)

  /** What the generator does with a call: answer with a query text or fail. */
  datatype GenOutcome = Generated(query: string) | GenFailed

  /** A 200 reply `{query}`, or an error status with the `error` field. */
  datatype QueryReply = QueryJson(query: string) | QueryError(status: nat, error: string)

  /** The generator call the handler makes, if any, and the reply it sends. */
  datatype Handled = Handled(call: Option<GenCall>, reply: QueryReply)

  /** `parts.join(sep)` */
  function Join(parts: seq<string>, sep: string): string {
    if |parts| == 0 then ""
    else if |parts| == 1 then parts[0]
    else parts[0] + sep + Join(parts[1..], sep)
  }

  /** `supportedDatabases.includes(database)`: an exact, case-sensitive match
      of a string value. */
  predicate IsSupported(database: JsValue) {
    database.Str? && database.s in SupportedDatabases
  }

  function UnsupportedError(database: JsValue): string {
    "Unsupported database: " + ToText(database) + ". Supported databases are: "
      + Join(SupportedDatabases, ", ") + "."
  }

  function GenerateQuery(body: QueryBody, generator: GenCall -> GenOutcome): (h: Handled)
    ensures h.call.Some? <==> Truthy(body.schema) && Truthy(body.prompt) && IsSupported(body.database)
    ensures h.call.Some? ==> h.call.value == GenCall(body.database.s, body.schema, body.prompt)
    ensures h.reply.QueryJson? <==> h.call.Some? && generator(h.call.value).Generated?
    ensures h.reply.QueryJson? ==> h.reply.query == generator(h.call.value).query
    ensures h.reply.QueryError? ==> h.reply.status == (if h.call.Some? then 500 else 400)
  {
    if !Truthy(body.schema) || !Truthy(body.prompt) || !Truthy(body.database) then
      Handled(None, QueryError(400, MissingFieldsError))
    else if !IsSupported(body.database) then
      Handled(None, QueryError(400, UnsupportedError(body.database)))
    else
      var call := GenCall(body.database.s, body.schema, body.prompt);
      match generator(call)
      case Generated(query) => Handled(Some(call), QueryJson(query))
      case GenFailed => Handled(Some(call), QueryError(500, GenerationFailedError))
  }

  /** A missing or falsy schema, prompt or database gets the required-field
      error, and only such a request does; it takes precedence over the dialect
      check, so a request failing both gets this error. */
  lemma MissingFieldsRejected(body: QueryBody, generator: GenCall -> GenOutcome)
    ensures GenerateQuery(body, generator).reply == QueryError(400, MissingFieldsError)
            <==> !Truthy(body.schema) || !Truthy(body.prompt) || !Truthy(body.database)
  {
  }

  /** A request with all three fields present fails the dialect check exactly
      when its database is not one of the supported dialects. */
  lemma UnsupportedDialectRejected(body: QueryBody, generator: GenCall -> GenOutcome)
    requires Truthy(body.schema) && Truthy(body.prompt) && Truthy(body.database)
    ensures GenerateQuery(body, generator).reply == QueryError(400, UnsupportedError(body.database))
            <==> !IsSupported(body.database)
  {
  }

  /** The unsupported-dialect error echoes the value and lists the three
      dialects in order. */
  lemma UnsupportedErrorText(database: JsValue)
    ensures UnsupportedError(database)
            == "Unsupported database: " + ToText(database) + ". Supported databases are: "
               + "MongoDB" + ", " + "PostgreSQL" + ", " + "MySQL" + "."
  {
    var tail := Join(["PostgreSQL", "MySQL"], ", ");
    assert tail == "PostgreSQL" + ", " + "MySQL" by {
      assert Join(["MySQL"], ", ") == "MySQL";
    }
    assert Join(SupportedDatabases, ", ") == "MongoDB" + ", " + tail;
  }

  /** A generator failure is a 500 with the fixed message. */
  lemma GeneratorFailureIsServerError(body: QueryBody, generator: GenCall -> GenOutcome)
    requires GenerateQuery(body, generator).call.Some?
    requires generator(GenerateQuery(body, generator).call.value) == GenFailed
    ensures GenerateQuery(body, generator).reply == QueryError(500, GenerationFailedError)
  {
  }
}
