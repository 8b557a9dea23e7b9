/** The chat client's session state (frontend/src/App.jsx): the component
    state fields, the handlers that change them, and the requests they send.
    Network calls are not made: each handler is atomic, the generate-query
    call's outcome is a parameter, and every request body the client sends is
    appended to a log. */
module ChatApp {
  import opened JsValues
  import MessageModel

  /** A message as the chat list shows it. */
  datatype ChatMessage = ChatMessage(sender: string, text: string, timestamp: string)

  /** The body the client sends to `POST /api/messages`. */
  datatype SavePayload = SavePayload(
    sender: string,
    text: string,
    database: string,
    schema: string,
    timestamp: string)

  /** The body the client sends to `POST /api/generate-query`. */
  datatype GenRequest = GenRequest(database: string, schema: string, prompt: string)

  /** The outcome of the generate-query call: a 2xx reply whose `query` field
      is present or missing, a non-2xx status, or no reply at all. */
  datatype GenResult = Answered(query: Option<string>) | NotOk(status: nat) | NetworkError

  /** What the token check on mount finds. */
  datatype StoredToken = NoToken | RejectedToken | AcceptedToken

  const InitialDatabase := "MongoDB"
  const NoResponseText := "No response from AI."
  /** The error text exactly as the source spells it: a mis-encoded emoji,
      then the sentence. */
  const GenerationErrorText :=
    "\U{00E2}\U{0152} Failed to generate query. Please try again or check your connection."

  /** The characters `String.prototype.trim` removes: white space and line
      terminators. */
  predicate IsJsSpace(c: char) {
    || c == ' ' || c == '\t' || c == '\n' || c == '\r'
    || c == '\U{000B}' || c == '\U{000C}' || c == '\U{00A0}' || c == '\U{1680}'
    || ('\U{2000}' <= c <= '\U{200A}')
    || c == '\U{2028}' || c == '\U{2029}' || c == '\U{202F}' || c == '\U{205F}'
    || c == '\U{3000}' || c == '\U{FEFF}'
  }

  function TrimStart(s: string): (r: string)
    ensures r != [] ==> !IsJsSpace(r[0])
    ensures r == [] <==> forall i | 0 <= i < |s| :: IsJsSpace(s[i])
  {
    if s != [] && IsJsSpace(s[0]) then TrimStart(s[1..]) else s
  }

  function TrimEnd(s: string): (r: string)
    ensures r == [] <==> forall i | 0 <= i < |s| :: IsJsSpace(s[i])
    ensures r != [] ==> r[0] == s[0]
  {
    if s != [] && IsJsSpace(s[|s| - 1]) then TrimEnd(s[..|s| - 1]) else s
  }

  /** `s.trim()` */
  function Trim(s: string): string {
    TrimEnd(TrimStart(s))
  }

  /** `!s.trim()`: nothing but white space. */
  predicate Blank(s: string) {
    Trim(s) == ""
  }

  lemma BlankIffAllSpace(s: string)
    ensures Blank(s) <==> forall i | 0 <= i < |s| :: IsJsSpace(s[i])
  {
  }

  /** The text of the system message announcing a schema. */
  function SchemaSetText(database: string): (t: string)
    ensures database <= t
  {
    database + " schema has been set. You can now enter your query requests."
  }

  /** The bot's reply text for a generate-query outcome: the query when the
      reply has a non-empty one, a fixed notice when it has none, and the
      fixed error text when the call failed. */
  function BotText(result: GenResult): (t: string)
    ensures t != ""
    ensures result.Answered? && result.query.Some? && result.query.value != "" ==> t == result.query.value
    ensures t == NoResponseText <==> result.Answered? && (result.query == None || result.query == Some("")
                                                         || result.query == Some(NoResponseText))
    ensures !result.Answered? ==> t == GenerationErrorText
  {
    match result
    case Answered(query) =>
      if query.Some? && query.value != "" then query.value else NoResponseText
    case _ => GenerationErrorText
  }

  /** The example schema the placeholder shows for each dialect. */
  function SchemaExample(database: string): string {
    match database
    case "MongoDB" => " (e.g., users: {name: String, age: Number, email: String})"
    case "PostgreSQL" =>
      " (e.g., CREATE TABLE users (id SERIAL PRIMARY KEY, name VARCHAR(255), age INTEGER))"
    case "MySQL" =>
      " (e.g., CREATE TABLE users (id INT AUTO_INCREMENT PRIMARY KEY, name VARCHAR(255), age INT))"
    case _ => ""
  }

  /** The placeholder of the input box: a schema prompt naming the selected
      dialect before a schema is submitted, a query prompt naming it after. */
  function InputPlaceholder(schemaSubmitted: bool, database: string): (p: string)
    ensures !schemaSubmitted && database in MessageModel.Dialects ==> "Enter " + database + " Schema" <= p
    ensures !schemaSubmitted && database !in MessageModel.Dialects ==> p == "Enter your database schema"
    ensures schemaSubmitted ==> "Type your " + database + " query request" <= p
  {
    if !schemaSubmitted then
      if database in MessageModel.Dialects then "Enter " + database + " Schema" + SchemaExample(database)
      else "Enter your database schema"
    else
      "Type your " + database + " query request" + " in natural language..."
  }

  /** The chat list built from loaded history: sender, text and timestamp of
      each record, in server order; every other field is dropped. */
  function History(records: seq<MessageModel.Record>): (h: seq<ChatMessage>)
    ensures |h| == |records|
    ensures forall i | 0 <= i < |records| ::
      h[i] == ChatMessage(records[i].sender, records[i].text, records[i].timestamp)
  {
    if records == [] then []
    else [ChatMessage(records[0].sender, records[0].text, records[0].timestamp)] + History(records[1..])
  }

  /** A generate-query request the server's validation accepts. */
  predicate WellFormedRequest(g: GenRequest) {
    g.database in MessageModel.Dialects && !Blank(g.schema) && !Blank(g.prompt)
  }

  /** A save payload whose sender, text and dialect the server's record
      constraints accept, with a display time (never empty). */
  predicate WellFormedPayload(p: SavePayload) {
    p.sender in MessageModel.Senders && p.text != "" && p.database in MessageModel.Dialects
    && p.timestamp != ""
  }

  predicate RequestsWellFormed(gs: seq<GenRequest>) {
    forall g | g in gs :: WellFormedRequest(g)
  }

  predicate PayloadsWellFormed(ps: seq<SavePayload>) {
    forall p | p in ps :: WellFormedPayload(p)
  }

  lemma PayloadsAppend(ps: seq<SavePayload>, p: SavePayload)
    requires PayloadsWellFormed(ps) && WellFormedPayload(p)
    ensures PayloadsWellFormed(ps + [p])
  {
  }

  lemma RequestsAppend(gs: seq<GenRequest>, g: GenRequest)
    requires RequestsWellFormed(gs) && WellFormedRequest(g)
    ensures RequestsWellFormed(gs + [g])
  {
  }

  /** The chat component's state. `sent` and `requested` log, in order, the
      bodies of the save and generate-query requests the handlers sent. */
  class ChatBot {
    var messages: seq<ChatMessage>
    var input: string
    var schema: string
    var database: string
    var schemaSubmitted: bool
    var loading: bool
    var isAuthenticated: bool
    var sent: seq<SavePayload>
    var requested: seq<GenRequest>

    /** The dialect is always one the selector offers, a submitted schema is
        never blank, and every request sent so far is well formed. */
    ghost predicate Valid()
      reads this
    {
      && database in MessageModel.Dialects
      && (schemaSubmitted ==> !Blank(schema))
      && RequestsWellFormed(requested)
      && PayloadsWellFormed(sent)
    }

    constructor ()
      ensures Valid()
      ensures messages == [] && input == "" && schema == "" && database == InitialDatabase
      ensures !schemaSubmitted && !loading && !isAuthenticated
      ensures sent == [] && requested == []
    {
      messages := [];
      input := "";
      schema := "";
      database := InitialDatabase;
      schemaSubmitted := false;
      loading := false;
      isAuthenticated := false;
      sent := [];
      requested := [];
    }

    /** The dialect selector is rendered only while no schema is submitted. */
    predicate SelectorShown()
      reads this
    {
      !schemaSubmitted
    }

    /** Typing into the input box. */
    method SetInput(text: string)
      modifies this`input
      ensures input == text
    {
      input := text;
    }

    /** Choosing one of the selector's three options. */
    method SelectDatabase(choice: string)
      requires Valid() && SelectorShown()
      requires choice in MessageModel.Dialects
      modifies this`database
      ensures Valid() && database == choice
    {
      database := choice;
    }

    /** Posting one message with the `database` and `schema` the handler saw
        when it started; a failed post only shows a toast. */
    method SaveMessageToBackend(message: ChatMessage, database0: string, schema0: string)
      modifies this`sent
      ensures sent == old(sent)
                      + [SavePayload(message.sender, message.text, database0, schema0, message.timestamp)]
    {
      sent := sent + [SavePayload(message.sender, message.text, database0, schema0, message.timestamp)];
    }

    /** Submitting the input box. `stamp` and `replyStamp` are the display
        times taken for the first and the second message; `result` is what the
        generate-query call returns, if it is made. A display time is never
        empty. */
    method HandleSubmit(stamp: string, replyStamp: string, result: GenResult)
      requires Valid() && stamp != "" && replyStamp != ""
      modifies this
      ensures Valid()
      ensures database == old(database) && isAuthenticated == old(isAuthenticated)
      ensures Blank(old(input)) ==>
        && messages == old(messages) && input == old(input) && schema == old(schema)
        && schemaSubmitted == old(schemaSubmitted) && loading == old(loading)
        && sent == old(sent) && requested == old(requested)
      ensures !Blank(old(input)) && !old(schemaSubmitted) ==>
        && schema == old(input) && schemaSubmitted && input == ""
        && messages == old(messages) + [ChatMessage("system", SchemaSetText(old(database)), stamp)]
        && sent == old(sent)
                   + [SavePayload("system", SchemaSetText(old(database)), old(database), old(schema), stamp)]
        && requested == old(requested) && loading == old(loading)
      ensures !Blank(old(input)) && old(schemaSubmitted) ==>
        && schema == old(schema) && schemaSubmitted && input == "" && !loading
        && messages == old(messages)
                       + [ChatMessage("user", old(input), stamp), ChatMessage("bot", BotText(result), replyStamp)]
        && sent == old(sent)
                   + [SavePayload("user", old(input), old(database), old(schema), stamp),
                      SavePayload("bot", BotText(result), old(database), old(schema), replyStamp)]
        && requested == old(requested) + [GenRequest(old(database), old(schema), old(input))]
    {
      if Blank(input) {
        return;
      }
      // The handler's closure holds the state as it was when it started.
      var input0, schema0, database0 := input, schema, database;
      if !schemaSubmitted {
        SubmitSchema(input0, schema0, database0, stamp);
      } else {
        SubmitPrompt(input0, schema0, database0, stamp, replyStamp, result);
      }
    }

    /** The branch of HandleSubmit that takes the input as the schema. */
    method SubmitSchema(input0: string, schema0: string, database0: string, stamp: string)
      requires Valid() && !schemaSubmitted && !Blank(input0) && stamp != ""
      requires input0 == input && schema0 == schema && database0 == database
      modifies this`schema, this`schemaSubmitted, this`messages, this`sent, this`input
      ensures Valid()
      ensures schema == input0 && schemaSubmitted && input == ""
      ensures messages == old(messages) + [ChatMessage("system", SchemaSetText(database0), stamp)]
      ensures sent == old(sent) + [SavePayload("system", SchemaSetText(database0), database0, schema0, stamp)]
    {
      schema := input0;
      schemaSubmitted := true;
      var systemMessage := ChatMessage("system", SchemaSetText(database0), stamp);
      messages := messages + [systemMessage];
      SaveMessageToBackend(systemMessage, database0, schema0);
      input := "";
    }

    /** The branch of HandleSubmit that sends the input as a query request. */
    method SubmitPrompt(input0: string, schema0: string, database0: string,
                        stamp: string, replyStamp: string, result: GenResult)
      requires Valid() && schemaSubmitted && !Blank(input0) && stamp != "" && replyStamp != ""
      requires input0 == input && schema0 == schema && database0 == database
      modifies this`messages, this`sent, this`input, this`loading, this`requested
      ensures Valid()
      ensures input == "" && !loading
      ensures messages == old(messages)
                          + [ChatMessage("user", input0, stamp), ChatMessage("bot", BotText(result), replyStamp)]
      ensures sent == old(sent)
                      + [SavePayload("user", input0, database0, schema0, stamp),
                         SavePayload("bot", BotText(result), database0, schema0, replyStamp)]
      ensures requested == old(requested) + [GenRequest(database0, schema0, input0)]
    {
      var userMessage := ChatMessage("user", input0, stamp);
      PayloadsAppend(sent, SavePayload("user", input0, database0, schema0, stamp));
      messages := messages + [userMessage];
      SaveMessageToBackend(userMessage, database0, schema0);
      input := "";
      loading := true;
      RequestsAppend(requested, GenRequest(database0, schema0, input0));
      requested := requested + [GenRequest(database0, schema0, input0)];
      var botMessage := ChatMessage("bot", BotText(result), replyStamp);
      PayloadsAppend(sent, SavePayload("bot", BotText(result), database0, schema0, replyStamp));
      messages := messages + [botMessage];
      SaveMessageToBackend(botMessage, database0, schema0);
      loading := false;
    }

    /** Reopening the schema for editing, with the current schema as input. */
    method ChangeSchema()
      requires Valid()
      modifies this`schemaSubmitted, this`input
      ensures Valid()
      ensures !schemaSubmitted && input == old(schema)
    {
      schemaSubmitted := false;
      input := schema;
    }

    /** Logging out discards the local session; the server keeps the history. */
    method HandleLogout()
      requires Valid()
      modifies this
      ensures Valid()
      ensures !isAuthenticated && messages == [] && !schemaSubmitted
      ensures schema == "" && input == "" && database == InitialDatabase
      ensures loading == old(loading) && sent == old(sent) && requested == old(requested)
    {
      isAuthenticated := false;
      messages := [];
      schemaSubmitted := false;
      schema := "";
      database := InitialDatabase;
      input := "";
    }

    /** Loading history: `response` is the list the server returned, or None
        when the request failed (only a toast is shown). */
    method FetchMessages(response: Option<seq<MessageModel.Record>>)
      modifies this`messages
      ensures response.Some? ==> messages == History(response.value)
      ensures response.None? ==> messages == old(messages)
    {
      if response.Some? {
        messages := History(response.value);
      }
    }

    /** The login form reports success; history is not loaded here. */
    method LoginSucceeded()
      modifies this`isAuthenticated
      ensures isAuthenticated
    {
      isAuthenticated := true;
    }

    /** The check on mount: an accepted stored token authenticates and loads
        history, a rejected one leaves the session unauthenticated. */
    method RestoreSession(token: StoredToken, history: Option<seq<MessageModel.Record>>)
      modifies this`isAuthenticated, this`messages
      ensures token == NoToken ==> isAuthenticated == old(isAuthenticated) && messages == old(messages)
      ensures token == RejectedToken ==> !isAuthenticated && messages == old(messages)
      ensures token == AcceptedToken ==>
        isAuthenticated && messages == (if history.Some? then History(history.value) else old(messages))
    {
      match token
      case NoToken =>
      case RejectedToken =>
        isAuthenticated := false;
      case AcceptedToken =>
        isAuthenticated := true;
        FetchMessages(history);
    }
  }
}
