/** How the client's requests meet the server's handlers: the bodies the chat
    client sends, read as the JSON the message and query routes receive. */
module ClientServer {
  import opened JsValues
  import opened MessageModel
  import MC = MessageController
  import QC = QueryController
  import ChatApp

  /** A client save payload as the message route receives it; the client
      sends no owner field. */
  function SaveBodyOf(p: ChatApp.SavePayload): MC.SaveBody {
    MC.SaveBody(Str(p.sender), Str(p.text), Str(p.database), Str(p.schema), Str(p.timestamp), Undefined)
  }

  /** A client generate-query request as the query route receives it. */
  function QueryBodyOf(g: ChatApp.GenRequest): QC.QueryBody {
    QC.QueryBody(Str(g.schema), Str(g.prompt), Str(g.database))
  }

  /** A payload the client sends is stored under the requester with its
      sender, text, dialect and timestamp intact; an empty schema is stored as
      null. Reloading that record gives back the message the client showed. */
  lemma SentPayloadStored(user: UserId, p: ChatApp.SavePayload, now: nat)
    requires ChatApp.WellFormedPayload(p)
    ensures MC.PlanSave(user, SaveBodyOf(p), now)
            == MC.Insert(Record(user, p.sender, p.text, Some(p.database),
                                if p.schema == "" then None else Some(p.schema), p.timestamp, now, now))
    ensures ChatApp.History([MC.PlanSave(user, SaveBodyOf(p), now).rec])
            == [ChatApp.ChatMessage(p.sender, p.text, p.timestamp)]
  {
  }

  /** A well-formed client request passes both checks of the query route and
      reaches the generator with the client's dialect, schema and prompt. */
  lemma RequestReachesGenerator(g: ChatApp.GenRequest, generator: QC.GenCall -> QC.GenOutcome)
    requires ChatApp.WellFormedRequest(g)
    ensures QC.GenerateQuery(QueryBodyOf(g), generator).call
            == Some(QC.GenCall(g.database, Str(g.schema), Str(g.prompt)))
  {
  }

  /** Every request a chat session has sent passes the server's validation. */
  lemma SessionRequestsAccepted(c: ChatApp.ChatBot, user: UserId, now: nat,
                                generator: QC.GenCall -> QC.GenOutcome)
    requires c.Valid()
    ensures forall g | g in c.requested :: QC.GenerateQuery(QueryBodyOf(g), generator).call.Some?
    ensures forall p | p in c.sent :: MC.PlanSave(user, SaveBodyOf(p), now).Insert?
  {
    forall g | g in c.requested
      ensures QC.GenerateQuery(QueryBodyOf(g), generator).call.Some?
    {
      RequestReachesGenerator(g, generator);
    }
    forall p | p in c.sent
      ensures MC.PlanSave(user, SaveBodyOf(p), now).Insert?
    {
      SentPayloadStored(user, p, now);
    }
  }

  /** The first submission of a fresh session: the system message announcing
      the schema is sent with the schema as it was before, the empty text, so
      the server stores it with a null schema. */
  method FirstSchemaSubmission(user: UserId, schemaText: string, stamp: string)
    returns (payload: ChatApp.SavePayload, plan: MC.SavePlan)
    requires !ChatApp.Blank(schemaText) && stamp != ""
    ensures payload == ChatApp.SavePayload("system", ChatApp.SchemaSetText("MongoDB"), "MongoDB", "", stamp)
    ensures plan.Insert? && plan.rec.schema == None && plan.rec.database == Some("MongoDB")
    ensures plan.rec.owner == user && plan.rec.sender == "system"
  {
    var client := new ChatApp.ChatBot();
    client.SetInput(schemaText);
    client.HandleSubmit(stamp, stamp, ChatApp.NetworkError);
    payload := client.sent[0];
    plan := MC.PlanSave(user, SaveBodyOf(payload), 0);
    SentPayloadStored(user, payload, 0);
  }
}
