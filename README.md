# Query generator chat: a Dafny model

This project models the core of a web chat that turns a database schema and a
natural-language prompt into a query for MongoDB, PostgreSQL or MySQL. The
model has four parts.

- **Query route** (`QueryController`). It checks that the request carries
  `schema`, `prompt` and `database`. It then checks the dialect against the
  three supported ones. Only then does it call the query generator, and it
  passes the generator's answer through as `{query}`. A generator failure
  becomes a 500. The generator is an oracle function given as a parameter.
  The model returns the call the handler made, if any, so "never invoked" can
  be stated.
- **Message record** (`MessageModel`). This is the stored record with its
  constraints: a sender enum, required text and timestamp, a dialect from the
  enum or null, a nullable schema, and creation stamps assigned by the store.
  `Build` casts and validates a draft the way the store does before saving.
- **Message routes** (`MessageController`). `MessageStore` is a class holding
  the records in insertion order and a creation clock.
  - `SaveMessage` does the handler's presence check and defaults a falsy
    dialect or schema to null. It appends exactly one record, or none on any
    failure.
  - `GetMessages` returns the requester's records ordered by `createdAt`.
- **Chat client** (`ChatApp`). `ChatBot` is a class holding the component's
  state fields. Its methods are the handlers: submit, change schema, logout,
  load history, choose a dialect and log in. Two logs, `sent` and
  `requested`, hold in order every request body the client sends. The
  generate-query outcome is a parameter of the submit handler.

`ClientServer` connects the two sides. It reads the bodies the client sends
as the JSON the server receives. It proves that every request a session sends
passes the server's validation: every generate request, and every message
body, since the client always stamps a message with a non-empty display
time. It also proves that the first schema
announcement is stored with a null schema. That happens because the handler
saves with the state as it was when it started, and at that point the schema
was still empty.

JavaScript values in request bodies are modelled by `JsValues.JsValue`, with
JavaScript truthiness (`Truthy`) and conversion to text (`ToText`). Every
`!x` and `x || null` test in the handlers is decided with these.

Facts about the code that the model keeps:
- The query route replies `{query}` and reads no `previousMessages`.
- The dialect check happens in the route handler, before the generator is
  called.
- A sender or dialect outside its enum passes the message route's own check.
  It then fails the record's validators, so the client sees a 500, not a 400.

## Model

| member | source | states |
|---|---|---|
| `QueryController.GenerateQuery` | backend/controllers/queryController.js:3-28 | the generator is called iff schema and prompt are truthy and database is exactly one of the three dialects, with (database, schema, prompt) from the body; the reply is `{query}` iff the generator answers, with exactly its text; any error is 400 when no call was made and 500 after a call |
| `QueryController.MissingFieldsRejected` | backend/controllers/queryController.js:6-17 | the reply is 400 "Schema, prompt, and database are required." iff one of the three fields is missing or falsy, so this check wins over the dialect check |
| `QueryController.UnsupportedDialectRejected` | backend/controllers/queryController.js:12-17 | with all fields present, the reply is the 400 unsupported-database error iff the database is not exactly (case-sensitive) MongoDB, PostgreSQL or MySQL |
| `QueryController.UnsupportedErrorText` | backend/controllers/queryController.js:13-16 | the unsupported-database error echoes the value and lists "MongoDB, PostgreSQL, MySQL" in that order |
| `QueryController.GeneratorFailureIsServerError` | backend/controllers/queryController.js:22-27 | a generator failure yields 500 "Failed to generate query." |
| `MessageModel.Build` | backend/models/Message.js:4-34 | a draft is accepted iff the sender casts to user/bot/system, text and timestamp are present, the dialect is absent, null or in the enum, and the schema casts to a string; an accepted record satisfies the record constraints, keeps the owner and gets `createdAt` = `updatedAt` = the store's time |
| `MessageModel.BuildKeepsFields` | backend/models/Message.js:19-27 | an accepted draft keeps the text of each value, and a missing or null dialect or schema is stored as null |
| `MessageController.MissingFieldsRejected` | backend/controllers/messageController.js:6-8 | a save is rejected with 400 iff sender, text or timestamp is missing or falsy |
| `MessageController.NullDefaults` | backend/controllers/messageController.js:15-16 | a stored dialect or schema is null iff the body's value is falsy, and otherwise its text |
| `MessageController.OwnerIsRequester` | backend/controllers/messageController.js:4-12 | the stored owner is the authenticated user, and no owner field in the body changes the outcome |
| `MessageController.EnumViolationIsServerError` | backend/controllers/messageController.js:6-23 | a sender outside the enum, or a truthy dialect outside it, passes the handler's check but fails validation, a 500 |
| `MessageController.WellFormedBodyInserted` | backend/controllers/messageController.js:11-18 | a body with valid sender, non-empty text and timestamp, and a valid or falsy dialect becomes exactly the expected record |
| `MessageController.OwnedByMembers` | backend/controllers/messageController.js:29 | the listing filter keeps exactly the records whose owner is the requester |
| `MessageController.OwnedByOrdered` | backend/controllers/messageController.js:29 | filtering records ordered by `createdAt` keeps them ordered |
| `MessageController.OwnedByAppend` | backend/controllers/messageController.js:19-29 | a new record appears at the end of its owner's listing and leaves every other owner's listing unchanged |
| `MessageController.MessageStore.SaveMessage` | backend/controllers/messageController.js:3-25 | 400 with the store unchanged on a missing field; 201 and exactly one record appended when validation and the write succeed, which extends the requester's listing by that record and leaves every other user's listing unchanged; 500 "Server error" with the store unchanged on a validation or write failure; the store invariant is kept |
| `MessageController.MessageStore.GetMessages` | backend/controllers/messageController.js:27-35 | lists exactly the requester's records, ordered by `createdAt` ascending; a failed read is 500 "Server error" |
| `MessageController.SaveThenList` | backend/controllers/messageController.js:3-35 | after saves by two users, one user's listing holds only that user's message, with its fields intact |
| `ChatApp.BlankIffAllSpace` | frontend/src/App.jsx:133 | `!input.trim()` holds iff the input is all JavaScript white space |
| `ChatApp.SchemaSetText` | frontend/src/App.jsx:141-148 | the system message text begins with the dialect name |
| `ChatApp.BotText` | frontend/src/App.jsx:185-206 | the bot text is never empty; a reply with a non-empty query shows exactly that query; it is the fallback "No response from AI." exactly when the reply's query is missing or empty (or is that text itself); every failed call gives the fixed error text |
| `ChatApp.InputPlaceholder` | frontend/src/App.jsx:95-109 | before a schema is submitted the placeholder asks for a schema of the selected dialect; after, it asks for a request in that dialect |
| `ChatApp.History` | frontend/src/App.jsx:64-70 | loading history keeps sender, text and timestamp of every record, in server order, and nothing else |
| `ChatApp.ChatBot.constructor` | frontend/src/App.jsx:20-28 | the initial state: no messages, empty input and schema, MongoDB, nothing submitted, not loading, not authenticated |
| `ChatApp.ChatBot.SetInput` | frontend/src/App.jsx:449-453 | typing replaces the input |
| `ChatApp.ChatBot.SelectDatabase` | frontend/src/App.jsx:431-445 | the dialect can be chosen only while the selector is shown (no schema submitted), and only among the three options |
| `ChatApp.ChatBot.SaveMessageToBackend` | frontend/src/App.jsx:111-130 | the body sent carries the message's sender, text and timestamp and the dialect and schema the handler saw |
| `ChatApp.ChatBot.HandleSubmit` | frontend/src/App.jsx:132-212 | blank input changes nothing and sends nothing; otherwise the dialect and login state are kept and the matching branch below runs |
| `ChatApp.ChatBot.SubmitSchema` | frontend/src/App.jsx:136-152 | the input becomes the schema, the schema is submitted, the input is cleared, one system message naming the dialect is appended and saved with the previous schema, and no generate request is sent |
| `ChatApp.ChatBot.SubmitPrompt` | frontend/src/App.jsx:153-211 | a user message with the input, then exactly one bot message are appended and saved; one generate request with the dialect, schema and input is sent; the input is cleared and `loading` is false afterwards |
| `ChatApp.ChatBot.ChangeSchema` | frontend/src/App.jsx:233-238 | the schema is reopened with the current schema as input; messages, schema and dialect are unchanged |
| `ChatApp.ChatBot.HandleLogout` | frontend/src/App.jsx:245-254 | not authenticated, no messages, nothing submitted, empty schema and input, MongoDB |
| `ChatApp.ChatBot.FetchMessages` | frontend/src/App.jsx:59-75 | a loaded history replaces the messages with its projection; a failed load keeps them |
| `ChatApp.ChatBot.LoginSucceeded` | frontend/src/App.jsx:256-258 | a successful login authenticates without loading history |
| `ChatApp.ChatBot.RestoreSession` | frontend/src/App.jsx:34-56 | an accepted stored token authenticates and loads history; a rejected one leaves the session unauthenticated; no token changes nothing |
| `ClientServer.SentPayloadStored` | frontend/src/App.jsx:111-121 | a message body the client sends is stored under the requester with sender, text, dialect and timestamp intact and an empty schema as null, and reloads as the message the client showed |
| `ClientServer.RequestReachesGenerator` | frontend/src/App.jsx:168-179 | a well-formed client request passes both query-route checks and reaches the generator with the client's dialect, schema and prompt |
| `ClientServer.SessionRequestsAccepted` | frontend/src/App.jsx:132-212 | every generate request a session sent passes the server's validation, and every message body it sent is stored |
| `ClientServer.FirstSchemaSubmission` | frontend/src/App.jsx:136-150 | the first schema announcement of a fresh session is sent with the previous, empty schema and stored with a null schema and the MongoDB dialect |

## Left out

- Network and HTTP plumbing is not modelled: axios and fetch, Express routing, CORS, JSON parsing and the server start. Routes are plain functions and methods. The message and query routes sit behind the authentication middleware, so the model takes the authenticated user id as a parameter.
- The query generator (services/groqService) is not part of this model. It is an oracle parameter that answers with a text or fails.
- Authentication is not part of this model: signup, login, token verification, the auth middleware and the login form (frontend/src/components/AuthForm.jsx). They are token-library and form work. The mount-time token check is reduced to its outcome (`StoredToken`).
- Store internals are not modelled: MongoDB persistence, `_id`, the version key, and casting the owner to an object id. A failed write or read is a boolean parameter.
- `resetAll` is not modelled. Its button is permanently disabled, and it calls a route the server does not register.
- UI and environment effects are not modelled: rendering, toasts, timers, focus, scrolling, the clipboard and localStorage. `toLocaleTimeString` is not modelled either: display timestamps are opaque strings passed in as parameters, required to be non-empty because a formatted time never is. A missing token is not modelled.
- Async interleaving is not modelled. Each handler runs atomically and reads the state as of its start. The send button is disabled while `loading`, but the Enter key calls the submit handler anyway. Overlapping submissions that this allows are not modelled.
- ChatApp.ChatBot.HandleSubmit: `loading` is true only between the generate call and its reply. Because the handler is atomic, the model can state only its final value (false).
- JsValues.JsValue has integers only. NaN, -0 and fractions, and their truthiness and printing, are not modelled. Every object or array is one value `Obj`: it prints as "[object Object]" and fails the String cast. Arrays print differently and objects with their own `toString` cast differently; neither is modelled.
- MessageController.MessageStore.GetMessages: the store sorts by `createdAt`. The model assigns `createdAt` from a counter that grows with every insert, so the store order is already ascending. The model therefore filters in store order and proves the result ascending, instead of sorting. Real creation times can tie, and the order among ties is unspecified; the model does not cover ties.
- MessageController.MessageStore.SaveMessage: the clock advances only on a successful insert. This keeps stamps strictly increasing but does not model wall-clock time.
