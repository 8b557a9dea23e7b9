/** The Message record of the message store and the constraints the store
    enforces before it accepts one (backend/models/Message.js). */
module MessageModel {
  import opened JsValues

  /** The id of an authenticated user (a store object id). */
  type UserId = nat

  /** The `enum` of the `sender` path. */
  const Senders: seq<string> := ["user", "bot", "system"]

  /** The non-null members of the `enum` of the `database` path. */
  const Dialects: seq<string> := ["MongoDB", "PostgreSQL", "MySQL"]

  /** A stored message. `database` and `schema` are nullable; `createdAt` and
      `updatedAt` are the store's creation stamps, never given by a caller. */
  datatype Record = Record(
    owner: UserId,
    sender: string,
    text: string,
    database: Option<string>,
    schema: Option<string>,
    timestamp: string,
    createdAt: nat,
    updatedAt: nat)

  /** What the Message constructor is handed: the owner and the raw values of
      the other paths, before casting. */
  datatype Draft = Draft(
    owner: UserId,
    sender: JsValue,
    text: JsValue,
    database: JsValue,
    schema: JsValue,
    timestamp: JsValue)

  /** Outcome of casting a value to a String path: the cast is refused, the
      path holds null (or stays unset), or it holds a text. */
  datatype Cast = CastFailed | CastNull | CastText(s: string)

  /** The String cast: null and undefined stay empty, an object is refused,
      numbers and booleans are converted as `String(v)` converts them. */
  function CastToString(v: JsValue): Cast {
    match v
    case Undefined => CastNull
    case Null => CastNull
    case Obj => CastFailed
    case _ => CastText(ToText(v))
  }

  /** The `required` validator of a String path: a non-empty text. */
  predicate Required(c: Cast) {
    c.CastText? && c.s != ""
  }

  function Nullable(c: Cast): Option<string>
    requires !c.CastFailed?
  {
    if c.CastText? then Some(c.s) else None
  }

  /** A record the store accepts: the sender is in its enum, text and
      timestamp are present, the dialect is one of its enum or null. */
  predicate ValidRecord(r: Record) {
    && r.sender in Senders
    && r.text != ""
    && r.timestamp != ""
    && (r.database.Some? ==> r.database.value in Dialects)
  }

  /** A raw value that passes both the String cast and `required`. */
  predicate Present(v: JsValue) {
    v.Num? || v.Bool? || (v.Str? && v.s != "")
  }

  /** The conditions under which the store accepts a draft, stated directly
      on the raw values. */
  predicate Admissible(d: Draft) {
    && Present(d.sender) && ToText(d.sender) in Senders
    && Present(d.text)
    && Present(d.timestamp)
    && (d.database == Undefined || d.database == Null
        || (Present(d.database) && ToText(d.database) in Dialects))
    && d.schema != Obj
  }

  /** Casting and validating a draft when it is saved at store time `now`:
      the record it becomes, or None when a cast or a validator fails. */
  function Build(d: Draft, now: nat): (r: Option<Record>)
    ensures r.Some? <==> Admissible(d)
    ensures r.Some? ==> ValidRecord(r.value)
    ensures r.Some? ==> r.value.owner == d.owner
    ensures r.Some? ==> r.value.createdAt == now && r.value.updatedAt == now
  {
    var sender, text, database, schema, timestamp :=
      CastToString(d.sender), CastToString(d.text), CastToString(d.database),
      CastToString(d.schema), CastToString(d.timestamp);
    if sender.CastFailed? || text.CastFailed? || database.CastFailed?
       || schema.CastFailed? || timestamp.CastFailed? then
      None
    else if !Required(sender) || sender.s !in Senders then
      None
    else if !Required(text) || !Required(timestamp) then
      None
    else if database.CastText? && database.s !in Dialects then
      None
    else
      Some(Record(d.owner, sender.s, text.s, Nullable(database), Nullable(schema),
                  timestamp.s, now, now))
  }

  /** A successful build keeps each present value's text and stores a missing
      or null `database` or `schema` as null. */
  lemma BuildKeepsFields(d: Draft, now: nat)
    requires Admissible(d)
    ensures Build(d, now).Some?
    ensures Build(d, now).value.sender == ToText(d.sender)
    ensures Build(d, now).value.text == ToText(d.text)
    ensures Build(d, now).value.timestamp == ToText(d.timestamp)
    ensures Build(d, now).value.database
            == (if d.database == Undefined || d.database == Null then None else Some(ToText(d.database)))
    ensures Build(d, now).value.schema
            == (if d.schema == Undefined || d.schema == Null then None else Some(ToText(d.schema)))
  {
  }
}
