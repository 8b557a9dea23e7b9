/** The message routes (backend/controllers/messageController.js): saving one
    chat turn for the authenticated user and listing that user's turns, over
    a store modelled as a sequence of records in insertion order. */
module MessageController {
  import opened JsValues
  import opened MessageModel

  /** The body of `POST /api/messages`. `userId` stands for any owner field a
      client might add; the handler never reads it. */
  datatype SaveBody = SaveBody(
    sender: JsValue,
    text: JsValue,
    database: JsValue,
    schema: JsValue,
    timestamp: JsValue,
    userId: JsValue)

  /** An HTTP status with the `message` field of the JSON reply. */
  datatype Reply = Reply(status: nat, message: string)

  /** The reply of `GET /api/messages`. */
  datatype Listing = Listed(items: seq<Record>) | ListFailed(status: nat, message: string)

  const MissingFieldsMessage := "Sender, text, and timestamp are required"
  const SavedMessage := "Message saved successfully"
  const ServerErrorMessage := "Server error"

  /** What the handler decides before touching the store: reject with 400,
      fail validation (surfacing as 500), or insert a record. */
  datatype SavePlan = Reject | Invalid | Insert(rec: Record)

  /** The presence check the handler makes itself. */
  predicate HasRequired(b: SaveBody) {
    Truthy(b.sender) && Truthy(b.text) && Truthy(b.timestamp)
  }

  /** The document handed to the Message constructor: the owner comes from the
      authenticated request, and a falsy `database` or `schema` becomes null. */
  function DraftOf(user: UserId, b: SaveBody): Draft {
    Draft(user, b.sender, b.text, Or(b.database, Null), Or(b.schema, Null), b.timestamp)
  }

  function PlanSave(user: UserId, b: SaveBody, now: nat): SavePlan {
    if !HasRequired(b) then Reject
    else match Build(DraftOf(user, b), now)
      case None => Invalid
      case Some(rec) => Insert(rec)
  }

  /** A missing or falsy sender, text or timestamp is a 400, and only then. */
  lemma MissingFieldsRejected(user: UserId, b: SaveBody, now: nat)
    ensures PlanSave(user, b, now) == Reject <==> !HasRequired(b)
  {
  }

  /** A falsy `database` or `schema` is stored as null, a truthy one as its text. */
  lemma NullDefaults(user: UserId, b: SaveBody, now: nat)
    requires PlanSave(user, b, now).Insert?
    ensures PlanSave(user, b, now).rec.database
            == (if Truthy(b.database) then Some(ToText(b.database)) else None)
    ensures PlanSave(user, b, now).rec.schema
            == (if Truthy(b.schema) then Some(ToText(b.schema)) else None)
  {
  }

  /** The stored owner is the requester, and no body field decides it. */
  lemma OwnerIsRequester(user: UserId, b: SaveBody, other: JsValue, now: nat)
    ensures PlanSave(user, b, now) == PlanSave(user, b.(userId := other), now)
    ensures PlanSave(user, b, now).Insert? ==> PlanSave(user, b, now).rec.owner == user
  {
  }

  /** A sender outside the enum, or a present dialect outside the enum, passes
      the handler's own check but fails the record's validators: a 500, not a 400. */
  lemma EnumViolationIsServerError(user: UserId, b: SaveBody, now: nat)
    requires HasRequired(b)
    requires ToText(b.sender) !in Senders
             || (Truthy(b.database) && ToText(b.database) !in Dialects)
    ensures PlanSave(user, b, now) == Invalid
  {
  }

  /** A present sender, text and timestamp of the expected kinds, with a valid
      or falsy dialect, are saved with their texts intact. */
  lemma WellFormedBodyInserted(user: UserId, b: SaveBody, now: nat)
    requires b.sender.Str? && b.sender.s in Senders
    requires b.text.Str? && b.text.s != ""
    requires b.timestamp.Str? && b.timestamp.s != ""
    requires !Truthy(b.database) || (b.database.Str? && b.database.s in Dialects)
    requires !b.schema.Obj?
    ensures PlanSave(user, b, now)
            == Insert(Record(user, b.sender.s, b.text.s,
                             if Truthy(b.database) then Some(b.database.s) else None,
                             if Truthy(b.schema) then Some(ToText(b.schema)) else None,
                             b.timestamp.s, now, now))
  {
  }

  /** Records whose `createdAt` strictly increases along the sequence. */
  predicate CreationOrdered(rs: seq<Record>) {
    forall i, j | 0 <= i < j < |rs| :: rs[i].createdAt < rs[j].createdAt
  }

  /** The records of one owner, in the order the store holds them. */
  function OwnedBy(rs: seq<Record>, user: UserId): seq<Record> {
    if rs == [] then []
    else (if rs[0].owner == user then [rs[0]] else []) + OwnedBy(rs[1..], user)
  }

  lemma {:induction false} OwnedByMembers(rs: seq<Record>, user: UserId)
    ensures forall r :: r in OwnedBy(rs, user) <==> r in rs && r.owner == user
  {
    if rs != [] {
      OwnedByMembers(rs[1..], user);
      assert rs == [rs[0]] + rs[1..];
    }
  }

  lemma {:induction false} OwnedByOrdered(rs: seq<Record>, user: UserId)
    requires CreationOrdered(rs)
    ensures CreationOrdered(OwnedBy(rs, user))
  {
    if rs != [] {
      var tail := OwnedBy(rs[1..], user);
      OwnedByOrdered(rs[1..], user);
      OwnedByMembers(rs[1..], user);
      forall r | r in tail ensures rs[0].createdAt < r.createdAt {
        var k :| 0 <= k < |rs[1..]| && rs[1..][k] == r;
        assert rs[k + 1] == r;
      }
    }
  }

  /** Saving one record adds it at the end of its owner's listing and leaves
      every other owner's listing as it was. */
  lemma {:induction false} OwnedByAppend(rs: seq<Record>, r: Record, user: UserId)
    ensures OwnedBy(rs + [r], user)
            == OwnedBy(rs, user) + (if r.owner == user then [r] else [])
  {
    if rs == [] {
      assert [r][1..] == [];
    } else {
      assert (rs + [r])[1..] == rs[1..] + [r];
      OwnedByAppend(rs[1..], r, user);
    }
  }

  /** The message store: its records in insertion order, and the source of
      creation stamps. */
  class MessageStore {
    var records: seq<Record>
    var clock: nat

    /** Every stored record passed validation, and creation stamps increase
        with insertion and stay below the clock. */
    ghost predicate Valid()
      reads this
    {
      && (forall i | 0 <= i < |records| :: ValidRecord(records[i]) && records[i].createdAt < clock)
      && CreationOrdered(records)
    }

    constructor ()
      ensures Valid() && records == [] && clock == 0
    {
      records := [];
      clock := 0;
    }

    /** `POST /api/messages` for the authenticated `user`; `writeOk` is whether
        the store's write succeeds. */
    method SaveMessage(user: UserId, body: SaveBody, writeOk: bool) returns (reply: Reply)
      requires Valid()
      modifies this
      ensures Valid()
      ensures !HasRequired(body) ==> reply == Reply(400, MissingFieldsMessage) && records == old(records)
      ensures clock == old(clock) + |records| - |old(records)|
      ensures HasRequired(body) ==>
        match PlanSave(user, body, old(clock))
        case Insert(rec) =>
          if writeOk then
            && reply == Reply(201, SavedMessage)
            && records == old(records) + [rec]
            && forall v :: OwnedBy(records, v)
                           == OwnedBy(old(records), v) + (if v == user then [rec] else [])
          else
            reply == Reply(500, ServerErrorMessage) && records == old(records)
        case _ => reply == Reply(500, ServerErrorMessage) && records == old(records)
    {
      var plan := PlanSave(user, body, clock);
      match plan
      case Reject =>
        reply := Reply(400, MissingFieldsMessage);
      case Invalid =>
        reply := Reply(500, ServerErrorMessage);
      case Insert(rec) =>
        if writeOk {
          forall v ensures OwnedBy(records + [rec], v)
                           == OwnedBy(records, v) + (if v == user then [rec] else []) {
            OwnedByAppend(records, rec, v);
          }
          records := records + [rec];
          clock := clock + 1;
          reply := Reply(201, SavedMessage);
        } else {
          reply := Reply(500, ServerErrorMessage);
        }
    }

    /** `GET /api/messages` for the authenticated `user`: that user's records
        ordered by `createdAt` ascending; `readOk` is whether the store's
        query succeeds. */
    function GetMessages(user: UserId, readOk: bool): (r: Listing)
      reads this
      requires Valid()
      ensures !readOk ==> r == ListFailed(500, ServerErrorMessage)
      ensures readOk ==> r.Listed?
      ensures r.Listed? ==> forall x :: x in r.items <==> x in records && x.owner == user
      ensures r.Listed? ==> CreationOrdered(r.items)
    {
      if !readOk then ListFailed(500, ServerErrorMessage)
      else
        OwnedByMembers(records, user);
        OwnedByOrdered(records, user);
        Listed(OwnedBy(records, user))
    }
  }

  /** Saving for two users and listing for one: the listing holds exactly the
      requester's message. */
  method SaveThenList(alice: UserId, bob: UserId, body: SaveBody)
    returns (listing: Listing)
    requires alice != bob
    requires body.sender == Str("user") && body.text == Str("find all users")
    requires body.timestamp == Str("10:42 AM")
    requires body.database == Str("MongoDB") && body.schema == Str("users:{name:String}")
    ensures listing.Listed? && |listing.items| == 1
    ensures listing.items[0].owner == alice && listing.items[0].text == "find all users"
    ensures listing.items[0].schema == Some("users:{name:String}")
  {
    WellFormedBodyInserted(alice, body, 0);
    var recA := PlanSave(alice, body, 0).rec;
    var store := new MessageStore();
    var first := store.SaveMessage(alice, body, true);
    assert store.records == [recA];
    WellFormedBodyInserted(bob, body, 1);
    var recB := PlanSave(bob, body, 1).rec;
    var second := store.SaveMessage(bob, body, true);
    assert store.records == [recA] + [recB];
    OwnedByAppend([], recA, alice);
    OwnedByAppend([recA], recB, alice);
    listing := store.GetMessages(alice, true);
  }
}
