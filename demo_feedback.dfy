/** `POST /api/demo/feedback`: validates the body, then keeps the feedback
    in a process-wide in-memory list when there is no database or no
    signed-in user, and inserts it into `cb_feedback` otherwise. Every
    failure after validation is reported as a success that was not
    persisted. */
module DemoFeedback {
  import opened Js
  import opened FeedbackRequest

  /** One entry of the in-memory list. */
  datatype Record = Record(
    entityType: Value,
    entityId: Value,
    contextId: Value,
    rating: Value,
    feedbackText: Value,
    userRole: Value,
    createdAt: string)

  /** The parameters of the `INSERT INTO cb_feedback` statement. */
  datatype Row = Row(
    entityType: Value,
    entityId: Value,
    contextId: Value,
    rating: Value,
    feedbackText: Value,
    userRole: Value,
    userId: string)

  /** The result of the session lookup: it throws, or yields the signed-in
      user's id if there is one (`session?.user?.id`). */
  datatype SessionLookup = LookupThrew | Session(userId: Option<string>)

  /** The status and JSON the route answers with. */
  datatype Response =
    | BadRequest(error: string)
    | Ok(success: bool, persisted: bool, note: Option<string>)

  const LOGIN_NOTE := "Login to persist feedback to database"

  /** The path a request takes through the handler. */
  datatype Path =
    | Crashed         // JSON parsing or destructuring threw
    | Rejected        // validation failed
    | KeptNoDatabase  // appended to the in-memory list: no DATABASE_URL
    | KeptNoUser      // appended to the in-memory list: nobody signed in
    | LookupFailed    // the session lookup threw
    | Inserted(row: Row)
    | InsertFailed(row: Row)

  function RecordOf(f: Fields, now: string): Record
  {
    Record(f.entityType, f.entityId, f.contextId, f.rating, f.feedbackText, f.userRole, now)
  }

  /** The insert's parameters: absent optional fields become null (`??`),
      while an empty string is kept as it is. */
  function RowOf(f: Fields, userId: string): (r: Row)
    ensures r.contextId == (if Nullish(f.contextId) then Null else f.contextId)
    ensures r.feedbackText == (if Nullish(f.feedbackText) then Null else f.feedbackText)
    ensures r.userRole == (if Nullish(f.userRole) then Null else f.userRole)
    ensures r.entityType == f.entityType && r.entityId == f.entityId && r.rating == f.rating && r.userId == userId
  {
    Row(f.entityType, f.entityId, Coalesce(f.contextId, Null), f.rating,
        Coalesce(f.feedbackText, Null), Coalesce(f.userRole, Null), userId)
  }

  /** Which way the handler goes. `body` is None when the request body is
      not JSON; `insertThrows` tells whether the query would throw. */
  function Route(body: Option<Value>, databaseUrl: Option<string>, session: SessionLookup,
                 insertThrows: Row -> bool): (p: Path)
    ensures p == Crashed <==> body.None? || Destructure(body.value).None?
    ensures p == Rejected <==> body.Some? && Destructure(body.value).Some? && !Acceptable(Destructure(body.value).value)
    ensures p == KeptNoDatabase ==> !Present(databaseUrl)
    ensures p == LookupFailed ==> Present(databaseUrl) && session.LookupThrew?
    ensures p == KeptNoUser ==> Present(databaseUrl) && session.Session? && !Present(session.userId)
    ensures p.Inserted? || p.InsertFailed? ==>
      && Present(databaseUrl) && session.Session? && Present(session.userId)
      && p.row == RowOf(Destructure(body.value).value, session.userId.value)
      && (p.Inserted? <==> !insertThrows(p.row))
  {
    if body.None? || Destructure(body.value).None? then Crashed
    else
      var f := Destructure(body.value).value;
      if !Acceptable(f) then Rejected
      else if !Present(databaseUrl) then KeptNoDatabase
      else if session.LookupThrew? then LookupFailed
      else if !Present(session.userId) then KeptNoUser
      else
        var row := RowOf(f, session.userId.value);
        if insertThrows(row) then InsertFailed(row) else Inserted(row)
  }

  /** The reply for each path: a crash is a success that was not persisted. */
  function ResponseOf(p: Path): (r: Response)
    ensures r.BadRequest? <==> p == Rejected
    ensures r.Ok? ==> r.success
    ensures r.Ok? && r.persisted <==> p.Inserted?
  {
    match p
    case Rejected => BadRequest(REQUIRED_MESSAGE)
    case KeptNoDatabase => Ok(true, false, None)
    case KeptNoUser => Ok(true, false, Some(LOGIN_NOTE))
    case Inserted(_) => Ok(true, true, None)
    case _ => Ok(true, false, None)
  }

  /** `persisted: true` is answered only after an insert that did not throw,
      made with a database configured and a signed-in user. */
  lemma PersistedOnlyAfterInsert(body: Option<Value>, databaseUrl: Option<string>, session: SessionLookup,
                                 insertThrows: Row -> bool)
    ensures var r := ResponseOf(Route(body, databaseUrl, session, insertThrows));
      r.Ok? && r.persisted <==>
        && body.Some? && body.value != Null && Acceptable(Destructure(body.value).value)
        && Present(databaseUrl) && session.Session? && Present(session.userId)
        && !insertThrows(RowOf(Destructure(body.value).value, session.userId.value))
  {
  }

  /** The route never answers `success: false`: every reply is either the
      400 for a bad body or a success. */
  lemma NeverReportsFailure(body: Option<Value>, databaseUrl: Option<string>, session: SessionLookup,
                            insertThrows: Row -> bool)
    ensures var r := ResponseOf(Route(body, databaseUrl, session, insertThrows));
      r.BadRequest? || (r.Ok? && r.success)
  {
  }

  /** Whether a path appends to the in-memory list. */
  predicate Buffers(p: Path)
  {
    p == KeptNoDatabase || p == KeptNoUser
  }

  /** Only an acceptable body is ever buffered or inserted, and a body that
      is not JSON or is null is answered as an unpersisted success. */
  lemma OnlyAcceptableBodiesAreKept(body: Option<Value>, databaseUrl: Option<string>, session: SessionLookup,
                                    insertThrows: Row -> bool)
    ensures var p := Route(body, databaseUrl, session, insertThrows);
      (Buffers(p) || p.Inserted?) ==> body.Some? && body.value != Null && Acceptable(Destructure(body.value).value)
    ensures body.None? || body == Some(Null) ==>
      ResponseOf(Route(body, databaseUrl, session, insertThrows)) == Ok(true, false, None)
  {
  }

  /** An acceptable body is kept in memory when no database is configured,
      or when one is but nobody is signed in, with the note in that case. */
  lemma AcceptableBodyKeptInMemory(body: Value, databaseUrl: Option<string>, session: SessionLookup,
                                   insertThrows: Row -> bool)
    requires body != Null && Acceptable(Destructure(body).value)
    ensures !Present(databaseUrl) ==>
      Route(Some(body), databaseUrl, session, insertThrows) == KeptNoDatabase
    ensures Present(databaseUrl) && session.Session? && !Present(session.userId) ==>
      ResponseOf(Route(Some(body), databaseUrl, session, insertThrows)) == Ok(true, false, Some(LOGIN_NOTE))
  {
  }

  /** The process-wide state: the in-memory list and the database table. */
  class Store {
    var inMemoryFeedback: seq<Record>
    var table: seq<Row>

    constructor (rows: seq<Row>)
      ensures inMemoryFeedback == [] && table == rows
    {
      inMemoryFeedback := [];
      table := rows;
    }

    /** One request. The list gains exactly the request's record when the
        path buffers, the table gains the row when the insert succeeds, and
        nothing else changes: the list only ever grows at its end. */
    method Post(body: Option<Value>, databaseUrl: Option<string>, session: SessionLookup,
                insertThrows: Row -> bool, now: string) returns (r: Response)
      modifies this
      ensures var p := Route(body, databaseUrl, session, insertThrows);
        && r == ResponseOf(p)
        && inMemoryFeedback == old(inMemoryFeedback)
             + (if Buffers(p) then [RecordOf(Destructure(body.value).value, now)] else [])
        && table == old(table) + (if p.Inserted? then [p.row] else [])
    {
      var p := Route(body, databaseUrl, session, insertThrows);
      if Buffers(p) {
        inMemoryFeedback := inMemoryFeedback + [RecordOf(Destructure(body.value).value, now)];
      } else if p.Inserted? {
        table := table + [p.row];
      }
      r := ResponseOf(p);
    }
  }
}
