/** The example `POST /api/feedback` route shipped with the thumbs-feedback
    recipe: it requires a signed-in user, validates the body, and inserts
    one row into `cb_feedback` with the service-role client. Every thrown
    error becomes a 500. */
module ExampleFeedback {
  import opened Js
  import opened FeedbackRequest
  import DemoFeedback

  /** The object handed to `supabase.from('cb_feedback').insert`. */
  datatype InsertRow = InsertRow(
    entity_type: Value,
    entity_id: Value,
    context_id: Value,
    rating: Value,
    feedback_text: Value,
    user_role: Value,
    user_id: string)

  /** The session lookup throws, finds nobody, or finds a user with an id. */
  datatype SessionLookup = LookupThrew | NoUser | User(id: string)

  /** What the insert reports: no error, an error, or it throws. */
  datatype InsertResult = Saved | ErrorReported | InsertThrew

  datatype Response =
    | Success
    | Failure(status: int, error: string)

  const UNAUTHORIZED := "Unauthorized"
  const SAVE_FAILED := "Failed to save feedback"

  /** The row: `x || null` turns absent and empty optional fields into null. */
  function RowOf(f: Fields, userId: string): (r: InsertRow)
    ensures r.context_id == (if Truthy(f.contextId) then f.contextId else Null)
    ensures r.feedback_text == (if Truthy(f.feedbackText) then f.feedbackText else Null)
    ensures r.user_role == (if Truthy(f.userRole) then f.userRole else Null)
    ensures r.entity_type == f.entityType && r.entity_id == f.entityId && r.rating == f.rating
    ensures r.user_id == userId
  {
    InsertRow(f.entityType, f.entityId, Or(f.contextId, Null), f.rating,
              Or(f.feedbackText, Null), Or(f.userRole, Null), userId)
  }

  /** The handler. `body` is None when the request body is not JSON;
      `serviceKey` is the `SUPABASE_SERVICE_ROLE_KEY` variable; `insert` is
      the database call, which receives the row. */
  function Post(session: SessionLookup, body: Option<Value>, serviceKey: Option<string>,
                insert: InsertRow -> InsertResult): (r: Response)
    ensures session.LookupThrew? ==> r == Failure(500, SAVE_FAILED)
    ensures session.NoUser? ==> r == Failure(401, UNAUTHORIZED)
  {
    match session
    case LookupThrew => Failure(500, SAVE_FAILED)
    case NoUser => Failure(401, UNAUTHORIZED)
    case User(id) =>
      if body.None? || Destructure(body.value).None? then Failure(500, SAVE_FAILED)
      else
        var f := Destructure(body.value).value;
        if !Acceptable(f) then Failure(400, REQUIRED_MESSAGE)
        else if !Present(serviceKey) then Failure(500, SAVE_FAILED)
        else
          match insert(RowOf(f, id))
          case Saved => Success
          case _ => Failure(500, SAVE_FAILED)
  }

  /** Without a signed-in user the route answers 401 whatever the body, the
      key or the database: the body is not even read. */
  lemma UnauthorizedBeforeBody(b1: Option<Value>, b2: Option<Value>, k1: Option<string>, k2: Option<string>,
                               i1: InsertRow -> InsertResult, i2: InsertRow -> InsertResult)
    ensures Post(NoUser, b1, k1, i1) == Post(NoUser, b2, k2, i2) == Failure(401, UNAUTHORIZED)
  {
  }

  /** 400 exactly for a parsed, non-null body that fails validation, with a
      signed-in user. */
  lemma BadRequestExactlyWhenInvalid(session: SessionLookup, body: Option<Value>, serviceKey: Option<string>,
                                     insert: InsertRow -> InsertResult)
    ensures Post(session, body, serviceKey, insert).Failure? && Post(session, body, serviceKey, insert).status == 400
      <==> session.User? && body.Some? && body.value != Null && !Acceptable(Destructure(body.value).value)
  {
  }

  /** `{success: true}` comes back only when the insert of the request's row,
      with the session user's id, reported no error. */
  lemma SuccessOnlyWhenSaved(session: SessionLookup, body: Option<Value>, serviceKey: Option<string>,
                             insert: InsertRow -> InsertResult)
    ensures Post(session, body, serviceKey, insert) == Success <==>
      && session.User? && body.Some? && body.value != Null
      && Acceptable(Destructure(body.value).value) && Present(serviceKey)
      && insert(RowOf(Destructure(body.value).value, session.id)) == Saved
  {
  }

  /** Every other outcome is a 400, a 401 or a 500; a missing service key or
      an insert that errors or throws is a 500. */
  lemma FailuresAre500Otherwise(session: SessionLookup, body: Option<Value>, serviceKey: Option<string>,
                                insert: InsertRow -> InsertResult)
    ensures var r := Post(session, body, serviceKey, insert);
      r.Failure? ==> r.status in {400, 401, 500}
    ensures var r := Post(session, body, serviceKey, insert);
      r.Failure? && r.status == 500 ==> r.error == SAVE_FAILED
  {
  }

  /** The two routes map the optional fields differently: for an empty
      string this one stores null where the demo route keeps the string. */
  lemma EmptyStringBecomesNull(f: Fields, userId: string)
    requires f.contextId == Str("")
    ensures RowOf(f, userId).context_id == Null
    ensures DemoFeedback.RowOf(f, userId).contextId == Str("")
  {
  }
}
