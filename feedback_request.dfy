/** The request body both feedback routes accept, and the check both make
    before storing anything. The body is whatever JSON the client sent: the
    fields are typed as strings and a boolean, but only `rating`'s type is
    checked, so each field is kept as a JSON value. */
module FeedbackRequest {
  import opened Js

  datatype Fields = Fields(
    entityType: Value,
    entityId: Value,
    contextId: Value,
    rating: Value,
    feedbackText: Value,
    userRole: Value)

  const REQUIRED_MESSAGE := "entityType, entityId, and rating are required"

  /** `const { entityType, ... } = body`: destructuring reads each property,
      and throws (None) only when the body is null. Any other non-object
      value has none of the properties. */
  function Destructure(body: Value): (r: Option<Fields>)
    ensures r.None? <==> body == Null
    ensures r.Some? ==>
      && r.value.entityType == Prop(body, "entityType") && r.value.entityId == Prop(body, "entityId")
      && r.value.contextId == Prop(body, "contextId") && r.value.rating == Prop(body, "rating")
      && r.value.feedbackText == Prop(body, "feedbackText") && r.value.userRole == Prop(body, "userRole")
  {
    if body == Null then None
    else Some(Fields(Prop(body, "entityType"), Prop(body, "entityId"), Prop(body, "contextId"),
                     Prop(body, "rating"), Prop(body, "feedbackText"), Prop(body, "userRole")))
  }

  /** `!entityType || !entityId || typeof rating !== 'boolean'` rejects. */
  predicate Acceptable(f: Fields)
    ensures Acceptable(f) ==> f.rating.Bool? && !Nullish(f.entityType) && !Nullish(f.entityId)
    ensures f.entityType == Str("") || f.entityId == Str("") ==> !Acceptable(f)
  {
    Truthy(f.entityType) && Truthy(f.entityId) && f.rating.Bool?
  }

  /** An object body is acceptable exactly when it carries a non-empty
      entity type and id (or other truthy values) and a boolean rating;
      anything that is not an object never is. */
  lemma AcceptableBodies(body: Value)
    requires body != Null
    ensures Acceptable(Destructure(body).value) <==>
      body.Obj? && "entityType" in body.fields && Truthy(body.fields["entityType"])
      && "entityId" in body.fields && Truthy(body.fields["entityId"])
      && "rating" in body.fields && body.fields["rating"].Bool?
  {
  }
}
