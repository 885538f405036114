/** The `ThumbsFeedback` widget: a thumbs up submits at once; a thumbs down
    may first ask for the user's role (remembered in browser storage) and
    then for a comment, which can be sent or skipped. Submitting hands the
    payload to the `onSubmit` callback and, unless the network is disabled,
    posts it to the endpoint; request errors are swallowed. */
module ThumbsFeedback {
  import opened Js

  datatype FeedbackState = Idle | RolePicker | TextInput | Submitted

  /** What the host page passes in. An absent `roles` is the empty list;
      `onSubmit` is reduced to whether one was given. */
  datatype Props = Props(
    entityType: string,
    entityId: string,
    contextId: Option<string>,
    roles: seq<string>,
    roleStorageKey: Option<string>,
    endpoint: Option<string>,
    disableNetwork: bool,
    hasOnSubmit: bool)

  datatype FeedbackPayload = FeedbackPayload(
    entityType: string,
    entityId: string,
    contextId: Option<string>,
    rating: bool,
    feedbackText: Option<string>,
    userRole: Option<string>)

  /** A POST of one payload as JSON to an endpoint. */
  datatype Request = Request(endpoint: string, payload: FeedbackPayload)

  /** What the user can do to the rendered widget. */
  datatype Control =
    | ThumbUp
    | ThumbDown
    | SelectRole(role: string)
    | EditText(text: string)
    | EnterKey
    | SendButton
    | SkipButton

  function StorageKey(p: Props): string
  {
    if p.roleStorageKey.Some? then p.roleStorageKey.value else "cb-feedback-role"
  }

  function Endpoint(p: Props): string
  {
    if p.endpoint.Some? then p.endpoint.value else "/api/feedback"
  }

  /** `x || undefined` on an optional string: empty becomes absent. */
  function OrAbsent(x: Option<string>): (r: Option<string>)
    ensures r.None? <==> !Present(x)
    ensures r.Some? ==> r == x
  {
    if Present(x) then x else None
  }

  /** The payload `send(rating, text, role)` builds: the empty context id,
      text and role are dropped, and an explicit role wins over the one the
      widget remembers. */
  function BuildPayload(p: Props, rating: bool, text: Option<string>, role: Option<string>,
                        userRole: Option<string>): (r: FeedbackPayload)
    ensures r.entityType == p.entityType && r.entityId == p.entityId && r.rating == rating
    ensures Present(p.contextId) ==> r.contextId == p.contextId
    ensures !Present(p.contextId) ==> r.contextId.None?
    ensures Present(text) ==> r.feedbackText == text
    ensures !Present(text) ==> r.feedbackText.None?
    ensures Present(role) ==> r.userRole == role
    ensures !Present(role) && Present(userRole) ==> r.userRole == userRole
    ensures !Present(role) && !Present(userRole) ==> r.userRole.None?
  {
    FeedbackPayload(p.entityType, p.entityId, OrAbsent(p.contextId), rating, OrAbsent(text),
                    if Present(role) then role else OrAbsent(userRole))
  }

  /** No field of a payload is ever the empty string. */
  lemma PayloadHasNoEmptyOptionals(p: Props, rating: bool, text: Option<string>, role: Option<string>,
                                   userRole: Option<string>)
    ensures var r := BuildPayload(p, rating, text, role, userRole);
      (r.contextId.None? || Present(r.contextId))
      && (r.feedbackText.None? || Present(r.feedbackText))
      && (r.userRole.None? || Present(r.userRole))
  {
  }

  /** The controls each state renders. A role picker without roles falls
      through to the thumbs; a submitted widget shows only its thanks. */
  predicate Offers(state: FeedbackState, roles: seq<string>, c: Control)
  {
    match state
    case Submitted => false
    case RolePicker =>
      if |roles| > 0 then c.SelectRole? && c.role in roles else c == ThumbUp || c == ThumbDown
    case TextInput => c.EditText? || c == EnterKey || c == SendButton || c == SkipButton
    case Idle => c == ThumbUp || c == ThumbDown
  }

  /** The state a control leads to; `remembered` is whether a role is held. */
  function Next(state: FeedbackState, c: Control, roles: seq<string>, remembered: bool): (s: FeedbackState)
    requires Offers(state, roles, c)
    ensures s == Submitted <==> c in {ThumbUp, EnterKey, SendButton, SkipButton}
    ensures s == RolePicker <==> c == ThumbDown && |roles| > 0 && !remembered
  {
    match c
    case ThumbUp => Submitted
    case ThumbDown => if |roles| > 0 && !remembered then RolePicker else TextInput
    case SelectRole(_) => TextInput
    case EditText(_) => TextInput
    case EnterKey => Submitted
    case SendButton => Submitted
    case SkipButton => Submitted
  }

  /** Submitted is terminal: it offers nothing to press. */
  lemma SubmittedIsTerminal(roles: seq<string>, c: Control)
    ensures !Offers(Submitted, roles, c)
  {
  }

  /** Every control that is offered leads to a state that is submitted or
      again offers a way forward, so the widget never gets stuck before
      submitting. */
  lemma EveryStateBeforeSubmitOffersAControl(state: FeedbackState, roles: seq<string>)
    requires state != Submitted
    ensures exists c :: Offers(state, roles, c)
  {
    assert Offers(state, roles, if state == TextInput then SkipButton
                                 else if state == RolePicker && |roles| > 0 then SelectRole(roles[0])
                                 else ThumbUp);
  }

  class Widget {
    const props: Props
    var state: FeedbackState
    var feedbackText: string
    var userRole: Option<string>
    /** The browser's `localStorage`. */
    var storage: map<string, string>
    /** The payloads handed to `onSubmit`, oldest first. */
    var submitted: seq<FeedbackPayload>
    /** The POST requests made, oldest first. */
    var requests: seq<Request>
    /** Every payload `send` built. */
    ghost var sent: seq<FeedbackPayload>

    ghost predicate Valid()
      reads this
    {
      && |sent| <= 1
      && (state == Submitted <==> |sent| == 1)
      && submitted == (if props.hasOnSubmit then sent else [])
      && requests == (if props.disableNetwork || sent == [] then [] else [Request(Endpoint(props), sent[0])])
      && (state == RolePicker ==> |props.roles| > 0)
    }

    /** Mounting the widget: the remembered role is read only when roles
        are offered. */
    constructor (p: Props, stored: map<string, string>)
      ensures props == p && state == Idle && feedbackText == "" && storage == stored
      ensures userRole == if |p.roles| > 0 && StorageKey(p) in stored then Some(stored[StorageKey(p)]) else None
      ensures submitted == [] && requests == [] && sent == []
      ensures Valid()
    {
      props := p;
      state := Idle;
      feedbackText := "";
      storage := stored;
      userRole := if |p.roles| > 0 && StorageKey(p) in stored then Some(stored[StorageKey(p)]) else None;
      submitted := [];
      requests := [];
      sent := [];
    }

    /** `send`: the payload goes to `onSubmit` if there is one, then to the
        endpoint unless the network is disabled. */
    method Send(rating: bool, text: Option<string>, role: Option<string>)
      modifies this
      ensures var payload := BuildPayload(props, rating, text, role, old(userRole));
        && sent == old(sent) + [payload]
        && submitted == old(submitted) + (if props.hasOnSubmit then [payload] else [])
        && requests == old(requests) + (if props.disableNetwork then [] else [Request(Endpoint(props), payload)])
      ensures state == old(state) && feedbackText == old(feedbackText)
      ensures userRole == old(userRole) && storage == old(storage)
    {
      var payload := BuildPayload(props, rating, text, role, userRole);
      sent := sent + [payload];
      if props.hasOnSubmit {
        submitted := submitted + [payload];
      }
      if !props.disableNetwork {
        requests := requests + [Request(Endpoint(props), payload)];
      }
    }

    method HandleThumbUp()
      modifies this
      ensures state == Submitted
      ensures sent == old(sent) + [BuildPayload(props, true, None, None, old(userRole))]
      ensures submitted == old(submitted) + (if props.hasOnSubmit then [sent[|sent| - 1]] else [])
      ensures requests == old(requests) + (if props.disableNetwork then [] else [Request(Endpoint(props), sent[|sent| - 1])])
      ensures feedbackText == old(feedbackText) && userRole == old(userRole) && storage == old(storage)
    {
      state := Submitted;
      Send(true, None, None);
    }

    method HandleThumbDown()
      modifies this
      ensures state == if |props.roles| > 0 && !Present(userRole) then RolePicker else TextInput
      ensures unchanged(this`feedbackText, this`userRole, this`storage)
      ensures unchanged(this`submitted, this`requests, this`sent)
    {
      if |props.roles| > 0 && !Present(userRole) {
        state := RolePicker;
      } else {
        state := TextInput;
      }
    }

    method HandleRoleSelect(role: string)
      modifies this
      ensures storage == old(storage)[StorageKey(props) := role]
      ensures userRole == Some(role) && state == TextInput
      ensures unchanged(this`feedbackText, this`submitted, this`requests, this`sent)
    {
      storage := storage[StorageKey(props) := role];
      userRole := Some(role);
      state := TextInput;
    }

    /** The text field's `onChange`. */
    method SetFeedbackText(text: string)
      modifies this
      ensures feedbackText == text
      ensures unchanged(this`state, this`userRole, this`storage, this`submitted, this`requests, this`sent)
    {
      feedbackText := text;
    }

    /** Send, or Enter in the text field. */
    method HandleTextSubmit()
      modifies this
      ensures state == Submitted
      ensures sent == old(sent) + [BuildPayload(props, false, Some(old(feedbackText)), None, old(userRole))]
      ensures submitted == old(submitted) + (if props.hasOnSubmit then [sent[|sent| - 1]] else [])
      ensures requests == old(requests) + (if props.disableNetwork then [] else [Request(Endpoint(props), sent[|sent| - 1])])
      ensures feedbackText == old(feedbackText) && userRole == old(userRole) && storage == old(storage)
    {
      state := Submitted;
      Send(false, Some(feedbackText), None);
    }

    method HandleTextSkip()
      modifies this
      ensures state == Submitted
      ensures sent == old(sent) + [BuildPayload(props, false, None, None, old(userRole))]
      ensures submitted == old(submitted) + (if props.hasOnSubmit then [sent[|sent| - 1]] else [])
      ensures requests == old(requests) + (if props.disableNetwork then [] else [Request(Endpoint(props), sent[|sent| - 1])])
      ensures feedbackText == old(feedbackText) && userRole == old(userRole) && storage == old(storage)
    {
      state := Submitted;
      Send(false, None, None);
    }

    /** The user acts on a rendered control. The widget moves as `Next`
        says, and exactly one payload is sent, on reaching Submitted. */
    method Press(c: Control)
      requires Valid() && Offers(state, props.roles, c)
      modifies this
      ensures Valid()
      ensures state == Next(old(state), c, props.roles, Present(old(userRole)))
      ensures |sent| == |old(sent)| + (if state == Submitted then 1 else 0)
      ensures state != Submitted ==> sent == old(sent)
      ensures c == ThumbUp ==> sent == old(sent) + [BuildPayload(props, true, None, None, old(userRole))]
      ensures c == EnterKey || c == SendButton ==>
        sent == old(sent) + [BuildPayload(props, false, Some(old(feedbackText)), None, old(userRole))]
      ensures c == SkipButton ==> sent == old(sent) + [BuildPayload(props, false, None, None, old(userRole))]
      ensures c.SelectRole? ==> storage == old(storage)[StorageKey(props) := c.role] && userRole == Some(c.role)
      ensures !c.SelectRole? ==> storage == old(storage) && userRole == old(userRole)
      ensures c.EditText? ==> feedbackText == c.text
      ensures !c.EditText? ==> feedbackText == old(feedbackText)
    {
      match c
      case ThumbUp => HandleThumbUp();
      case ThumbDown => HandleThumbDown();
      case SelectRole(role) => HandleRoleSelect(role);
      case EditText(text) => SetFeedbackText(text);
      case EnterKey => HandleTextSubmit();
      case SendButton => HandleTextSubmit();
      case SkipButton => HandleTextSkip();
    }
  }
}
