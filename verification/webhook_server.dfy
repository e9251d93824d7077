/**
 * The `POST /webhook` route: parse the body, require the `X-GitHub-Event`
 * header, pick at most one handler by event name and `action`, and answer
 * with a fixed-shape response. The outcome of the business action never
 * reaches the response; only an exception does, as a generic 500.
 */
module WebhookServer {
  import opened Wrappers
  import opened Json
  import opened Text
  import opened PrHandlers

  /** The request body as `c.req.json()` sees it: it throws on text that is not JSON. */
  datatype Body = Unparsable | Parsed(payload: Json)

  datatype ResponseBody = ErrorBody(error: string) | StatusBody(status: string)

  datatype Response = Response(code: int, body: ResponseBody)

  const Success: Response := Response(200, StatusBody("success"))
  const MissingHeader: Response := Response(400, ErrorBody("Missing X-GitHub-Event header"))
  const InternalError: Response := Response(500, ErrorBody("Internal server error"))

  datatype Handler = NewPullRequestHandler | IssueCommentHandler | ReviewCommentHandler

  /** What the route does with one delivery: the response, and the handler it invoked, if any. */
  datatype Delivery = Delivery(response: Response, invoked: Option<Handler>)

  /** The `switch` before any handler runs: it throws, selects no handler, or selects one. */
  datatype Choice = SwitchThrows | NoHandler | Invoke(handler: Handler)

  /** `!payload.comment?.body?.startsWith("🤖 ")`: let through, hold back, or throw. */
  datatype Gate = Pass | Block | GateThrows

  /**
   * The outer marker gate: an untrimmed prefix test on the raw body; a missing
   * body lets the comment through, and a body that is not a string throws. What
   * it holds back, the classifier declines too, whatever the bot's name.
   */
  function MarkerGate(payload: Value): (g: Gate)
    requires !IsNullish(payload)
    ensures var body := OptProp(Prop(payload, "comment"), "body");
            g == GateThrows <==> !IsNullish(body) && !IsString(body)
    ensures var body := OptProp(Prop(payload, "comment"), "body");
            g == Block ==> IsString(body) && forall setting :: !ShouldRespondToComment(body.value.s, setting)
  {
    var body := OptProp(Prop(payload, "comment"), "body");
    if IsNullish(body) then Pass
    else if !body.value.JStr? then GateThrows  // `startsWith` is not a function of this value
    else if StartsWith(body.value.s, BotMarker) then
      assert forall setting :: !ShouldRespondToComment(body.value.s, setting) by {
        forall setting {
          MarkerPrefixedNeverResponds(body.value.s, setting);
        }
      }
      Block
    else Pass
  }

  /**
   * The `switch` on the event name: each handler is selected only for its own
   * event, an event the route does not know selects nothing, and it throws
   * only on a `null` payload or when the gate throws.
   */
  function Choose(event: string, payload: Json): (c: Choice)
    ensures c.Invoke? ==>
      && (c.handler == NewPullRequestHandler <==> event == "pull_request")
      && (c.handler == IssueCommentHandler <==> event == "issue_comment")
      && (c.handler == ReviewCommentHandler <==> event == "pull_request_review_comment")
    ensures event != "pull_request" && event != "issue_comment" && event != "pull_request_review_comment" ==> c == NoHandler
    ensures c.SwitchThrows? ==> payload.JNull? || MarkerGate(Some(payload)) == GateThrows
  {
    if event == "pull_request" then
      if payload.JNull? then SwitchThrows
      else
        var action := Prop(Some(payload), "action");
        if action == Some(JStr("opened")) || action == Some(JStr("synchronize")) then Invoke(NewPullRequestHandler)
        else NoHandler
    else if event == "issue_comment" || event == "pull_request_review_comment" then
      if payload.JNull? then SwitchThrows
      else if Prop(Some(payload), "action") != Some(JStr("created")) then NoHandler
      else
        match MarkerGate(Some(payload))
        case GateThrows => SwitchThrows
        case Block => NoHandler
        case Pass => Invoke(if event == "issue_comment" then IssueCommentHandler else ReviewCommentHandler)
    else NoHandler
  }

  function PlanOf(handler: Handler, payload: Json, botSetting: Option<string>): Plan {
    match handler
    case NewPullRequestHandler => NewPullRequestPlan(Some(payload))
    case IssueCommentHandler => IssueCommentPlan(Some(payload), botSetting)
    case ReviewCommentHandler => ReviewCommentPlan(Some(payload), botSetting)
  }

  /**
   * The route body. The body is parsed before the header is looked at; a
   * missing or empty header is a 400; any exception, from parsing, from the
   * switch or escaping a handler, is a 500; everything else is a 200.
   */
  function Route(body: Body, eventHeader: Option<string>, botSetting: Option<string>): (d: Delivery)
    ensures body.Unparsable? ==> d == Delivery(InternalError, None)
    ensures body.Parsed? && (eventHeader.None? || eventHeader.value == "") ==> d == Delivery(MissingHeader, None)
    ensures d.response == Success || d.response == MissingHeader || d.response == InternalError
    ensures d.invoked.Some? ==> body.Parsed? && Choose(eventHeader.value, body.payload) == Invoke(d.invoked.value)
    ensures d.response == InternalError <==>
      || body.Unparsable?
      || (eventHeader.Some? && eventHeader.value != "" && Choose(eventHeader.value, body.payload).SwitchThrows?)
      || (d.invoked.Some? && PlanOf(d.invoked.value, body.payload, botSetting) == Throw)
  {
    if body.Unparsable? then Delivery(InternalError, None)
    else if eventHeader.None? || eventHeader.value == "" then Delivery(MissingHeader, None)
    else
      match Choose(eventHeader.value, body.payload)
      case SwitchThrows => Delivery(InternalError, None)
      case NoHandler => Delivery(Success, None)
      case Invoke(h) =>
        if PlanOf(h, body.payload, botSetting) == Throw then Delivery(InternalError, Some(h))
        else Delivery(Success, Some(h))
  }

  /**
   * The route with its handlers: it answers as `Route` says and submits to
   * the agent what the invoked handler submits, so at most one request per
   * delivery, and the response does not depend on how the agent behaved.
   */
  method ServeWebhook(body: Body, eventHeader: Option<string>, botSetting: Option<string>,
                      agent: Agent, behaviour: AgentBehaviour) returns (response: Response)
    modifies agent
    ensures response == Route(body, eventHeader, botSetting).response
    ensures var d := Route(body, eventHeader, botSetting);
            agent.submitted == old(agent.submitted)
              + (if d.invoked.Some? then RequestsOf(PlanOf(d.invoked.value, body.payload, botSetting), behaviour) else [])
  {
    if body.Unparsable? {
      return InternalError;
    }
    var payload := body.payload;
    if eventHeader.None? || eventHeader.value == "" {
      return MissingHeader;
    }
    var event := eventHeader.value;
    var choice := Choose(event, payload);
    if choice.SwitchThrows? {
      return InternalError;
    }
    if choice.Invoke? {
      var r: HandlerResult;
      match choice.handler {
        case NewPullRequestHandler =>
          r := HandleNewPullRequest(Some(payload), agent, behaviour);
        case IssueCommentHandler =>
          r := HandleIssueComment(Some(payload), botSetting, agent, behaviour);
        case ReviewCommentHandler =>
          r := HandleReviewComment(Some(payload), botSetting, agent, behaviour);
      }
      if r == Threw {
        return InternalError;
      }
    }
    return Success;
  }

  // ---------------------------------------------------------------------------
  // Properties of the route
  // ---------------------------------------------------------------------------

  /** An unparsable body is a 500 even when the header is missing too: parsing comes first. */
  lemma UnparsableBeforeHeader(eventHeader: Option<string>, botSetting: Option<string>)
    ensures Route(Unparsable, eventHeader, botSetting).response.code == 500
    ensures Route(Unparsable, None, botSetting) == Delivery(InternalError, None)
  {
  }

  /** `pull_request` invokes the new-PR handler exactly for `opened` and `synchronize`, and nothing else otherwise. */
  lemma PullRequestRouting(payload: Json, botSetting: Option<string>)
    requires payload.JObj?
    ensures var d := Route(Parsed(payload), Some("pull_request"), botSetting);
            var action := Prop(Some(payload), "action");
            && (d.invoked == Some(NewPullRequestHandler) <==> action == Some(JStr("opened")) || action == Some(JStr("synchronize")))
            && (d.invoked.None? ==> d == Delivery(Success, None))
  {
  }

  /**
   * A created comment reaches its handler exactly when its raw body does not
   * start with the marker; a comment without a body reaches it too.
   */
  lemma CommentRouting(payload: Json, event: string, botSetting: Option<string>)
    requires event == "issue_comment" || event == "pull_request_review_comment"
    requires payload.JObj? && Prop(Some(payload), "action") == Some(JStr("created"))
    requires var body := OptProp(Prop(Some(payload), "comment"), "body"); IsNullish(body) || IsString(body)
    ensures var d := Route(Parsed(payload), Some(event), botSetting);
            var body := OptProp(Prop(Some(payload), "comment"), "body");
            && (d.invoked.Some? <==> IsNullish(body) || !StartsWith(body.value.s, BotMarker))
            && (d.invoked.Some? ==> d.invoked.value == (if event == "issue_comment" then IssueCommentHandler else ReviewCommentHandler))
            && (d.invoked.None? ==> d.response == Success)
  {
  }

  /** An event the route does not know is acknowledged without invoking anything, whatever the payload. */
  lemma UnknownEventIgnored(payload: Json, event: string, botSetting: Option<string>)
    requires event != "" && event != "pull_request" && event != "issue_comment" && event != "pull_request_review_comment"
    ensures Route(Parsed(payload), Some(event), botSetting) == Delivery(Success, None)
  {
  }

  /**
   * The outer gate only holds back what the classifier would decline anyway:
   * a body that starts with the marker is never answered, and each comment
   * handler would decline it without calling the agent.
   */
  lemma OuterGateAgreesWithClassifier(payload: Json, botSetting: Option<string>)
    requires payload.JObj? && MarkerGate(Some(payload)) == Block
    ensures IsString(Prop(Prop(Some(payload), "comment"), "body"))
    ensures !ShouldRespondToComment(Prop(Prop(Some(payload), "comment"), "body").value.s, botSetting)
    ensures ReviewCommentPlan(Some(payload), botSetting) == Decline
    ensures !IsNullish(Prop(Some(payload), "issue")) ==> IssueCommentPlan(Some(payload), botSetting) == Decline
  {
  }

  /** Whatever a handler returns, the delivery is acknowledged with 200 unless something threw. */
  lemma SuccessUnlessThrown(body: Body, eventHeader: Option<string>, botSetting: Option<string>)
    requires body.Parsed? && eventHeader.Some? && eventHeader.value != ""
    requires !Choose(eventHeader.value, body.payload).SwitchThrows?
    requires var d := Route(body, eventHeader, botSetting);
             d.invoked.Some? ==> PlanOf(d.invoked.value, body.payload, botSetting) != Throw
    ensures Route(body, eventHeader, botSetting).response == Success
  {
  }

  /**
   * A pull request that was opened, with its repository, owner and pull
   * request present, is acknowledged with 200 after the new-PR handler was
   * invoked, and the agent receives exactly one review request naming it,
   * unless the agent cannot be obtained.
   */
  lemma OpenedPullRequestReviewed(payload: Json, botSetting: Option<string>, behaviour: AgentBehaviour)
    requires payload.JObj? && Prop(Some(payload), "action") == Some(JStr("opened"))
    requires !IsNullish(Prop(Some(payload), "pull_request"))
    requires !IsNullish(Prop(Some(payload), "repository")) && !IsNullish(Prop(Prop(Some(payload), "repository"), "owner"))
    ensures Route(Parsed(payload), Some("pull_request"), botSetting) == Delivery(Success, Some(NewPullRequestHandler))
    ensures var request := AgentRequest(
              ReviewPullRequest(Prop(Prop(Some(payload), "pull_request"), "number"),
                                Prop(Prop(Prop(Some(payload), "repository"), "owner"), "login"),
                                Prop(Prop(Some(payload), "repository"), "name")),
              CodeReviewSchema);
            RequestsOf(PlanOf(NewPullRequestHandler, payload, botSetting), behaviour)
              == (if behaviour == CreationFails then [] else [request])
  {
    NewPullRequestAccepted(Some(payload), behaviour);
  }

  /**
   * A created comment on a pull request whose raw body does not start with the
   * marker and that the classifier accepts, with repository, owner and author
   * present, is acknowledged with 200, and the agent receives exactly one reply
   * request, unless the agent cannot be obtained.
   */
  lemma TriggeredIssueCommentAnswered(payload: Json, botSetting: Option<string>, behaviour: AgentBehaviour)
    requires payload.JObj? && Prop(Some(payload), "action") == Some(JStr("created"))
    requires !IsNullish(Prop(Some(payload), "issue")) && Truthy(Prop(Prop(Some(payload), "issue"), "pull_request"))
    requires !IsNullish(Prop(Some(payload), "comment")) && IsString(Prop(Prop(Some(payload), "comment"), "body"))
    requires !StartsWith(Prop(Prop(Some(payload), "comment"), "body").value.s, BotMarker)
    requires ShouldRespondToComment(Prop(Prop(Some(payload), "comment"), "body").value.s, botSetting)
    requires !IsNullish(Prop(Some(payload), "repository")) && !IsNullish(Prop(Prop(Some(payload), "repository"), "owner"))
    requires !IsNullish(Prop(Prop(Some(payload), "comment"), "user"))
    ensures Route(Parsed(payload), Some("issue_comment"), botSetting) == Delivery(Success, Some(IssueCommentHandler))
    ensures var plan := PlanOf(IssueCommentHandler, payload, botSetting);
            plan.Attempt? && plan.request.Some?
            && RequestsOf(plan, behaviour) == (if behaviour == CreationFails then [] else [plan.request.value])
  {
    IssueCommentAccepted(Some(payload), botSetting, behaviour);
  }
}
