/**
 * The comment trigger classifier and the three webhook handlers of the PR
 * review bot. A handler reads the addressing fields it needs from the payload
 * (a read of a field of `undefined`/`null` throws, and the reads before the
 * `try` are not caught), consults the classifier, and then makes at most one
 * call to the external reasoning agent inside a `try`, turning its outcome
 * into a boolean.
 */
module PrHandlers {
  import opened Wrappers
  import opened Json
  import opened Text
  import opened PrUrl

  // ---------------------------------------------------------------------------
  // Trigger classifier
  // ---------------------------------------------------------------------------

  const DefaultBotName: string := "github-bot"

  /** `process.env.BOT_USERNAME || "github-bot"`: an unset or empty setting falls back to the default. */
  function BotName(setting: Option<string>): (name: string)
    ensures name != []
    ensures setting.Some? && setting.value != [] ==> name == setting.value
    ensures setting.None? || setting.value == [] ==> name == DefaultBotName
  {
    if setting.Some? && setting.value != [] then setting.value else DefaultBotName
  }

  /** The words whose presence asks for the bot's attention, the mention first. */
  function Triggers(botName: string): seq<string> {
    ["@" + botName, "bot", "ai", "review", "help", "explain", "what do you think", "can you suggest"]
  }

  /** `triggers.some((trigger) => lowerComment.includes(trigger.toLowerCase()))`. */
  function SomeTriggerIncluded(lowerComment: string, triggers: seq<string>): bool {
    if triggers == [] then false
    else Includes(lowerComment, Lower(triggers[0])) || SomeTriggerIncluded(lowerComment, triggers[1..])
  }

  lemma {:induction false} SomeTriggerIncludedSpec(lowerComment: string, triggers: seq<string>)
    ensures SomeTriggerIncluded(lowerComment, triggers) <==> exists t :: t in triggers && Contains(lowerComment, Lower(t))
  {
    if triggers != [] {
      IncludesSpec(lowerComment, Lower(triggers[0]));
      SomeTriggerIncludedSpec(lowerComment, triggers[1..]);
      if Contains(lowerComment, Lower(triggers[0])) {
        assert triggers[0] in triggers;
      } else {
        forall t | t in triggers && Contains(lowerComment, Lower(t)) ensures t in triggers[1..] {
          assert t != triggers[0];
        }
      }
    }
  }

  /** The comment starts, after trimming, with the bot's own marker. */
  predicate IsSelfAuthored(commentBody: string) {
    StartsWith(Trim(commentBody), BotMarker)
  }

  /** The classifier of comments. */
  function ShouldRespondToComment(commentBody: string, botSetting: Option<string>): bool {
    if IsSelfAuthored(commentBody) then false
    else SomeTriggerIncluded(Lower(commentBody), Triggers(BotName(botSetting)))
  }

  /**
   * Whether the bot should answer a comment: never to its own (marked)
   * comments, otherwise exactly when the lower-cased body contains one of
   * the lower-cased triggers as a plain substring.
   */
  lemma ShouldRespondSpec(commentBody: string, botSetting: Option<string>)
    ensures IsSelfAuthored(commentBody) ==> !ShouldRespondToComment(commentBody, botSetting)
    ensures !IsSelfAuthored(commentBody) ==>
      (ShouldRespondToComment(commentBody, botSetting) <==>
       exists t :: t in Triggers(BotName(botSetting)) && Contains(Lower(commentBody), Lower(t)))
  {
    SomeTriggerIncludedSpec(Lower(commentBody), Triggers(BotName(botSetting)));
  }

  /** A slice that lower-cases to the lower-cased needle is an occurrence of it in the lower-cased text. */
  lemma LowerSliceOccurs(hay: string, needle: string, i: nat)
    requires i + |needle| <= |hay| && Lower(hay[i..i + |needle|]) == Lower(needle)
    ensures OccursAt(Lower(hay), Lower(needle), i)
  {
    LowerSpec(hay);
    LowerSpec(needle);
    var slice := hay[i..i + |needle|];
    LowerSpec(slice);
    var lh, ln := Lower(hay), Lower(needle);
    assert |lh[i..i + |needle|]| == |ln|;
    forall k | 0 <= k < |ln| ensures lh[i..i + |needle|][k] == ln[k] {
      assert slice[k] == hay[i + k];
      assert Lower(slice)[k] == LowerChar(slice[k]);
    }
  }

  /**
   * Matching is by substring and ignores case: a comment that is not the
   * bot's own and contains any trigger, in any case and even inside a longer
   * word ("maintain" contains "ai"), is answered.
   */
  lemma TriggerAnywhereResponds(commentBody: string, botSetting: Option<string>, trigger: string, i: nat)
    requires !IsSelfAuthored(commentBody)
    requires trigger in Triggers(BotName(botSetting))
    requires OccursAt(Lower(commentBody), Lower(trigger), i)
    ensures ShouldRespondToComment(commentBody, botSetting)
  {
    ShouldRespondSpec(commentBody, botSetting);
  }

  /** The same, for an occurrence in the comment as written that equals a trigger once both are lower-cased, whatever its case. */
  lemma TriggerInAnyCaseResponds(commentBody: string, botSetting: Option<string>, trigger: string, i: nat)
    requires !IsSelfAuthored(commentBody)
    requires trigger in Triggers(BotName(botSetting))
    requires i + |trigger| <= |commentBody| && Lower(commentBody[i..i + |trigger|]) == Lower(trigger)
    ensures ShouldRespondToComment(commentBody, botSetting)
  {
    LowerSliceOccurs(commentBody, trigger, i);
    TriggerAnywhereResponds(commentBody, botSetting, trigger, i);
  }

  /** A comment whose first character is neither whitespace nor the robot emoji is not the bot's own. */
  lemma VisibleStartNotSelfAuthored(commentBody: string)
    requires commentBody != [] && commentBody[0] != Robot && !IsWhitespace(commentBody[0])
    ensures !IsSelfAuthored(commentBody)
  {
    assert TrimStart(commentBody) == commentBody;
    TrimEndSpec(commentBody);
    var t := TrimEnd(commentBody);
    assert t[0] == commentBody[0];
  }

  /** A trigger written in capitals is answered: "Ask AI" holds "ai" once lower-cased. */
  lemma CapitalTriggerResponds(botSetting: Option<string>)
    ensures ShouldRespondToComment("Ask AI", botSetting)
  {
    var body := "Ask AI";
    VisibleStartNotSelfAuthored(body);
    assert body[4..6] == "AI";
    assert Lower("AI") == "ai" == Lower("ai");
    assert Triggers(BotName(botSetting))[2] == "ai";
    TriggerInAnyCaseResponds(body, botSetting, "ai", 4);
  }

  /** "ai" inside another word triggers a response. */
  lemma MaintainResponds(botSetting: Option<string>)
    ensures ShouldRespondToComment("please maintain", botSetting)
  {
    var body := "please maintain";
    VisibleStartNotSelfAuthored(body);
    assert body[8..10] == "ai";
    TriggerInAnyCaseResponds(body, botSetting, "ai", 8);
  }

  /** A character that lower-casing leaves alone and that is neither whitespace nor the robot emoji. */
  lemma VisibleLowerChar(c: char)
    requires c == '@' || 'a' <= c <= 'z'
    ensures LowerChar(c) == c && !IsWhitespace(c) && c != Robot
  {
  }

  /** The first character of every lower-cased trigger is neither whitespace nor the robot emoji. */
  lemma TriggersStartVisibly(botName: string, t: string)
    requires t in Triggers(botName)
    ensures Lower(t) != [] && !IsWhitespace(Lower(t)[0]) && Lower(t)[0] != Robot
  {
    assert t[0] in "@barhewc";
    VisibleLowerChar(t[0]);
    LowerSpec(t);
    assert Lower(t)[0] == LowerChar(t[0]);
  }

  /**
   * A comment that starts with the marker before any trimming is never
   * answered: either the trimmed body still starts with the marker, or the
   * body is the emoji followed only by whitespace, which holds no trigger.
   */
  lemma MarkerPrefixedNeverResponds(commentBody: string, botSetting: Option<string>)
    requires StartsWith(commentBody, BotMarker)
    ensures !ShouldRespondToComment(commentBody, botSetting)
  {
    ShouldRespondSpec(commentBody, botSetting);
    if |TrimEnd(commentBody)| >= 2 {
      MarkerSurvivesTrim(commentBody);
    } else {
      MarkerOnlyHoldsNoTrigger(commentBody, BotName(botSetting));
    }
  }

  /** Trimming keeps the marker at the front when it removes less than the marker's space. */
  lemma MarkerSurvivesTrim(commentBody: string)
    requires StartsWith(commentBody, BotMarker) && |TrimEnd(commentBody)| >= 2
    ensures IsSelfAuthored(commentBody)
  {
    assert commentBody[0] == Robot;
    assert TrimStart(commentBody) == commentBody;
    TrimEndSpec(commentBody);
    var t := TrimEnd(commentBody);
    assert t[..2] == commentBody[..2];
  }

  /** The marker followed only by whitespace holds no trigger, lower-cased or not. */
  lemma MarkerOnlyHoldsNoTrigger(commentBody: string, botName: string)
    requires StartsWith(commentBody, BotMarker) && |TrimEnd(commentBody)| < 2
    ensures forall trig | trig in Triggers(botName) :: !Contains(Lower(commentBody), Lower(trig))
  {
    assert commentBody[0] == Robot;
    TrimEndSpec(commentBody);
    var t := TrimEnd(commentBody);
    LowerSpec(commentBody);
    var lower := Lower(commentBody);
    forall k | 0 <= k < |lower| ensures lower[k] == Robot || IsWhitespace(lower[k]) {
      if k > 0 {
        assert commentBody[|t|..][k - |t|] == commentBody[k];
      }
    }
    forall trig | trig in Triggers(botName)
      ensures !Contains(lower, Lower(trig))
    {
      TriggersStartVisibly(botName, trig);
      NoOccurrenceWithoutFirstChar(lower, Lower(trig));
    }
  }

  /** A needle whose first character never appears in the haystack does not occur in it. */
  lemma NoOccurrenceWithoutFirstChar(hay: string, needle: string)
    requires needle != []
    requires forall k :: 0 <= k < |hay| ==> hay[k] == Robot || IsWhitespace(hay[k])
    requires needle[0] != Robot && !IsWhitespace(needle[0])
    ensures !Contains(hay, needle)
  {
  }

  // ---------------------------------------------------------------------------
  // The external agent
  // ---------------------------------------------------------------------------

  /** The response shapes a handler asks the agent for. */
  datatype Schema = CodeReviewSchema | CommentResponseSchema

  /**
   * The instruction a handler hands to the agent, by the values it
   * interpolates; `Input` renders it as the text that is sent.
   */
  datatype Instruction =
    | ReviewPullRequest(pullNumber: Value, owner: Value, repo: Value)
    | RespondToComment(prNumber: Value, owner: Value, repo: Value, body: string, author: Value)
    | RespondToReviewComment(prNumber: Value, owner: Value, repo: Value, body: string, author: Value,
                             filePath: Value, line: string)

  datatype AgentRequest = AgentRequest(instruction: Instruction, responseFormat: Schema)

  /** What happens when a handler uses the agent: obtaining it may throw, the call may throw, or both succeed. */
  datatype AgentBehaviour = CreationFails | CallFails | CallSucceeds

  /** The agent as the handlers see it: the log of requests submitted to it. */
  class Agent {
    var submitted: seq<AgentRequest>

    constructor ()
      ensures submitted == []
    {
      submitted := [];
    }

    method Submit(request: AgentRequest)
      modifies this
      ensures submitted == old(submitted) + [request]
    {
      submitted := submitted + [request];
    }
  }

  // ---------------------------------------------------------------------------
  // Instruction text
  // ---------------------------------------------------------------------------

  const Indent: string := "              "

  function Concat(parts: seq<string>): string {
    if parts == [] then [] else Concat(parts[..|parts| - 1]) + parts[|parts| - 1]
  }

  /** Every part of a concatenation occurs in it, right after the parts before it. */
  lemma {:induction false} PartOccurs(parts: seq<string>, k: nat)
    requires k < |parts|
    ensures OccursAt(Concat(parts), parts[k], |Concat(parts[..k])|)
    decreases |parts|
  {
    var init := parts[..|parts| - 1];
    if k < |parts| - 1 {
      PartOccurs(init, k);
      assert init[..k] == parts[..k];
      var c := Concat(init);
      var j := |Concat(parts[..k])|;
      assert Concat(parts)[j..j + |parts[k]|] == c[j..j + |parts[k]|];
    } else {
      assert parts[..k] == init;
    }
  }

  // The fixed text between the interpolations of the three templates.
  const ReviewRequestText: string :=
    " by leaving comments on specific files in the pr.\n      \n      After, create an overview of the overall issue (PR) with what you've done.."
  const CommentLabel: string := ":\n" + Indent + "\n" + Indent + "Comment: "
  const AuthorLabel: string := "\n" + Indent + "Comment Author: "
  const CommentReplySteps: string :=
    "\n" + Indent + "\n" + Indent
    + "1. Generate a brief, helpful response that addresses the comment directly\n" + Indent
    + "2. Post your response as a comment on the PR\n" + Indent
    + "3. Be concise and focused on addressing the specific points in the comment\n" + Indent
    + "\n" + Indent + "IMPORTANT: Your comment MUST start with this exact emoji: "
  const FileLabel: string := "\n" + Indent + "File: "
  const LineLabel: string := "\n" + Indent + "Line: "
  const ReviewReplySteps: string :=
    "\n" + Indent + "\n" + Indent + "Follow these steps:\n" + Indent
    + "1. Get the content of the file focusing on the relevant code\n" + Indent
    + "2. Generate a brief, technical response addressing the comment\n" + Indent
    + "3. Include code examples if appropriate\n" + Indent
    + "4. Post your response as a comment on this PR\n" + Indent
    + "\n" + Indent + "IMPORTANT: Your comment MUST start with this exact emoji: "
  const ReviewReplyClosing: string :=
    "\n" + Indent + "\n" + Indent
    + "Your response should be concise, helpful, and address the specific points in the comment."

  lemma PartContained(parts: seq<string>, k: nat)
    requires k < |parts|
    ensures Contains(Concat(parts), parts[k])
  {
    PartOccurs(parts, k);
  }

  /** The template literals of the three handlers, split at their interpolations. */
  function Parts(instruction: Instruction): seq<string> {
    match instruction
    case ReviewPullRequest(pullNumber, owner, repo) =>
      ["Review pull request #", Interpolate(pullNumber), " in repo ", Interpolate(owner), "/", Interpolate(repo),
       ReviewRequestText]
    case RespondToComment(prNumber, owner, repo, body, author) =>
      ["Respond to this comment on PR #", Interpolate(prNumber), " in ", Interpolate(owner), "/", Interpolate(repo),
       CommentLabel, body, AuthorLabel, Interpolate(author), CommentReplySteps, BotMarker]
    case RespondToReviewComment(prNumber, owner, repo, body, author, filePath, line) =>
      ["Respond to this code review comment on PR #", Interpolate(prNumber), " in ", Interpolate(owner), "/", Interpolate(repo),
       CommentLabel, body, AuthorLabel, Interpolate(author), FileLabel, Interpolate(filePath), LineLabel, line,
       ReviewReplySteps, BotMarker, ReviewReplyClosing]
  }

  /** The text of the `input` the agent receives. */
  function Input(instruction: Instruction): string {
    Concat(Parts(instruction))
  }

  /** A reply instruction quotes the comment and its author and tells the agent to start its answer with the marker. */
  lemma CommentReplyQuotes(prNumber: Value, owner: Value, repo: Value, body: string, author: Value)
    ensures var input := Input(RespondToComment(prNumber, owner, repo, body, author));
            Contains(input, body) && Contains(input, Interpolate(author)) && Contains(input, BotMarker)
  {
    var parts := Parts(RespondToComment(prNumber, owner, repo, body, author));
    PartContained(parts, 7);
    PartContained(parts, 9);
    PartContained(parts, 11);
  }

  /** A review-comment reply also names the file and the line. */
  lemma ReviewCommentReplyQuotes(prNumber: Value, owner: Value, repo: Value, body: string, author: Value,
                                 filePath: Value, line: string)
    ensures var input := Input(RespondToReviewComment(prNumber, owner, repo, body, author, filePath, line));
            && Contains(input, body) && Contains(input, Interpolate(author)) && Contains(input, BotMarker)
            && Contains(input, Interpolate(filePath)) && Contains(input, line)
  {
    var parts := Parts(RespondToReviewComment(prNumber, owner, repo, body, author, filePath, line));
    PartContained(parts, 7);
    PartContained(parts, 9);
    PartContained(parts, 11);
    PartContained(parts, 13);
    PartContained(parts, 15);
  }

  /** The review instruction for a new pull request names the pull request and its repository. */
  lemma ReviewInstructionAddresses(instruction: Instruction)
    requires instruction.ReviewPullRequest?
    ensures Contains(Input(instruction), Interpolate(instruction.pullNumber))
    ensures Contains(Input(instruction), Interpolate(instruction.owner))
    ensures Contains(Input(instruction), Interpolate(instruction.repo))
  {
    var parts := Parts(instruction);
    PartContained(parts, 1);
    PartContained(parts, 3);
    PartContained(parts, 5);
  }

  /**
   * `comment.position || "N/A"`, as it appears in the instruction: "N/A" when
   * the position is missing, null or zero, and for a positive position a
   * numeral that reads back to it.
   */
  function LineText(position: Value): (r: string)
    ensures !Truthy(position) ==> r == "N/A"
    ensures position.Some? && position.value.JNum? && position.value.n > 0 ==>
      AllDigits(r) && DecimalValue(r) == position.value.n
  {
    if Truthy(position) then
      if position.value.JNum? && position.value.n > 0 then DecimalRoundTrip(position.value.n); Interpolate(position)
      else Interpolate(position)
    else "N/A"
  }

  // ---------------------------------------------------------------------------
  // Handler specifications
  // ---------------------------------------------------------------------------

  /** How a handler ends: an exception escaping it, or the boolean it returns. */
  datatype HandlerResult = Threw | Returned(ok: bool)

  /**
   * What a handler sets out to do, before the agent is involved: throw while
   * reading the payload, decline, or enter its `try` with the request it will
   * submit (`None` when building the request throws inside the `try`).
   */
  datatype Plan = Throw | Decline | Attempt(request: Option<AgentRequest>)

  /** The handler's result once the agent has behaved as `behaviour` says. */
  function ResultOf(plan: Plan, behaviour: AgentBehaviour): (r: HandlerResult)
    ensures r == Threw <==> plan == Throw
    ensures r == Returned(true) <==> plan.Attempt? && plan.request.Some? && behaviour == CallSucceeds
  {
    match plan
    case Throw => Threw
    case Decline => Returned(false)
    case Attempt(request) => Returned(request.Some? && behaviour == CallSucceeds)
  }

  /** The requests the handler submits: the agent is called at most once, and only from inside the `try`. */
  function RequestsOf(plan: Plan, behaviour: AgentBehaviour): (sent: seq<AgentRequest>)
    ensures |sent| <= 1
    ensures sent != [] <==> plan.Attempt? && plan.request.Some? && behaviour != CreationFails
    ensures sent != [] ==> sent == [plan.request.value]
  {
    if plan.Attempt? && plan.request.Some? && behaviour != CreationFails then [plan.request.value] else []
  }

  /** The new-PR handler never declines: it throws while reading the payload or attempts a code review request. */
  function NewPullRequestPlan(payload: Value): (p: Plan)
    ensures p != Decline
    ensures p.Attempt? ==>
      p.request.Some? && p.request.value.instruction.ReviewPullRequest? && p.request.value.responseFormat == CodeReviewSchema
  {
    if IsNullish(payload) then Throw
    else
      var repository, pullRequest := Prop(payload, "repository"), Prop(payload, "pull_request");
      if IsNullish(repository) || IsNullish(Prop(repository, "owner")) || IsNullish(pullRequest) then Throw
      else
        var owner := Prop(Prop(repository, "owner"), "login");
        Attempt(Some(AgentRequest(
          ReviewPullRequest(Prop(pullRequest, "number"), owner, Prop(repository, "name")),
          CodeReviewSchema)))
  }

  /** The issue-comment handler only attempts a reply to a comment on a pull request that the classifier accepts. */
  function IssueCommentPlan(payload: Value, botSetting: Option<string>): (p: Plan)
    ensures p.Attempt? ==>
      && !IsNullish(payload) && !IsNullish(Prop(payload, "issue")) && Truthy(Prop(Prop(payload, "issue"), "pull_request"))
      && !IsNullish(Prop(payload, "comment")) && IsString(Prop(Prop(payload, "comment"), "body"))
      && ShouldRespondToComment(Prop(Prop(payload, "comment"), "body").value.s, botSetting)
    ensures p.Attempt? && p.request.Some? ==>
      p.request.value.instruction.RespondToComment? && p.request.value.responseFormat == CommentResponseSchema
  {
    if IsNullish(payload) then Throw
    else
      var repository, issue, comment := Prop(payload, "repository"), Prop(payload, "issue"), Prop(payload, "comment");
      if IsNullish(issue) then Throw
      else if !Truthy(Prop(issue, "pull_request")) then Decline
      else if IsNullish(comment) || !IsString(Prop(comment, "body")) then Throw
      else
        var body := Prop(comment, "body").value.s;
        if !ShouldRespondToComment(body, botSetting) then Decline
        else if IsNullish(repository) || IsNullish(Prop(repository, "owner")) then Throw
        else
          var owner := Prop(Prop(repository, "owner"), "login");
          var user := Prop(comment, "user");
          if IsNullish(user) then Attempt(None)
          else Attempt(Some(AgentRequest(
            RespondToComment(Prop(issue, "number"), owner, Prop(repository, "name"), body, Prop(user, "login")),
            CommentResponseSchema)))
  }

  /** The review-comment handler only attempts a reply to a comment that the classifier accepts. */
  function ReviewCommentPlan(payload: Value, botSetting: Option<string>): (p: Plan)
    ensures p.Attempt? ==>
      && !IsNullish(payload) && !IsNullish(Prop(payload, "comment")) && IsString(Prop(Prop(payload, "comment"), "body"))
      && ShouldRespondToComment(Prop(Prop(payload, "comment"), "body").value.s, botSetting)
    ensures p.Attempt? && p.request.Some? ==>
      p.request.value.instruction.RespondToReviewComment? && p.request.value.responseFormat == CommentResponseSchema
  {
    if IsNullish(payload) then Throw
    else
      var repository, pullRequest, comment := Prop(payload, "repository"), Prop(payload, "pull_request"), Prop(payload, "comment");
      if IsNullish(comment) || !IsString(Prop(comment, "body")) then Throw
      else
        var body := Prop(comment, "body").value.s;
        if !ShouldRespondToComment(body, botSetting) then Decline
        else if IsNullish(repository) || IsNullish(Prop(repository, "owner")) || IsNullish(pullRequest) then Throw
        else
          var owner := Prop(Prop(repository, "owner"), "login");
          var user := Prop(comment, "user");
          if IsNullish(user) then Attempt(None)
          else Attempt(Some(AgentRequest(
            RespondToReviewComment(Prop(pullRequest, "number"), owner, Prop(repository, "name"), body,
                                   Prop(user, "login"), Prop(comment, "path"), LineText(Prop(comment, "position"))),
            CommentResponseSchema)))
  }

  // ---------------------------------------------------------------------------
  // Handlers
  // ---------------------------------------------------------------------------

  method HandleNewPullRequest(payload: Value, agent: Agent, behaviour: AgentBehaviour) returns (r: HandlerResult)
    modifies agent
    ensures r == ResultOf(NewPullRequestPlan(payload), behaviour)
    ensures agent.submitted == old(agent.submitted) + RequestsOf(NewPullRequestPlan(payload), behaviour)
  {
    if IsNullish(payload) {
      return Threw;
    }
    var repository := Prop(payload, "repository");
    var pullRequest := Prop(payload, "pull_request");
    if IsNullish(repository) {
      return Threw;
    }
    var ownerObject := Prop(repository, "owner");
    if IsNullish(ownerObject) {
      return Threw;
    }
    var owner := Prop(ownerObject, "login");
    var repo := Prop(repository, "name");
    if IsNullish(pullRequest) {
      return Threw;
    }
    var pullNumber := Prop(pullRequest, "number");
    // try
    if behaviour == CreationFails {
      return Returned(false);
    }
    agent.Submit(AgentRequest(ReviewPullRequest(pullNumber, owner, repo), CodeReviewSchema));
    return Returned(behaviour == CallSucceeds);
  }

  method HandleIssueComment(payload: Value, botSetting: Option<string>, agent: Agent, behaviour: AgentBehaviour)
    returns (r: HandlerResult)
    modifies agent
    ensures r == ResultOf(IssueCommentPlan(payload, botSetting), behaviour)
    ensures agent.submitted == old(agent.submitted) + RequestsOf(IssueCommentPlan(payload, botSetting), behaviour)
  {
    if IsNullish(payload) {
      return Threw;
    }
    var repository := Prop(payload, "repository");
    var issue := Prop(payload, "issue");
    var comment := Prop(payload, "comment");
    // Only comments on pull requests are answered, not those on plain issues.
    if IsNullish(issue) {
      return Threw;
    }
    if !Truthy(Prop(issue, "pull_request")) {
      return Returned(false);
    }
    if IsNullish(comment) {
      return Threw;
    }
    var bodyValue := Prop(comment, "body");
    if !IsString(bodyValue) {
      // `trim` is not a function of a non-string body
      return Threw;
    }
    var body := bodyValue.value.s;
    if !ShouldRespondToComment(body, botSetting) {
      return Returned(false);
    }
    if IsNullish(repository) {
      return Threw;
    }
    var ownerObject := Prop(repository, "owner");
    if IsNullish(ownerObject) {
      return Threw;
    }
    var owner := Prop(ownerObject, "login");
    var repo := Prop(repository, "name");
    var prNumber := Prop(issue, "number");
    // try
    if behaviour == CreationFails {
      return Returned(false);
    }
    var user := Prop(comment, "user");
    if IsNullish(user) {
      // reading `comment.user.login` throws inside the try
      return Returned(false);
    }
    var instruction := RespondToComment(prNumber, owner, repo, body, Prop(user, "login"));
    agent.Submit(AgentRequest(instruction, CommentResponseSchema));
    return Returned(behaviour == CallSucceeds);
  }

  method HandleReviewComment(payload: Value, botSetting: Option<string>, agent: Agent, behaviour: AgentBehaviour)
    returns (r: HandlerResult)
    modifies agent
    ensures r == ResultOf(ReviewCommentPlan(payload, botSetting), behaviour)
    ensures agent.submitted == old(agent.submitted) + RequestsOf(ReviewCommentPlan(payload, botSetting), behaviour)
  {
    if IsNullish(payload) {
      return Threw;
    }
    var repository := Prop(payload, "repository");
    var pullRequest := Prop(payload, "pull_request");
    var comment := Prop(payload, "comment");
    if IsNullish(comment) {
      return Threw;
    }
    var bodyValue := Prop(comment, "body");
    if !IsString(bodyValue) {
      return Threw;
    }
    var body := bodyValue.value.s;
    if !ShouldRespondToComment(body, botSetting) {
      return Returned(false);
    }
    if IsNullish(repository) {
      return Threw;
    }
    var ownerObject := Prop(repository, "owner");
    if IsNullish(ownerObject) {
      return Threw;
    }
    var owner := Prop(ownerObject, "login");
    var repo := Prop(repository, "name");
    if IsNullish(pullRequest) {
      return Threw;
    }
    var prNumber := Prop(pullRequest, "number");
    var filePath := Prop(comment, "path");
    var linePosition := LineText(Prop(comment, "position"));
    // try
    if behaviour == CreationFails {
      return Returned(false);
    }
    var user := Prop(comment, "user");
    if IsNullish(user) {
      return Returned(false);
    }
    var instruction := RespondToReviewComment(prNumber, owner, repo, body, Prop(user, "login"), filePath, linePosition);
    agent.Submit(AgentRequest(instruction, CommentResponseSchema));
    return Returned(behaviour == CallSucceeds);
  }

  // ---------------------------------------------------------------------------
  // Properties of the handlers
  // ---------------------------------------------------------------------------

  /** A comment on a plain issue is declined before the classifier runs, whatever the comment holds. */
  lemma PlainIssueCommentDeclined(payload: Value, botSetting: Option<string>, behaviour: AgentBehaviour)
    requires !IsNullish(payload) && !IsNullish(Prop(payload, "issue"))
    requires !Truthy(Prop(Prop(payload, "issue"), "pull_request"))
    ensures IssueCommentPlan(payload, botSetting) == Decline
    ensures ResultOf(IssueCommentPlan(payload, botSetting), behaviour) == Returned(false)
    ensures RequestsOf(IssueCommentPlan(payload, botSetting), behaviour) == []
  {
  }

  /** When the classifier declines, both comment handlers return false without calling the agent. */
  lemma ClassifierDeclineMeansNoCall(payload: Value, botSetting: Option<string>, behaviour: AgentBehaviour)
    requires !IsNullish(payload) && !IsNullish(Prop(payload, "comment"))
    requires IsString(Prop(Prop(payload, "comment"), "body"))
    requires !ShouldRespondToComment(Prop(Prop(payload, "comment"), "body").value.s, botSetting)
    ensures ReviewCommentPlan(payload, botSetting) == Decline
    ensures !IsNullish(Prop(payload, "issue")) ==> IssueCommentPlan(payload, botSetting) == Decline
    ensures RequestsOf(ReviewCommentPlan(payload, botSetting), behaviour) == []
    ensures !IsNullish(Prop(payload, "issue")) ==> RequestsOf(IssueCommentPlan(payload, botSetting), behaviour) == []
  {
  }

  /** The request a comment handler builds quotes the comment and its addressing fields as they arrived. */
  lemma CommentRequestCarriesComment(payload: Value, botSetting: Option<string>)
    requires !IsNullish(payload) && !IsNullish(Prop(payload, "comment"))
    ensures var plan := IssueCommentPlan(payload, botSetting);
            plan.Attempt? && plan.request.Some? ==>
              plan.request.value.instruction == RespondToComment(
                Prop(Prop(payload, "issue"), "number"), Prop(Prop(Prop(payload, "repository"), "owner"), "login"),
                Prop(Prop(payload, "repository"), "name"), Prop(Prop(payload, "comment"), "body").value.s,
                Prop(Prop(Prop(payload, "comment"), "user"), "login"))
    ensures var plan := ReviewCommentPlan(payload, botSetting);
            plan.Attempt? && plan.request.Some? ==>
              plan.request.value.instruction == RespondToReviewComment(
                Prop(Prop(payload, "pull_request"), "number"), Prop(Prop(Prop(payload, "repository"), "owner"), "login"),
                Prop(Prop(payload, "repository"), "name"), Prop(Prop(payload, "comment"), "body").value.s,
                Prop(Prop(Prop(payload, "comment"), "user"), "login"), Prop(Prop(payload, "comment"), "path"),
                LineText(Prop(Prop(payload, "comment"), "position")))
  {
  }

  /**
   * A new pull request whose repository, owner and pull request are present is
   * reviewed: one code review request, sent unless the agent cannot be
   * obtained, and true exactly when the agent call succeeds.
   */
  lemma NewPullRequestAccepted(payload: Value, behaviour: AgentBehaviour)
    requires !IsNullish(payload) && !IsNullish(Prop(payload, "pull_request"))
    requires !IsNullish(Prop(payload, "repository")) && !IsNullish(Prop(Prop(payload, "repository"), "owner"))
    ensures var request := AgentRequest(
              ReviewPullRequest(Prop(Prop(payload, "pull_request"), "number"),
                                Prop(Prop(Prop(payload, "repository"), "owner"), "login"),
                                Prop(Prop(payload, "repository"), "name")),
              CodeReviewSchema);
            var plan := NewPullRequestPlan(payload);
            && plan == Attempt(Some(request))
            && RequestsOf(plan, behaviour) == (if behaviour == CreationFails then [] else [request])
            && ResultOf(plan, behaviour) == Returned(behaviour == CallSucceeds)
  {
  }

  /**
   * A comment on a pull request that the classifier accepts, with repository
   * and owner present, is answered: with its author present, one reply request
   * is sent unless the agent cannot be obtained; without one, reading the
   * author throws inside the `try` and nothing is sent.
   */
  lemma IssueCommentAccepted(payload: Value, botSetting: Option<string>, behaviour: AgentBehaviour)
    requires !IsNullish(payload) && !IsNullish(Prop(payload, "issue")) && Truthy(Prop(Prop(payload, "issue"), "pull_request"))
    requires !IsNullish(Prop(payload, "comment")) && IsString(Prop(Prop(payload, "comment"), "body"))
    requires ShouldRespondToComment(Prop(Prop(payload, "comment"), "body").value.s, botSetting)
    requires !IsNullish(Prop(payload, "repository")) && !IsNullish(Prop(Prop(payload, "repository"), "owner"))
    ensures var plan := IssueCommentPlan(payload, botSetting);
            var user := Prop(Prop(payload, "comment"), "user");
            && (!IsNullish(user) ==>
                  && plan.Attempt? && plan.request.Some?
                  && RequestsOf(plan, behaviour) == (if behaviour == CreationFails then [] else [plan.request.value])
                  && ResultOf(plan, behaviour) == Returned(behaviour == CallSucceeds))
            && (IsNullish(user) ==>
                  plan == Attempt(None) && RequestsOf(plan, behaviour) == [] && ResultOf(plan, behaviour) == Returned(false))
  {
  }

  /** The same for a review comment the classifier accepts, with repository, owner and pull request present. */
  lemma ReviewCommentAccepted(payload: Value, botSetting: Option<string>, behaviour: AgentBehaviour)
    requires !IsNullish(payload) && !IsNullish(Prop(payload, "comment")) && IsString(Prop(Prop(payload, "comment"), "body"))
    requires ShouldRespondToComment(Prop(Prop(payload, "comment"), "body").value.s, botSetting)
    requires !IsNullish(Prop(payload, "repository")) && !IsNullish(Prop(Prop(payload, "repository"), "owner"))
    requires !IsNullish(Prop(payload, "pull_request"))
    ensures var plan := ReviewCommentPlan(payload, botSetting);
            var user := Prop(Prop(payload, "comment"), "user");
            && (!IsNullish(user) ==>
                  && plan.Attempt? && plan.request.Some?
                  && RequestsOf(plan, behaviour) == (if behaviour == CreationFails then [] else [plan.request.value])
                  && ResultOf(plan, behaviour) == Returned(behaviour == CallSucceeds))
            && (IsNullish(user) ==>
                  plan == Attempt(None) && RequestsOf(plan, behaviour) == [] && ResultOf(plan, behaviour) == Returned(false))
  {
  }
}
