/**
 * The `create_review_comments` action: check the parameters, resolve the PR
 * URL, then read the pull request's head commit and create one review of
 * kind "COMMENT" that carries every comment on the given file.
 */
module CreateReviewComments {
  import opened Wrappers
  import opened Json
  import opened Text
  import opened PrUrl
  import opened GitHubApi

  /** An element of `comments` that passed `isReviewComment`. */
  datatype ReviewComment = ReviewComment(line: int, comment: string)

  /** What `validateParameters` returns. */
  datatype Parameters = Parameters(prUrl: string, filename: string, comments: seq<ReviewComment>)

  /** Everything `run` has settled before its first API call. */
  datatype Request = Request(target: PullTarget, params: Parameters)

  /** What `run` returns. */
  datatype ReviewSummary = ReviewSummary(reviewId: int, commentCount: nat)

  const ParametersRequired: string := "Parameters are required"
  const InvalidParameters: string :=
    "Invalid parameters: prUrl, filename must be strings and comments must be an array of ReviewComments"
  const FailurePrefix: string := "Failed to create review comments: "

  /**
   * `isReviewComment`, written as the JavaScript expression: `typeof` is
   * "object", not `null`, and `in` finds a numeric `line` and a string
   * `comment`. Only a plain object with those fields qualifies, never an array.
   */
  predicate IsReviewComment(v: Value)
    ensures IsReviewComment(v) <==>
      && v.Some? && v.value.JObj?
      && "line" in v.value.fields && v.value.fields["line"].JNum?
      && "comment" in v.value.fields && v.value.fields["comment"].JStr?
  {
    IndexNamesExclude(if v.Some? && v.value.JArr? then |v.value.elems| else 0, "line");
    && TypeOf(v) == "object"
    && !v.value.JNull?
    && HasProperty(v.value, "line")
    && TypeOf(Prop(v, "line")) == "number"
    && HasProperty(v.value, "comment")
    && TypeOf(Prop(v, "comment")) == "string"
  }

  /** The typed view of an element that passed `isReviewComment`. */
  function AsReviewComment(j: Json): ReviewComment
    requires IsReviewComment(Some(j))
  {
    ReviewComment(Prop(Some(j), "line").value.n, Prop(Some(j), "comment").value.s)
  }

  /** `comments.every(isReviewComment)`. */
  function EveryReviewComment(elems: seq<Json>): (r: bool)
    ensures r <==> forall k :: 0 <= k < |elems| ==> IsReviewComment(Some(elems[k]))
  {
    if elems == [] then true else IsReviewComment(Some(elems[0])) && EveryReviewComment(elems[1..])
  }

  function ToComments(elems: seq<Json>): (r: seq<ReviewComment>)
    requires forall k :: 0 <= k < |elems| ==> IsReviewComment(Some(elems[k]))
    ensures |r| == |elems|
    ensures forall k :: 0 <= k < |elems| ==> r[k] == AsReviewComment(elems[k])
  {
    if elems == [] then [] else [AsReviewComment(elems[0])] + ToComments(elems[1..])
  }

  /**
   * `validateParameters`: it accepts exactly string `prUrl` and `filename` and
   * an array `comments` (possibly empty) of review comments, and returns the
   * three fields unchanged; anything else is one and the same error.
   */
  function ValidateParameters(params: Json): (r: Result<Parameters, string>)
    requires !params.JNull?
    ensures var prUrl, filename, comments := Prop(Some(params), "prUrl"), Prop(Some(params), "filename"), Prop(Some(params), "comments");
            r.Ok? <==>
              && IsString(prUrl) && IsString(filename) && comments.Some? && comments.value.JArr?
              && forall k :: 0 <= k < |comments.value.elems| ==> IsReviewComment(Some(comments.value.elems[k]))
    ensures r.Err? ==> r.error == InvalidParameters
    ensures r.Ok? ==>
      && Some(JStr(r.value.prUrl)) == Prop(Some(params), "prUrl")
      && Some(JStr(r.value.filename)) == Prop(Some(params), "filename")
      && var elems := Prop(Some(params), "comments").value.elems;
         |r.value.comments| == |elems|
         && forall k :: 0 <= k < |elems| ==> r.value.comments[k] == AsReviewComment(elems[k])
  {
    var prUrl := Prop(Some(params), "prUrl");
    var filename := Prop(Some(params), "filename");
    var comments := Prop(Some(params), "comments");
    if TypeOf(prUrl) != "string" || TypeOf(filename) != "string" || !(comments.Some? && comments.value.JArr?)
       || !EveryReviewComment(comments.value.elems)
    then Err(InvalidParameters)
    else Ok(Parameters(prUrl.value.s, filename.value.s, ToComments(comments.value.elems)))
  }

  /** The checks `run` makes before its first API call: parameters present, then validation, then the URL parse. */
  function Prepare(parameters: Value): (r: Result<Request, string>)
    ensures r == Err(ParametersRequired) <==> !Truthy(parameters) || TypeOf(parameters) != "object"
    ensures r.Err? ==> r.error == ParametersRequired || r.error == InvalidParameters || r.error == InvalidUrlMessage
    ensures r.Ok? ==> ResolvePrUrl(r.value.params.prUrl) == Ok(r.value.target)
  {
    if !Truthy(parameters) || TypeOf(parameters) != "object" then Err(ParametersRequired)
    else
      match ValidateParameters(parameters.value)
      case Err(e) => Err(e)
      case Ok(p) =>
        match ResolvePrUrl(p.prUrl)
        case Err(e) => Err(e)
        case Ok(t) => Ok(Request(t, p))
  }

  /** `comments.map(...)`: each comment becomes a draft on `filename`, on the right-hand side of the diff. */
  function Drafts(filename: string, comments: seq<ReviewComment>): (r: seq<DraftComment>)
    ensures |r| == |comments|
    ensures forall k :: 0 <= k < |r| ==> r[k] == DraftComment(filename, comments[k].line, comments[k].comment, "RIGHT")
  {
    if comments == [] then []
    else [DraftComment(filename, comments[0].line, comments[0].comment, "RIGHT")] + Drafts(filename, comments[1..])
  }

  /**
   * `run`. A rejected request makes no API call at all. Otherwise the pull
   * request is read once and at most one review is created; a review that was
   * created reports as many comments as it carries, and every API failure is
   * rethrown once, wrapped.
   */
  function Run(parameters: Value, gh: GitHub): (x: Execution<ReviewSummary>)
    ensures x.calls == [] <==> Prepare(parameters).Err?
    ensures x.calls == [] ==> x.outcome == Threw(Failure(Prepare(parameters).error))
    ensures x.calls != [] ==> x.calls[0].GetPull? && |x.calls| <= 2
    ensures x.outcome.Returned? ==>
      && |x.calls| == 2 && x.calls[1].CreateReview? && x.calls[1].event == "COMMENT"
      && x.outcome.value.commentCount == |x.calls[1].comments|
    ensures x.calls != [] && x.outcome.Threw? ==>
      x.outcome.error.Failure? && StartsWith(x.outcome.error.message, FailurePrefix)
  {
    match Prepare(parameters)
    case Err(e) => Execution(Threw(Failure(e)), [])
    case Ok(req) =>
      var t := req.target;
      var get := GetPull(t.owner, t.repo, t.pullNumber);
      match gh.getPull(t.owner, t.repo, t.pullNumber)
      case Err(e) => Execution(Threw(Failure(FailurePrefix + e)), [get])
      case Ok(pr) =>
        var drafts := Drafts(req.params.filename, req.params.comments);
        var create := CreateReview(t.owner, t.repo, t.pullNumber, pr.headSha, "COMMENT", drafts);
        match gh.createReview(t.owner, t.repo, t.pullNumber, pr.headSha, "COMMENT", drafts)
        case Err(e) => Execution(Threw(Failure(FailurePrefix + e)), [get, create])
        case Ok(id) => Execution(Returned(ReviewSummary(id, |req.params.comments|)), [get, create])
  }

  // ---------------------------------------------------------------------------
  // Properties of the action
  // ---------------------------------------------------------------------------

  /** An array passes the first check (`typeof [] === "object"`) but never validation. */
  lemma ArrayParametersInvalid(elems: seq<Json>, gh: GitHub)
    ensures Run(Some(JArr(elems)), gh) == Execution(Threw(Failure(InvalidParameters)), [])
  {
  }

  /**
   * The review that is created: on the pull request the URL names, at its
   * head commit, of kind "COMMENT", with one draft per comment in the same
   * order, each on `filename`, at the comment's line, with its text, on the
   * right-hand side; the summary counts the comments.
   */
  lemma ReviewMirrorsComments(parameters: Value, gh: GitHub)
    requires Prepare(parameters).Ok?
    requires var t := Prepare(parameters).value.target; gh.getPull(t.owner, t.repo, t.pullNumber).Ok?
    ensures var req := Prepare(parameters).value;
            var t := req.target;
            var comments := req.params.comments;
            var pr := gh.getPull(t.owner, t.repo, t.pullNumber).value;
            var x := Run(parameters, gh);
            && |x.calls| == 2
            && x.calls[0] == GetPull(t.owner, t.repo, t.pullNumber)
            && x.calls[1].CreateReview?
            && x.calls[1].owner == t.owner && x.calls[1].repo == t.repo && x.calls[1].pullNumber == t.pullNumber
            && x.calls[1].commitId == pr.headSha && x.calls[1].event == "COMMENT"
            && |x.calls[1].comments| == |comments|
            && (forall k :: 0 <= k < |comments| ==>
                  x.calls[1].comments[k] == DraftComment(req.params.filename, comments[k].line, comments[k].comment, "RIGHT"))
            && (x.outcome.Returned? ==> x.outcome.value.commentCount == |comments|)
  {
  }

  /** A failure of either API call is rethrown once, as "Failed to create review comments: " and the rejection. */
  lemma ApiFailureWrapped(parameters: Value, gh: GitHub)
    requires Prepare(parameters).Ok?
    ensures var t := Prepare(parameters).value.target;
            var x := Run(parameters, gh);
            && (gh.getPull(t.owner, t.repo, t.pullNumber).Err? ==>
                  x == Execution(Threw(Failure(FailurePrefix + gh.getPull(t.owner, t.repo, t.pullNumber).error)),
                                 [GetPull(t.owner, t.repo, t.pullNumber)]))
            && (gh.getPull(t.owner, t.repo, t.pullNumber).Ok? && x.outcome.Threw? ==>
                  var c := x.calls[1];
                  x.outcome.error == Failure(FailurePrefix +
                    gh.createReview(c.owner, c.repo, c.pullNumber, c.commitId, c.event, c.comments).error))
  {
  }

  /**
   * Parameters as the action's schema describes them, with the URL GitHub
   * gives a pull request, reach the API: the first call reads that very pull
   * request, by the number written in the URL.
   */
  lemma WellFormedRequestReachesApi(owner: string, repo: string, n: nat, filename: string, elems: seq<Json>, gh: GitHub)
    requires owner != [] && repo != [] && SlashFree(owner) && SlashFree(repo)
    requires forall k :: 0 <= k < |elems| ==> IsReviewComment(Some(elems[k]))
    ensures var url := Prefix + owner + "/" + repo + PullSegment + NatToDecimal(n);
            var parameters := Some(JObj(map["prUrl" := JStr(url), "filename" := JStr(filename), "comments" := JArr(elems)]));
            && Prepare(parameters).Ok?
            && Run(parameters, gh).calls[0] == GetPull(owner, repo, n)
  {
    var url := Prefix + owner + "/" + repo + PullSegment + NatToDecimal(n);
    ResolveRoundTrip(owner, repo, n, []);
    assert url + [] == url;
  }
}
