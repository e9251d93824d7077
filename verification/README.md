# PR review bot: a verified model of its decision logic

The PR review bot is a GitHub App. GitHub sends it webhook deliveries for new
or updated pull requests and for new comments. The bot decides whether to
answer and, if so, asks an external reasoning agent to review the pull
request or to reply to the comment. The agent works through two tool
actions: one posts review comments on a file, the other fetches the before
and after contents of the changed files.

This project models that decision logic in Dafny and proves what it
promises:

- `webhook_server.dfy` (`WebhookServer`) models the `POST /webhook` route. It
  parses the body, requires the `X-GitHub-Event` header, and picks at most one
  handler by event name and `action`. An outer marker gate holds back comments
  whose raw body starts with the bot's marker "🤖 ". The route always answers
  200, 400 or 500, whatever the agent did.
- `pr_handlers.dfy` (`PrHandlers`) models the three handlers and the comment
  classifier `shouldRespondToComment`.
  - A handler reads its addressing fields from the payload, where a read
    through `undefined`/`null` throws.
  - The comment handlers then consult the classifier.
  - Each handler makes at most one agent call, inside a `try`, and turns its
    outcome into a boolean.
  - The agent is a class that logs the requests submitted to it. How it
    behaves (its creation fails, its call fails, or both succeed) is a
    parameter.
- `create_review_comments.dfy` (`CreateReviewComments`) models the
  `create_review_comments` action: parameter checks, validation, PR-URL parse,
  then `pulls.get` and one `pulls.createReview`.
- `get_file_before_after.dfy` (`GetFileBeforeAfter`) models the
  `get_file_before_after` action: PR-URL parse, `pulls.get`,
  `pulls.listFiles`, then a per-file rule that fetches each side the file's
  status allows.
- `pr_url.dfy` (`PrUrl`) models the URL parse both actions share. It is the
  leftmost match of the unanchored expression
  `github\.com\/([^\/]+)\/([^\/]+)\/pull\/(\d+)`, computed by a greedy
  scanner and proved sound and complete against a declarative match
  predicate.
- `github_api.dfy` (`GitHubApi`) holds the GitHub API oracle. Each endpoint
  is a function from its arguments to its answer or a rejection. The actions
  return the list of calls they made, in order.
- `json.dfy` (`Json`) and `text.dfy` (`Text`) hold the JavaScript semantics
  the core relies on:
  - JSON values, with `undefined` as `None`;
  - property reads, optional chaining, truthiness, `typeof`, `in` and
    template interpolation;
  - ECMAScript `trim`, `startsWith` and `includes`, and a lower-casing that
    maps the ASCII capitals only (see `Text.Lower` below).
- `wrappers.dfy` holds `Option` and `Result`.

## Model

| member | source | states |
|---|---|---|
| Text.TrimStartSpec | apps/pr-review-agent/src/pr-handlers.ts:147 | The start-trimmed string is a suffix of the input. What was removed is all whitespace, and the result is empty or starts with a non-whitespace character. |
| Text.TrimEndSpec | apps/pr-review-agent/src/pr-handlers.ts:147 | The end-trimmed string is a prefix of the input. What was removed is all whitespace, and the result is empty or ends with a non-whitespace character. |
| Text.IncludesSpec | apps/pr-review-agent/src/pr-handlers.ts:168 | `includes` holds exactly when the needle occurs at some index of the string. |
| Text.LowerSpec | apps/pr-review-agent/src/pr-handlers.ts:166 | Lower-casing keeps the length and maps every character on its own. |
| PrHandlers.BotName | apps/pr-review-agent/src/pr-handlers.ts:152 | The bot name is never empty. It is the configured name when that is set and non-empty, and "github-bot" otherwise. |
| PrHandlers.SomeTriggerIncludedSpec | apps/pr-review-agent/src/pr-handlers.ts:167-169 | `some(... includes ...)` holds exactly when some trigger, lower-cased, occurs in the lower-cased comment. |
| PrHandlers.ShouldRespondSpec | apps/pr-review-agent/src/pr-handlers.ts:145-170 | A comment whose trimmed body starts with the marker is never answered. Any other comment is answered exactly when some lower-cased trigger occurs in the lower-cased body. |
| PrHandlers.TriggerAnywhereResponds | apps/pr-review-agent/src/pr-handlers.ts:155-169 | An unmarked comment whose lower-cased body holds a trigger at any position is answered. |
| PrHandlers.TriggerInAnyCaseResponds | apps/pr-review-agent/src/pr-handlers.ts:166-169 | An unmarked comment is answered when some slice of it equals a trigger once both are lower-cased, whatever case either is written in. |
| PrHandlers.CapitalTriggerResponds | apps/pr-review-agent/src/pr-handlers.ts:155-169 | "Ask AI" is answered for every bot setting: the trigger "ai" written in capitals still matches. |
| PrHandlers.MaintainResponds | apps/pr-review-agent/src/pr-handlers.ts:158 | "please maintain" is answered, because "ai" matches inside a word. |
| PrHandlers.MarkerPrefixedNeverResponds | apps/pr-review-agent/src/pr-handlers.ts:145-149 | A body that starts with the marker before trimming is never answered. This includes the marker followed only by whitespace. |
| PrHandlers.Agent.Submit | apps/pr-review-agent/src/pr-handlers.ts:26-31 | A call to the agent appends exactly its request to the agent's log. |
| PrHandlers.ReviewInstructionAddresses | apps/pr-review-agent/src/pr-handlers.ts:27-29 | The review instruction contains the PR number, owner and repository as interpolated. |
| PrHandlers.CommentReplyQuotes | apps/pr-review-agent/src/pr-handlers.ts:69-78 | The comment-reply instruction contains the comment body, the author's login and the marker the reply must start with. |
| PrHandlers.ReviewCommentReplyQuotes | apps/pr-review-agent/src/pr-handlers.ts:115-130 | The review-comment reply instruction also contains the file path and the line text. |
| PrHandlers.LineText | apps/pr-review-agent/src/pr-handlers.ts:105 | A missing, null or zero position gives the line "N/A". A positive position gives a numeral of digits that reads back to the position. |
| PrHandlers.ResultOf | apps/pr-review-agent/src/pr-handlers.ts:21-38 | A handler throws exactly when a read before its `try` throws. It returns true exactly when it built a request and the agent call succeeded. |
| PrHandlers.RequestsOf | apps/pr-review-agent/src/pr-handlers.ts:63-87 | At most one request is submitted. It is submitted exactly when one was built inside the `try` and the agent could be obtained. |
| PrHandlers.NewPullRequestPlan | apps/pr-review-agent/src/pr-handlers.ts:13-39 | The new-PR handler never declines. It throws while reading the payload, or it attempts one code review request. |
| PrHandlers.IssueCommentPlan | apps/pr-review-agent/src/pr-handlers.ts:44-88 | The issue-comment handler attempts a request only for a comment on a pull request whose string body the classifier accepts. What it attempts is a comment reply. |
| PrHandlers.ReviewCommentPlan | apps/pr-review-agent/src/pr-handlers.ts:93-140 | The review-comment handler attempts a request only for a comment whose string body the classifier accepts. What it attempts is a review-comment reply. |
| PrHandlers.HandleNewPullRequest | apps/pr-review-agent/src/pr-handlers.ts:13-39 | Result and submitted requests follow the handler's plan: throw on a missing repository, owner or pull request, otherwise attempt the review request. |
| PrHandlers.HandleIssueComment | apps/pr-review-agent/src/pr-handlers.ts:44-88 | Result and submitted requests follow the plan: the issue check, then the body and classifier, then the address reads, then a request with a missing user yielding false. |
| PrHandlers.HandleReviewComment | apps/pr-review-agent/src/pr-handlers.ts:93-140 | As above, with the classifier before any address read and with the file path and line in the request. |
| PrHandlers.PlainIssueCommentDeclined | apps/pr-review-agent/src/pr-handlers.ts:47-50 | A comment on a plain issue is declined before the classifier, returns false and calls nothing. |
| PrHandlers.ClassifierDeclineMeansNoCall | apps/pr-review-agent/src/pr-handlers.ts:96-99 | When the classifier declines, both comment handlers decline without calling the agent. |
| PrHandlers.CommentRequestCarriesComment | apps/pr-review-agent/src/pr-handlers.ts:57-120 | Each comment request is exactly the reply instruction built from the payload's own fields: the PR number, owner, repository, body, `comment.user.login` and, for a review comment, `comment.path` and the line from `comment.position`. |
| PrHandlers.NewPullRequestAccepted | apps/pr-review-agent/src/pr-handlers.ts:13-38 | With repository, owner and pull request present, the handler attempts the review request for that pull request. It is sent unless the agent cannot be obtained, and the handler returns true exactly when the call succeeds. |
| PrHandlers.IssueCommentAccepted | apps/pr-review-agent/src/pr-handlers.ts:44-87 | A comment on a pull request that the classifier accepts, with repository and owner present, is answered. With an author, one reply is sent unless the agent cannot be obtained, and the result is true exactly when the call succeeds. Without an author, nothing is sent and the result is false. |
| PrHandlers.ReviewCommentAccepted | apps/pr-review-agent/src/pr-handlers.ts:93-139 | The same for a review comment the classifier accepts, with repository, owner and pull request present. |
| WebhookServer.Route | apps/pr-review-agent/src/webhook-server.ts:25-69 | An unparsable body gives 500, before the header is checked. A missing or empty header gives 400. The response is always 200, 400 or 500. It is 500 exactly when parsing, the switch or the invoked handler throws. An invoked handler is the one the switch selected. |
| WebhookServer.MarkerGate | apps/pr-review-agent/src/webhook-server.ts:48 | The gate throws exactly when the comment body is present but not a string. Whatever it holds back is a string body that the classifier declines under every bot name. |
| WebhookServer.Choose | apps/pr-review-agent/src/webhook-server.ts:38-62 | Each handler is selected only for its own event. An event the route does not know selects nothing. The switch throws only on a null payload or when the gate throws. |
| WebhookServer.ServeWebhook | apps/pr-review-agent/src/webhook-server.ts:25-69 | The route with its handlers answers as `Route` says. The agent receives exactly the requests of the invoked handler, so at most one per delivery. |
| WebhookServer.UnparsableBeforeHeader | apps/pr-review-agent/src/webhook-server.ts:28-33 | An unparsable body is a 500 even when the header is missing too. |
| WebhookServer.PullRequestRouting | apps/pr-review-agent/src/webhook-server.ts:39-43 | `pull_request` invokes the new-PR handler exactly for `opened` and `synchronize`. Otherwise it answers 200 without invoking anything. |
| WebhookServer.CommentRouting | apps/pr-review-agent/src/webhook-server.ts:45-61 | A created comment reaches its own handler exactly when its raw body does not start with the marker. A comment without a body reaches it too. |
| WebhookServer.UnknownEventIgnored | apps/pr-review-agent/src/webhook-server.ts:38-64 | Any other event is answered 200 without invoking a handler. |
| WebhookServer.OuterGateAgreesWithClassifier | apps/pr-review-agent/src/webhook-server.ts:48 | Whatever the outer gate holds back, the classifier and both comment handlers would have declined too. |
| WebhookServer.SuccessUnlessThrown | apps/pr-review-agent/src/webhook-server.ts:64-67 | When nothing throws, the answer is 200, whatever the handler returned. |
| WebhookServer.OpenedPullRequestReviewed | apps/pr-review-agent/src/webhook-server.ts:39-64 | An `opened` pull request with repository, owner and pull request present is answered 200 after the new-PR handler ran. The agent gets exactly one review request naming that pull request, unless it cannot be obtained. |
| WebhookServer.TriggeredIssueCommentAnswered | apps/pr-review-agent/src/webhook-server.ts:45-64 | A created, unmarked comment on a pull request that the classifier accepts, with its addressing fields and author present, is answered 200. The agent gets exactly one reply request, unless it cannot be obtained. |
| PrUrl.MatchAt | apps/pr-review-agent/src/actions/create-review-comments.ts:85 | The greedy scanner at one start position. Every group of a match it returns is non-empty. |
| PrUrl.FindMatch | apps/pr-review-agent/src/actions/create-review-comments.ts:86 | The left-to-right search over start positions. Every group of what it finds is non-empty. |
| PrUrl.ParsePrUrl | apps/pr-review-agent/src/actions/create-review-comments.ts:85-92 | `prUrl.match` reduced to its three groups, each of them non-empty. |
| PrUrl.MatchAtSound | apps/pr-review-agent/src/actions/create-review-comments.ts:85 | The scanner's result at a position is a match of the expression there, and its digit group cannot be extended. |
| PrUrl.MatchAtComplete | apps/pr-review-agent/src/actions/create-review-comments.ts:85 | Wherever the expression matches, the scanner finds that match, with the same owner and repository. |
| PrUrl.MatchAtExact | apps/pr-review-agent/src/actions/create-review-comments.ts:85 | A match whose digits are followed by a non-digit is exactly what the scanner returns. |
| PrUrl.FindMatchNone | apps/pr-review-agent/src/actions/create-review-comments.ts:86 | The search fails exactly when no start position matches. |
| PrUrl.FindMatchLeftmost | apps/pr-review-agent/src/actions/create-review-comments.ts:86 | A successful search returns the match at the leftmost matching position. |
| PrUrl.ParsePrUrlFails | apps/pr-review-agent/src/actions/create-review-comments.ts:85-90 | `match` fails exactly when the expression matches nowhere in the URL. |
| PrUrl.ParsePrUrlLeftmost | apps/pr-review-agent/src/actions/create-review-comments.ts:85-92 | The groups returned are those of a real match, and no match starts further left. |
| PrUrl.RoundTrip | apps/pr-review-agent/src/actions/create-review-comments.ts:85-92 | "https://github.com/o/r/pull/d" parses to (o, r, d) when o and r are non-empty and slash-free and d is digits. This holds even with trailing text that does not start with a digit. |
| PrUrl.DecimalRoundTrip | apps/pr-review-agent/src/actions/create-review-comments.ts:104 | A number's decimal numeral is all digits, and `parseInt` reads the number back. |
| PrUrl.ParsedDigits | apps/pr-review-agent/src/actions/create-review-comments.ts:92 | The digit group of a successful parse holds digits only. |
| PrUrl.ResolvePrUrl | apps/pr-review-agent/src/actions/get-file-before-after.ts:29-48 | The URL check both actions make. It fails exactly when the expression matches nowhere, and then only with "Invalid GitHub PR URL format". Otherwise the target holds the owner and repository groups, and the number is the digit group read in decimal. |
| PrUrl.ResolveRoundTrip | apps/pr-review-agent/src/actions/get-file-before-after.ts:29-48 | The canonical URL of pull request n of o/r resolves to owner o, repository r and number n. |
| PrUrl.ResolveRejects | apps/pr-review-agent/src/actions/get-file-before-after.ts:29-34 | A URL the expression matches nowhere fails with "Invalid GitHub PR URL format". |
| CreateReviewComments.IsReviewComment | apps/pr-review-agent/src/actions/create-review-comments.ts:15-24 | `isReviewComment`, written with `typeof` and `in`, holds exactly for a non-null plain object with a numeric `line` and a string `comment`, never for an array. |
| CreateReviewComments.EveryReviewComment | apps/pr-review-agent/src/actions/create-review-comments.ts:33 | `every(isReviewComment)` holds exactly when every element passes. |
| CreateReviewComments.ToComments | apps/pr-review-agent/src/actions/create-review-comments.ts:40-44 | The validated comments are the array's elements, one for one and in order. |
| CreateReviewComments.ValidateParameters | apps/pr-review-agent/src/actions/create-review-comments.ts:26-45 | Succeeds exactly for string `prUrl`, string `filename` and an array `comments` (possibly empty) of review comments, and returns those fields unchanged. Anything else gets the one invalid-parameters error. |
| CreateReviewComments.Prepare | apps/pr-review-agent/src/actions/create-review-comments.ts:78-92 | Fails with "Parameters are required" exactly for falsy or non-object parameters. Any other failure is the validation error or the URL error. On success the target is the URL's pull request. |
| CreateReviewComments.Drafts | apps/pr-review-agent/src/actions/create-review-comments.ts:116-121 | One draft per comment, in order, each with `path = filename`, the comment's line and text, and side "RIGHT". |
| CreateReviewComments.Run | apps/pr-review-agent/src/actions/create-review-comments.ts:77-131 | No API call exactly when preparation fails, which throws its message. Otherwise `pulls.get` comes first and there are at most two calls. A success made one "COMMENT" review and counts its comments. An API failure throws a message starting "Failed to create review comments: ". |
| CreateReviewComments.ArrayParametersInvalid | apps/pr-review-agent/src/actions/create-review-comments.ts:78-82 | An array passes the first check but fails validation, with no API call. |
| CreateReviewComments.ReviewMirrorsComments | apps/pr-review-agent/src/actions/create-review-comments.ts:101-127 | Exactly one review is created, on the URL's pull request at its head sha, with event "COMMENT" and the comments mapped in order. `commentCount` equals the number of comments. |
| CreateReviewComments.ApiFailureWrapped | apps/pr-review-agent/src/actions/create-review-comments.ts:99-130 | A rejection of `pulls.get` or `createReview` is rethrown once, as the prefix plus the rejection, with no retry. |
| CreateReviewComments.WellFormedRequestReachesApi | apps/pr-review-agent/src/actions/create-review-comments.ts:82-105 | Schema-conforming parameters with a canonical PR URL pass preparation. The first call reads that pull request by the number in the URL. |
| GetFileBeforeAfter.SideContent | apps/pr-review-agent/src/actions/get-file-before-after.ts:73-87 | A side gets content exactly when the fetch answered an object with a string `content`, and then it is that content decoded. |
| GetFileBeforeAfter.FileChangeOf | apps/pr-review-agent/src/actions/get-file-before-after.ts:59-121 | The entry is for the listed file. A side holds content only when the status lets it be fetched and its fetch at that side's commit answered. |
| GetFileBeforeAfter.Resolve | apps/pr-review-agent/src/actions/get-file-before-after.ts:26-36 | A `TypeError` exactly for null or undefined parameters or a `prUrl` that is not a string. Any other failure is "Invalid GitHub PR URL format". On success the target is the URL's resolution. |
| GetFileBeforeAfter.FetchFileChange | apps/pr-review-agent/src/actions/get-file-before-after.ts:59-122 | The per-file closure returns the file's change as `FileChangeOf` defines it and makes exactly the fetches `FetchesOf` lists: head first, then base. |
| GetFileBeforeAfter.FetchFileChanges | apps/pr-review-agent/src/actions/get-file-before-after.ts:58-123 | One entry per listed file, in the listing's order. Entry k depends only on file k. The calls are the per-file fetches, file after file. |
| GetFileBeforeAfter.Run | apps/pr-review-agent/src/actions/get-file-before-after.ts:25-129 | A missing or malformed URL throws before any call. A `pulls.get` or `listFiles` rejection aborts with "Failed to fetch PR file contents: " and the rejection. Otherwise the result has one entry per listed file. |
| GetFileBeforeAfter.RemovedFile | apps/pr-review-agent/src/actions/get-file-before-after.ts:60-64 | A removed file is fetched only at the base sha and has no after-content. |
| GetFileBeforeAfter.AddedFile | apps/pr-review-agent/src/actions/get-file-before-after.ts:91-115 | An added file is fetched only at the head sha and has no before-content. |
| GetFileBeforeAfter.ChangedFile | apps/pr-review-agent/src/actions/get-file-before-after.ts:64-115 | Any other status fetches both sides by file name, head at `head.sha` and base at `base.sha`. Each side is what its own fetch yields. |
| GetFileBeforeAfter.FetchesStayWithinListing | apps/pr-review-agent/src/actions/get-file-before-after.ts:58-123 | Every fetch asks for a listed file at the head or base sha, and there are at most two per file. |
| GetFileBeforeAfter.FailedFetchesLeaveNulls | apps/pr-review-agent/src/actions/get-file-before-after.ts:82-87 | A file whose fetches all fail still yields an entry with both sides null. |

## Left out

- Logging (`console.log`, `console.error`) is not modelled; it has no effect on results.
- Network I/O, the GitHub token and `new Octokit(...)` are not modelled. The API is an oracle whose answers are parameters, and an authentication failure shows up as a rejected call.
- The agent itself is not part of this model: spinai, OpenAI and the MCP tools it drives, what it posts on GitHub, and the memoised `getPRReviewAgent`. Only its three possible behaviours matter to the handlers, and those are a parameter.
- `CodeReviewSchema` and `CommentResponseSchema` are tags; their zod shapes are not modelled.
- `Buffer.from(content, "base64").toString()` is an opaque function carried by the oracle.
- Concurrency in `Promise.all` is modelled as a sequential map. The result order is the listing's order either way; the interleaving of fetches across files is not modelled.
- `pulls.listFiles` pagination is not modelled: the oracle's answer is whatever one call returns.
- The `GET /` health endpoint, `serve`, `PORT` and `dotenv` loading are not modelled.
- Hono's JSON parsing is reduced to "parses to a JSON value" or "throws".
- `Text.Lower`: maps only the ASCII capitals A-Z and leaves every other character as it is. `toLowerCase` applies the full Unicode mapping, which can also change a string's length. The fixed triggers are ASCII, but the mention trigger is "@" followed by whatever `BOT_USERNAME` holds. So the model's classifier can decline a comment the program answers when the comment or the bot name holds a non-ASCII capital. For example, the program answers "AİD": U+0130 lower-cases to "i" plus a combining dot, so the lower-cased text holds "ai". The model leaves "İ" alone and declines it. The Kelvin sign U+212A, which lower-cases to "k", behaves the same way. The reverse, answered here but declined by the program, needs a bot name with a context-dependent mapping such as the Greek final sigma.
- `Json.Json`: numbers are integers. Fractions, NaN and floating-point behaviour are not modelled.
- `PrUrl.DecimalValue`: `parseInt` is exact here; it loses precision above 2^53 in JavaScript.
- Strings are sequences of Unicode code points, not UTF-16 code units. The marker "🤖 " is two characters here and three code units in JavaScript. `startsWith`, `trim` and `includes` agree on both views for well-formed strings.
- JSON objects hold no `undefined` values, and a property read never finds an inherited property.
