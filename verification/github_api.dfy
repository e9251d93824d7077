/**
 * The GitHub REST API as the two actions use it through Octokit, reduced to
 * an oracle: each endpoint is a function from its arguments to the data it
 * answers or the rejection it fails with. The actions also return the calls
 * they made, in order, so that what they ask of the API can be stated.
 */
module GitHubApi {
  import opened Wrappers
  import opened Json

  /** What the actions read of `pulls.get`: `pr.head.sha` and `pr.base.sha`. */
  datatype PullRequest = PullRequest(headSha: string, baseSha: string)

  /** One entry of `pulls.listFiles`. */
  datatype ListedFile = ListedFile(filename: string, status: string)

  /** One entry of the `comments` array sent to `pulls.createReview`. */
  datatype DraftComment = DraftComment(path: string, line: int, body: string, side: string)

  datatype ApiCall =
    | GetPull(owner: string, repo: string, pullNumber: nat)
    | ListFiles(owner: string, repo: string, pullNumber: nat)
    | GetContent(owner: string, repo: string, path: string, ref: string)
    | CreateReview(owner: string, repo: string, pullNumber: nat, commitId: string, event: string,
                   comments: seq<DraftComment>)

  /**
   * The answers of the API. A failure carries the rejection as a template
   * literal renders it (`${error}`). `getContent` answers the `data` of
   * `repos.getContent`, whatever its shape; `createReview` answers the id of
   * the review it created. `decodeBase64` is `Buffer.from(_, "base64").toString()`.
   */
  datatype GitHub = GitHub(
    getPull: (string, string, nat) -> Result<PullRequest, string>,
    listFiles: (string, string, nat) -> Result<seq<ListedFile>, string>,
    getContent: (string, string, string, string) -> Result<Json, string>,
    createReview: (string, string, nat, string, string, seq<DraftComment>) -> Result<int, string>,
    decodeBase64: string -> string)

  /** What an action's `run` throws: an `Error` with a message, or the `TypeError` of a property read on `undefined`/`null` or of calling a method a value does not have. */
  datatype Thrown = Failure(message: string) | TypeError

  datatype Outcome<+T> = Returned(value: T) | Threw(error: Thrown)

  /** One run of an action: how it ended and the API calls it made, in order. */
  datatype Execution<+T> = Execution(outcome: Outcome<T>, calls: seq<ApiCall>)
}
