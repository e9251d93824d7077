/**
 * The `get_file_before_after` action: resolve the PR URL, read the pull
 * request and the list of its changed files, then fetch every file at the
 * base commit and at the head commit, as its status allows, and decode what
 * comes back. A failed fetch only loses that one side of that one file.
 */
module GetFileBeforeAfter {
  import opened Wrappers
  import opened Json
  import opened PrUrl
  import opened GitHubApi

  /** One entry of the result; `None` is `null`. */
  datatype FileChange = FileChange(filename: string, beforeContent: Option<string>, afterContent: Option<string>)

  const FailurePrefix: string := "Failed to fetch PR file contents: "

  /** A removed file has no head side to fetch. */
  predicate FetchesHead(file: ListedFile) {
    file.status != "removed"
  }

  /** An added file has no base side to fetch. */
  predicate FetchesBase(file: ListedFile) {
    file.status != "added"
  }

  /**
   * What one side becomes once its fetch has answered: the decoded `content`
   * when the answer has a string `content`, otherwise `null`. A rejected fetch
   * is caught and logged, and so is the `TypeError` of `in` on an answer that
   * is not an object; both leave `null`. Only a file object with a string
   * `content` yields content, and then exactly its decoding; a directory
   * listing (an array) never does.
   */
  function SideContent(answer: Result<Json, string>, decode: string -> string): (r: Option<string>)
    ensures r.Some? <==>
      answer.Ok? && answer.value.JObj? && "content" in answer.value.fields && answer.value.fields["content"].JStr?
    ensures r.Some? ==> r.value == decode(answer.value.fields["content"].s)
  {
    match answer
    case Err(_) => None
    case Ok(data) =>
      IndexNamesExclude(if data.JArr? then |data.elems| else 0, "content");
      if !(data.JObj? || data.JArr?) then None
      else if HasProperty(data, "content") && TypeOf(Prop(Some(data), "content")) == "string"
      then Some(decode(Prop(Some(data), "content").value.s))
      else None
  }

  /**
   * What the per-file closure resolves to for `file`: an entry for that file
   * whose each side holds content only when the status lets that side be
   * fetched and its fetch, at that side's commit, answered.
   */
  function FileChangeOf(gh: GitHub, owner: string, repo: string, pr: PullRequest, file: ListedFile): (r: FileChange)
    ensures r.filename == file.filename
    ensures r.beforeContent.Some? ==> FetchesBase(file) && gh.getContent(owner, repo, file.filename, pr.baseSha).Ok?
    ensures r.afterContent.Some? ==> FetchesHead(file) && gh.getContent(owner, repo, file.filename, pr.headSha).Ok?
  {
    FileChange(
      file.filename,
      if FetchesBase(file) then SideContent(gh.getContent(owner, repo, file.filename, pr.baseSha), gh.decodeBase64) else None,
      if FetchesHead(file) then SideContent(gh.getContent(owner, repo, file.filename, pr.headSha), gh.decodeBase64) else None)
  }

  /** The fetches the per-file closure makes for `file`: the head side first, then the base side. */
  function FetchesOf(owner: string, repo: string, pr: PullRequest, file: ListedFile): seq<ApiCall> {
    (if FetchesHead(file) then [GetContent(owner, repo, file.filename, pr.headSha)] else [])
    + (if FetchesBase(file) then [GetContent(owner, repo, file.filename, pr.baseSha)] else [])
  }

  /** The fetches for a list of files, file after file. */
  function AllFetchesOf(owner: string, repo: string, pr: PullRequest, files: seq<ListedFile>): seq<ApiCall> {
    if files == [] then []
    else AllFetchesOf(owner, repo, pr, files[..|files| - 1]) + FetchesOf(owner, repo, pr, files[|files| - 1])
  }

  /**
   * The per-file closure: both sides start as `null`; each side the status
   * allows is fetched, by the file's name, at the head or base commit, and
   * replaced by the decoded content when the answer carries some.
   */
  method FetchFileChange(gh: GitHub, owner: string, repo: string, pr: PullRequest, file: ListedFile)
    returns (change: FileChange, calls: seq<ApiCall>)
    ensures change == FileChangeOf(gh, owner, repo, pr, file)
    ensures calls == FetchesOf(owner, repo, pr, file)
  {
    var beforeContent: Option<string> := None;
    var afterContent: Option<string> := None;
    calls := [];
    if file.status != "removed" {
      calls := calls + [GetContent(owner, repo, file.filename, pr.headSha)];
      var answer := gh.getContent(owner, repo, file.filename, pr.headSha);
      if answer.Ok? && (answer.value.JObj? || answer.value.JArr?) {
        var data := answer.value;
        if HasProperty(data, "content") && TypeOf(Prop(Some(data), "content")) == "string" {
          afterContent := Some(gh.decodeBase64(Prop(Some(data), "content").value.s));
        }
      }
    }
    if file.status != "added" {
      calls := calls + [GetContent(owner, repo, file.filename, pr.baseSha)];
      var answer := gh.getContent(owner, repo, file.filename, pr.baseSha);
      if answer.Ok? && (answer.value.JObj? || answer.value.JArr?) {
        var data := answer.value;
        if HasProperty(data, "content") && TypeOf(Prop(Some(data), "content")) == "string" {
          beforeContent := Some(gh.decodeBase64(Prop(Some(data), "content").value.s));
        }
      }
    }
    change := FileChange(file.filename, beforeContent, afterContent);
  }

  /** `files.map(...)`, file after file: one entry per listed file, in the listing's order. */
  method FetchFileChanges(gh: GitHub, owner: string, repo: string, pr: PullRequest, files: seq<ListedFile>)
    returns (changes: seq<FileChange>, calls: seq<ApiCall>)
    ensures |changes| == |files|
    ensures forall k :: 0 <= k < |files| ==> changes[k] == FileChangeOf(gh, owner, repo, pr, files[k])
    ensures calls == AllFetchesOf(owner, repo, pr, files)
  {
    changes := [];
    calls := [];
    var i := 0;
    while i < |files|
      invariant 0 <= i <= |files|
      invariant |changes| == i
      invariant forall k :: 0 <= k < i ==> changes[k] == FileChangeOf(gh, owner, repo, pr, files[k])
      invariant calls == AllFetchesOf(owner, repo, pr, files[..i])
    {
      var change, fetched := FetchFileChange(gh, owner, repo, pr, files[i]);
      changes := changes + [change];
      calls := calls + fetched;
      assert files[..i + 1][..i] == files[..i];
      i := i + 1;
    }
    assert files[..|files|] == files;
  }

  /**
   * What `run` does before the API is touched: destructure `prUrl` (a
   * `TypeError` on `null` or `undefined` parameters), call its `match` (a
   * `TypeError` unless it is a string) and check the URL.
   */
  function Resolve(parameters: Value): (r: Result<PullTarget, Thrown>)
    ensures r == Err(TypeError) <==> IsNullish(parameters) || !IsString(Prop(parameters, "prUrl"))
    ensures r.Err? && r.error.Failure? ==> r.error.message == InvalidUrlMessage
    ensures r.Ok? ==> ResolvePrUrl(Prop(parameters, "prUrl").value.s) == Ok(r.value)
  {
    if IsNullish(parameters) then Err(TypeError)
    else
      var prUrl := Prop(parameters, "prUrl");
      if !IsString(prUrl) then Err(TypeError)
      else
        match ResolvePrUrl(prUrl.value.s)
        case Err(m) => Err(Failure(m))
        case Ok(t) => Ok(t)
  }

  /**
   * `run`. A missing or malformed URL throws before any call. Otherwise the
   * pull request and its file listing are read, in that order, and a failure
   * of either aborts the action with the wrapped error; once both are read,
   * the action returns one entry per listed file and cannot fail.
   */
  method Run(parameters: Value, gh: GitHub) returns (x: Execution<seq<FileChange>>)
    ensures Resolve(parameters).Err? ==> x == Execution(Threw(Resolve(parameters).error), [])
    ensures Resolve(parameters).Ok? ==>
      var t := Resolve(parameters).value;
      var get := GetPull(t.owner, t.repo, t.pullNumber);
      var list := ListFiles(t.owner, t.repo, t.pullNumber);
      match gh.getPull(t.owner, t.repo, t.pullNumber)
      case Err(e) => x == Execution(Threw(Failure(FailurePrefix + e)), [get])
      case Ok(pr) =>
        match gh.listFiles(t.owner, t.repo, t.pullNumber)
        case Err(e) => x == Execution(Threw(Failure(FailurePrefix + e)), [get, list])
        case Ok(files) =>
          && x.outcome.Returned?
          && |x.outcome.value| == |files|
          && (forall k :: 0 <= k < |files| ==> x.outcome.value[k] == FileChangeOf(gh, t.owner, t.repo, pr, files[k]))
          && x.calls == [get, list] + AllFetchesOf(t.owner, t.repo, pr, files)
  {
    var resolved := Resolve(parameters);
    if resolved.Err? {
      return Execution(Threw(resolved.error), []);
    }
    var t := resolved.value;
    var calls := [GetPull(t.owner, t.repo, t.pullNumber)];
    var prAnswer := gh.getPull(t.owner, t.repo, t.pullNumber);
    if prAnswer.Err? {
      return Execution(Threw(Failure(FailurePrefix + prAnswer.error)), calls);
    }
    var pr := prAnswer.value;
    calls := calls + [ListFiles(t.owner, t.repo, t.pullNumber)];
    var listing := gh.listFiles(t.owner, t.repo, t.pullNumber);
    if listing.Err? {
      return Execution(Threw(Failure(FailurePrefix + listing.error)), calls);
    }
    var changes, fetched := FetchFileChanges(gh, t.owner, t.repo, pr, listing.value);
    return Execution(Returned(changes), calls + fetched);
  }

  // ---------------------------------------------------------------------------
  // Properties of the per-file rule
  // ---------------------------------------------------------------------------

  /** A removed file is fetched at the base commit only, and has no content after. */
  lemma RemovedFile(gh: GitHub, owner: string, repo: string, pr: PullRequest, file: ListedFile)
    requires file.status == "removed"
    ensures FileChangeOf(gh, owner, repo, pr, file).afterContent.None?
    ensures FetchesOf(owner, repo, pr, file) == [GetContent(owner, repo, file.filename, pr.baseSha)]
  {
  }

  /** An added file is fetched at the head commit only, and has no content before. */
  lemma AddedFile(gh: GitHub, owner: string, repo: string, pr: PullRequest, file: ListedFile)
    requires file.status == "added"
    ensures FileChangeOf(gh, owner, repo, pr, file).beforeContent.None?
    ensures FetchesOf(owner, repo, pr, file) == [GetContent(owner, repo, file.filename, pr.headSha)]
  {
  }

  /**
   * Any other status fetches both sides by the file's name, the head side at
   * the head commit and the base side at the base commit, and each side is
   * what its own fetch yields, whatever the other fetch did.
   */
  lemma ChangedFile(gh: GitHub, owner: string, repo: string, pr: PullRequest, file: ListedFile)
    requires file.status != "removed" && file.status != "added"
    ensures FetchesOf(owner, repo, pr, file) ==
      [GetContent(owner, repo, file.filename, pr.headSha), GetContent(owner, repo, file.filename, pr.baseSha)]
    ensures var change := FileChangeOf(gh, owner, repo, pr, file);
            && change.filename == file.filename
            && change.afterContent == SideContent(gh.getContent(owner, repo, file.filename, pr.headSha), gh.decodeBase64)
            && change.beforeContent == SideContent(gh.getContent(owner, repo, file.filename, pr.baseSha), gh.decodeBase64)
  {
  }

  /**
   * Every fetch the action makes asks for a listed file, by its name, at the
   * head or the base commit, and there are at most two per listed file.
   */
  lemma {:induction false} FetchesStayWithinListing(owner: string, repo: string, pr: PullRequest, files: seq<ListedFile>)
    ensures var calls := AllFetchesOf(owner, repo, pr, files);
            && |calls| <= 2 * |files|
            && forall c :: c in calls ==>
                 && c.GetContent? && c.owner == owner && c.repo == repo
                 && (c.ref == pr.headSha || c.ref == pr.baseSha)
                 && exists k :: 0 <= k < |files| && c.path == files[k].filename
  {
    if files != [] {
      var init := files[..|files| - 1];
      FetchesStayWithinListing(owner, repo, pr, init);
      var last := files[|files| - 1];
      forall c | c in AllFetchesOf(owner, repo, pr, files)
        ensures exists k :: 0 <= k < |files| && c.path == files[k].filename
      {
        if c in AllFetchesOf(owner, repo, pr, init) {
          var k :| 0 <= k < |init| && c.path == init[k].filename;
          assert files[k] == init[k];
        } else {
          assert c in FetchesOf(owner, repo, pr, last);
          assert c.path == files[|files| - 1].filename;
        }
      }
    }
  }

  /** A listing whose files all fail to fetch still yields one entry per file, every side `null`. */
  lemma FailedFetchesLeaveNulls(gh: GitHub, owner: string, repo: string, pr: PullRequest, file: ListedFile)
    requires forall ref :: gh.getContent(owner, repo, file.filename, ref).Err?
    ensures FileChangeOf(gh, owner, repo, pr, file) == FileChange(file.filename, None, None)
  {
  }
}
