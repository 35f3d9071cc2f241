/**
 * The state of the hosting platform that the handlers read and change, as
 * seen through the repository handle `repo` of `bot()`, and the record of the
 * mutating calls made on it.
 */
module Platform {

  import opened Wrappers

  /** What `repo.get_issue(number=n)` returns that the bot uses: `issue.user.login`. */
  datatype Issue = Issue(author: string)

  /** What `repo.get_pull(n)` returns that the bot uses: `user.login`, `title`, `head.ref`, `head.sha`. */
  datatype PullRequest = PullRequest(author: string, title: string, headRef: string, headSha: string)

  /** One mutating call on the platform, with its arguments. */
  datatype Effect =
    | AddLabel(number: int, name: string)           // issue.add_to_labels(name)
    | Comment(number: int, body: string)            // create_comment / create_issue_comment
    | DeleteRef(ref: string)                        // repo.get_git_ref(ref).delete()
    | CreateStatus(sha: string, state: string, description: string, context: string)
                                                    // repo.get_commit(sha=sha).create_status(...)

  /** The exceptions that can leave `bot()`. */
  datatype Error =
    | KeyError(key: string)         // a handler indexed a payload key that is absent
    | InstallationNotFound          // the app is not installed on the repository
    | IssueNotFound(number: int)    // get_issue on a number that does not exist
    | PullNotFound(number: int)     // get_pull on a number that is not a pull request
    | RefNotFound(ref: string)      // get_git_ref on a ref that does not exist

  /**
   * A snapshot of the repository: whether the app is installed on it, the
   * issues and pull requests by number, the existing git refs (such as
   * "heads/main"), and the log of every mutating call made so far.
   */
  datatype World = World(
    installed: bool,
    issues: map<int, Issue>,
    pulls: map<int, PullRequest>,
    refs: set<string>,
    log: seq<Effect>)

  const NEEDS_TRIAGE := "needs triage"
  const REVIEW_CONTEXT := "review"

  /** `e` sets a status on commit `sha` in the "review" context. */
  predicate IsReviewStatus(e: Effect, sha: string) {
    e.CreateStatus? && e.sha == sha && e.context == REVIEW_CONTEXT
  }

  /**
   * The state the commit `sha` shows in the "review" context: the state of the
   * latest status created for it in that context. A new status supersedes the
   * earlier ones, which is how the WIP gate is toggled.
   */
  function ReviewState(log: seq<Effect>, sha: string): Option<string>
    decreases |log|
  {
    if log == [] then None
    else
      var e := log[|log| - 1];
      if IsReviewStatus(e, sha) then Some(e.state)
      else ReviewState(log[..|log| - 1], sha)
  }

  /**
   * ReviewState is the state of the latest status in the "review" context for
   * `sha`, and None exactly when the log holds no such status.
   */
  lemma {:induction false} ReviewStateIsLatest(log: seq<Effect>, sha: string)
    ensures ReviewState(log, sha).None? <==> forall i :: 0 <= i < |log| ==> !IsReviewStatus(log[i], sha)
    ensures ReviewState(log, sha).Some? ==>
      exists i :: 0 <= i < |log| && IsReviewStatus(log[i], sha) && log[i].state == ReviewState(log, sha).value
        && forall j :: i < j < |log| ==> !IsReviewStatus(log[j], sha)
    decreases |log|
  {
    if log != [] && !IsReviewStatus(log[|log| - 1], sha) {
      var init := log[..|log| - 1];
      ReviewStateIsLatest(init, sha);
      assert forall i :: 0 <= i < |init| ==> init[i] == log[i];
    }
  }
}
