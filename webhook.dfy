/**
 * The decoded webhook delivery and its classification into handler cases
 * (the chain of `if` tests in `bot()`, app.py lines 115-132).
 */
module Webhook {

  import opened Wrappers

  /** `payload['repository']`: the owner login and the repository name. */
  datatype RepoId = RepoId(owner: string, name: string)

  /** `payload['issue']`: the issue number and the payload's own copy of its author. */
  datatype IssueCopy = IssueCopy(number: int, author: string)

  /**
   * `payload['pull_request']`: the number and the payload's copies of fields
   * the handlers could have used but do not (they re-fetch the pull request).
   */
  datatype PullCopy = PullCopy(
    number: int, merged: bool, title: string, author: string, headRef: string, headSha: string)

  /** A delivery; `None` stands for a key that is absent from the JSON object. */
  datatype Payload = Payload(
    repository: Option<RepoId>,
    action: Option<string>,
    issue: Option<IssueCopy>,
    pullRequest: Option<PullCopy>)

  /** The handlers `bot()` may run, named after the functions of app.py. */
  datatype Case =
    | IssueOpened          // issue_opened_event
    | PullRequestClosed    // pull_request_closed_event
    | DeleteMergedBranch   // delete_merged_branch
    | PullRequestOpened    // pull_request_opened_event
    | PullRequestEdited    // pull_request_edited_event

  /** `all(k in payload.keys() for k in ['action', 'issue']) and payload['action'] == a` */
  predicate IsIssueAction(p: Payload, a: string) {
    p.action.Some? && p.issue.Some? && p.action.value == a
  }

  /** `all(k in payload.keys() for k in ['action', 'pull_request']) and payload['action'] == a` */
  predicate IsPullRequestAction(p: Payload, a: string) {
    p.action.Some? && p.pullRequest.Some? && p.action.value == a
  }

  function When(b: bool, c: Case): seq<Case> {
    if b then [c] else []
  }

  /** The handlers one delivery runs, in the textual order of the tests in `bot()`. */
  function Classify(p: Payload): seq<Case> {
    When(IsIssueAction(p, "opened"), IssueOpened)
    + When(IsPullRequestAction(p, "closed"), PullRequestClosed)
    + When(IsPullRequestAction(p, "closed"), DeleteMergedBranch)
    + When(IsPullRequestAction(p, "opened"), PullRequestOpened)
    + When(IsPullRequestAction(p, "edited"), PullRequestEdited)
  }

  /** Each handler runs exactly when its test holds. */
  lemma {:induction false} ClassifyIff(p: Payload)
    ensures IssueOpened in Classify(p) <==> IsIssueAction(p, "opened")
    ensures PullRequestClosed in Classify(p) <==> IsPullRequestAction(p, "closed")
    ensures DeleteMergedBranch in Classify(p) <==> IsPullRequestAction(p, "closed")
    ensures PullRequestOpened in Classify(p) <==> IsPullRequestAction(p, "opened")
    ensures PullRequestEdited in Classify(p) <==> IsPullRequestAction(p, "edited")
  {
  }

  /**
   * The only handler lists a delivery can produce: the closed, opened and
   * edited cases exclude each other, a closed pull request always runs both
   * its handlers, comment first, and the issue handler (when it runs) comes first.
   */
  lemma {:induction false} ClassifyShapes(p: Payload)
    ensures Classify(p) in {
      [], [IssueOpened], [PullRequestClosed, DeleteMergedBranch],
      [PullRequestOpened], [IssueOpened, PullRequestOpened], [PullRequestEdited]}
  {
    if p.action == Some("opened") {
      if p.issue.Some? && p.pullRequest.Some? {
        assert Classify(p) == [IssueOpened, PullRequestOpened];
      } else if p.issue.Some? {
        assert Classify(p) == [IssueOpened];
      } else if p.pullRequest.Some? {
        assert Classify(p) == [PullRequestOpened];
      } else {
        assert Classify(p) == [];
      }
    } else if p.action == Some("closed") && p.pullRequest.Some? {
      assert Classify(p) == [PullRequestClosed, DeleteMergedBranch];
    } else if p.action == Some("edited") && p.pullRequest.Some? {
      assert Classify(p) == [PullRequestEdited];
    } else {
      assert Classify(p) == [];
    }
  }

  /** A delivery without an `action` key runs no handler. */
  lemma {:induction false} NoActionNoCases(p: Payload)
    requires p.action.None?
    ensures Classify(p) == []
  {
  }
}
