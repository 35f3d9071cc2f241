/**
 * The handlers and `bot()` of app.py as they run: methods on the repository
 * handle that perform the platform calls one at a time, in source order,
 * recording each in the effect log. Each method is proved to do what the
 * corresponding function of module Engine describes.
 */
module App {

  import opened Wrappers
  import opened Wip
  import opened Webhook
  import opened Platform
  import opened Engine

  /**
   * The repository handle `repo` of `bot()`, together with the platform state
   * it reaches: issues and pull requests (only read), the git refs (which
   * branch deletion changes) and the log of the mutating calls made.
   */
  class Repo {
    const id: RepoId
    const installed: bool
    const issues: map<int, Issue>
    const pulls: map<int, PullRequest>
    var refs: set<string>
    var log: seq<Effect>

    function State(): World
      reads this
    {
      World(installed, issues, pulls, refs, log)
    }

    constructor (id: RepoId, installed: bool, issues: map<int, Issue>, pulls: map<int, PullRequest>,
                 refs: set<string>)
      ensures this.id == id && State() == World(installed, issues, pulls, refs, [])
    {
      this.id := id;
      this.installed := installed;
      this.issues := issues;
      this.pulls := pulls;
      this.refs := refs;
      this.log := [];
    }

    /** issue_opened_event: label the fetched issue, then thank its author. */
    method IssueOpenedEvent(p: Payload) returns (raised: Option<Error>)
      modifies this`log
      ensures Step(State(), raised) == IssueOpenedStep(old(State()), p)
    {
      if p.issue.None? {
        return Some(KeyError("issue"));
      }
      var n := p.issue.value.number;
      if n !in issues {
        return Some(IssueNotFound(n));
      }
      var author := issues[n].author;
      log := log + [AddLabel(n, NEEDS_TRIAGE)];
      log := log + [Comment(n, TriageComment(author))];
      return None;
    }

    /** pull_request_closed_event: thank the author of the fetched pull request. */
    method PullRequestClosedEvent(p: Payload) returns (raised: Option<Error>)
      modifies this`log
      ensures Step(State(), raised) == PullRequestClosedStep(old(State()), p)
    {
      if p.pullRequest.None? {
        return Some(KeyError("pull_request"));
      }
      var n := p.pullRequest.value.number;
      if n !in pulls {
        return Some(PullNotFound(n));
      }
      var author := pulls[n].author;
      log := log + [Comment(n, MergedComment(author))];
      return None;
    }

    /** delete_merged_branch: look up `heads/<head.ref>` of the fetched pull request and delete it. */
    method DeleteMergedBranch(p: Payload) returns (raised: Option<Error>)
      modifies this`refs, this`log
      ensures Step(State(), raised) == DeleteMergedBranchStep(old(State()), p)
    {
      if p.pullRequest.None? {
        return Some(KeyError("pull_request"));
      }
      var n := p.pullRequest.value.number;
      if n !in pulls {
        return Some(PullNotFound(n));
      }
      var branchName := pulls[n].headRef;
      var ref := BranchRef(branchName);
      if ref !in refs {
        return Some(RefNotFound(ref));
      }
      refs := refs - {ref};
      log := log + [DeleteRef(ref)];
      return None;
    }

    /** pull_request_opened_event: gate the head commit only when the title is WIP. */
    method PullRequestOpenedEvent(p: Payload) returns (raised: Option<Error>)
      modifies this`log
      ensures Step(State(), raised) == PullRequestOpenedStep(old(State()), p)
    {
      if p.pullRequest.None? {
        return Some(KeyError("pull_request"));
      }
      var n := p.pullRequest.value.number;
      if n !in pulls {
        return Some(PullNotFound(n));
      }
      var pr := pulls[n];
      if IsWip(pr.title) {
        log := log + [CreateStatus(pr.headSha, "pending", "Work in progress", REVIEW_CONTEXT)];
        log := log + [Comment(n, WipComment(pr.author))];
      }
      return None;
    }

    /** pull_request_edited_event: set the gate from the current title, pending or success. */
    method PullRequestEditedEvent(p: Payload) returns (raised: Option<Error>)
      modifies this`log
      ensures Step(State(), raised) == PullRequestEditedStep(old(State()), p)
    {
      if p.pullRequest.None? {
        return Some(KeyError("pull_request"));
      }
      var n := p.pullRequest.value.number;
      if n !in pulls {
        return Some(PullNotFound(n));
      }
      var pr := pulls[n];
      if IsWip(pr.title) {
        log := log + [CreateStatus(pr.headSha, "pending", "Work in progress", REVIEW_CONTEXT)];
        log := log + [Comment(n, WipComment(pr.author))];
      } else {
        log := log + [CreateStatus(pr.headSha, "success", "Ready for review", REVIEW_CONTEXT)];
        log := log + [Comment(n, ReadyComment(pr.author))];
      }
      return None;
    }

    /**
     * bot(): acknowledge a delivery without `repository` at once; otherwise
     * authenticate, then run the five tests in order, each calling its
     * handler. An exception from a handler leaves `bot()` immediately.
     * The handle must be the one `get_repo` returns for the payload's repository.
     */
    method Bot(p: Payload) returns (reply: Reply)
      requires p.repository.Some? ==> p.repository.value == id
      modifies this`refs, this`log
      ensures Outcome(State(), reply) == Deliver(old(State()), p)
    {
      if p.repository.None? {
        return NO_CONTENT;
      }
      if !installed {
        return Raised(InstallationNotFound);
      }
      // `s` is what the tests passed so far have done: the state reached, and
      // no exception (an exception has returned at once).
      ghost var w0 := State();
      ghost var s := Step(w0, None);
      ChainRunsClassified(w0, p);
      var raised: Option<Error> := None;

      if IsIssueAction(p, "opened") {
        raised := IssueOpenedEvent(p);
        if raised.Some? {
          return Raised(raised.value);
        }
      }
      s := Then(s, IsIssueAction(p, "opened"), IssueOpened, p);

      if IsPullRequestAction(p, "closed") {
        raised := PullRequestClosedEvent(p);
        if raised.Some? {
          return Raised(raised.value);
        }
      }
      s := Then(s, IsPullRequestAction(p, "closed"), PullRequestClosed, p);

      if IsPullRequestAction(p, "closed") {
        raised := DeleteMergedBranch(p);
        if raised.Some? {
          return Raised(raised.value);
        }
      }
      s := Then(s, IsPullRequestAction(p, "closed"), Case.DeleteMergedBranch, p);

      if IsPullRequestAction(p, "opened") {
        raised := PullRequestOpenedEvent(p);
        if raised.Some? {
          return Raised(raised.value);
        }
      }
      s := Then(s, IsPullRequestAction(p, "opened"), PullRequestOpened, p);

      if IsPullRequestAction(p, "edited") {
        raised := PullRequestEditedEvent(p);
        if raised.Some? {
          return Raised(raised.value);
        }
      }
      s := Then(s, IsPullRequestAction(p, "edited"), PullRequestEdited, p);
      assert s == Chain(w0, p);
      return NO_CONTENT;
    }
  }
}
