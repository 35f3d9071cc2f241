/**
 * What one delivery does, stated over the snapshot before it: which calls
 * are made, in which order, with which arguments, and what `bot()` replies.
 */
module Properties {

  import opened Wrappers
  import opened Text
  import opened Wip
  import opened Webhook
  import opened Platform
  import opened Engine

  /** The delivery names a repository the app is installed on, so the handlers get to run. */
  predicate Authorized(w: World, p: Payload) {
    p.repository.Some? && w.installed
  }

  /** A delivery without `repository` is answered `("", 204)` and nothing is called. */
  lemma {:induction false} NoRepositoryIsAcknowledged(w: World, p: Payload)
    requires p.repository.None?
    ensures Deliver(w, p) == Outcome(w, Ack("", 204))
  {
  }

  /** When the installation lookup fails, no handler runs and the exception escapes. */
  lemma {:induction false} NotInstalledIsRejected(w: World, p: Payload)
    requires p.repository.Some? && !w.installed
    ensures Deliver(w, p) == Outcome(w, Raised(InstallationNotFound))
  {
  }

  /**
   * An opened issue is labelled "needs triage" and then gets one comment
   * mentioning the author of the fetched issue; an issue the platform does
   * not know raises before anything is done.
   */
  lemma {:induction false} IssueOpenedEffects(w: World, p: Payload)
    requires Authorized(w, p) && IsIssueAction(p, "opened") && p.pullRequest.None?
    ensures var n := p.issue.value.number;
      if n !in w.issues then Deliver(w, p) == Outcome(w, Raised(IssueNotFound(n)))
      else
        var author := w.issues[n].author;
        Deliver(w, p)
        == Outcome(w.(log := w.log + [AddLabel(n, "needs triage"), Comment(n, TriageComment(author))]),
                   Ack("", 204))
  {
    assert Classify(p) == [IssueOpened];
    RunSingle(IssueOpened, w, p);
  }

  /**
   * A closed pull request gets a thank-you comment mentioning the fetched
   * author, then its branch `heads/<head.ref>` is deleted. When that ref is
   * already gone the comment has been posted and the lookup's exception
   * escapes `bot()`.
   */
  lemma {:induction false} ClosedPullRequestEffects(w: World, p: Payload)
    requires Authorized(w, p) && IsPullRequestAction(p, "closed")
    ensures var n := p.pullRequest.value.number;
      if n !in w.pulls then Deliver(w, p) == Outcome(w, Raised(PullNotFound(n)))
      else
        var pr := w.pulls[n];
        var ref := "heads/" + pr.headRef;
        var thanked := w.log + [Comment(n, MergedComment(pr.author))];
        if ref in w.refs then
             Deliver(w, p) == Outcome(w.(refs := w.refs - {ref}, log := thanked + [DeleteRef(ref)]), Ack("", 204))
           else
             Deliver(w, p) == Outcome(w.(log := thanked), Raised(RefNotFound(ref)))
  {
    assert Classify(p) == [PullRequestClosed, Case.DeleteMergedBranch];
    RunPair(PullRequestClosed, Case.DeleteMergedBranch, w, p);
  }

  /**
   * An opened pull request with a WIP title gets a pending "Work in progress"
   * status in the "review" context on the fetched head commit, then one WIP
   * comment mentioning the author; with a clean title nothing happens. A
   * number that names no pull request raises before anything is done.
   */
  lemma {:induction false} OpenedPullRequestEffects(w: World, p: Payload)
    requires Authorized(w, p) && IsPullRequestAction(p, "opened") && p.issue.None?
    ensures var n := p.pullRequest.value.number;
      if n !in w.pulls then Deliver(w, p) == Outcome(w, Raised(PullNotFound(n)))
      else
        var pr := w.pulls[n];
        if IsWip(pr.title) then
          Deliver(w, p)
          == Outcome(w.(log := w.log + [CreateStatus(pr.headSha, "pending", "Work in progress", "review"),
                                        Comment(n, WipComment(pr.author))]),
                     Ack("", 204))
        else Deliver(w, p) == Outcome(w, Ack("", 204))
  {
    assert Classify(p) == [PullRequestOpened];
    RunSingle(PullRequestOpened, w, p);
  }

  /**
   * An edited pull request always gets exactly one status in the "review"
   * context on the fetched head commit and then one comment: pending "Work in
   * progress" for a WIP title, success "Ready for review" otherwise. A number
   * that names no pull request raises before anything is done.
   */
  lemma {:induction false} EditedPullRequestEffects(w: World, p: Payload)
    requires Authorized(w, p) && IsPullRequestAction(p, "edited")
    ensures var n := p.pullRequest.value.number;
      if n !in w.pulls then Deliver(w, p) == Outcome(w, Raised(PullNotFound(n)))
      else
        var pr := w.pulls[n];
        if IsWip(pr.title) then
          Deliver(w, p)
          == Outcome(w.(log := w.log + [CreateStatus(pr.headSha, "pending", "Work in progress", "review"),
                                        Comment(n, WipComment(pr.author))]),
                     Ack("", 204))
        else
          Deliver(w, p)
          == Outcome(w.(log := w.log + [CreateStatus(pr.headSha, "success", "Ready for review", "review"),
                                        Comment(n, ReadyComment(pr.author))]),
                     Ack("", 204))
  {
    assert Classify(p) == [PullRequestEdited];
    RunSingle(PullRequestEdited, w, p);
  }

  /** After an edited delivery, the head commit's review state reflects the current title. */
  lemma {:induction false} EditedSetsReviewState(w: World, p: Payload)
    requires Authorized(w, p) && IsPullRequestAction(p, "edited")
    requires p.pullRequest.value.number in w.pulls
    ensures var pr := w.pulls[p.pullRequest.value.number];
      ReviewState(Deliver(w, p).world.log, pr.headSha) == Some(if IsWip(pr.title) then "pending" else "success")
  {
    EditedPullRequestEffects(w, p);
    var n := p.pullRequest.value.number;
    var pr := w.pulls[n];
    var es := if IsWip(pr.title) then WipEffects(n, pr) else ReadyEffects(n, pr);
    var log := w.log + es;
    assert Deliver(w, p).world.log == log;
    assert log[..|log| - 1] == w.log + [es[0]];
  }

  /**
   * After an opened delivery, a WIP title leaves the head commit pending; a
   * clean title leaves its review state as it was (nothing is reverted).
   */
  lemma {:induction false} OpenedSetsReviewState(w: World, p: Payload)
    requires Authorized(w, p) && IsPullRequestAction(p, "opened") && p.issue.None?
    requires p.pullRequest.value.number in w.pulls
    ensures var pr := w.pulls[p.pullRequest.value.number];
      ReviewState(Deliver(w, p).world.log, pr.headSha)
      == if IsWip(pr.title) then Some("pending") else ReviewState(w.log, pr.headSha)
  {
    OpenedPullRequestEffects(w, p);
    var n := p.pullRequest.value.number;
    var pr := w.pulls[n];
    if IsWip(pr.title) {
      var log := w.log + WipEffects(n, pr);
      assert log[..|log| - 1] == w.log + [WipEffects(n, pr)[0]];
    }
  }

  /**
   * When an issue payload and a pull-request payload are both opened, the
   * issue handler runs first and the WIP check after it.
   */
  lemma {:induction false} IssueBeforePullRequest(w: World, p: Payload)
    requires Authorized(w, p) && IsIssueAction(p, "opened") && IsPullRequestAction(p, "opened")
    requires p.issue.value.number in w.issues && p.pullRequest.value.number in w.pulls
    ensures var i := p.issue.value.number;
      var n := p.pullRequest.value.number;
      var pr := w.pulls[n];
      Deliver(w, p)
      == Outcome(w.(log := w.log + [AddLabel(i, "needs triage"), Comment(i, TriageComment(w.issues[i].author))]
                                 + (if IsWip(pr.title) then WipEffects(n, pr) else [])),
                 Ack("", 204))
  {
    assert Classify(p) == [IssueOpened, PullRequestOpened];
    RunPair(IssueOpened, PullRequestOpened, w, p);
  }

  /**
   * The two payloads name the same repository and route the same way: the
   * same action, the same keys present and the same issue and pull-request
   * numbers. The payload's other copies are not compared.
   */
  predicate SameRouting(p: Payload, q: Payload) {
    && p.repository == q.repository
    && p.action == q.action
    && p.issue.Some? == q.issue.Some?
    && (p.issue.Some? ==> p.issue.value.number == q.issue.value.number)
    && p.pullRequest.Some? == q.pullRequest.Some?
    && (p.pullRequest.Some? ==> p.pullRequest.value.number == q.pullRequest.value.number)
  }

  lemma {:induction false} RunCasesRouting(cs: seq<Case>, w: World, p: Payload, q: Payload)
    requires SameRouting(p, q)
    ensures RunCases(cs, w, p) == RunCases(cs, w, q)
    decreases |cs|
  {
    if cs != [] {
      assert RunCase(cs[0], w, p) == RunCase(cs[0], w, q);
      RunCasesRouting(cs[1..], RunCase(cs[0], w, p).world, p, q);
    }
  }

  /**
   * For one repository, the payload's own copies of the author, title, head
   * ref, head SHA and `merged` flag never matter: every decision is taken on
   * the re-fetched issue or pull request.
   */
  lemma {:induction false} PayloadCopiesIgnored(w: World, p: Payload, q: Payload)
    requires SameRouting(p, q)
    ensures Deliver(w, p) == Deliver(w, q)
  {
    assert Classify(p) == Classify(q);
    RunCasesRouting(Classify(p), w, p, q);
  }

  /** Closing a pull request comments and deletes its branch whether or not it was merged. */
  lemma {:induction false} MergedFlagIgnored(w: World, p: Payload, merged: bool)
    requires IsPullRequestAction(p, "closed")
    ensures Deliver(w, p.(pullRequest := Some(p.pullRequest.value.(merged := merged)))) == Deliver(w, p)
  {
    PayloadCopiesIgnored(w, p.(pullRequest := Some(p.pullRequest.value.(merged := merged))), p);
  }

  /**
   * Delivering the same closed event twice: the retry posts a second
   * thank-you comment and then fails on the ref the first delivery deleted.
   */
  lemma {:induction false} ClosedRedelivery(w: World, p: Payload)
    requires Authorized(w, p) && IsPullRequestAction(p, "closed")
    requires p.pullRequest.value.number in w.pulls
    requires "heads/" + w.pulls[p.pullRequest.value.number].headRef in w.refs
    ensures var n := p.pullRequest.value.number;
      var pr := w.pulls[n];
      var first := Deliver(w, p);
      var second := Deliver(first.world, p);
      && first.reply == Ack("", 204)
      && second.reply == Raised(RefNotFound("heads/" + pr.headRef))
      && second.world.log == first.world.log + [Comment(n, MergedComment(pr.author))]
  {
    ClosedPullRequestEffects(w, p);
    ClosedPullRequestEffects(Deliver(w, p).world, p);
  }

  /**
   * Deliveries only read the installation, the issues and the pull requests;
   * the log only grows; a ref disappears only through a logged DeleteRef.
   */
  lemma {:induction false} DeliverEvolves(w: World, p: Payload)
    ensures Evolves(w, Deliver(w, p).world)
  {
    if Authorized(w, p) {
      RunCasesEvolves(Classify(p), w, p);
    } else {
      assert w.log[..|w.log|] == w.log;
    }
  }
}
