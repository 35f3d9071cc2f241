/** Concrete deliveries: the scenarios the bot is meant to handle, worked through the model. */
module Scenarios {

  import opened Wrappers
  import opened Text
  import opened Wip
  import opened Webhook
  import opened Platform
  import opened Engine
  import opened Properties

  const REPO := RepoId("octo", "demo")

  /** Issue #42 opened by alice: label "needs triage" on #42, then a comment containing "@alice". */
  lemma {:induction false} IssueOpenedByAlice(refs: set<string>)
    ensures var w := World(true, map[42 := Issue("alice")], map[], refs, []);
      var p := Payload(Some(REPO), Some("opened"), Some(IssueCopy(42, "alice")), None);
      var o := Deliver(w, p);
      && o.reply == Ack("", 204)
      && |o.world.log| == 2
      && o.world.log[0] == AddLabel(42, "needs triage")
      && o.world.log[1].Comment? && o.world.log[1].number == 42 && Contains(o.world.log[1].body, "@alice")
  {
    var w := World(true, map[42 := Issue("alice")], map[], refs, []);
    var p := Payload(Some(REPO), Some("opened"), Some(IssueCopy(42, "alice")), None);
    IssueOpenedEffects(w, p);
    CommentsMentionAuthor("alice");
    assert "@" + "alice" == "@alice";
  }

  /** Pull request #7 opened as "WIP: add feature": a pending status on its head commit and a WIP comment. */
  lemma {:induction false} OpenedAsWip(w: World, title: string, author: string, branch: string, sha: string, copy: PullCopy)
    requires title == "WIP: add feature"
    requires w.installed && w.pulls == map[7 := PullRequest(author, title, branch, sha)] && copy.number == 7
    ensures var afterOpen := Deliver(w, Payload(Some(REPO), Some("opened"), None, Some(copy)));
      && afterOpen.world.log
         == w.log + [CreateStatus(sha, "pending", "Work in progress", "review"), Comment(7, WipComment(author))]
      && ReviewState(afterOpen.world.log, sha) == Some("pending")
      && afterOpen.reply == Ack("", 204)
  {
    var p := Payload(Some(REPO), Some("opened"), None, Some(copy));
    WipPrefixIsWip(": add feature");
    assert "WIP" + ": add feature" == title;
    OpenedPullRequestEffects(w, p);
    OpenedSetsReviewState(w, p);
  }

  /** Pull request #7 edited to "add feature": a success status on its head commit and a ready-for-review comment. */
  lemma {:induction false} EditedToClean(w: World, author: string, branch: string, sha: string, copy: PullCopy)
    requires w.installed && w.pulls == map[7 := PullRequest(author, "add feature", branch, sha)] && copy.number == 7
    ensures var afterEdit := Deliver(w, Payload(Some(REPO), Some("edited"), None, Some(copy)));
      && afterEdit.world.log
         == w.log + [CreateStatus(sha, "success", "Ready for review", "review"), Comment(7, ReadyComment(author))]
      && ReviewState(afterEdit.world.log, sha) == Some("success")
      && afterEdit.reply == Ack("", 204)
  {
    var q := Payload(Some(REPO), Some("edited"), None, Some(copy));
    ShortTitleWithoutWIsNotWip("add feature");
    EditedPullRequestEffects(w, q);
    EditedSetsReviewState(w, q);
  }

  /**
   * The two deliveries in a row: opened as "WIP: add feature", then renamed by
   * its author to "add feature" and edited. The gate goes pending, then success.
   */
  lemma {:induction false} WipThenReady(title: string, author: string, branch: string, sha: string, refs: set<string>)
    requires title == "WIP: add feature"
    ensures var w := World(true, map[], map[7 := PullRequest(author, title, branch, sha)], refs, []);
      var copy := PullCopy(7, false, title, author, branch, sha);
      var afterOpen := Deliver(w, Payload(Some(REPO), Some("opened"), None, Some(copy)));
      var renamed := afterOpen.world.(pulls := map[7 := PullRequest(author, "add feature", branch, sha)]);
      var afterEdit := Deliver(renamed, Payload(Some(REPO), Some("edited"), None, Some(copy)));
      && ReviewState(afterOpen.world.log, sha) == Some("pending")
      && ReviewState(afterEdit.world.log, sha) == Some("success")
      && afterEdit.world.log
         == [CreateStatus(sha, "pending", "Work in progress", "review"), Comment(7, WipComment(author)),
             CreateStatus(sha, "success", "Ready for review", "review"), Comment(7, ReadyComment(author))]
  {
    var w := World(true, map[], map[7 := PullRequest(author, title, branch, sha)], refs, []);
    var copy := PullCopy(7, false, title, author, branch, sha);
    OpenedAsWip(w, title, author, branch, sha, copy);
    var afterOpen := Deliver(w, Payload(Some(REPO), Some("opened"), None, Some(copy)));
    DeliverEvolves(w, Payload(Some(REPO), Some("opened"), None, Some(copy)));
    var renamed := afterOpen.world.(pulls := map[7 := PullRequest(author, "add feature", branch, sha)]);
    EditedToClean(renamed, author, branch, sha, copy);
  }

  /** Pull request opened as "add feature": no status and no comment. */
  lemma {:induction false} CleanOpenedDoesNothing(refs: set<string>)
    ensures var w := World(true, map[], map[3 := PullRequest("carol", "add feature", "topic", "def456")], refs, []);
      var p := Payload(Some(REPO), Some("opened"), None, Some(PullCopy(3, false, "add feature", "carol", "topic", "def456")));
      Deliver(w, p) == Outcome(w, Ack("", 204))
  {
    var w := World(true, map[], map[3 := PullRequest("carol", "add feature", "topic", "def456")], refs, []);
    var p := Payload(Some(REPO), Some("opened"), None, Some(PullCopy(3, false, "add feature", "carol", "topic", "def456")));
    ShortTitleWithoutWIsNotWip("add feature");
    OpenedPullRequestEffects(w, p);
  }
}
