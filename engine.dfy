/**
 * The behaviour of the handlers and of `bot()` as functions of the platform
 * snapshot and the payload. The imperative class in module App is proved to
 * follow these functions; the lemmas in module Properties are about them.
 */
module Engine {

  import opened Wrappers
  import opened Text
  import opened Wip
  import opened Webhook
  import opened Platform

  /** The result of one handler: the new snapshot, and the exception it raised, if any. */
  datatype Step = Step(world: World, raised: Option<Error>)

  /** What `bot()` gives back: the Flask response `("", 204)`, or an exception it lets escape. */
  datatype Reply = Ack(body: string, status: int) | Raised(error: Error)

  /** The snapshot after one delivery and the reply to it. */
  datatype Outcome = Outcome(world: World, reply: Reply)

  const NO_CONTENT := Ack("", 204)

  function Mention(login: string): string {
    "@" + login
  }

  /** The comment on a newly opened issue (app.py lines 28-29). */
  function TriageComment(author: string): string {
    "Thanks for opening this issue, " + Mention(author)
      + "! The repository maintainers will look into it ASAP! :speech_balloon:"
  }

  /** The comment on a closed pull request (app.py lines 44-45). */
  function MergedComment(author: string): string {
    "Thanks for your contribution, " + Mention(author) + "! Your pull request has been merged! :tada:"
  }

  /** The comment on a pull request whose title is WIP (app.py lines 81 and 90). */
  function WipComment(author: string): string {
    "Your pull request is currently marked as a work in progress " + Mention(author) + "!"
  }

  /** The comment on an edited pull request whose title is clean (app.py line 94). */
  function ReadyComment(author: string): string {
    "Your pull request is ready for review " + Mention(author) + "!"
  }

  /** Every comment the bot posts mentions the author; the clean-title one says "ready for review". */
  lemma {:induction false} CommentsMentionAuthor(author: string)
    ensures Contains(TriageComment(author), "@" + author)
    ensures Contains(MergedComment(author), "@" + author)
    ensures Contains(WipComment(author), "@" + author)
    ensures Contains(ReadyComment(author), "@" + author)
    ensures Contains(ReadyComment(author), "ready for review")
  {
    ContainsInfix("Thanks for opening this issue, ", Mention(author),
      "! The repository maintainers will look into it ASAP! :speech_balloon:");
    ContainsInfix("Thanks for your contribution, ", Mention(author), "! Your pull request has been merged! :tada:");
    ContainsInfix("Your pull request is currently marked as a work in progress ", Mention(author), "!");
    ContainsInfix("Your pull request is ready for review ", Mention(author), "!");
    var tail := " " + Mention(author) + "!";
    assert "Your pull request is ready for review " == "Your pull request is " + "ready for review" + " ";
    assert ReadyComment(author) == "Your pull request is " + "ready for review" + tail;
    ContainsInfix("Your pull request is ", "ready for review", tail);
  }

  /** The pending status and the comment for a WIP title (app.py lines 80-82 and 89-91). */
  function WipEffects(number: int, pr: PullRequest): seq<Effect> {
    [CreateStatus(pr.headSha, "pending", "Work in progress", REVIEW_CONTEXT),
     Comment(number, WipComment(pr.author))]
  }

  /** The success status and the comment for a clean title (app.py lines 93-95). */
  function ReadyEffects(number: int, pr: PullRequest): seq<Effect> {
    [CreateStatus(pr.headSha, "success", "Ready for review", REVIEW_CONTEXT),
     Comment(number, ReadyComment(pr.author))]
  }

  function Append(w: World, es: seq<Effect>): World {
    w.(log := w.log + es)
  }

  /** issue_opened_event (app.py lines 22-30). */
  function IssueOpenedStep(w: World, p: Payload): Step {
    if p.issue.None? then Step(w, Some(KeyError("issue")))
    else
      var n := p.issue.value.number;
      if n !in w.issues then Step(w, Some(IssueNotFound(n)))
      else Step(Append(w, [AddLabel(n, NEEDS_TRIAGE), Comment(n, TriageComment(w.issues[n].author))]), None)
  }

  /** pull_request_closed_event (app.py lines 40-46). */
  function PullRequestClosedStep(w: World, p: Payload): Step {
    if p.pullRequest.None? then Step(w, Some(KeyError("pull_request")))
    else
      var n := p.pullRequest.value.number;
      if n !in w.pulls then Step(w, Some(PullNotFound(n)))
      else Step(Append(w, [Comment(n, MergedComment(w.pulls[n].author))]), None)
  }

  /** The ref `delete_merged_branch` deletes for a branch. */
  function BranchRef(branch: string): string {
    "heads/" + branch
  }

  /** delete_merged_branch (app.py lines 57-61). */
  function DeleteMergedBranchStep(w: World, p: Payload): Step {
    if p.pullRequest.None? then Step(w, Some(KeyError("pull_request")))
    else
      var n := p.pullRequest.value.number;
      if n !in w.pulls then Step(w, Some(PullNotFound(n)))
      else
        var ref := BranchRef(w.pulls[n].headRef);
        if ref !in w.refs then Step(w, Some(RefNotFound(ref)))
        else Step(Append(w.(refs := w.refs - {ref}), [DeleteRef(ref)]), None)
  }

  /** pull_request_opened_event (app.py lines 75-82): a clean title leaves everything as it was. */
  function PullRequestOpenedStep(w: World, p: Payload): Step {
    if p.pullRequest.None? then Step(w, Some(KeyError("pull_request")))
    else
      var n := p.pullRequest.value.number;
      if n !in w.pulls then Step(w, Some(PullNotFound(n)))
      else if IsWip(w.pulls[n].title) then Step(Append(w, WipEffects(n, w.pulls[n])), None)
      else Step(w, None)
  }

  /** pull_request_edited_event (app.py lines 84-95). */
  function PullRequestEditedStep(w: World, p: Payload): Step {
    if p.pullRequest.None? then Step(w, Some(KeyError("pull_request")))
    else
      var n := p.pullRequest.value.number;
      if n !in w.pulls then Step(w, Some(PullNotFound(n)))
      else if IsWip(w.pulls[n].title) then Step(Append(w, WipEffects(n, w.pulls[n])), None)
      else Step(Append(w, ReadyEffects(n, w.pulls[n])), None)
  }

  function RunCase(c: Case, w: World, p: Payload): Step {
    match c
    case IssueOpened => IssueOpenedStep(w, p)
    case PullRequestClosed => PullRequestClosedStep(w, p)
    case DeleteMergedBranch => DeleteMergedBranchStep(w, p)
    case PullRequestOpened => PullRequestOpenedStep(w, p)
    case PullRequestEdited => PullRequestEditedStep(w, p)
  }

  /**
   * Runs the handlers in order; the first exception stops the rest, since
   * `bot()` has no `try`, and what the earlier handlers did stays done.
   */
  function RunCases(cs: seq<Case>, w: World, p: Payload): Step
    decreases |cs|
  {
    if cs == [] then Step(w, None)
    else
      var s := RunCase(cs[0], w, p);
      if s.raised.Some? then s else RunCases(cs[1..], s.world, p)
  }

  /**
   * `bot()` (app.py lines 98-136) on one delivery: no `repository` key means
   * `("", 204)` with nothing done; a repository the app is not installed on
   * raises before any handler; otherwise the classified handlers run.
   */
  function Deliver(w: World, p: Payload): Outcome {
    if p.repository.None? then Outcome(w, NO_CONTENT)
    else if !w.installed then Outcome(w, Raised(InstallationNotFound))
    else
      var s := RunCases(Classify(p), w, p);
      Outcome(s.world, if s.raised.Some? then Raised(s.raised.value) else NO_CONTENT)
  }

  lemma {:induction false} RunSingle(c: Case, w: World, p: Payload)
    ensures RunCases([c], w, p) == RunCase(c, w, p)
  {
    assert [c][1..] == [];
  }

  lemma {:induction false} RunPair(c: Case, d: Case, w: World, p: Payload)
    ensures RunCases([c, d], w, p)
      == var s := RunCase(c, w, p); if s.raised.Some? then s else RunCase(d, s.world, p)
  {
    assert [c, d][1..] == [d];
    RunSingle(d, RunCase(c, w, p).world, p);
  }

  /** One `if` of `bot()`: after an exception nothing more runs; otherwise the handler runs when its test holds. */
  function Then(s: Step, test: bool, c: Case, p: Payload): Step {
    if s.raised.Some? || !test then s else RunCase(c, s.world, p)
  }

  /** The chain of five `if` statements of `bot()`, in the textual order of app.py lines 115-132. */
  function Chain(w: World, p: Payload): Step {
    var s1 := Then(Step(w, None), IsIssueAction(p, "opened"), IssueOpened, p);
    var s2 := Then(s1, IsPullRequestAction(p, "closed"), PullRequestClosed, p);
    var s3 := Then(s2, IsPullRequestAction(p, "closed"), DeleteMergedBranch, p);
    var s4 := Then(s3, IsPullRequestAction(p, "opened"), PullRequestOpened, p);
    Then(s4, IsPullRequestAction(p, "edited"), PullRequestEdited, p)
  }

  /** Passing one more test extends the handler list by that handler exactly when the test holds. */
  lemma {:induction false} ThenExtends(done: seq<Case>, test: bool, c: Case, w: World, p: Payload)
    ensures Then(RunCases(done, w, p), test, c, p) == RunCases(done + When(test, c), w, p)
  {
    if test {
      RunCasesAppend(done, [c], w, p);
      RunSingle(c, RunCases(done, w, p).world, p);
    } else {
      assert done + When(test, c) == done;
    }
  }

  /** The `if` chain of `bot()` runs exactly the classified handlers, in order, stopping at the first exception. */
  lemma {:induction false} ChainRunsClassified(w: World, p: Payload)
    ensures Chain(w, p) == RunCases(Classify(p), w, p)
  {
    var c1 := When(IsIssueAction(p, "opened"), IssueOpened);
    var c2 := When(IsPullRequestAction(p, "closed"), PullRequestClosed);
    var c3 := When(IsPullRequestAction(p, "closed"), DeleteMergedBranch);
    var c4 := When(IsPullRequestAction(p, "opened"), PullRequestOpened);
    var c5 := When(IsPullRequestAction(p, "edited"), PullRequestEdited);
    assert RunCases([], w, p) == Step(w, None);
    ThenExtends([], IsIssueAction(p, "opened"), IssueOpened, w, p);
    assert [] + c1 == c1;
    ThenExtends(c1, IsPullRequestAction(p, "closed"), PullRequestClosed, w, p);
    ThenExtends(c1 + c2, IsPullRequestAction(p, "closed"), DeleteMergedBranch, w, p);
    ThenExtends(c1 + c2 + c3, IsPullRequestAction(p, "opened"), PullRequestOpened, w, p);
    ThenExtends(c1 + c2 + c3 + c4, IsPullRequestAction(p, "edited"), PullRequestEdited, w, p);
  }

  /** Running two handler lists one after the other is running their concatenation. */
  lemma {:induction false} RunCasesAppend(a: seq<Case>, b: seq<Case>, w: World, p: Payload)
    ensures RunCases(a + b, w, p)
      == var s := RunCases(a, w, p); if s.raised.Some? then s else RunCases(b, s.world, p)
    decreases |a|
  {
    if a == [] {
      assert a + b == b;
    } else {
      assert (a + b)[1..] == a[1..] + b;
      var s := RunCase(a[0], w, p);
      if s.raised.None? {
        RunCasesAppend(a[1..], b, s.world, p);
      }
    }
  }

  /**
   * `s` can follow `w`: the installation, the issues and the pull requests are
   * as they were, the log has only grown, and every ref that is gone was
   * deleted by a DeleteRef logged since.
   */
  ghost predicate Evolves(w: World, s: World) {
    && s.installed == w.installed && s.issues == w.issues && s.pulls == w.pulls
    && s.refs <= w.refs
    && |w.log| <= |s.log| && s.log[..|w.log|] == w.log
    && forall r :: r in w.refs && r !in s.refs ==> DeleteRef(r) in s.log[|w.log|..]
  }

  lemma {:induction false} EvolvesTransitive(a: World, b: World, c: World)
    requires Evolves(a, b) && Evolves(b, c)
    ensures Evolves(a, c)
  {
    assert c.log[..|a.log|] == c.log[..|b.log|][..|a.log|];
    forall r | r in a.refs && r !in c.refs
      ensures DeleteRef(r) in c.log[|a.log|..]
    {
      if r in b.refs {
        assert c.log[|b.log|..] == c.log[|a.log|..][|b.log| - |a.log|..];
      } else {
        assert b.log[|a.log|..] == c.log[|a.log|..][..|b.log| - |a.log|];
      }
    }
  }

  lemma {:induction false} AppendEvolves(w: World, es: seq<Effect>)
    ensures Evolves(w, Append(w, es))
  {
    assert Append(w, es).log[..|w.log|] == w.log;
  }

  lemma {:induction false} DeleteEvolves(w: World, ref: string)
    ensures Evolves(w, Append(w.(refs := w.refs - {ref}), [DeleteRef(ref)]))
  {
    var s := Append(w.(refs := w.refs - {ref}), [DeleteRef(ref)]);
    assert s.log[..|w.log|] == w.log;
    assert s.log[|w.log|..] == [DeleteRef(ref)];
  }

  lemma {:induction false} RunCaseEvolves(c: Case, w: World, p: Payload)
    ensures Evolves(w, RunCase(c, w, p).world)
  {
    assert w.log[..|w.log|] == w.log;
    var s := RunCase(c, w, p);
    if s.world != w {
      var n := if c.IssueOpened? then p.issue.value.number else p.pullRequest.value.number;
      match c
      case IssueOpened =>
        AppendEvolves(w, [AddLabel(n, NEEDS_TRIAGE), Comment(n, TriageComment(w.issues[n].author))]);
      case PullRequestClosed =>
        AppendEvolves(w, [Comment(n, MergedComment(w.pulls[n].author))]);
      case DeleteMergedBranch =>
        DeleteEvolves(w, BranchRef(w.pulls[n].headRef));
      case PullRequestOpened =>
        AppendEvolves(w, WipEffects(n, w.pulls[n]));
      case PullRequestEdited =>
        AppendEvolves(w, WipEffects(n, w.pulls[n]));
        AppendEvolves(w, ReadyEffects(n, w.pulls[n]));
    }
  }

  /**
   * Handlers only read the installation, the issues and the pull requests;
   * they append to the log and remove refs, and every ref they remove was
   * deleted by a logged DeleteRef.
   */
  lemma {:induction false} RunCasesEvolves(cs: seq<Case>, w: World, p: Payload)
    ensures Evolves(w, RunCases(cs, w, p).world)
    decreases |cs|
  {
    if cs == [] {
      assert w.log[..|w.log|] == w.log;
    } else {
      var s := RunCase(cs[0], w, p);
      RunCaseEvolves(cs[0], w, p);
      if s.raised.None? {
        RunCasesEvolves(cs[1..], s.world, p);
        EvolvesTransitive(w, s.world, RunCases(cs[1..], s.world, p).world);
      }
    }
  }
}
