# Webhook bot: dispatch and decision engine

This project models the GitHub App bot of `app.py`.

The bot receives webhook deliveries on one HTTP route. `bot()` reads the JSON payload and answers `("", 204)` when the `repository` key is missing. Otherwise it authenticates as the app installation and fetches the repository. It then runs five `if` tests in their textual order, each of which may call one handler:

- `issue_opened_event`: labels a newly opened issue "needs triage", then thanks its author in a comment.
- `pull_request_closed_event`: thanks the author of a closed pull request.
- `delete_merged_branch`: deletes the ref `heads/<head.ref>` of a closed pull request.
- `pull_request_opened_event`: when the title of an opened pull request is work in progress, sets a pending commit status in the "review" context on the head commit and comments.
- `pull_request_edited_event`: for an edited pull request, sets that status to pending or to success from the current title and comments.

A title is work in progress when its lower-cased form contains "wip", "work in progress" or "do not merge".

Every handler re-fetches the issue or pull request by number. The author, title, head ref and head SHA it uses come from that fetched object, never from the payload's copy.

The model has two layers:

- **Specification functions.** Module `Engine` describes each handler as a function from a platform snapshot (`Platform.World`) and a payload (`Webhook.Payload`) to a `Step`: the new snapshot plus the exception raised, if any. `Engine.Deliver` describes one whole delivery.
- **Imperative code.** Class `App.Repo` holds the repository handle's state: the installation flag, issues, pull requests, git refs and a log of every mutating platform call. Its methods perform the calls one at a time in source order. Each method is proved to match its specification function.

Modules:

- `Text`: ASCII case mapping and substring search.
- `Wip`: the title test.
- `Webhook`: payload and classification.
- `Platform`: snapshot, effects, errors and the review state of a commit.
- `Engine`: handler specifications and the delivery.
- `App`: the mutating methods.
- `Properties`: what one delivery does.
- `Scenarios`: worked concrete deliveries.

**Failures stop the delivery.** `bot()` has no `try`/`except`, so an exception from any handler leaves `bot()` at once. Examples: a missing `heads/<branch>` ref, or an issue or pull request that cannot be fetched. After such an exception:

- what earlier handlers did stays done;
- later handlers do not run;
- no `("", 204)` is returned.

The model follows the code here: `Reply.Raised(error)` is the outcome. The code neither isolates handler failures nor swallows a missing ref on branch deletion.

**The `merged` flag is never read.** A closed pull request is thanked for being merged and has its branch deleted whether or not it was merged (`Properties.MergedFlagIgnored`). The model keeps the code's behaviour.

## Model

| member | source | states |
|---|---|---|
| Text.ContainsIff | app.py:79 | Python's `t in s` on strings as modelled: `Contains(s, t)` holds exactly when `t` occurs in `s` at some index. |
| Text.LowerOfUpper | app.py:79 | Lower-casing after upper-casing gives the same as lower-casing directly (ASCII). |
| Text.LowerIdempotent | app.py:79 | Lower-casing twice is lower-casing once. |
| Wip.IsWipIff | app.py:79 | A title is WIP exactly when one of the three markers occurs at some position of the title, compared ignoring case, in both directions. |
| Wip.IsWipIgnoresCase | app.py:88 | The upper-cased and the lower-cased title get the same verdict as the title. |
| Wip.IsWipExtend | app.py:79 | Adding text before or after a WIP title keeps it WIP. |
| Wip.FixWipBugIsWip | app.py:79 | "Fix WIP bug" is WIP: the upper-case marker matches. |
| Wip.ReadyIsNotWip | app.py:79 | "ready" is not WIP, by the lemma below. |
| Wip.WipPrefixIsWip | app.py:88 | Every title beginning with "WIP" is WIP. |
| Wip.ShortTitleWithoutWIsNotWip | app.py:88 | A title shorter than "do not merge" with no upper-case letter and no 'w' holds none of the three markers, so it is not WIP (such as "ready" or "add feature"). |
| Webhook.ClassifyIff | app.py:115-132 | Each of the five handlers is selected exactly when its `all(k in payload.keys() ...)` and `action ==` test holds. |
| Webhook.ClassifyShapes | app.py:115-132 | Only six handler lists are possible. The closed, opened and edited pull-request cases exclude each other. Closing always runs the comment handler and then branch deletion. The issue handler comes first. |
| Webhook.NoActionNoCases | app.py:115-132 | A payload without an `action` key runs no handler. |
| Engine.CommentsMentionAuthor | app.py:28-94 | Each comment text contains `"@" + author`. The clean-title comment also contains "ready for review". |
| Engine.ChainRunsClassified | app.py:115-132 | The five `if` statements in sequence, each skipped after an exception, run exactly the classified handlers in order. |
| Engine.RunCasesAppend | app.py:115-132 | Running two handler lists one after the other is running their concatenation, stopping at the first exception. |
| Engine.ThenExtends | app.py:115-132 | One more `if` adds its handler to the list run so far exactly when its test holds. |
| Engine.RunCasesEvolves | app.py:22-95 | Handlers never change the installation, issues or pull requests. The log only grows, and refs only disappear through a logged ref deletion. |
| Engine.EvolvesTransitive | app.py:115-132 | The relation "can follow" composes across consecutive handlers. |
| Platform.ReviewStateIsLatest | app.py:89-93 | The review state of a commit is the state of its latest "review"-context status. It is None exactly when it has none. |
| App.Repo.constructor | app.py:112 | A fresh handle holds the given repository state and an empty log. |
| App.Repo.IssueOpenedEvent | app.py:22-30 | Fetches the issue, adds the label, then comments; raises KeyError or a not-found error, as `IssueOpenedStep` states. |
| App.Repo.PullRequestClosedEvent | app.py:40-46 | Fetches the pull request and posts the thank-you comment, as `PullRequestClosedStep` states. |
| App.Repo.DeleteMergedBranch | app.py:57-61 | Fetches the pull request and deletes `heads/<head.ref>`. If the ref is missing it raises and changes nothing. As `DeleteMergedBranchStep` states. |
| App.Repo.PullRequestOpenedEvent | app.py:75-82 | Status then comment for a WIP title, nothing for a clean one, as `PullRequestOpenedStep` states. |
| App.Repo.PullRequestEditedEvent | app.py:84-95 | Pending or success status then the matching comment, as `PullRequestEditedStep` states. |
| App.Repo.Bot | app.py:98-136 | The whole delivery: the early 204, the failed installation lookup, then the five tests in order, returning at the first exception. The new state and the reply are those of `Deliver`. |
| Properties.NoRepositoryIsAcknowledged | app.py:101-102 | Without `repository` the reply is `("", 204)` and the snapshot, log included, is unchanged. |
| Properties.NotInstalledIsRejected | app.py:107-112 | When the installation lookup fails, the exception escapes and nothing is changed. |
| Properties.IssueOpenedEffects | app.py:22-30 | An opened issue gets exactly two effects, the "needs triage" label then the triage comment to the fetched author, and then the 204. An unknown issue number raises with nothing done. |
| Properties.ClosedPullRequestEffects | app.py:40-61 | A closed pull request gets the thank-you comment, then its ref `heads/<head.ref>` is removed and the deletion logged. If the ref is missing, the comment stays and RefNotFound escapes. |
| Properties.OpenedPullRequestEffects | app.py:75-82 | An opened pull request with a WIP title gets exactly a pending / "Work in progress" / "review" status on the fetched head SHA, then the WIP comment. A clean title changes nothing. An unknown number raises PullNotFound with nothing done. |
| Properties.EditedPullRequestEffects | app.py:84-95 | An edited pull request gets exactly one "review" status on the fetched head SHA, then one comment. The status is pending / "Work in progress" for a WIP title, success / "Ready for review" otherwise. An unknown number raises PullNotFound with nothing done. |
| Properties.EditedSetsReviewState | app.py:84-95 | After an edit the head commit's review state is pending for a WIP title and success otherwise. |
| Properties.OpenedSetsReviewState | app.py:75-82 | After an opening, a WIP title makes the review state pending. A clean title leaves it as it was. |
| Properties.IssueBeforePullRequest | app.py:115-128 | When both the issue and the pull-request opened tests hold, the issue's effects come first, then the WIP check's. |
| Properties.RunCasesRouting | app.py:23-85 | Handlers give the same result on payloads that name the same repository and agree on key presence, action and numbers. |
| Properties.PayloadCopiesIgnored | app.py:23-85 | For payloads naming the same repository, a delivery depends only on key presence, the action and the numbers. The payload's copies of author, title, head ref, head SHA and `merged` never matter. |
| Properties.MergedFlagIgnored | app.py:119-124 | A closed pull request is handled the same whether `merged` is true or false. |
| Properties.ClosedRedelivery | app.py:57-61 | Redelivering a closed event posts a second thank-you comment, then fails with RefNotFound on the branch the first delivery deleted. |
| Properties.DeliverEvolves | app.py:98-136 | A delivery only appends to the log and removes refs that it logs as deleted. |
| Scenarios.IssueOpenedByAlice | app.py:22-30 | Issue #42 by alice: label "needs triage" on #42, then a comment on #42 containing "@alice". |
| Scenarios.OpenedAsWip | app.py:75-82 | "WIP: add feature" opened: the pending status, the WIP comment, review state pending. |
| Scenarios.EditedToClean | app.py:84-95 | Edited to "add feature": the success status, the ready comment, review state success. |
| Scenarios.WipThenReady | app.py:75-95 | Opened as WIP, then renamed and edited: the gate goes pending, then success, and the log holds exactly those four effects. |
| Scenarios.CleanOpenedDoesNothing | app.py:75-82 | An opened pull request with a clean title leaves everything unchanged. |

## Left out

- The Flask application, its route and the development server (app.py:1-5, 97, 138-139) are HTTP plumbing. A Flask handler that raises becomes an HTTP 500 in practice; the model stops at the escaped exception.
- Reading the private key file and building `GithubIntegration` (app.py:7-20) are file I/O and credentials.
- Installation-token exchange, `Github(...)` and `get_repo` (app.py:107-112) are network calls.
  - They are modelled by the caller handing `Bot` the `Repo` for the payload's repository (its `requires`).
  - A failed `get_installation` is modelled by the `installed` flag.
- Nested payload keys are taken to be present: `repository.owner.login` and `repository.name`. A missing one would raise KeyError before authentication.
- The platform library's calls are recorded in the effect log with their arguments. The labels and comments they create are not stored as separate issue state. A status is read back only through `ReviewState`.
- `repo.get_commit(sha=...)` is taken to succeed for an existing pull request's head SHA. Its failure is not modelled.
- The mutating calls `add_to_labels`, `create_comment`, `create_issue_comment`, `create_status` and `GitRef.delete()` are taken never to raise. Each only appends its entry to the log.
- The numbers `payload['issue']['number']` and `payload['pull_request']['number']` are taken to be present whenever `issue` or `pull_request` is. `IssueCopy` and `PullCopy` always carry a number, so the KeyError a missing number would raise (app.py:23, 41, 58, 76, 85) is not modelled.
- `str.lower()` is modelled on ASCII letters only. Unicode case mapping (for example `"İ"` or the Kelvin sign) is not.
- Per-handler failure isolation is not modelled because the code does not implement it (see above).
- The exercise docstrings (app.py:32-38, 49-55, 63-73) are prose without behaviour.
- Concurrency between deliveries is left out. Deliveries are modelled one after another.
