# Git publisher, modelled in Dafny

This project models the Git publisher of the Jenkins Git plugin
(`hudson.plugins.git.GitPublisher`). The publisher is a post-build step. It
can tag the built commit with the build's outcome and push HEAD to a merge
target. It can push a configured list of tags, and push HEAD to a configured
list of branches.

What is modelled:

- **`perform`**, as the method `Publisher.GitPublisher.Perform`. It runs on
  a `Build` (whose only mutable field is its result) and a `GitRepo`. The
  `GitRepo` holds the local tag names, a log of pushes and a count of open
  git clients. `Perform` is proved equal to the function `Publisher.Publish`.
  That function states the outcome of a run, the final build result and the
  final repository from the starting ones:
  - the three early exits: a matrix configuration run, a non-Git SCM, and
    `pushOnlyIfSuccess` with a build worse than SUCCESS;
  - the merge stage: delete the base tag, create the tag suffixed with the
    result, and push `HEAD:<mergeTarget>` only for a merge with a result
    that is at least SUCCESS;
  - the tag loop, which attempts every entry;
  - the branch loop, where an entry with a missing name ends `perform` with
    false;
  - the AND of the stage outcomes;
  - the catch around each git callable, which forces the build result to
    FAILURE.
- **Failures**: every git call, `close()` included, consults an oracle
  keyed by the call site (merge, tag entry i, branch entry i) and the
  operation. A call that throws has no effect. A `close()` that throws in
  the `finally` of a callable replaces whatever the body returned or threw,
  so the catch fails that stage or entry and forces FAILURE even after a
  push that went through.
- **Closing clients**: every client that is opened is closed on every path,
  a close that throws included. Each method's `openClients` postcondition
  states this.
- **The environment**: the identity overrides put into the environment the
  git calls see.
- **The accessors**: `isPushTags`, `isPushBranches`, `getTagsToPush` and
  `getBranchesToPush`.
- **Migration**: the `readResolve` configuration migration.
- **Form check**: the descriptor's `checkFieldNotEmpty`.

Modules:

- `Wrappers`: `Option`.
- `Strings`: `StringUtils.isBlank` and `strip`, and decimal rendering of an
  `int`.
- `Jenkins`: `Result` with its severity order, `Build`, the SCM and its
  merge options.
- `GitClient`: the git client.
- `Publisher`: the configuration, the stage functions, the stage methods
  and the `GitPublisher` class.
- `PublisherDescriptor`: the form checks.
- `PublisherProofs`: the properties of `Publish`.

Unlike the tag loop, which skips a tag entry with a missing name and goes
on, an entry with a missing branch name or repository makes `perform` return
false at once, not just the branch stage. The run stops there, with the
result and repository the earlier entries left.

## Model

| member | source | states |
|---|---|---|
| Publisher.GitPublisher.Perform | src/main/java/hudson/plugins/git/GitPublisher.java:143-404 | the value returned, the build result left and the repository left are exactly those of `Publish` from the starting result and repository; every opened git client is closed again |
| Publisher.PushMergeResult | src/main/java/hudson/plugins/git/GitPublisher.java:199-263 | the merge callable under the catch: its outcome, result and repository are the merge stage's, with FAILURE forced on a throw |
| Publisher.PushTags | src/main/java/hudson/plugins/git/GitPublisher.java:265-337 | the tag loop attempts the entries in order and ends with the outcome, result and repository of the tag stage over the whole list |
| Publisher.PushBranches | src/main/java/hudson/plugins/git/GitPublisher.java:340-399 | the branch loop ends as the branch stage does: stopped at the first entry with a missing name, or completed with the conjunction of the entries' outcomes |
| Publisher.InvokeMerge | src/main/java/hudson/plugins/git/GitPublisher.java:205-252 | the merge callable deletes the base tag, creates the result tag with the comment prefix and build number, and pushes `HEAD:<mergeTarget>` for a merge with a result at least SUCCESS; a null merge remote throws; the client is closed |
| Publisher.InvokeTag | src/main/java/hudson/plugins/git/GitPublisher.java:285-322 | the tag callable: an unknown repository returns false; create-tag on an existing tag or push of a missing tag returns false; otherwise the tag is created when asked and pushed; the client is closed |
| Publisher.InvokeBranch | src/main/java/hudson/plugins/git/GitPublisher.java:360-382 | the branch callable: an unknown repository returns false, otherwise `HEAD:<branch>` is pushed; the client is closed |
| Publisher.BranchAbortIsFinal | src/main/java/hudson/plugins/git/GitPublisher.java:342-351 | once the branch loop has stopped, the entries after it change nothing |
| Publisher.CaptureEnvironment | src/main/java/hudson/plugins/git/GitPublisher.java:175-192 | the environment is the captured one, or an empty one when capturing threw, with the identity overrides applied |
| Publisher.WithIdentity | src/main/java/hudson/plugins/git/GitPublisher.java:183-192 | a non-blank name is put under both the committer and the author name key, and a non-blank e-mail likewise; a blank one leaves those keys as they were; every other key is kept |
| Publisher.IsPushTags | src/main/java/hudson/plugins/git/GitPublisher.java:96-101 | true exactly when the tag list, a null one reading as empty, is non-empty |
| Publisher.IsPushBranches | src/main/java/hudson/plugins/git/GitPublisher.java:103-108 | true exactly when the branch list, a null one reading as empty, is non-empty |
| Publisher.OrEmpty | src/main/java/hudson/plugins/git/GitPublisher.java:110-124 | the list a getter hands out: a null list reads as empty |
| Publisher.GitPublisher.GetTagsToPush | src/main/java/hudson/plugins/git/GitPublisher.java:110-116 | a null list is replaced by an empty one; the stored list is returned; whether tags are pushed is unchanged |
| Publisher.GitPublisher.GetBranchesToPush | src/main/java/hudson/plugins/git/GitPublisher.java:118-124 | a null list is replaced by an empty one; the stored list is returned; whether branches are pushed is unchanged |
| Publisher.GitPublisher.constructor | src/main/java/hudson/plugins/git/GitPublisher.java:76-86 | the configuration holds the given lists and flags at version 2 |
| Publisher.GitPublisher.ReadResolve | src/main/java/hudson/plugins/git/GitPublisher.java:412-423 | a missing version becomes 0; a version below 1 with no stored tag list turns `pushMerge` on; no other field changes |
| Publisher.Publish | src/main/java/hudson/plugins/git/GitPublisher.java:143-404 | the outcome of `perform` from a build result and a repository state: the early exits return true, false and true with nothing changed; past them the merge, tag and branch stages run in order on the state the previous one left, and the outcome is their AND, or false when the branch loop stops |
| Publisher.MergeStage | src/main/java/hudson/plugins/git/GitPublisher.java:197-264 | the merge stage runs only when `pushMerge` is set, as the merge callable under the catch |
| Publisher.Caught | src/main/java/hudson/plugins/git/GitPublisher.java:254-258 | a callable that returns gives its value; one that throws gives false and forces the build result to FAILURE; the repository is as the callable left it |
| Publisher.MergeAct | src/main/java/hudson/plugins/git/GitPublisher.java:205-252 | the merge callable as a function: a client that cannot be opened throws with nothing done; otherwise the body runs and then the client is closed |
| Publisher.MergeBody | src/main/java/hudson/plugins/git/GitPublisher.java:212-246 | the body of the merge callable: delete the base tag, create the result tag, and push `HEAD:<mergeTarget>` for a merge at SUCCESS or better; a throw anywhere ends it with the effects so far; a null merge remote throws |
| Publisher.Finally | src/main/java/hudson/plugins/git/GitPublisher.java:247-249 | the `finally` that closes a client: the body's changes stay; a close that throws makes the callable throw, whatever the body did; otherwise the body's ending is kept |
| Publisher.PushAct | src/main/java/hudson/plugins/git/GitPublisher.java:242 | `git.push` as the last call of a callable: a throw leaves the repository as it was; otherwise the push is appended, the tags stay, and the callable returns true |
| Publisher.MergeTagBase | src/main/java/hudson/plugins/git/GitPublisher.java:213-219 | the base tag: the tag prefix, a hyphen, the project name, a hyphen and the build number |
| Publisher.MergeTagName | src/main/java/hudson/plugins/git/GitPublisher.java:224 | the result tag: the base tag, a hyphen and the result name |
| Publisher.TagMessage | src/main/java/hudson/plugins/git/GitPublisher.java:306 | the message of a tag the tag stage creates |
| Publisher.PublishEnvironment | src/main/java/hudson/plugins/git/GitPublisher.java:175-192 | the captured environment, or an empty one, with the identity overrides |
| Publisher.TagStep | src/main/java/hudson/plugins/git/GitPublisher.java:265-338 | the tag stage runs only when there is a tag to push |
| Publisher.TagEntryValid | src/main/java/hudson/plugins/git/GitPublisher.java:269-277 | a tag entry names both its tag and its repository |
| Publisher.TagAct | src/main/java/hudson/plugins/git/GitPublisher.java:285-322 | the tag callable as a function: a client that cannot be opened throws with nothing done; otherwise the body runs and then the client is closed |
| Publisher.TagBody | src/main/java/hudson/plugins/git/GitPublisher.java:290-316 | the body of the tag callable: unknown repository gives false; look the tag up; create-tag on an existing tag or push of a missing tag gives false; otherwise create when asked and push; a throw ends it with the effects so far |
| Publisher.TagEntry | src/main/java/hudson/plugins/git/GitPublisher.java:268-333 | an unnamed tag entry fails with nothing changed; a named one expands its names and runs its callable under the catch |
| Publisher.TagStage | src/main/java/hudson/plugins/git/GitPublisher.java:265-337 | the tag loop as a left fold over the entries: each entry runs on the state the previous ones left, and the outcome is the AND of theirs |
| Publisher.BranchStep | src/main/java/hudson/plugins/git/GitPublisher.java:340-400 | the branch stage runs only when there is a branch to push |
| Publisher.BranchEntryValid | src/main/java/hudson/plugins/git/GitPublisher.java:344-351 | a branch entry names both its branch and its repository |
| Publisher.BranchAct | src/main/java/hudson/plugins/git/GitPublisher.java:360-382 | the branch callable as a function: a client that cannot be opened throws with nothing done; otherwise the body runs and then the client is closed |
| Publisher.BranchBody | src/main/java/hudson/plugins/git/GitPublisher.java:365-376 | the body of the branch callable: unknown repository gives false; otherwise push `HEAD:<branch>`; a throw ends it with the effects so far |
| Publisher.BranchEntry | src/main/java/hudson/plugins/git/GitPublisher.java:352-389 | a named branch entry expands its names and runs its callable under the catch |
| Publisher.BranchStage | src/main/java/hudson/plugins/git/GitPublisher.java:340-399 | the branch loop as a left fold that stops for good at the first unnamed entry and otherwise ANDs the entry outcomes |
| Publisher.PassesGate | src/main/java/hudson/plugins/git/GitPublisher.java:149-171 | `perform` gets past its early exits: not a matrix configuration run, a Git SCM, and not `pushOnlyIfSuccess` with a result worse than SUCCESS |
| Publisher.Outcome | src/main/java/hudson/plugins/git/GitPublisher.java:392-402 | a stopped branch loop makes the run return false; otherwise the run returns the AND of the three stage outcomes |
| Publisher.ReadResolved | src/main/java/hudson/plugins/git/GitPublisher.java:412-423 | the migration as a function on the persisted fields: a missing version is 0, and a version below 1 without a tag list turns `pushMerge` on |
| Strings.LeadingWhitespace | src/main/java/hudson/plugins/git/GitPublisher.java:459 | the count covers whitespace only and stops at the first non-whitespace character |
| Strings.TrailingWhitespace | src/main/java/hudson/plugins/git/GitPublisher.java:459 | the count covers whitespace only and stops at the last non-whitespace character |
| Strings.StripStart | src/main/java/hudson/plugins/git/GitPublisher.java:459 | what is dropped at the front is whitespace, and what is kept is a suffix that does not start with whitespace |
| Strings.StripEnd | src/main/java/hudson/plugins/git/GitPublisher.java:459 | what is dropped at the back is whitespace, and what is kept is a prefix that does not end with whitespace |
| Strings.StripRemovesOnlyEnds | src/main/java/hudson/plugins/git/GitPublisher.java:459 | stripping removes whitespace at the two ends and nothing else |
| Strings.IsWhitespace | src/main/java/hudson/plugins/git/GitPublisher.java:459-461 | the characters `Character.isWhitespace` accepts on Java 9 and later, which `strip` and `isBlank` test |
| Strings.IsBlank | src/main/java/hudson/plugins/git/GitPublisher.java:461 | null, empty or whitespace only |
| Strings.IsNotBlank | src/main/java/hudson/plugins/git/GitPublisher.java:184-189 | not blank |
| Jenkins.Result.IsWorseThan | src/main/java/hudson/plugins/git/GitPublisher.java:167 | a result is worse than another when it comes later in the order SUCCESS, UNSTABLE, FAILURE, NOT_BUILT, ABORTED |
| Jenkins.Result.IsBetterOrEqualTo | src/main/java/hudson/plugins/git/GitPublisher.java:230-231 | a result is better than or equal to another when it does not come later in that order |
| Jenkins.Result.Name | src/main/java/hudson/plugins/git/GitPublisher.java:224 | the name of a result in capitals |
| PublisherProofs.ReadResolvedRules | src/main/java/hudson/plugins/git/GitPublisher.java:412-423 | the migration rules field by field: the version defaults to 0, `pushMerge` is turned on exactly in the legacy case and kept otherwise, and the other fields are kept |
| PublisherProofs.ReadResolvedIsIdempotent | src/main/java/hudson/plugins/git/GitPublisher.java:412-423 | after migration the version is set, and migrating again changes nothing |
| PublisherProofs.EarlyExitsChangeNothing | src/main/java/hudson/plugins/git/GitPublisher.java:149-172 | a matrix configuration run returns true, a non-Git SCM returns false, and a build worse than SUCCESS under `pushOnlyIfSuccess` returns true; none of them changes the result or the repository |
| PublisherProofs.NothingConfiguredIsNoOp | src/main/java/hudson/plugins/git/GitPublisher.java:197-402 | with no merge push and both lists null or empty, a run returns true and changes nothing |
| PublisherProofs.MatrixRunsPublishNothing | src/main/java/hudson/plugins/git/GitPublisher.java:130-151 | any number of matrix configuration runs, one after another, leave the repository as it was |
| PublisherProofs.MergeStageTagsThenPushesOnSuccess | src/main/java/hudson/plugins/git/GitPublisher.java:212-246 | when opening, deleting, tagging and closing do not throw, the base tag is replaced by the result tag for every result and any merge options, a null merge remote included; HEAD is pushed to the merge target exactly when a merge is configured and the result is at least SUCCESS, and otherwise nothing is pushed |
| PublisherProofs.MergeStagePushesOnlyOnSuccess | src/main/java/hudson/plugins/git/GitPublisher.java:230-246 | whatever throws, the merge stage pushes at most once, only `HEAD:<mergeTarget>` to the merge remote, and only for a merge with a result at least SUCCESS |
| PublisherProofs.MergeCloseThrowFailsAfterWork | src/main/java/hudson/plugins/git/GitPublisher.java:212-258 | when only the close throws, the merge stage has still replaced the base tag and made its push, yet it fails and forces FAILURE |
| PublisherProofs.FailedBuildIsTaggedNotPushed | src/main/java/hudson/plugins/git/GitPublisher.java:221-231 | a FAILURE build gets the tag suffixed `-FAILURE` and nothing is pushed |
| PublisherProofs.MergeTagNamesIdentifyBuild | src/main/java/hudson/plugins/git/GitPublisher.java:213-224 | different build numbers give different base tags, and different results give different result tags |
| PublisherProofs.TagStageIsConjunction | src/main/java/hudson/plugins/git/GitPublisher.java:266-337 | the tag stage succeeds exactly when every entry succeeds on the state the entries before it left |
| PublisherProofs.TagStageOkHasEveryEntryOk | src/main/java/hudson/plugins/git/GitPublisher.java:331-336 | a successful tag stage had every entry succeed |
| PublisherProofs.TagStageFailureHasFailedEntry | src/main/java/hudson/plugins/git/GitPublisher.java:331-336 | a failed tag stage had some entry fail |
| PublisherProofs.InvalidTagEntryFailsOnlyItself | src/main/java/hudson/plugins/git/GitPublisher.java:268-277 | an entry with a null tag name or repository changes nothing and fails the stage, and the loop goes on |
| PublisherProofs.TagEntryRules | src/main/java/hudson/plugins/git/GitPublisher.java:290-321 | the outcome of one named tag entry whose calls do not throw, case by case: unknown repository, create-tag on an existing tag, push of a missing tag, success |
| PublisherProofs.TagEntryPushesItsTag | src/main/java/hudson/plugins/git/GitPublisher.java:299-316 | one tag entry pushes at most once, and only its own expanded tag to its resolved remote |
| PublisherProofs.TagStagePushesComeFromEntries | src/main/java/hudson/plugins/git/GitPublisher.java:267-334 | the tag stage only appends to the push log, at most one push per entry, each the tag of some entry |
| PublisherProofs.TagStageOnlyForcesFailure | src/main/java/hudson/plugins/git/GitPublisher.java:324-328 | the tag stage leaves the result as it was or forced to FAILURE |
| PublisherProofs.TagStageKeepsFailure | src/main/java/hudson/plugins/git/GitPublisher.java:324-334 | a FAILURE forced by earlier entries survives the later ones |
| PublisherProofs.TagEntryThrowForcesFailure | src/main/java/hudson/plugins/git/GitPublisher.java:324-333 | a throw in any tag entry fails the stage and forces FAILURE |
| PublisherProofs.InvalidBranchEntryStopsStage | src/main/java/hudson/plugins/git/GitPublisher.java:344-351 | a branch entry with a missing name stops the loop with the state the entries before it left |
| PublisherProofs.BranchStageIsConjunction | src/main/java/hudson/plugins/git/GitPublisher.java:341-395 | with every entry named, the branch loop completes and succeeds exactly when every entry does |
| PublisherProofs.BranchStageCompletes | src/main/java/hudson/plugins/git/GitPublisher.java:341-349 | with every entry naming its branch and repository, the branch loop never takes the early return |
| PublisherProofs.BranchStageOkHasEveryEntryOk | src/main/java/hudson/plugins/git/GitPublisher.java:384-395 | a successful branch stage had every entry succeed |
| PublisherProofs.BranchStageFailureHasFailedEntry | src/main/java/hudson/plugins/git/GitPublisher.java:384-395 | a completed branch stage that failed had some entry fail |
| PublisherProofs.BranchEntryPushesHead | src/main/java/hudson/plugins/git/GitPublisher.java:365-381 | a named branch entry whose calls do not throw fails on an unknown repository and otherwise pushes exactly `HEAD:<branch>` to the resolved remote |
| PublisherProofs.BranchCloseThrowKeepsPush | src/main/java/hudson/plugins/git/GitPublisher.java:365-389 | when only the close throws, a named branch entry keeps the push it made but fails and forces FAILURE |
| PublisherProofs.BranchStageKeepsTags | src/main/java/hudson/plugins/git/GitPublisher.java:340-400 | the branch stage never creates or deletes a tag |
| PublisherProofs.BranchStageOnlyForcesFailure | src/main/java/hudson/plugins/git/GitPublisher.java:384-389 | the branch stage leaves the result as it was or forced to FAILURE |
| PublisherProofs.BranchStageKeepsFailure | src/main/java/hudson/plugins/git/GitPublisher.java:384-395 | a FAILURE forced by earlier branch entries survives, and the stage does not succeed |
| PublisherProofs.BranchEntryThrowForcesFailure | src/main/java/hudson/plugins/git/GitPublisher.java:384-394 | a throw in any branch entry fails the stage and forces FAILURE |
| PublisherProofs.PublishOnlyForcesFailure | src/main/java/hudson/plugins/git/GitPublisher.java:143-404 | a run never improves the build result: it keeps it or forces it to FAILURE |
| PublisherProofs.FailureSurvivesLaterStages | src/main/java/hudson/plugins/git/GitPublisher.java:254-398 | a failed merge or tag stage fails the run, and a FAILURE it forced survives the later stages |
| PublisherProofs.MergeThrowFailsRun | src/main/java/hudson/plugins/git/GitPublisher.java:254-263 | a throw in the merge stage makes the run return false with the result forced to FAILURE |
| PublisherProofs.TagThrowFailsRun | src/main/java/hudson/plugins/git/GitPublisher.java:324-337 | a throw in any tag entry makes the run return false with the result forced to FAILURE |
| PublisherProofs.BranchThrowFailsRun | src/main/java/hudson/plugins/git/GitPublisher.java:384-398 | a throw in any attempted branch entry makes the run return false with the result forced to FAILURE |
| PublisherProofs.InvalidBranchEntryFailsRun | src/main/java/hudson/plugins/git/GitPublisher.java:344-351 | a branch entry with a missing name makes the run return false with the result and repository the stages before it left |
| PublisherDescriptor.CheckFieldNotEmpty | src/main/java/hudson/plugins/git/GitPublisher.java:458-465 | an error "<field> is required." exactly when the value is null, empty or whitespace, and OK otherwise |
| PublisherDescriptor.DoCheckTagName | src/main/java/hudson/plugins/git/GitPublisher.java:446-448 | an error "Tag Name is required." exactly when the value is blank |
| PublisherDescriptor.DoCheckBranchName | src/main/java/hudson/plugins/git/GitPublisher.java:450-452 | an error "Branch Name is required." exactly when the value is blank |
| Strings.Strip | src/main/java/hudson/plugins/git/GitPublisher.java:459 | null stays null; otherwise the result is the value with whitespace removed at both ends and nothing else, it starts and ends with non-whitespace, and it is blank exactly when the value is |
| Strings.StripBoth | src/main/java/hudson/plugins/git/GitPublisher.java:459 | the non-null text with whitespace removed at both ends and nothing else; it starts and ends with non-whitespace and is all whitespace exactly when the original is |
| Strings.StripKeepsBlankness | src/main/java/hudson/plugins/git/GitPublisher.java:459-461 | the stripped text is all whitespace exactly when the original is |
| Strings.IntToString | src/main/java/hudson/plugins/git/GitPublisher.java:213-218 | the canonical decimal text of the build number: a minus sign exactly for negative numbers, no leading zero, and it reads back as the number |
| Strings.NatToString | src/main/java/hudson/plugins/git/GitPublisher.java:218 | the canonical digits of a non-negative number: no leading zero, and they read back as the number |
| Strings.IntToStringInjective | src/main/java/hudson/plugins/git/GitPublisher.java:213-219 | distinct build numbers print differently |
| Jenkins.NameIsInjective | src/main/java/hudson/plugins/git/GitPublisher.java:224 | distinct results have distinct names |
| Jenkins.Worsened | src/main/java/hudson/plugins/git/GitPublisher.java:256 | setting a result gives one of the two results, and neither is worse than it |
| Jenkins.Build.SetResult | src/main/java/hudson/plugins/git/GitPublisher.java:256 | the build's result becomes the worse of its old result and the one set |
| GitClient.GitRepo.Open | src/main/java/hudson/plugins/git/GitPublisher.java:208-210 | opening a client changes no tags or pushes and counts one more open client unless it throws |
| GitClient.GitRepo.Close | src/main/java/hudson/plugins/git/GitPublisher.java:247-249 | closing a client counts one fewer open client, whether or not it throws, and changes no tags or pushes; it reports whether it threw |
| GitClient.GitRepo.DeleteTag | src/main/java/hudson/plugins/git/GitPublisher.java:221 | afterwards the tag is absent, unless the call threw |
| GitClient.GitRepo.Tag | src/main/java/hudson/plugins/git/GitPublisher.java:226 | afterwards the tag is present, unless the call threw |
| GitClient.GitRepo.TagExists | src/main/java/hudson/plugins/git/GitPublisher.java:300 | when it does not throw, it tells whether the tag is present |
| GitClient.GitRepo.Push | src/main/java/hudson/plugins/git/GitPublisher.java:242 | the push is appended to the push log, unless it threw |

## Left out

- `FilePath.act`, the remoting callables, `getGitExe`, `build.getEnvironment` and `MatrixAggregator` are not modelled. A callable runs in place against the `GitRepo`. A failed environment capture is `None` in `BuildInfo.environment`. A matrix run is the flag `BuildInfo.isMatrixRun`.
- `GitAPI`'s process execution and network traffic are not modelled. A tag is a name in a set, and a push is a record appended to a log. Whether a call throws is a parameter, the oracle.
- Whether `deleteTag` of an absent tag or `tag` of an existing one throws is not modelled. The oracle decides it, like every other throw.
- Logging text and stack traces are not modelled. They change no state the model tracks.
- `GitConstants.INTERNAL_TAG_NAME_PREFIX` and `INTERNAL_TAG_COMMENT_PREFIX` are not part of this model. They are the parameters `Naming.tagPrefix` and `Naming.commentPrefix`. The `-` separator is literal.
- `EnvVars.expand` is not modelled. It is an uninterpreted function of the environment and the text.
- `GitSCM.getRepositoryByName` is a map from remote names to remotes.
- `Run.setResult` is not part of this model. It is modelled as a result that can only get worse.
- A null build result is not modelled. With `pushOnlyIfSuccess` set, the source would throw at `isWorseThan` before any stage runs. Without it, and only when `pushMerge` is set, `buildResult.toString()` would throw inside the merge callable after `deleteTag` had already removed the base tag; the catch turns that into FAILURE, and the tag and branch stages would still run. Without `pushMerge`, nothing reads the result.
- A null merge target is not modelled. It would be concatenated as "null".
- `setTargetRepoName`, the descriptor's `doCheck`, `getDisplayName`, `getHelpFile`, `isApplicable` and serialization are not modelled. They are UI and persistence glue.
- `Publisher.GitPublisher.GetTagsToPush` and `GetBranchesToPush` return the list by value. Aliasing between the returned list and the field is not modelled.
- Strings.IsWhitespace: the set is the one `Character.isWhitespace` accepts on Java 9 and later. On Java 8 and earlier U+180E MONGOLIAN VOWEL SEPARATOR also counts as whitespace, so there a field holding only that character is blank, while the model treats it as not blank.
- Publisher.WithIdentity: `EnvVars` compares keys without regard to case, so putting `GIT_COMMITTER_NAME` replaces a binding stored as `git_committer_name`. The model's environment is a map with case-sensitive keys, so such a binding is kept beside the new one.
