/**
 * The Git publisher: a post-build step that tags the built commit with the
 * build's outcome and optionally pushes it to a merge target, pushes
 * configured tags and pushes HEAD to configured branches.
 *
 * The first half states, as functions, what one `perform` call does to the
 * build result and to the repository; the class at the end holds the
 * publisher's persisted fields and runs `perform` step by step, proved to
 * agree with those functions.
 */
module Publisher {
  import opened Wrappers
  import opened Strings
  import opened Jenkins
  import opened GitClient

  /** `TagToPush`: a tag (null when unset) to push to a repository named by
      `targetRepoName` (null when unset), created first when `createTag`. */
  datatype TagToPush = TagToPush(targetRepoName: Option<string>, tagName: Option<string>, createTag: bool)

  /** `BranchToPush`: HEAD is pushed to `branchName` of `targetRepoName`. */
  datatype BranchToPush = BranchToPush(targetRepoName: Option<string>, branchName: Option<string>)

  /** The publisher's persisted fields; either list may be null. */
  datatype PublisherConfig = PublisherConfig(
    configVersion: Option<int>,
    pushMerge: bool,
    pushOnlyIfSuccess: bool,
    tagsToPush: Option<seq<TagToPush>>,
    branchesToPush: Option<seq<BranchToPush>>)

  /** What a list getter hands out: a null list reads as empty. */
  function OrEmpty<T>(list: Option<seq<T>>): seq<T> {
    list.GetOr([])
  }

  /** `isPushTags`: there is a tag to push exactly when the list the getter
      hands out is non-empty, so a null list and an empty one mean the same. */
  function IsPushTags(tagsToPush: Option<seq<TagToPush>>): (r: bool)
    ensures r <==> OrEmpty(tagsToPush) != []
  {
    if tagsToPush.None? then false else tagsToPush.value != []
  }

  /** `isPushBranches`, likewise for branches. */
  function IsPushBranches(branchesToPush: Option<seq<BranchToPush>>): (r: bool)
    ensures r <==> OrEmpty(branchesToPush) != []
  {
    if branchesToPush.None? then false else branchesToPush.value != []
  }

  /** `readResolve`: a configuration stored without a version is version 0,
      and a version-0 configuration stored without a tag list was written
      when pushing the merge was the only behaviour, so it pushes the merge. */
  function ReadResolved(c: PublisherConfig): PublisherConfig {
    var version := if c.configVersion.None? then 0 else c.configVersion.value;
    var pushMerge := if version < 1 && c.tagsToPush.None? then true else c.pushMerge;
    c.(configVersion := Some(version), pushMerge := pushMerge)
  }

  /** `k` is bound in `r` exactly as in `env`. */
  predicate Keeps(r: Environment, env: Environment, k: string) {
    && (k in r <==> k in env)
    && (k in env ==> r[k] == env[k])
  }

  /** The environment the git calls see: the build's, with a non-blank
      configured name put under both the committer and the author name key,
      and likewise a non-blank e-mail; every other binding is kept. */
  function WithIdentity(env: Environment, name: Option<string>, email: Option<string>): (r: Environment)
    ensures IsNotBlank(name) ==>
      && CommitterNameKey in r && r[CommitterNameKey] == name.value
      && AuthorNameKey in r && r[AuthorNameKey] == name.value
    ensures IsBlank(name) ==> Keeps(r, env, CommitterNameKey) && Keeps(r, env, AuthorNameKey)
    ensures IsNotBlank(email) ==>
      && CommitterEmailKey in r && r[CommitterEmailKey] == email.value
      && AuthorEmailKey in r && r[AuthorEmailKey] == email.value
    ensures IsBlank(email) ==> Keeps(r, env, CommitterEmailKey) && Keeps(r, env, AuthorEmailKey)
    ensures forall k ::
      k != CommitterNameKey && k != AuthorNameKey && k != CommitterEmailKey && k != AuthorEmailKey ==>
      Keeps(r, env, k)
  {
    var named := if IsNotBlank(name) then env[CommitterNameKey := name.value][AuthorNameKey := name.value] else env;
    if IsNotBlank(email) then named[CommitterEmailKey := email.value][AuthorEmailKey := email.value] else named
  }

  /** The build result and the repository, as a publish run changes them. */
  datatype World = World(result: Result, git: GitState)

  /** The outcome of one stage or entry, and the world after it. */
  datatype Step = Step(ok: bool, world: World)

  /** How a `FilePath.act` callable ends: it returns a value, or it throws;
      either way with the repository as its git calls left it. */
  datatype Act = Returned(value: bool, git: GitState) | Threw(git: GitState)

  /** The branch loop either finishes, or stops `perform` at an entry with
      a missing name. */
  datatype BranchRun = Aborted(world: World) | Completed(ok: bool, world: World)

  /** `EnvVars.expand`, left uninterpreted. */
  type Expander = (Environment, string) -> string

  /** What every tag and branch entry of one run shares: the environment,
      the expander, the Git SCM's remotes by name and the failure oracle. */
  datatype Ctx = Ctx(env: Environment, expand: Expander, remotes: map<string, Remote>, throws: Oracle)

  function AsAct(thrown: bool, value: bool, g: GitState): Act {
    if thrown then Threw(g) else Returned(value, g)
  }

  /** The `catch (Throwable)` around a callable: a throw forces the build
      result to FAILURE and counts as failure. */
  function Caught(a: Act, r: Result): Step {
    match a
    case Returned(v, g) => Step(v, World(r, g))
    case Threw(g) => Step(false, World(Worsened(r, FAILURE), g))
  }

  /** The tag the SCM put on the built commit: prefix, project name and
      build number, joined by hyphens. */
  function MergeTagBase(naming: Naming, projectName: string, number: int): string {
    naming.tagPrefix + "-" + projectName + "-" + IntToString(number)
  }

  /** The base tag with the build result appended. */
  function MergeTagName(base: string, r: Result): string {
    base + "-" + r.Name()
  }

  /** The message of a tag created for a tag entry. */
  function TagMessage(tagName: string): string {
    "Hudson Git plugin tagging with " + tagName
  }

  /** The `finally { git.close(); }` around a callable's body: close runs
      however the body ended, and when it throws, its exception replaces the
      body's value or exception; the body's changes stay. */
  function Finally(site: Site, throws: Oracle, body: Act): (a: Act)
    ensures a.git == body.git
    ensures throws(site, CloseClient) ==> a.Threw?
    ensures !throws(site, CloseClient) ==> a == body
  {
    if throws(site, CloseClient) then Threw(body.git) else body
  }

  /** `git.push(remote, refspec)` as the last call of a callable that then
      returns true. */
  function PushAct(site: Site, remote: Remote, refspec: string, throws: Oracle, g: GitState): (a: Act)
    ensures a.Threw? <==> throws(site, PushRef(remote, refspec))
    ensures a.Threw? ==> a.git == g
    ensures a.Returned? ==> a.value && a.git == GitState(g.tags, g.pushes + [PushRecord(remote, refspec)])
  {
    if throws(site, PushRef(remote, refspec)) then Threw(g)
    else Returned(true, GitState(g.tags, g.pushes + [PushRecord(remote, refspec)]))
  }

  /** The merge callable: a client that cannot be opened throws before
      anything is done; otherwise the body runs and the client is closed. */
  function MergeAct(mo: MergeOptions, info: BuildInfo, r0: Result, naming: Naming, throws: Oracle, g: GitState): Act {
    if throws(MergeSite, OpenClient) then Threw(g)
    else Finally(MergeSite, throws, MergeBody(mo, info, r0, naming, throws, g))
  }

  /** What the merge callable does between opening and closing its client:
      delete the base tag, tag the result-suffixed name, and push HEAD to the
      merge target only when a merge is configured and the build result is
      at least SUCCESS. A null merge remote is dereferenced, which throws. */
  function MergeBody(mo: MergeOptions, info: BuildInfo, r0: Result, naming: Naming, throws: Oracle, g: GitState): Act {
    var base := MergeTagBase(naming, info.projectName, info.number);
    if throws(MergeSite, Op.DeleteTag(base)) then Threw(g)
    else
      var deleted := GitState(g.tags - {base}, g.pushes);
      var name := MergeTagName(base, r0);
      if throws(MergeSite, CreateTag(name, naming.commentPrefix + IntToString(info.number))) then Threw(deleted)
      else
        var tagged := GitState(deleted.tags + {name}, deleted.pushes);
        if !(mo.doMerge && r0.IsBetterOrEqualTo(SUCCESS)) then Returned(true, tagged)
        else if mo.mergeRemote.None? then Threw(tagged)
        else PushAct(MergeSite, mo.mergeRemote.value, "HEAD:" + mo.mergeTarget, throws, tagged)
  }

  /** The tag callable for entry `i`, once its names are expanded. */
  function TagAct(i: nat, tagName: string, targetRepo: string, createTag: bool, ctx: Ctx, g: GitState): Act {
    if ctx.throws(TagSite(i), OpenClient) then Threw(g)
    else Finally(TagSite(i), ctx.throws, TagBody(i, tagName, targetRepo, createTag, ctx, g))
  }

  /** What the tag callable does between opening and closing its client:
      an unknown repository returns false; a tag to create that exists, or
      a tag to push that does not, returns false; otherwise the tag is
      created when asked and pushed. */
  function TagBody(i: nat, tagName: string, targetRepo: string, createTag: bool, ctx: Ctx, g: GitState): Act {
    var site := TagSite(i);
    if targetRepo !in ctx.remotes then Returned(false, g)
    else if ctx.throws(site, Op.TagExists(tagName)) then Threw(g)
    else if createTag then
      if tagName in g.tags then Returned(false, g)
      else if ctx.throws(site, CreateTag(tagName, TagMessage(tagName))) then Threw(g)
      else PushAct(site, ctx.remotes[targetRepo], tagName, ctx.throws, GitState(g.tags + {tagName}, g.pushes))
    else if tagName !in g.tags then Returned(false, g)
    else PushAct(site, ctx.remotes[targetRepo], tagName, ctx.throws, g)
  }

  /** A tag entry names both its tag and its target repository. */
  predicate TagEntryValid(t: TagToPush) {
    t.tagName.Some? && t.targetRepoName.Some?
  }

  /** Tag entry `i`: a missing name fails it without expansion or git
      calls; otherwise its callable runs under the catch. */
  function TagEntry(t: TagToPush, i: nat, ctx: Ctx, w: World): Step {
    if !TagEntryValid(t) then Step(false, w)
    else
      var tagName := ctx.expand(ctx.env, t.tagName.value);
      var targetRepo := ctx.expand(ctx.env, t.targetRepoName.value);
      Caught(TagAct(i, tagName, targetRepo, t.createTag, ctx, w.git), w.result)
  }

  /** The tag loop over `ts`, entry by entry; it succeeds when every entry
      does. */
  function TagStage(ts: seq<TagToPush>, ctx: Ctx, w: World): Step
    decreases |ts|
  {
    if ts == [] then Step(true, w)
    else
      var before := TagStage(ts[..|ts| - 1], ctx, w);
      var entry := TagEntry(ts[|ts| - 1], |ts| - 1, ctx, before.world);
      Step(before.ok && entry.ok, entry.world)
  }

  /** The branch callable for entry `i`, once its names are expanded. */
  function BranchAct(i: nat, branchName: string, targetRepo: string, ctx: Ctx, g: GitState): Act {
    if ctx.throws(BranchSite(i), OpenClient) then Threw(g)
    else Finally(BranchSite(i), ctx.throws, BranchBody(i, branchName, targetRepo, ctx, g))
  }

  /** What the branch callable does between opening and closing its client:
      an unknown repository returns false, otherwise HEAD is pushed. */
  function BranchBody(i: nat, branchName: string, targetRepo: string, ctx: Ctx, g: GitState): Act {
    if targetRepo !in ctx.remotes then Returned(false, g)
    else PushAct(BranchSite(i), ctx.remotes[targetRepo], "HEAD:" + branchName, ctx.throws, g)
  }

  /** A branch entry names both its branch and its target repository. */
  predicate BranchEntryValid(b: BranchToPush) {
    b.branchName.Some? && b.targetRepoName.Some?
  }

  /** A branch entry with both names present, run under the catch. */
  function BranchEntry(b: BranchToPush, i: nat, ctx: Ctx, w: World): Step
    requires BranchEntryValid(b)
  {
    var branchName := ctx.expand(ctx.env, b.branchName.value);
    var targetRepo := ctx.expand(ctx.env, b.targetRepoName.value);
    Caught(BranchAct(i, branchName, targetRepo, ctx, w.git), w.result)
  }

  /** The branch loop over `bs`: the first entry with a missing name stops
      it; otherwise it succeeds when every entry does. */
  function BranchStage(bs: seq<BranchToPush>, ctx: Ctx, w: World): BranchRun
    decreases |bs|
  {
    if bs == [] then Completed(true, w)
    else
      match BranchStage(bs[..|bs| - 1], ctx, w)
      case Aborted(stopped) => Aborted(stopped)
      case Completed(ok, before) =>
        var b := bs[|bs| - 1];
        if !BranchEntryValid(b) then Aborted(before)
        else
          var entry := BranchEntry(b, |bs| - 1, ctx, before);
          Completed(ok && entry.ok, entry.world)
  }

  /** The environment `perform` hands to the git calls: the captured one
      (empty when capturing it failed) with the SCM's identity put in. */
  function PublishEnvironment(info: BuildInfo): Environment
    requires info.scm.GitScm?
  {
    WithIdentity(info.environment.GetOr(map[]), info.scm.configName, info.scm.configEmail)
  }

  /** The merge stage: skipped unless `pushMerge`. */
  function MergeStage(cfg: PublisherConfig, info: BuildInfo, naming: Naming, throws: Oracle, w: World): Step
    requires info.scm.GitScm?
  {
    if cfg.pushMerge then Caught(MergeAct(info.scm.mergeOptions, info, w.result, naming, throws, w.git), w.result)
    else Step(true, w)
  }

  /** What the tag and branch entries of a run share. */
  function PublishCtx(info: BuildInfo, expand: Expander, throws: Oracle): Ctx
    requires info.scm.GitScm?
  {
    Ctx(PublishEnvironment(info), expand, info.scm.remotes, throws)
  }

  /** The tag stage: skipped unless there is a tag to push. */
  function TagStep(cfg: PublisherConfig, ctx: Ctx, w: World): Step {
    if IsPushTags(cfg.tagsToPush) then TagStage(cfg.tagsToPush.value, ctx, w) else Step(true, w)
  }

  /** The branch stage: skipped unless there is a branch to push. */
  function BranchStep(cfg: PublisherConfig, ctx: Ctx, w: World): BranchRun {
    if IsPushBranches(cfg.branchesToPush) then BranchStage(cfg.branchesToPush.value, ctx, w) else Completed(true, w)
  }

  /** Whether `perform` gets past its early exits. */
  predicate PassesGate(cfg: PublisherConfig, info: BuildInfo, r0: Result) {
    !info.isMatrixRun && info.scm.GitScm? && !(cfg.pushOnlyIfSuccess && r0.IsWorseThan(SUCCESS))
  }

  /** `perform` from a build whose result is `r0` and a repository in state
      `g0`: the outcome it returns and the result and repository it leaves.
      Past the gate it runs the merge, tag and branch stages in that order
      and returns the conjunction of their outcomes, or false at once when
      the branch loop stops. */
  function Publish(cfg: PublisherConfig, info: BuildInfo, r0: Result, g0: GitState,
                   expand: Expander, naming: Naming, throws: Oracle): Step
  {
    var w0 := World(r0, g0);
    if info.isMatrixRun then Step(true, w0)
    else if !info.scm.GitScm? then Step(false, w0)
    else if cfg.pushOnlyIfSuccess && r0.IsWorseThan(SUCCESS) then Step(true, w0)
    else
      var ctx := PublishCtx(info, expand, throws);
      var m := MergeStage(cfg, info, naming, throws, w0);
      var t := TagStep(cfg, ctx, m.world);
      Outcome(m, t, BranchStep(cfg, ctx, t.world))
  }

  /** How the three stages make up the outcome of a run. */
  function Outcome(m: Step, t: Step, b: BranchRun): Step {
    match b
    case Aborted(w) => Step(false, w)
    case Completed(ok, w) => Step(m.ok && t.ok && ok, w)
  }

  /** The body of the merge callable. */
  method InvokeMerge(repo: GitRepo, mo: MergeOptions, info: BuildInfo, buildResult: Result, naming: Naming)
    returns (thrown: bool, value: bool)
    modifies repo
    ensures repo.openClients == old(repo.openClients)
    ensures AsAct(thrown, value, repo.State()) == MergeAct(mo, info, buildResult, naming, repo.throws, old(repo.State()))
  {
    value := true;
    thrown := repo.Open(MergeSite);
    if thrown {
      return;
    }
    var tagName := MergeTagBase(naming, info.projectName, info.number);
    thrown := repo.DeleteTag(MergeSite, tagName);
    if !thrown {
      tagName := MergeTagName(tagName, buildResult);
      thrown := repo.Tag(MergeSite, tagName, naming.commentPrefix + IntToString(info.number));
      if !thrown && mo.doMerge && buildResult.IsBetterOrEqualTo(SUCCESS) {
        if mo.mergeRemote.None? {
          // logging the remote's name dereferences null
          thrown := true;
        } else {
          thrown := repo.Push(MergeSite, mo.mergeRemote.value, "HEAD:" + mo.mergeTarget);
        }
      }
    }
    var closeThrown := repo.Close(MergeSite);
    thrown := thrown || closeThrown;
  }

  /** The body of the tag callable for entry `i`. */
  method InvokeTag(repo: GitRepo, i: nat, tagName: string, targetRepo: string, createTag: bool, ctx: Ctx)
    returns (thrown: bool, value: bool)
    requires ctx.throws == repo.throws
    modifies repo
    ensures repo.openClients == old(repo.openClients)
    ensures AsAct(thrown, value, repo.State()) == TagAct(i, tagName, targetRepo, createTag, ctx, old(repo.State()))
  {
    value := true;
    var site := TagSite(i);
    thrown := repo.Open(site);
    if thrown {
      return;
    }
    if targetRepo !in ctx.remotes {
      value := false;
    } else {
      var remote := ctx.remotes[targetRepo];
      var present;
      thrown, present := repo.TagExists(site, tagName);
      if thrown {
      } else if createTag {
        if present {
          value := false;
        } else {
          thrown := repo.Tag(site, tagName, TagMessage(tagName));
        }
      } else if !present {
        value := false;
      }
      if !thrown && value {
        thrown := repo.Push(site, remote, tagName);
      }
    }
    var closeThrown := repo.Close(site);
    thrown := thrown || closeThrown;
  }

  /** The body of the branch callable for entry `i`. */
  method InvokeBranch(repo: GitRepo, i: nat, branchName: string, targetRepo: string, ctx: Ctx)
    returns (thrown: bool, value: bool)
    requires ctx.throws == repo.throws
    modifies repo
    ensures repo.openClients == old(repo.openClients)
    ensures AsAct(thrown, value, repo.State()) == BranchAct(i, branchName, targetRepo, ctx, old(repo.State()))
  {
    value := true;
    var site := BranchSite(i);
    thrown := repo.Open(site);
    if thrown {
      return;
    }
    if targetRepo !in ctx.remotes {
      value := false;
    } else {
      thrown := repo.Push(site, ctx.remotes[targetRepo], "HEAD:" + branchName);
    }
    var closeThrown := repo.Close(site);
    thrown := thrown || closeThrown;
  }

  /** Once the branch loop has stopped, later entries change nothing. */
  lemma {:induction false} BranchAbortIsFinal(bs: seq<BranchToPush>, k: nat, ctx: Ctx, w: World)
    requires k <= |bs| && BranchStage(bs[..k], ctx, w).Aborted?
    ensures BranchStage(bs, ctx, w) == BranchStage(bs[..k], ctx, w)
    decreases |bs| - k
  {
    if k < |bs| {
      assert bs[..k + 1][..k] == bs[..k];
      BranchAbortIsFinal(bs, k + 1, ctx, w);
    } else {
      assert bs[..k] == bs;
    }
  }

  /** The environment `perform` builds: the captured one, or an empty one
      when capturing it threw, with the SCM's committer and author identity
      put in when configured and not blank. */
  method CaptureEnvironment(info: BuildInfo) returns (environment: Environment)
    requires info.scm.GitScm?
    ensures environment == PublishEnvironment(info)
  {
    environment := info.environment.GetOr(map[]);
    var confName := info.scm.configName;
    if IsNotBlank(confName) {
      environment := environment[CommitterNameKey := confName.value];
      environment := environment[AuthorNameKey := confName.value];
    }
    var confEmail := info.scm.configEmail;
    if IsNotBlank(confEmail) {
      environment := environment[CommitterEmailKey := confEmail.value];
      environment := environment[AuthorEmailKey := confEmail.value];
    }
  }

  /** The merge stage of `perform`: the merge callable under the catch,
      which forces FAILURE when it throws. */
  method PushMergeResult(build: Build, repo: GitRepo, naming: Naming) returns (mergeResult: bool)
    requires build.info.scm.GitScm?
    modifies build, repo
    ensures repo.openClients == old(repo.openClients)
    ensures Caught(MergeAct(build.info.scm.mergeOptions, build.info, old(build.result), naming, repo.throws, old(repo.State())),
                   old(build.result))
         == Step(mergeResult, World(build.result, repo.State()))
  {
    var thrown;
    thrown, mergeResult := InvokeMerge(repo, build.info.scm.mergeOptions, build.info, build.result, naming);
    if thrown {
      build.SetResult(FAILURE);
      mergeResult := false;
    }
  }

  /** The tag loop of `perform`: every entry is attempted, in order; the
      result is true when every entry succeeded. */
  method PushTags(build: Build, repo: GitRepo, ts: seq<TagToPush>, ctx: Ctx) returns (allTagsResult: bool)
    requires ctx.throws == repo.throws
    modifies build, repo
    ensures repo.openClients == old(repo.openClients)
    ensures TagStage(ts, ctx, World(old(build.result), old(repo.State()))) == Step(allTagsResult, World(build.result, repo.State()))
  {
    ghost var w := World(build.result, repo.State());
    allTagsResult := true;
    var i := 0;
    while i < |ts|
      invariant i <= |ts|
      invariant repo.openClients == old(repo.openClients)
      invariant TagStage(ts[..i], ctx, w) == Step(allTagsResult, World(build.result, repo.State()))
    {
      var t := ts[i];
      var tagResult := true;
      if t.tagName.None? {
        tagResult := false;
      }
      if t.targetRepoName.None? {
        tagResult := false;
      }
      if tagResult {
        var tagName := ctx.expand(ctx.env, t.tagName.value);
        var targetRepo := ctx.expand(ctx.env, t.targetRepoName.value);
        var thrown;
        thrown, tagResult := InvokeTag(repo, i, tagName, targetRepo, t.createTag, ctx);
        if thrown {
          build.SetResult(FAILURE);
          tagResult := false;
        }
      }
      if !tagResult {
        allTagsResult := false;
      }
      assert ts[..i + 1][..i] == ts[..i];
      i := i + 1;
    }
    assert ts[..i] == ts;
  }

  /** The branch loop of `perform`: an entry with a missing name stops the
      loop and makes `perform` return false at once (`stopped`); otherwise
      every entry is attempted and the result is true when all succeeded. */
  method PushBranches(build: Build, repo: GitRepo, bs: seq<BranchToPush>, ctx: Ctx)
    returns (stopped: bool, allBranchesResult: bool)
    requires ctx.throws == repo.throws
    modifies build, repo
    ensures repo.openClients == old(repo.openClients)
    ensures BranchStage(bs, ctx, World(old(build.result), old(repo.State())))
         == if stopped then Aborted(World(build.result, repo.State()))
            else Completed(allBranchesResult, World(build.result, repo.State()))
  {
    ghost var w := World(build.result, repo.State());
    stopped, allBranchesResult := false, true;
    var i := 0;
    while i < |bs|
      invariant i <= |bs|
      invariant repo.openClients == old(repo.openClients)
      invariant BranchStage(bs[..i], ctx, w) == Completed(allBranchesResult, World(build.result, repo.State()))
    {
      var b := bs[i];
      var branchResult := true;
      assert bs[..i + 1][..i] == bs[..i];
      if b.branchName.None? || b.targetRepoName.None? {
        BranchAbortIsFinal(bs, i + 1, ctx, w);
        stopped := true;
        return;
      }
      var branchName := ctx.expand(ctx.env, b.branchName.value);
      var targetRepo := ctx.expand(ctx.env, b.targetRepoName.value);
      var thrown;
      thrown, branchResult := InvokeBranch(repo, i, branchName, targetRepo, ctx);
      if thrown {
        build.SetResult(FAILURE);
        branchResult := false;
      }
      if !branchResult {
        allBranchesResult := false;
      }
      i := i + 1;
    }
    assert bs[..i] == bs;
  }

  class GitPublisher {
    var configVersion: Option<int>
    var pushMerge: bool
    var pushOnlyIfSuccess: bool
    var tagsToPush: Option<seq<TagToPush>>
    var branchesToPush: Option<seq<BranchToPush>>

    function Config(): PublisherConfig
      reads this
    {
      PublisherConfig(configVersion, pushMerge, pushOnlyIfSuccess, tagsToPush, branchesToPush)
    }

    /** A publisher configured through the form is at version 2. */
    constructor (tagsToPush: Option<seq<TagToPush>>, branchesToPush: Option<seq<BranchToPush>>,
                 pushOnlyIfSuccess: bool, pushMerge: bool)
      ensures Config() == PublisherConfig(Some(2), pushMerge, pushOnlyIfSuccess, tagsToPush, branchesToPush)
    {
      this.tagsToPush := tagsToPush;
      this.branchesToPush := branchesToPush;
      this.pushMerge := pushMerge;
      this.pushOnlyIfSuccess := pushOnlyIfSuccess;
      this.configVersion := Some(2);
    }

    /** `getTagsToPush`: replaces a null list by an empty one and hands the
        list out; whether tags are pushed does not change. */
    method GetTagsToPush() returns (list: seq<TagToPush>)
      modifies this`tagsToPush
      ensures list == OrEmpty(old(tagsToPush)) && tagsToPush == Some(list)
      ensures IsPushTags(tagsToPush) == old(IsPushTags(tagsToPush))
    {
      if tagsToPush.None? {
        tagsToPush := Some([]);
      }
      list := tagsToPush.value;
    }

    /** `getBranchesToPush`, likewise. */
    method GetBranchesToPush() returns (list: seq<BranchToPush>)
      modifies this`branchesToPush
      ensures list == OrEmpty(old(branchesToPush)) && branchesToPush == Some(list)
      ensures IsPushBranches(branchesToPush) == old(IsPushBranches(branchesToPush))
    {
      if branchesToPush.None? {
        branchesToPush := Some([]);
      }
      list := branchesToPush.value;
    }

    /** `readResolve`: the version defaults to 0; a version below 1 with no
        stored tag list turns `pushMerge` on; nothing else changes. */
    method ReadResolve()
      modifies this
      ensures Config() == ReadResolved(old(Config()))
      ensures configVersion == Some(old(configVersion).GetOr(0))
      ensures pushMerge == (old(pushMerge) || (configVersion.value < 1 && old(tagsToPush).None?))
      ensures pushOnlyIfSuccess == old(pushOnlyIfSuccess)
      ensures tagsToPush == old(tagsToPush) && branchesToPush == old(branchesToPush)
    {
      if configVersion.None? {
        configVersion := Some(0);
      }
      if configVersion.value < 1 && tagsToPush.None? {
        pushMerge := true;
      }
    }

    /** `perform`: runs the publish steps against `build` and `repo`, with
        exactly the outcome, final build result and final repository that
        `Publish` describes, and every git client it opens closed again. */
    method Perform(build: Build, repo: GitRepo, expand: Expander, naming: Naming) returns (ok: bool)
      modifies build, repo
      ensures repo.openClients == old(repo.openClients)
      ensures Step(ok, World(build.result, repo.State()))
           == Publish(Config(), build.info, old(build.result), old(repo.State()), expand, naming, repo.throws)
    {
      var info := build.info;
      if info.isMatrixRun {
        return true;
      }
      var scm := info.scm;
      if !scm.GitScm? {
        return false;
      }
      var buildResult := build.result;
      if pushOnlyIfSuccess && buildResult.IsWorseThan(SUCCESS) {
        return true;
      }

      var environment := CaptureEnvironment(info);
      var ctx := Ctx(environment, expand, scm.remotes, repo.throws);
      ghost var w0 := World(buildResult, repo.State());

      var pushResult := true;
      if pushMerge {
        var mergeResult := PushMergeResult(build, repo, naming);
        if !mergeResult {
          pushResult := false;
        }
      }
      ghost var m := MergeStage(Config(), info, naming, repo.throws, w0);
      assert m == Step(pushResult, World(build.result, repo.State()));

      if IsPushTags(tagsToPush) {
        var allTagsResult := PushTags(build, repo, tagsToPush.value, ctx);
        if !allTagsResult {
          pushResult := false;
        }
      }
      ghost var t := TagStep(Config(), ctx, m.world);
      assert World(build.result, repo.State()) == t.world;
      assert pushResult == (m.ok && t.ok);
      assert Publish(Config(), info, w0.result, w0.git, expand, naming, repo.throws)
          == Outcome(m, t, BranchStep(Config(), ctx, t.world));

      if IsPushBranches(branchesToPush) {
        var stopped, allBranchesResult := PushBranches(build, repo, branchesToPush.value, ctx);
        if stopped {
          return false;
        }
        if !allBranchesResult {
          pushResult := false;
        }
      }
      return pushResult;
    }
  }
}
