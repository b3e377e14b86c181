/**
 * Properties of one publish run, proved about `Publish` and its stages.
 * `GitPublisher.Perform` is proved equal to `Publish`, so each of these is a
 * property of `perform`.
 */
module PublisherProofs {
  import opened Wrappers
  import opened Strings
  import opened Jenkins
  import opened GitClient
  import opened Publisher

  // ---- Early exits and the empty configuration -------------------------

  /** A matrix configuration run returns true, a project without a Git SCM
      returns false, and a build worse than SUCCESS under
      `pushOnlyIfSuccess` returns true; none of them changes the build
      result or the repository. */
  lemma EarlyExitsChangeNothing(cfg: PublisherConfig, info: BuildInfo, r0: Result, g0: GitState,
                                expand: Expander, naming: Naming, throws: Oracle)
    ensures info.isMatrixRun ==>
      Publish(cfg, info, r0, g0, expand, naming, throws) == Step(true, World(r0, g0))
    ensures !info.isMatrixRun && info.scm.OtherScm? ==>
      Publish(cfg, info, r0, g0, expand, naming, throws) == Step(false, World(r0, g0))
    ensures !info.isMatrixRun && cfg.pushOnlyIfSuccess && r0.IsWorseThan(SUCCESS) ==>
      Publish(cfg, info, r0, g0, expand, naming, throws).world == World(r0, g0)
    ensures !info.isMatrixRun && info.scm.GitScm? && cfg.pushOnlyIfSuccess && r0.IsWorseThan(SUCCESS) ==>
      Publish(cfg, info, r0, g0, expand, naming, throws).ok
  {
  }

  /** Past the gate, with no merge push and both lists null or empty, a run
      returns true and changes nothing. */
  lemma NothingConfiguredIsNoOp(cfg: PublisherConfig, info: BuildInfo, r0: Result, g0: GitState,
                                expand: Expander, naming: Naming, throws: Oracle)
    requires info.scm.GitScm?
    requires !cfg.pushMerge && OrEmpty(cfg.tagsToPush) == [] && OrEmpty(cfg.branchesToPush) == []
    ensures Publish(cfg, info, r0, g0, expand, naming, throws) == Step(true, World(r0, g0))
  {
  }

  // ---- Merge stage -------------------------------------------------------

  /** When none of its git calls throws, the merge stage deletes the base
      tag and creates the base tag suffixed with the build result; it then
      pushes HEAD to the merge target exactly when a merge is configured and
      the result is at least SUCCESS, and otherwise pushes nothing. */
  lemma MergeStageTagsThenPushesOnSuccess(mo: MergeOptions, info: BuildInfo, r0: Result, naming: Naming,
                                          throws: Oracle, g: GitState)
    requires var base := MergeTagBase(naming, info.projectName, info.number);
      && !throws(MergeSite, OpenClient) && !throws(MergeSite, Op.DeleteTag(base))
      && !throws(MergeSite, CreateTag(MergeTagName(base, r0), naming.commentPrefix + IntToString(info.number)))
      && !throws(MergeSite, CloseClient)
    requires mo.doMerge && r0.IsBetterOrEqualTo(SUCCESS) ==>
      mo.mergeRemote.Some? && !throws(MergeSite, PushRef(mo.mergeRemote.value, "HEAD:" + mo.mergeTarget))
    ensures var base := MergeTagBase(naming, info.projectName, info.number);
      var tags := g.tags - {base} + {MergeTagName(base, r0)};
      MergeAct(mo, info, r0, naming, throws, g)
        == if mo.doMerge && r0.IsBetterOrEqualTo(SUCCESS)
           then Returned(true, GitState(tags, g.pushes + [PushRecord(mo.mergeRemote.value, "HEAD:" + mo.mergeTarget)]))
           else Returned(true, GitState(tags, g.pushes))
  {
  }

  /** When only the closing of its client throws, the merge callable has
      still retagged the commit and made its push, but it throws, so the
      merge stage fails and forces FAILURE. */
  lemma MergeCloseThrowFailsAfterWork(mo: MergeOptions, info: BuildInfo, r0: Result, naming: Naming,
                                      throws: Oracle, g: GitState)
    requires var base := MergeTagBase(naming, info.projectName, info.number);
      && !throws(MergeSite, OpenClient) && !throws(MergeSite, Op.DeleteTag(base))
      && !throws(MergeSite, CreateTag(MergeTagName(base, r0), naming.commentPrefix + IntToString(info.number)))
      && throws(MergeSite, CloseClient)
    requires mo.doMerge && r0.IsBetterOrEqualTo(SUCCESS) ==>
      mo.mergeRemote.Some? && !throws(MergeSite, PushRef(mo.mergeRemote.value, "HEAD:" + mo.mergeTarget))
    ensures var base := MergeTagBase(naming, info.projectName, info.number);
      var tags := g.tags - {base} + {MergeTagName(base, r0)};
      var pushes := if mo.doMerge && r0.IsBetterOrEqualTo(SUCCESS)
        then g.pushes + [PushRecord(mo.mergeRemote.value, "HEAD:" + mo.mergeTarget)]
        else g.pushes;
      Caught(MergeAct(mo, info, r0, naming, throws, g), r0) == Step(false, World(Worsened(r0, FAILURE), GitState(tags, pushes)))
  {
  }

  /** Whatever throws, the merge stage pushes at most once, only HEAD to
      the merge target on the merge remote, and only when a merge is
      configured and the result is at least SUCCESS. */
  lemma MergeStagePushesOnlyOnSuccess(mo: MergeOptions, info: BuildInfo, r0: Result, naming: Naming,
                                      throws: Oracle, g: GitState)
    ensures var after := MergeAct(mo, info, r0, naming, throws, g).git.pushes;
      || after == g.pushes
      || (&& mo.doMerge && r0.IsBetterOrEqualTo(SUCCESS) && mo.mergeRemote.Some?
          && after == g.pushes + [PushRecord(mo.mergeRemote.value, "HEAD:" + mo.mergeTarget)])
  {
  }

  /** A failed build still gets its result tag when a merge is configured,
      but nothing is pushed. */
  lemma FailedBuildIsTaggedNotPushed(mo: MergeOptions, info: BuildInfo, naming: Naming, throws: Oracle, g: GitState)
    requires var base := MergeTagBase(naming, info.projectName, info.number);
      && !throws(MergeSite, OpenClient) && !throws(MergeSite, Op.DeleteTag(base))
      && !throws(MergeSite, CreateTag(MergeTagName(base, FAILURE), naming.commentPrefix + IntToString(info.number)))
      && !throws(MergeSite, CloseClient)
    ensures var base := MergeTagBase(naming, info.projectName, info.number);
      MergeAct(mo, info, FAILURE, naming, throws, g)
        == Returned(true, GitState(g.tags - {base} + {base + "-FAILURE"}, g.pushes))
  {
    var base := MergeTagBase(naming, info.projectName, info.number);
    assert MergeTagName(base, FAILURE) == base + "-FAILURE";
  }

  /** The merge tag identifies the build: for one project and prefix,
      different build numbers give different base tags, and different
      results give different result tags. */
  lemma MergeTagNamesIdentifyBuild(naming: Naming, projectName: string, n1: int, n2: int, r1: Result, r2: Result)
    ensures MergeTagBase(naming, projectName, n1) == MergeTagBase(naming, projectName, n2) ==> n1 == n2
    ensures var base := MergeTagBase(naming, projectName, n1);
      MergeTagName(base, r1) == MergeTagName(base, r2) ==> r1 == r2
  {
    var head := naming.tagPrefix + "-" + projectName + "-";
    if MergeTagBase(naming, projectName, n1) == MergeTagBase(naming, projectName, n2) {
      assert IntToString(n1) == (head + IntToString(n1))[|head|..];
      assert IntToString(n2) == (head + IntToString(n2))[|head|..];
      IntToStringInjective(n1, n2);
    }
    var base := MergeTagBase(naming, projectName, n1) + "-";
    if MergeTagName(MergeTagBase(naming, projectName, n1), r1) == MergeTagName(MergeTagBase(naming, projectName, n1), r2) {
      assert r1.Name() == (base + r1.Name())[|base|..];
      assert r2.Name() == (base + r2.Name())[|base|..];
      NameIsInjective(r1, r2);
    }
  }

  // ---- Tag stage ---------------------------------------------------------

  /** The tag stage succeeds exactly when every entry does, each entry
      being attempted on the state the entries before it left. */
  lemma TagStageIsConjunction(ts: seq<TagToPush>, ctx: Ctx, w: World)
    ensures TagStage(ts, ctx, w).ok <==>
      forall k :: 0 <= k < |ts| ==> TagEntry(ts[k], k, ctx, TagStage(ts[..k], ctx, w).world).ok
  {
    if TagStage(ts, ctx, w).ok {
      TagStageOkHasEveryEntryOk(ts, ctx, w);
    } else {
      TagStageFailureHasFailedEntry(ts, ctx, w);
    }
  }

  lemma {:induction false} TagStageOkHasEveryEntryOk(ts: seq<TagToPush>, ctx: Ctx, w: World)
    requires TagStage(ts, ctx, w).ok
    ensures forall k :: 0 <= k < |ts| ==> TagEntry(ts[k], k, ctx, TagStage(ts[..k], ctx, w).world).ok
    decreases |ts|
  {
    if ts != [] {
      var n := |ts| - 1;
      TagStageOkHasEveryEntryOk(ts[..n], ctx, w);
      forall k | 0 <= k < |ts|
        ensures TagEntry(ts[k], k, ctx, TagStage(ts[..k], ctx, w).world).ok
      {
        if k < n {
          assert ts[..n][k] == ts[k] && ts[..n][..k] == ts[..k];
        }
      }
    }
  }

  lemma {:induction false} TagStageFailureHasFailedEntry(ts: seq<TagToPush>, ctx: Ctx, w: World)
    requires !TagStage(ts, ctx, w).ok
    ensures exists k :: 0 <= k < |ts| && !TagEntry(ts[k], k, ctx, TagStage(ts[..k], ctx, w).world).ok
    decreases |ts|
  {
    var n := |ts| - 1;
    if TagStage(ts[..n], ctx, w).ok {
      assert !TagEntry(ts[n], n, ctx, TagStage(ts[..n], ctx, w).world).ok;
    } else {
      TagStageFailureHasFailedEntry(ts[..n], ctx, w);
      var k :| 0 <= k < n && !TagEntry(ts[..n][k], k, ctx, TagStage(ts[..n][..k], ctx, w).world).ok;
      assert ts[..n][k] == ts[k] && ts[..n][..k] == ts[..k];
    }
  }

  /** An entry with a null tag name or target repository fails, changes
      nothing, and makes the stage fail; the entries after it are still
      attempted from the state before it. */
  lemma InvalidTagEntryFailsOnlyItself(ts: seq<TagToPush>, k: nat, ctx: Ctx, w: World)
    requires k < |ts| && !TagEntryValid(ts[k])
    ensures TagStage(ts[..k + 1], ctx, w).world == TagStage(ts[..k], ctx, w).world
    ensures !TagStage(ts, ctx, w).ok
  {
    assert ts[..k + 1][..k] == ts[..k];
    TagStageIsConjunction(ts, ctx, w);
  }

  /** The rules of one tag entry with both names present, none of whose git
      calls throws: an unknown repository fails it; creating a tag that
      exists, or pushing one that does not, fails it without a push;
      otherwise the tag is created when asked and then pushed to the
      resolved remote. */
  lemma TagEntryRules(t: TagToPush, i: nat, ctx: Ctx, w: World)
    requires TagEntryValid(t)
    requires var tagName := ctx.expand(ctx.env, t.tagName.value);
      var remote := ctx.expand(ctx.env, t.targetRepoName.value);
      && !ctx.throws(TagSite(i), OpenClient) && !ctx.throws(TagSite(i), Op.TagExists(tagName))
      && !ctx.throws(TagSite(i), CloseClient)
      && (t.createTag ==> !ctx.throws(TagSite(i), CreateTag(tagName, TagMessage(tagName))))
      && (remote in ctx.remotes ==> !ctx.throws(TagSite(i), PushRef(ctx.remotes[remote], tagName)))
    ensures var tagName := ctx.expand(ctx.env, t.tagName.value);
      var remote := ctx.expand(ctx.env, t.targetRepoName.value);
      TagEntry(t, i, ctx, w)
        == if remote !in ctx.remotes then Step(false, w)
           else if t.createTag && tagName in w.git.tags then Step(false, w)
           else if !t.createTag && tagName !in w.git.tags then Step(false, w)
           else Step(true, World(w.result, GitState(w.git.tags + {tagName},
                                                    w.git.pushes + [PushRecord(ctx.remotes[remote], tagName)])))
  {
    var tagName := ctx.expand(ctx.env, t.tagName.value);
    if !t.createTag && tagName in w.git.tags {
      assert w.git.tags + {tagName} == w.git.tags;
    }
  }

  /** A push the tag stage may make for entry `t`: its expanded tag name,
      to the remote its expanded repository name resolves to. */
  predicate PushedForTagEntry(p: PushRecord, t: TagToPush, ctx: Ctx) {
    && TagEntryValid(t)
    && var remote := ctx.expand(ctx.env, t.targetRepoName.value);
    && remote in ctx.remotes
    && p == PushRecord(ctx.remotes[remote], ctx.expand(ctx.env, t.tagName.value))
  }

  /** One tag entry pushes at most once, and only what it names. */
  lemma TagEntryPushesItsTag(t: TagToPush, i: nat, ctx: Ctx, w: World)
    ensures var after := TagEntry(t, i, ctx, w).world.git.pushes;
      || after == w.git.pushes
      || (&& |after| == |w.git.pushes| + 1 && after[..|w.git.pushes|] == w.git.pushes
          && PushedForTagEntry(after[|w.git.pushes|], t, ctx))
  {
    var after := TagEntry(t, i, ctx, w).world.git.pushes;
    if after != w.git.pushes {
      assert after[..|w.git.pushes|] == w.git.pushes;
    }
  }

  /** The tag stage only appends to the push log, at most one push per
      entry, and every push it appends is the tag of some entry. */
  lemma {:induction false} TagStagePushesComeFromEntries(ts: seq<TagToPush>, ctx: Ctx, w: World)
    ensures var after := TagStage(ts, ctx, w).world.git.pushes;
      && |w.git.pushes| <= |after| <= |w.git.pushes| + |ts|
      && after[..|w.git.pushes|] == w.git.pushes
      && forall j :: |w.git.pushes| <= j < |after| ==> exists k :: 0 <= k < |ts| && PushedForTagEntry(after[j], ts[k], ctx)
    decreases |ts|
  {
    if ts != [] {
      var n := |ts| - 1;
      var before := TagStage(ts[..n], ctx, w).world;
      TagStagePushesComeFromEntries(ts[..n], ctx, w);
      TagEntryPushesItsTag(ts[n], n, ctx, before);
      var mid := before.git.pushes;
      var after := TagStage(ts, ctx, w).world.git.pushes;
      assert after[..|mid|] == mid;
      assert after[..|w.git.pushes|] == mid[..|w.git.pushes|];
      forall j | |w.git.pushes| <= j < |after|
        ensures exists k :: 0 <= k < |ts| && PushedForTagEntry(after[j], ts[k], ctx)
      {
        if j < |mid| {
          assert after[j] == mid[j];
          var k :| 0 <= k < n && PushedForTagEntry(mid[j], ts[..n][k], ctx);
          assert ts[..n][k] == ts[k];
        } else {
          assert PushedForTagEntry(after[j], ts[n], ctx);
        }
      }
    }
  }

  /** The result a stage leaves is the one it started from, or that result
      forced to FAILURE. */
  predicate OnlyForcedToFailure(before: Result, after: Result) {
    after == before || after == Worsened(before, FAILURE)
  }

  lemma ForcingIsIdempotent(r: Result)
    ensures Worsened(Worsened(r, FAILURE), FAILURE) == Worsened(r, FAILURE)
  {
  }

  /** A tag stage leaves the build result as it was or forces it to
      FAILURE; it never improves it. */
  lemma {:induction false} TagStageOnlyForcesFailure(ts: seq<TagToPush>, ctx: Ctx, w: World)
    ensures OnlyForcedToFailure(w.result, TagStage(ts, ctx, w).world.result)
    decreases |ts|
  {
    if ts != [] {
      TagStageOnlyForcesFailure(ts[..|ts| - 1], ctx, w);
      ForcingIsIdempotent(w.result);
    }
  }

  /** Once the entries before `j` have forced FAILURE, the entries from
      `j` on keep it. */
  lemma {:induction false} TagStageKeepsFailure(ts: seq<TagToPush>, j: nat, ctx: Ctx, w: World)
    requires j <= |ts|
    requires var r := TagStage(ts[..j], ctx, w).world.result; Worsened(r, FAILURE) == r
    ensures TagStage(ts, ctx, w).world.result == TagStage(ts[..j], ctx, w).world.result
    decreases |ts| - j
  {
    if j < |ts| {
      assert ts[..j + 1][..j] == ts[..j];
      TagStageKeepsFailure(ts, j + 1, ctx, w);
    } else {
      assert ts[..j] == ts;
    }
  }

  /** A throw in tag entry `k` makes the stage fail and forces the build
      result to FAILURE, whatever the other entries do. */
  lemma TagEntryThrowForcesFailure(ts: seq<TagToPush>, k: nat, ctx: Ctx, w: World)
    requires k < |ts| && TagEntryValid(ts[k])
    requires var before := TagStage(ts[..k], ctx, w).world;
      TagAct(k, ctx.expand(ctx.env, ts[k].tagName.value), ctx.expand(ctx.env, ts[k].targetRepoName.value),
             ts[k].createTag, ctx, before.git).Threw?
    ensures !TagStage(ts, ctx, w).ok
    ensures TagStage(ts, ctx, w).world.result == Worsened(w.result, FAILURE)
  {
    TagStageIsConjunction(ts, ctx, w);
    TagStageOnlyForcesFailure(ts[..k], ctx, w);
    ForcingIsIdempotent(w.result);
    assert ts[..k + 1][..k] == ts[..k];
    TagStageKeepsFailure(ts, k + 1, ctx, w);
  }

  // ---- Branch stage ------------------------------------------------------

  /** An entry with a null branch name or repository stops the branch
      stage: it ends as the entries before it left it, and no later entry
      is attempted. */
  lemma InvalidBranchEntryStopsStage(bs: seq<BranchToPush>, k: nat, ctx: Ctx, w: World)
    requires k < |bs| && !BranchEntryValid(bs[k])
    requires BranchStage(bs[..k], ctx, w).Completed?
    ensures BranchStage(bs, ctx, w) == Aborted(BranchStage(bs[..k], ctx, w).world)
  {
    assert bs[..k + 1][..k] == bs[..k];
    BranchAbortIsFinal(bs, k + 1, ctx, w);
  }

  /** With every entry named, the branch stage runs to the end and succeeds
      exactly when every entry does. */
  lemma BranchStageIsConjunction(bs: seq<BranchToPush>, ctx: Ctx, w: World)
    requires forall k :: 0 <= k < |bs| ==> BranchEntryValid(bs[k])
    ensures BranchStage(bs, ctx, w).Completed?
    ensures BranchStage(bs, ctx, w).ok <==>
      forall k :: 0 <= k < |bs| ==> BranchEntry(bs[k], k, ctx, BranchStage(bs[..k], ctx, w).world).ok
  {
    BranchStageCompletes(bs, ctx, w);
    if BranchStage(bs, ctx, w).ok {
      BranchStageOkHasEveryEntryOk(bs, ctx, w);
    } else {
      BranchStageFailureHasFailedEntry(bs, ctx, w);
    }
  }

  lemma {:induction false} BranchStageCompletes(bs: seq<BranchToPush>, ctx: Ctx, w: World)
    requires forall k :: 0 <= k < |bs| ==> BranchEntryValid(bs[k])
    ensures BranchStage(bs, ctx, w).Completed?
    decreases |bs|
  {
    if bs != [] {
      var n := |bs| - 1;
      assert forall k :: 0 <= k < n ==> bs[..n][k] == bs[k];
      BranchStageCompletes(bs[..n], ctx, w);
      assert BranchEntryValid(bs[n]);
    }
  }

  lemma {:induction false} BranchStageOkHasEveryEntryOk(bs: seq<BranchToPush>, ctx: Ctx, w: World)
    requires forall k :: 0 <= k < |bs| ==> BranchEntryValid(bs[k])
    requires BranchStage(bs, ctx, w).Completed? && BranchStage(bs, ctx, w).ok
    ensures forall k :: 0 <= k < |bs| ==>
      BranchStage(bs[..k], ctx, w).Completed? && BranchEntry(bs[k], k, ctx, BranchStage(bs[..k], ctx, w).world).ok
    decreases |bs|
  {
    if bs != [] {
      var n := |bs| - 1;
      assert forall k :: 0 <= k < n ==> bs[..n][k] == bs[k];
      BranchStageOkHasEveryEntryOk(bs[..n], ctx, w);
      forall k | 0 <= k < |bs|
        ensures BranchStage(bs[..k], ctx, w).Completed? && BranchEntry(bs[k], k, ctx, BranchStage(bs[..k], ctx, w).world).ok
      {
        if k < n {
          assert bs[..n][k] == bs[k] && bs[..n][..k] == bs[..k];
        }
      }
    }
  }

  lemma {:induction false} BranchStageFailureHasFailedEntry(bs: seq<BranchToPush>, ctx: Ctx, w: World)
    requires forall k :: 0 <= k < |bs| ==> BranchEntryValid(bs[k])
    requires BranchStage(bs, ctx, w).Completed? && !BranchStage(bs, ctx, w).ok
    ensures exists k ::
      && 0 <= k < |bs| && BranchStage(bs[..k], ctx, w).Completed?
      && !BranchEntry(bs[k], k, ctx, BranchStage(bs[..k], ctx, w).world).ok
    decreases |bs|
  {
    var n := |bs| - 1;
    assert forall k :: 0 <= k < n ==> bs[..n][k] == bs[k];
    BranchStageCompletes(bs[..n], ctx, w);
    if BranchStage(bs[..n], ctx, w).ok {
      assert !BranchEntry(bs[n], n, ctx, BranchStage(bs[..n], ctx, w).world).ok;
    } else {
      BranchStageFailureHasFailedEntry(bs[..n], ctx, w);
      var k :| 0 <= k < n && BranchStage(bs[..n][..k], ctx, w).Completed?
        && !BranchEntry(bs[..n][k], k, ctx, BranchStage(bs[..n][..k], ctx, w).world).ok;
      assert bs[..n][k] == bs[k] && bs[..n][..k] == bs[..k];
    }
  }

  /** A named branch entry whose calls do not throw fails when its
      repository does not resolve, and otherwise pushes exactly
      `HEAD:<branch>` to the resolved remote. */
  lemma BranchEntryPushesHead(b: BranchToPush, i: nat, ctx: Ctx, w: World)
    requires BranchEntryValid(b)
    requires var remote := ctx.expand(ctx.env, b.targetRepoName.value);
      && !ctx.throws(BranchSite(i), OpenClient) && !ctx.throws(BranchSite(i), CloseClient)
      && (remote in ctx.remotes ==>
            !ctx.throws(BranchSite(i), PushRef(ctx.remotes[remote], "HEAD:" + ctx.expand(ctx.env, b.branchName.value))))
    ensures var remote := ctx.expand(ctx.env, b.targetRepoName.value);
      var refspec := "HEAD:" + ctx.expand(ctx.env, b.branchName.value);
      BranchEntry(b, i, ctx, w)
        == if remote !in ctx.remotes then Step(false, w)
           else Step(true, World(w.result, GitState(w.git.tags, w.git.pushes + [PushRecord(ctx.remotes[remote], refspec)])))
  {
  }

  /** A close that throws fails a branch entry and forces FAILURE even when
      the push before it went through; the push stays in the log. */
  lemma BranchCloseThrowKeepsPush(b: BranchToPush, i: nat, ctx: Ctx, w: World)
    requires BranchEntryValid(b)
    requires var remote := ctx.expand(ctx.env, b.targetRepoName.value);
      && !ctx.throws(BranchSite(i), OpenClient) && ctx.throws(BranchSite(i), CloseClient)
      && (remote in ctx.remotes ==>
            !ctx.throws(BranchSite(i), PushRef(ctx.remotes[remote], "HEAD:" + ctx.expand(ctx.env, b.branchName.value))))
    ensures var remote := ctx.expand(ctx.env, b.targetRepoName.value);
      var refspec := "HEAD:" + ctx.expand(ctx.env, b.branchName.value);
      BranchEntry(b, i, ctx, w)
        == Step(false, World(Worsened(w.result, FAILURE),
                             if remote !in ctx.remotes then w.git
                             else GitState(w.git.tags, w.git.pushes + [PushRecord(ctx.remotes[remote], refspec)])))
  {
  }

  /** The branch stage never creates or deletes a tag. */
  lemma {:induction false} BranchStageKeepsTags(bs: seq<BranchToPush>, ctx: Ctx, w: World)
    ensures BranchStage(bs, ctx, w).world.git.tags == w.git.tags
    decreases |bs|
  {
    if bs != [] {
      BranchStageKeepsTags(bs[..|bs| - 1], ctx, w);
    }
  }

  /** A branch stage leaves the build result as it was or forces it to
      FAILURE. */
  lemma {:induction false} BranchStageOnlyForcesFailure(bs: seq<BranchToPush>, ctx: Ctx, w: World)
    ensures OnlyForcedToFailure(w.result, BranchStage(bs, ctx, w).world.result)
    decreases |bs|
  {
    if bs != [] {
      BranchStageOnlyForcesFailure(bs[..|bs| - 1], ctx, w);
      ForcingIsIdempotent(w.result);
    }
  }

  /** Once the entries before `j` have forced FAILURE and failed, the
      stage keeps FAILURE and does not succeed. */
  lemma {:induction false} BranchStageKeepsFailure(bs: seq<BranchToPush>, j: nat, ctx: Ctx, w: World)
    requires j <= |bs|
    requires var r := BranchStage(bs[..j], ctx, w).world.result; Worsened(r, FAILURE) == r
    requires BranchStage(bs[..j], ctx, w).Completed? ==> !BranchStage(bs[..j], ctx, w).ok
    ensures BranchStage(bs, ctx, w).world.result == BranchStage(bs[..j], ctx, w).world.result
    ensures BranchStage(bs, ctx, w).Completed? ==> !BranchStage(bs, ctx, w).ok
    decreases |bs| - j
  {
    if j < |bs| {
      assert bs[..j + 1][..j] == bs[..j];
      BranchStageKeepsFailure(bs, j + 1, ctx, w);
    } else {
      assert bs[..j] == bs;
    }
  }

  /** A throw in branch entry `k` makes the stage fail and forces the build
      result to FAILURE, whatever the later entries do. */
  lemma BranchEntryThrowForcesFailure(bs: seq<BranchToPush>, k: nat, ctx: Ctx, w: World)
    requires k < |bs| && BranchEntryValid(bs[k])
    requires BranchStage(bs[..k], ctx, w).Completed?
    requires var before := BranchStage(bs[..k], ctx, w).world;
      BranchAct(k, ctx.expand(ctx.env, bs[k].branchName.value), ctx.expand(ctx.env, bs[k].targetRepoName.value),
                ctx, before.git).Threw?
    ensures BranchStage(bs, ctx, w).Completed? ==> !BranchStage(bs, ctx, w).ok
    ensures BranchStage(bs, ctx, w).world.result == Worsened(w.result, FAILURE)
  {
    BranchStageOnlyForcesFailure(bs[..k], ctx, w);
    ForcingIsIdempotent(w.result);
    assert bs[..k + 1][..k] == bs[..k];
    BranchStageKeepsFailure(bs, k + 1, ctx, w);
  }

  // ---- A whole run -------------------------------------------------------

  /** A run leaves the build result as it was or forces it to FAILURE; it
      never improves it. */
  lemma PublishOnlyForcesFailure(cfg: PublisherConfig, info: BuildInfo, r0: Result, g0: GitState,
                                 expand: Expander, naming: Naming, throws: Oracle)
    ensures OnlyForcedToFailure(r0, Publish(cfg, info, r0, g0, expand, naming, throws).world.result)
  {
    if PassesGate(cfg, info, r0) {
      var ctx := PublishCtx(info, expand, throws);
      var m := MergeStage(cfg, info, naming, throws, World(r0, g0));
      if IsPushTags(cfg.tagsToPush) {
        TagStageOnlyForcesFailure(cfg.tagsToPush.value, ctx, m.world);
      }
      var t := TagStep(cfg, ctx, m.world);
      if IsPushBranches(cfg.branchesToPush) {
        BranchStageOnlyForcesFailure(cfg.branchesToPush.value, ctx, t.world);
      }
      ForcingIsIdempotent(r0);
    }
  }

  /** A stage that failed fails the run, and a FAILURE a stage forced
      survives the stages after it. */
  lemma FailureSurvivesLaterStages(cfg: PublisherConfig, info: BuildInfo, r0: Result, g0: GitState,
                                   expand: Expander, naming: Naming, throws: Oracle)
    requires PassesGate(cfg, info, r0)
    ensures var ctx := PublishCtx(info, expand, throws);
      var m := MergeStage(cfg, info, naming, throws, World(r0, g0));
      var t := TagStep(cfg, ctx, m.world);
      var run := Publish(cfg, info, r0, g0, expand, naming, throws);
      && (!m.ok || !t.ok ==> !run.ok)
      && (m.world.result == Worsened(r0, FAILURE) || t.world.result == Worsened(r0, FAILURE) ==>
            run.world.result == Worsened(r0, FAILURE))
  {
    var ctx := PublishCtx(info, expand, throws);
    var m := MergeStage(cfg, info, naming, throws, World(r0, g0));
    if IsPushTags(cfg.tagsToPush) {
      TagStageOnlyForcesFailure(cfg.tagsToPush.value, ctx, m.world);
    }
    var t := TagStep(cfg, ctx, m.world);
    if IsPushBranches(cfg.branchesToPush) {
      BranchStageOnlyForcesFailure(cfg.branchesToPush.value, ctx, t.world);
    }
    ForcingIsIdempotent(r0);
  }

  /** A throw in the merge stage makes the run return false and forces the
      build result to FAILURE; the later stages still run. */
  lemma MergeThrowFailsRun(cfg: PublisherConfig, info: BuildInfo, r0: Result, g0: GitState,
                           expand: Expander, naming: Naming, throws: Oracle)
    requires PassesGate(cfg, info, r0) && cfg.pushMerge
    requires MergeAct(info.scm.mergeOptions, info, r0, naming, throws, g0).Threw?
    ensures !Publish(cfg, info, r0, g0, expand, naming, throws).ok
    ensures Publish(cfg, info, r0, g0, expand, naming, throws).world.result == Worsened(r0, FAILURE)
  {
    FailureSurvivesLaterStages(cfg, info, r0, g0, expand, naming, throws);
  }

  /** A throw in tag entry `k` makes the run return false and forces the
      build result to FAILURE. */
  lemma TagThrowFailsRun(cfg: PublisherConfig, info: BuildInfo, r0: Result, g0: GitState,
                         expand: Expander, naming: Naming, throws: Oracle, k: nat)
    requires PassesGate(cfg, info, r0) && IsPushTags(cfg.tagsToPush) && k < |cfg.tagsToPush.value|
    requires var ts := cfg.tagsToPush.value;
      var ctx := PublishCtx(info, expand, throws);
      var before := TagStage(ts[..k], ctx, MergeStage(cfg, info, naming, throws, World(r0, g0)).world).world;
      && TagEntryValid(ts[k])
      && TagAct(k, ctx.expand(ctx.env, ts[k].tagName.value), ctx.expand(ctx.env, ts[k].targetRepoName.value),
                ts[k].createTag, ctx, before.git).Threw?
    ensures !Publish(cfg, info, r0, g0, expand, naming, throws).ok
    ensures Publish(cfg, info, r0, g0, expand, naming, throws).world.result == Worsened(r0, FAILURE)
  {
    var ctx := PublishCtx(info, expand, throws);
    var m := MergeStage(cfg, info, naming, throws, World(r0, g0));
    TagEntryThrowForcesFailure(cfg.tagsToPush.value, k, ctx, m.world);
    ForcingIsIdempotent(r0);
    FailureSurvivesLaterStages(cfg, info, r0, g0, expand, naming, throws);
  }

  /** A throw in branch entry `k` makes the run return false and forces the
      build result to FAILURE. */
  lemma BranchThrowFailsRun(cfg: PublisherConfig, info: BuildInfo, r0: Result, g0: GitState,
                            expand: Expander, naming: Naming, throws: Oracle, k: nat)
    requires PassesGate(cfg, info, r0) && IsPushBranches(cfg.branchesToPush) && k < |cfg.branchesToPush.value|
    requires var bs := cfg.branchesToPush.value;
      var ctx := PublishCtx(info, expand, throws);
      var t := TagStep(cfg, ctx, MergeStage(cfg, info, naming, throws, World(r0, g0)).world);
      var before := BranchStage(bs[..k], ctx, t.world);
      && BranchEntryValid(bs[k]) && before.Completed?
      && BranchAct(k, ctx.expand(ctx.env, bs[k].branchName.value), ctx.expand(ctx.env, bs[k].targetRepoName.value),
                   ctx, before.world.git).Threw?
    ensures !Publish(cfg, info, r0, g0, expand, naming, throws).ok
    ensures Publish(cfg, info, r0, g0, expand, naming, throws).world.result == Worsened(r0, FAILURE)
  {
    var ctx := PublishCtx(info, expand, throws);
    var m := MergeStage(cfg, info, naming, throws, World(r0, g0));
    var t := TagStep(cfg, ctx, m.world);
    BranchEntryThrowForcesFailure(cfg.branchesToPush.value, k, ctx, t.world);
    FailureSurvivesLaterStages(cfg, info, r0, g0, expand, naming, throws);
    if IsPushTags(cfg.tagsToPush) {
      TagStageOnlyForcesFailure(cfg.tagsToPush.value, ctx, m.world);
    }
    ForcingIsIdempotent(r0);
  }

  /** A branch entry with a missing name makes the whole run return false,
      with the result and repository the stages before it left. */
  lemma InvalidBranchEntryFailsRun(cfg: PublisherConfig, info: BuildInfo, r0: Result, g0: GitState,
                                   expand: Expander, naming: Naming, throws: Oracle, k: nat)
    requires PassesGate(cfg, info, r0) && IsPushBranches(cfg.branchesToPush)
    requires var bs := cfg.branchesToPush.value;
      k < |bs| && !BranchEntryValid(bs[k])
    ensures var ctx := PublishCtx(info, expand, throws);
      var t := TagStep(cfg, ctx, MergeStage(cfg, info, naming, throws, World(r0, g0)).world);
      var before := BranchStage(cfg.branchesToPush.value[..k], ctx, t.world);
      Publish(cfg, info, r0, g0, expand, naming, throws) == Step(false, before.world)
  {
    var bs := cfg.branchesToPush.value;
    var ctx := PublishCtx(info, expand, throws);
    var t := TagStep(cfg, ctx, MergeStage(cfg, info, naming, throws, World(r0, g0)).world);
    if BranchStage(bs[..k], ctx, t.world).Completed? {
      InvalidBranchEntryStopsStage(bs, k, ctx, t.world);
    } else {
      BranchAbortIsFinal(bs, k, ctx, t.world);
    }
  }

  // ---- Matrix builds -----------------------------------------------------

  /** The repository after `perform` has run for each of `runs` in turn
      (each a build and the result it has). */
  function GitAfterRuns(cfg: PublisherConfig, runs: seq<(BuildInfo, Result)>, g: GitState,
                        expand: Expander, naming: Naming, throws: Oracle): GitState
    decreases |runs|
  {
    if runs == [] then g
    else GitAfterRuns(cfg, runs[1..], Publish(cfg, runs[0].0, runs[0].1, g, expand, naming, throws).world.git,
                      expand, naming, throws)
  }

  /** Any number of configuration runs of a matrix build, one after
      another, push nothing and tag nothing. */
  lemma {:induction false} MatrixRunsPublishNothing(cfg: PublisherConfig, runs: seq<(BuildInfo, Result)>, g: GitState,
                                                    expand: Expander, naming: Naming, throws: Oracle)
    requires forall i :: 0 <= i < |runs| ==> runs[i].0.isMatrixRun
    ensures GitAfterRuns(cfg, runs, g, expand, naming, throws) == g
    decreases |runs|
  {
    if runs != [] {
      assert runs[0].0.isMatrixRun;
      MatrixRunsPublishNothing(cfg, runs[1..], g, expand, naming, throws);
    }
  }

  // ---- Configuration migration -------------------------------------------

  /** After migration the version is set, and migrating again changes
      nothing. */
  lemma ReadResolvedIsIdempotent(c: PublisherConfig)
    ensures ReadResolved(c).configVersion.Some?
    ensures ReadResolved(ReadResolved(c)) == ReadResolved(c)
  {
  }

  /** Migration rules: a missing version reads as 0; a version below 1
      without a stored tag list turns on `pushMerge`; otherwise `pushMerge`
      is kept, and the other fields are kept always. */
  lemma ReadResolvedRules(c: PublisherConfig)
    ensures ReadResolved(c).configVersion == Some(c.configVersion.GetOr(0))
    ensures c.configVersion.GetOr(0) < 1 && c.tagsToPush.None? ==> ReadResolved(c).pushMerge
    ensures !(c.configVersion.GetOr(0) < 1 && c.tagsToPush.None?) ==> ReadResolved(c).pushMerge == c.pushMerge
    ensures ReadResolved(c).(configVersion := c.configVersion, pushMerge := c.pushMerge) == c
  {
  }
}
