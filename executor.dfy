/**
 * The build executor: the chain is consumed from its end, so the root
 * stage is built first; each stage starts from its pre-image tagged as
 * step 000, runs its instructions, and is tagged `<build_id>:<stage>`.
 * In a dry run only the pre-image inspection reaches the engine.
 */
module Executor {
  import opened Wrappers
  import opened Text
  import opened Stages
  import opened DockerEngine
  import opened Instructions

  /** The trace of `m'` continues that of `m`, within the same stage. */
  ghost predicate Continues(m: Machine, m': Machine)
  {
    && m'.stage == m.stage
    && m.calls <= m'.calls
  }

  /** The state after an action: `current_image` names the stage's latest step. */
  function Refresh(env: Env, m: Machine): (m': Machine)
    ensures m'.image == StepTag(env.buildId, m.stage, m.counter)
    ensures m' == m.(image := m'.image)
  {
    m.(image := StepTag(env.buildId, m.stage, m.counter))
  }

  /** One pass of the loop over a stage's actions: dispatch the line (except in a dry run), then refresh the image name. */
  function RunAction(env: Env, h: LineHandler, m: Machine, line: string): (s: Step)
    requires Handles(h, env)
    ensures Continues(m, s.m)
    ensures s.failure == None ==> s.m.image == StepTag(env.buildId, m.stage, s.m.counter)
  {
    var t := if env.dryRun then Step(m, None) else h(m, line);
    if t.failure.Some? then t else Step(Refresh(env, t.m), None)
  }

  lemma ContinuesTransitive(a: Machine, b: Machine, c: Machine)
    requires Continues(a, b) && Continues(b, c)
    ensures Continues(a, c)
  {
    assert c.calls[..|a.calls|] == c.calls[..|b.calls|][..|a.calls|];
  }

  /** The loop over a stage's actions, stopping at the first that fails. */
  function RunActions(env: Env, h: LineHandler, m: Machine, actions: seq<string>): (s: Step)
    requires Handles(h, env)
    ensures Continues(m, s.m)
    decreases |actions|
  {
    if actions == [] then Step(m, None)
    else
      var t := RunAction(env, h, m, actions[0]);
      if t.failure.Some? then t
      else
        var s := RunActions(env, h, t.m, actions[1..]);
        ContinuesTransitive(m, t.m, s.m);
        s
  }

  function TotalAdvance(actions: seq<string>): nat
    decreases |actions|
  {
    if actions == [] then 0 else LineAdvance(actions[0]) + TotalAdvance(actions[1..])
  }

  /**
   * When a stage's actions all succeed outside a dry run, the counter has
   * moved by the sum of their advances; while the image names the
   * stage's current step, it still does afterwards.
   */
  lemma {:induction false} ActionsAdvance(env: Env, h: LineHandler, m: Machine, actions: seq<string>)
    requires Handles(h, env)
    requires !env.dryRun
    ensures var s := RunActions(env, h, m, actions);
      s.failure == None ==>
        && s.m.counter == m.counter + TotalAdvance(actions)
        && (m.image == StepTag(env.buildId, m.stage, m.counter) ==> s.m.image == StepTag(env.buildId, m.stage, s.m.counter))
    decreases |actions|
  {
    if actions != [] {
      var t := RunAction(env, h, m, actions[0]);
      if t.failure == None {
        ActionsAdvance(env, h, t.m, actions[1..]);
      }
    }
  }

  /** In a dry run no action reaches the engine or the counter, and none fails. */
  lemma {:induction false} DryRunActions(env: Env, h: LineHandler, m: Machine, actions: seq<string>)
    requires Handles(h, env)
    requires env.dryRun
    ensures var s := RunActions(env, h, m, actions);
      && s.failure == None
      && s.m.calls == m.calls
      && s.m.counter == m.counter
      && (m.image == StepTag(env.buildId, m.stage, m.counter) ==> s.m.image == m.image)
    decreases |actions|
  {
    if actions != [] {
      DryRunActions(env, h, RunAction(env, h, m, actions[0]).m, actions[1..]);
    }
  }

  /**
   * One stage of `build`: make it current with the counter at 0, inspect
   * its pre-image (a failure is fatal only outside a dry run), tag the
   * pre-image as step 000, run the actions and tag the result under the
   * stage's name.
   */
  function RunStage(env: Env, h: LineHandler, decl: Declarations, m: Machine, e: ChainEntry): (s: Step)
    requires Handles(h, env)
    ensures m.calls <= s.m.calls
    ensures e.stage in decl ==> s.m.stage == e.stage
  {
    if e.stage !in decl then Step(m, Some(StageUndeclared(e.stage)))
    else
      var started := Machine(e.stage, StepTag(env.buildId, e.stage, 0), 0, m.calls + [Inspect(e.preImage)]);
      if e.preImage !in Known(env.present, m.calls) && !env.dryRun then
        Step(started, Some(PreImageUnavailable(e.preImage)))
      else
        var tagged := if env.dryRun then started
          else started.(calls := started.calls + [Tag(e.preImage, env.buildId, e.stage + "-" + Padded(0))]);
        var s := RunActions(env, h, tagged, decl[e.stage].actions);
        assert s.m.calls[..|m.calls|] == s.m.calls[..|tagged.calls|][..|m.calls|];
        if s.failure.Some? || env.dryRun then s
        else
          var calls := s.m.calls + [Tag(s.m.image, env.buildId, e.stage)];
          assert calls[..|m.calls|] == s.m.calls[..|m.calls|];
          if s.m.image !in Known(env.present, s.m.calls) then Step(s.m.(calls := calls), Some(ImageUnavailable(s.m.image)))
          else Step(s.m.(calls := calls), None)
  }

  /**
   * A stage built outside a dry run opens with the inspection of its
   * pre-image and the tag of that image as step 000, counts its steps
   * from 0, and closes by tagging the image of its last step under the
   * stage's own name.
   */
  lemma StageTrace(env: Env, h: LineHandler, decl: Declarations, m: Machine, e: ChainEntry)
    requires Handles(h, env)
    requires !env.dryRun
    requires RunStage(env, h, decl, m, e).failure == None
    ensures var s := RunStage(env, h, decl, m, e);
      && e.stage in decl
      && |s.m.calls| >= |m.calls| + 3
      && s.m.calls[|m.calls|] == Inspect(e.preImage)
      && s.m.calls[|m.calls| + 1] == Tag(e.preImage, env.buildId, e.stage + "-" + Padded(0))
      && s.m.counter == TotalAdvance(decl[e.stage].actions)
      && s.m.image == StepTag(env.buildId, e.stage, s.m.counter)
      && s.m.calls[|s.m.calls| - 1] == Tag(StepTag(env.buildId, e.stage, s.m.counter), env.buildId, e.stage)
      && s.m.image in Known(env.present, s.m.calls[..|s.m.calls| - 1])
  {
    var started := Machine(e.stage, StepTag(env.buildId, e.stage, 0), 0, m.calls + [Inspect(e.preImage)]);
    var tagged := started.(calls := started.calls + [Tag(e.preImage, env.buildId, e.stage + "-" + Padded(0))]);
    var s := RunActions(env, h, tagged, decl[e.stage].actions);
    ActionsAdvance(env, h, tagged, decl[e.stage].actions);
    assert s.m.calls[..|tagged.calls|] == tagged.calls;
    assert s.m.calls[|m.calls|] == tagged.calls[|m.calls|];
    assert s.m.calls[|m.calls| + 1] == tagged.calls[|m.calls| + 1];
    assert RunStage(env, h, decl, m, e).m.calls[..|s.m.calls|] == s.m.calls;
  }

  /** `build`'s loop: pop the last entry, build that stage, repeat until the chain is empty. */
  function RunChain(env: Env, h: LineHandler, decl: Declarations, m: Machine, chain: seq<ChainEntry>): (s: Step)
    requires Handles(h, env)
    ensures m.calls <= s.m.calls
    decreases |chain|
  {
    if chain == [] then Step(m, None)
    else
      var t := RunStage(env, h, decl, m, chain[|chain| - 1]);
      if t.failure.Some? then t
      else
        var s := RunChain(env, h, decl, t.m, chain[..|chain| - 1]);
        assert s.m.calls[..|m.calls|] == s.m.calls[..|t.m.calls|][..|m.calls|];
        s
  }

  /**
   * A dry run sends the engine nothing but inspections, one per stage,
   * and can only fail on an undeclared stage.
   */
  lemma {:induction false} DryRunOnlyInspects(env: Env, h: LineHandler, decl: Declarations, m: Machine, chain: seq<ChainEntry>)
    requires Handles(h, env)
    requires env.dryRun
    ensures var s := RunChain(env, h, decl, m, chain);
      && (forall k :: |m.calls| <= k < |s.m.calls| ==> s.m.calls[k].Inspect?)
      && (s.failure == None || s.failure.value.StageUndeclared?)
    decreases |chain|
  {
    if chain != [] {
      var e := chain[|chain| - 1];
      var t := RunStage(env, h, decl, m, e);
      if e.stage in decl {
        var started := Machine(e.stage, StepTag(env.buildId, e.stage, 0), 0, m.calls + [Inspect(e.preImage)]);
        DryRunActions(env, h, started, decl[e.stage].actions);
        assert t.m.calls == m.calls + [Inspect(e.preImage)];
      }
      if t.failure == None {
        DryRunOnlyInspects(env, h, decl, t.m, chain[..|chain| - 1]);
        var s := RunChain(env, h, decl, t.m, chain[..|chain| - 1]);
        forall k | |m.calls| <= k < |s.m.calls|
          ensures s.m.calls[k].Inspect?
        {
          if k < |t.m.calls| {
            assert s.m.calls[k] == s.m.calls[..|t.m.calls|][k];
          }
        }
      }
    }
  }

  /** Each entry but the last starts from the image this build tags for the next one. */
  ghost predicate Linked(buildId: string, chain: seq<ChainEntry>)
  {
    forall i :: 0 <= i < |chain| - 1 ==> chain[i].preImage == buildId + ":" + chain[i + 1].stage
  }

  /** The step failed for want of `ref`, which the engine did not know at the start. */
  ghost predicate MissedUnknown(s: Step, ref: string, present: set<string>, calls: seq<Call>)
  {
    s.failure == Some(PreImageUnavailable(ref)) && ref !in Known(present, calls)
  }

  /** A stage fails on its pre-image only when that image is unknown to the engine. */
  lemma StageMissingPreImage(env: Env, h: LineHandler, decl: Declarations, m: Machine, e: ChainEntry)
    requires Handles(h, env)
    ensures MissedPreImage(RunStage(env, h, decl, m, e)) ==> MissedUnknown(RunStage(env, h, decl, m, e), e.preImage, env.present, m.calls)
  {
    var s := RunStage(env, h, decl, m, e);
    if e.stage in decl && (e.preImage in Known(env.present, m.calls) || env.dryRun) {
      var started := Machine(e.stage, StepTag(env.buildId, e.stage, 0), 0, m.calls + [Inspect(e.preImage)]);
      var tagged := if env.dryRun then started
        else started.(calls := started.calls + [Tag(e.preImage, env.buildId, e.stage + "-" + Padded(0))]);
      ActionsFindImages(env, h, tagged, decl[e.stage].actions);
    }
  }

  /**
   * No instruction fails for want of a pre-image; and outside a dry run,
   * when the stage's current image exists, no instruction fails for want
   * of an image and the current image still exists after the last one.
   */
  lemma {:induction false} ActionsFindImages(env: Env, h: LineHandler, m: Machine, actions: seq<string>)
    requires Handles(h, env)
    ensures var s := RunActions(env, h, m, actions);
      && !MissedPreImage(s)
      && (!env.dryRun && m.image in Known(env.present, m.calls) ==>
            !MissedImage(s) && (s.failure == None ==> s.m.image in Known(env.present, s.m.calls)))
    decreases |actions|
  {
    if actions != [] {
      var t := RunAction(env, h, m, actions[0]);
      if t.failure == None {
        ActionsFindImages(env, h, t.m, actions[1..]);
      }
    }
  }

  /**
   * Outside a dry run, a stage never fails for want of an image: its
   * pre-image is tagged as step 000 only once it is known to exist, every
   * instruction leaves its step's image behind, and so the closing tag
   * names an existing image.
   */
  lemma StageFindsImages(env: Env, h: LineHandler, decl: Declarations, m: Machine, e: ChainEntry)
    requires Handles(h, env)
    requires !env.dryRun
    ensures !MissedImage(RunStage(env, h, decl, m, e))
  {
    if e.stage in decl && e.preImage in Known(env.present, m.calls) {
      var started := Machine(e.stage, StepTag(env.buildId, e.stage, 0), 0, m.calls + [Inspect(e.preImage)]);
      var tag := Tag(e.preImage, env.buildId, e.stage + "-" + Padded(0));
      var tagged := started.(calls := started.calls + [tag]);
      KnownAppend(env.present, m.calls, Inspect(e.preImage));
      KnownAppend(env.present, started.calls, tag);
      StepTagIsRepositoryAndTag(env.buildId, e.stage, 0);
      ActionsFindImages(env, h, tagged, decl[e.stage].actions);
    }
  }

  /** Outside a dry run, a build never fails for want of an image; it can only miss a pre-image. */
  lemma {:induction false} BuildFindsImages(env: Env, h: LineHandler, decl: Declarations, m: Machine, chain: seq<ChainEntry>)
    requires Handles(h, env)
    requires !env.dryRun
    ensures !MissedImage(RunChain(env, h, decl, m, chain))
    decreases |chain|
  {
    if chain != [] {
      var t := RunStage(env, h, decl, m, chain[|chain| - 1]);
      RunChainUnfold(env, h, decl, m, chain);
      StageFindsImages(env, h, decl, m, chain[|chain| - 1]);
      if t.failure == None {
        BuildFindsImages(env, h, decl, t.m, chain[..|chain| - 1]);
      }
    }
  }

  /**
   * While the names of the stage's steps still to come are free, no
   * instruction is refused its container's name.
   */
  lemma {:induction false} ActionsKeepNames(env: Env, h: LineHandler, m: Machine, actions: seq<string>)
    requires Handles(h, env)
    requires NamesAhead(env, m)
    ensures !ReusedName(RunActions(env, h, m, actions))
    decreases |actions|
  {
    if actions != [] {
      var t := RunAction(env, h, m, actions[0]);
      if t.failure == None {
        ActionsKeepNames(env, h, t.m, actions[1..]);
      }
    }
  }

  /** No container of `stage` has taken a name of the stage's steps yet. */
  ghost predicate StageUnnamed(env: Env, stage: string, calls: seq<Call>)
  {
    forall k: nat, x: string :: IsNameSuffix(x) ==> ContainerName(env.buildId, stage, Padded(k) + x) !in Containers(env.present, calls)
  }

  /** A stage with no step name taken has every name ahead free. */
  lemma UnnamedAhead(env: Env, m: Machine)
    requires StageUnnamed(env, m.stage, m.calls)
    ensures NamesAhead(env, m)
  {
    forall k: nat
      ensures ContainerName(env.buildId, m.stage, Padded(k)) !in Containers(env.present, m.calls)
      ensures ContainerName(env.buildId, m.stage, Padded(k) + "-create-target_dir") !in Containers(env.present, m.calls)
      ensures ContainerName(env.buildId, m.stage, Padded(k) + "-copy-data") !in Containers(env.present, m.calls)
    {
      assert Padded(k) + "" == Padded(k);
      assert IsNameSuffix("") && IsNameSuffix("-create-target_dir") && IsNameSuffix("-copy-data");
    }
  }

  /**
   * A stage none of whose step names is taken yet is never refused a
   * container name: no two of its containers share one.
   */
  lemma StageKeepsNames(env: Env, h: LineHandler, decl: Declarations, m: Machine, e: ChainEntry)
    requires Handles(h, env)
    requires StageUnnamed(env, e.stage, m.calls)
    ensures !ReusedName(RunStage(env, h, decl, m, e))
  {
    if e.stage in decl && (e.preImage in Known(env.present, m.calls) || env.dryRun) {
      var started := Machine(e.stage, StepTag(env.buildId, e.stage, 0), 0, m.calls + [Inspect(e.preImage)]);
      var tagged := if env.dryRun then started
        else started.(calls := started.calls + [Tag(e.preImage, env.buildId, e.stage + "-" + Padded(0))]);
      var more := tagged.calls[|m.calls|..];
      assert m.calls + more == tagged.calls;
      ContainersWithoutCreate(env.present, m.calls, more);
      UnnamedAhead(env, tagged);
      ActionsKeepNames(env, h, tagged, decl[e.stage].actions);
    }
  }

  /** A stage built outside a dry run makes `<build_id>:<stage>` known to the engine. */
  lemma StageTagsItself(env: Env, h: LineHandler, decl: Declarations, m: Machine, e: ChainEntry)
    requires Handles(h, env)
    requires !env.dryRun
    requires RunStage(env, h, decl, m, e).failure == None
    ensures env.buildId + ":" + e.stage in Known(env.present, RunStage(env, h, decl, m, e).m.calls)
  {
    var s := RunStage(env, h, decl, m, e);
    StageTrace(env, h, decl, m, e);
    var last := s.m.calls[|s.m.calls| - 1];
    assert s.m.calls == s.m.calls[..|s.m.calls| - 1] + [last];
    TagMakesKnown(env.present, s.m.calls[..|s.m.calls| - 1], last, []);
    assert s.m.calls[..|s.m.calls| - 1] + [last] + [] == s.m.calls;
  }

  /** `build`'s loop, one entry at a time. */
  lemma RunChainUnfold(env: Env, h: LineHandler, decl: Declarations, m: Machine, chain: seq<ChainEntry>)
    requires Handles(h, env)
    requires chain != []
    ensures var t := RunStage(env, h, decl, m, chain[|chain| - 1]);
      RunChain(env, h, decl, m, chain) == if t.failure.Some? then t else RunChain(env, h, decl, t.m, chain[..|chain| - 1])
  {
  }

  /**
   * Outside a dry run, the build never misses an image it made itself:
   * the pre-image of every stage but the first one built exists once the
   * stage before it has been tagged, so a missing pre-image can only be
   * that of the root entry.
   */
  lemma {:induction false} OwnPreImagesFound(env: Env, h: LineHandler, decl: Declarations, m: Machine, chain: seq<ChainEntry>)
    requires Handles(h, env)
    requires !env.dryRun
    requires Linked(env.buildId, chain)
    ensures MissedPreImage(RunChain(env, h, decl, m, chain)) ==>
      chain != [] && MissedUnknown(RunChain(env, h, decl, m, chain), chain[|chain| - 1].preImage, env.present, m.calls)
    decreases |chain|, 1
  {
    if chain != [] {
      if RunStage(env, h, decl, m, chain[|chain| - 1]).failure.Some? {
        RootMissesPreImage(env, h, decl, m, chain);
      } else {
        RestFindsPreImages(env, h, decl, m, chain);
      }
    }
  }

  /** When the root entry's stage fails, so does the build, and only on an unknown pre-image. */
  lemma RootMissesPreImage(env: Env, h: LineHandler, decl: Declarations, m: Machine, chain: seq<ChainEntry>)
    requires Handles(h, env)
    requires chain != []
    requires RunStage(env, h, decl, m, chain[|chain| - 1]).failure.Some?
    ensures MissedPreImage(RunChain(env, h, decl, m, chain)) ==>
      MissedUnknown(RunChain(env, h, decl, m, chain), chain[|chain| - 1].preImage, env.present, m.calls)
  {
    RunChainUnfold(env, h, decl, m, chain);
    StageMissingPreImage(env, h, decl, m, chain[|chain| - 1]);
  }

  /** Once the root entry is built, the build never misses a pre-image. */
  lemma {:induction false} RestFindsPreImages(env: Env, h: LineHandler, decl: Declarations, m: Machine, chain: seq<ChainEntry>)
    requires Handles(h, env)
    requires !env.dryRun
    requires chain != [] && Linked(env.buildId, chain)
    requires RunStage(env, h, decl, m, chain[|chain| - 1]).failure == None
    ensures !MissedPreImage(RunChain(env, h, decl, m, chain))
    decreases |chain|, 0
  {
    var n := |chain|;
    var t := RunStage(env, h, decl, m, chain[n - 1]);
    var rest := chain[..n - 1];
    RunChainUnfold(env, h, decl, m, chain);
    assert Linked(env.buildId, rest);
    OwnPreImagesFound(env, h, decl, t.m, rest);
    if rest != [] {
      NextPreImageKnown(env, h, decl, m, chain);
    }
  }

  /** Once the root entry is built, the entry after it finds its pre-image. */
  lemma NextPreImageKnown(env: Env, h: LineHandler, decl: Declarations, m: Machine, chain: seq<ChainEntry>)
    requires Handles(h, env)
    requires !env.dryRun
    requires |chain| >= 2 && Linked(env.buildId, chain)
    requires RunStage(env, h, decl, m, chain[|chain| - 1]).failure == None
    ensures chain[|chain| - 2].preImage in Known(env.present, RunStage(env, h, decl, m, chain[|chain| - 1]).m.calls)
  {
    StageTagsItself(env, h, decl, m, chain[|chain| - 1]);
  }

  /**
   * A successful build outside a dry run begins with the root entry (the
   * chain's last): its pre-image is inspected and tagged as step 000
   * before anything else.
   */
  lemma BuildStartsAtRoot(env: Env, h: LineHandler, decl: Declarations, m: Machine, chain: seq<ChainEntry>)
    requires Handles(h, env)
    requires !env.dryRun
    requires chain != []
    requires RunChain(env, h, decl, m, chain).failure == None
    ensures var s := RunChain(env, h, decl, m, chain);
      var root := chain[|chain| - 1];
      && |s.m.calls| >= |m.calls| + 2
      && s.m.calls[|m.calls|] == Inspect(root.preImage)
      && s.m.calls[|m.calls| + 1] == Tag(root.preImage, env.buildId, root.stage + "-" + Padded(0))
  {
    var n := |chain|;
    var root := chain[n - 1];
    var t := RunStage(env, h, decl, m, root);
    RunChainUnfold(env, h, decl, m, chain);
    StageTrace(env, h, decl, m, root);
    var s := RunChain(env, h, decl, t.m, chain[..n - 1]);
    assert s.m.calls[..|t.m.calls|] == t.m.calls;
    assert s.m.calls[|m.calls|] == t.m.calls[|m.calls|];
    assert s.m.calls[|m.calls| + 1] == t.m.calls[|m.calls| + 1];
  }

  /**
   * A successful build outside a dry run ends on the target (the chain's
   * first entry): the last call tags the image of the target's last step
   * as `<build_id>:<target>`.
   */
  lemma {:induction false} BuildEndsAtTarget(env: Env, h: LineHandler, decl: Declarations, m: Machine, chain: seq<ChainEntry>)
    requires Handles(h, env)
    requires !env.dryRun
    requires chain != []
    requires RunChain(env, h, decl, m, chain).failure == None
    ensures |RunChain(env, h, decl, m, chain).m.calls| > |m.calls|
    ensures EndsTagged(env.buildId, chain[0].stage, RunChain(env, h, decl, m, chain).m)
    decreases |chain|
  {
    var n := |chain|;
    var t := RunStage(env, h, decl, m, chain[n - 1]);
    var rest := chain[..n - 1];
    ChainStep(env, h, decl, m, chain);
    if n > 1 {
      BuildEndsAtTarget(env, h, decl, t.m, rest);
      assert rest[0] == chain[0];
    } else {
      StageEnd(env, h, decl, m, chain[0]);
      assert rest == [];
    }
  }

  /** A successful build's first stage succeeds and the rest continues from its state. */
  lemma ChainStep(env: Env, h: LineHandler, decl: Declarations, m: Machine, chain: seq<ChainEntry>)
    requires Handles(h, env)
    requires chain != []
    requires RunChain(env, h, decl, m, chain).failure == None
    ensures var t := RunStage(env, h, decl, m, chain[|chain| - 1]);
      && t.failure == None
      && |m.calls| <= |t.m.calls|
      && RunChain(env, h, decl, m, chain) == RunChain(env, h, decl, t.m, chain[..|chain| - 1])
  {
  }

  /**
   * The state is in `stage` and its last call tags the image of the
   * stage's latest step as `<build_id>:<stage>`.
   */
  ghost predicate EndsTagged(buildId: string, stage: string, m: Machine)
  {
    && m.calls != []
    && m.stage == stage
    && m.calls[|m.calls| - 1] == Tag(StepTag(buildId, stage, m.counter), buildId, stage)
  }

  /** A stage built outside a dry run closes by tagging its last step's image under its own name. */
  lemma StageEnd(env: Env, h: LineHandler, decl: Declarations, m: Machine, e: ChainEntry)
    requires Handles(h, env)
    requires !env.dryRun
    requires RunStage(env, h, decl, m, e).failure == None
    ensures |RunStage(env, h, decl, m, e).m.calls| > |m.calls|
    ensures EndsTagged(env.buildId, e.stage, RunStage(env, h, decl, m, e).m)
  {
    StageTrace(env, h, decl, m, e);
  }
}
