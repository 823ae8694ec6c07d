/**
 * Two stages, `base` (from a FROM image) and `app` (on top of `base`),
 * planned with and without a match build id, and `app` built on an
 * engine where every container exits with status 0.
 */
module Scenarios {
  import opened Wrappers
  import opened Text
  import opened Stages
  import opened DockerEngine
  import opened Resolver
  import opened Planner
  import opened Instructions
  import opened Executor

  /** `base` starts from `image`; `app` builds on `base`. */
  function TwoStages(image: string): Declarations
  {
    map["base" := StageDecl("", ["FROM " + image]), "app" := StageDecl("base", ["RUN apt-get update", "WORKDIR /srv"])]
  }

  /** `base` ranks below `app`: the prestage links have no cycle. */
  function TwoStagesRank(image: string): (rank: map<string, nat>)
    ensures Ranked(TwoStages(image), rank)
  {
    map["base" := 0, "app" := 1]
  }

  lemma FromLineParts(image: string)
    ensures ("FROM " + image)[..5] == "FROM " && ("FROM " + image)[5..] == image
  {
  }

  lemma WordHasNoBlank(image: string)
    requires IsWord(image)
    ensures ' ' !in image
  {
    forall k | 0 <= k < |image|
      ensures image[k] != ' '
    {
      assert !IsSpace(image[k]);
    }
  }

  /** A FROM line naming a single word names that word. */
  lemma FromWord(image: string)
    requires IsWord(image)
    ensures Strip("FROM " + image) == "FROM " + image && StartsWith("FROM " + image, "FROM ")
    ensures FromImage("FROM " + image) == image
  {
    FromLineParts(image);
    WordHasNoBlank(image);
    SplitWithoutSeparator(image, ' ');
    SplitHeadTail(image, ' ');
    StripUnchanged(image);
    var line := "FROM " + image;
    assert line[0] == 'F' && line[|line| - 1] == image[|image| - 1];
    StripUnchanged(line);
  }

  /** `base` ends the walk at its FROM image, whose line is popped. */
  lemma BaseIsRoot(image: string)
    requires IsWord(image)
    ensures "base" in TwoStages(image) && !HasPrestage(TwoStages(image)["base"])
    ensures RootEnd(TwoStages(image), "base") == Walked(Ok([ChainEntry("base", image)]), Some("base"))
  {
    var line := "FROM " + image;
    var decl := TwoStages(image);
    assert decl["base"] == StageDecl("", [line]);
    assert Strip(decl["base"].actions[0]) == line && StartsWith(line, "FROM ") && FromImage(line) == image by {
      FromWord(image);
    }
    RootEndAtFrom(decl, "base");
  }

  /**
   * Without a match build id, planning `app` builds both stages: `app`
   * starts from this build's `base`, `base` from the FROM image, and the
   * FROM line is popped from `base`'s actions.
   */
  lemma PlanWithoutMatchId(image: string, buildId: string, listed: seq<ImageInfo>)
    requires IsWord(image)
    ensures var w := Walk(PlanCtx(buildId, "", listed, None), TwoStages(image), "app", TwoStagesRank(image));
      && w.outcome == Ok([ChainEntry("app", buildId + ":" + "base"), ChainEntry("base", image)])
      && w.popped == Some("base")
      && PopFirstAction(TwoStages(image), w.popped)["base"].actions == []
  {
    var ctx := PlanCtx(buildId, "", listed, None);
    var decl := TwoStages(image);
    var rank := TwoStagesRank(image);
    var base := decl["base"];
    var app := ChainEntry("app", BuiltRef(buildId, "base"));
    var root := Walked(Ok([ChainEntry("base", image)]), Some("base"));
    assert [app] + [ChainEntry("base", image)] == [app, ChainEntry("base", image)];
    assert base.actions[1..] == [];
    BaseIsRoot(image);
    assert Walk(ctx, decl, "base", rank) == root;
    assert Resolve(ctx, "base") == None;
    WalkThroughPrestage(ctx, decl, "app", rank);
    assert PopFirstAction(decl, Some("base"))["base"] == base.(actions := []);
  }

  /**
   * With a match build id whose `base` image is listed, planning `app`
   * stops at once: `app` starts from that image and `base` is neither
   * built nor touched.
   */
  lemma PlanWithMatchId(image: string, buildId: string, matchId: string, id: string)
    requires matchId != ""
    ensures var listed := [ImageInfo(matchId, "base", id)];
      Walk(PlanCtx(buildId, matchId, listed, None), TwoStages(image), "app", TwoStagesRank(image)) ==
        Walked(Ok([ChainEntry("app", matchId + ":" + "base")]), None)
  {
    var listed := [ImageInfo(matchId, "base", id)];
    assert listed[1..] == [];
    assert FindImagesByStage(listed, "base") == [matchId + ":" + "base"];
  }

  /** `app`'s first line parses to a RUN. */
  lemma RunLineParses()
    ensures ParseLine("RUN apt-get update") == Ok(Run("apt-get update"))
  {
    assert "RUN" + " " + "apt-get update" == "RUN apt-get update";
    ParseVerbAndArgument("RUN", "apt-get update");
  }

  /** `app`'s second line parses to a WORKDIR. */
  lemma WorkdirLineParses()
    ensures ParseLine("WORKDIR /srv") == Ok(Workdir("/srv"))
  {
    assert "WORKDIR" + " " + "/srv" == "WORKDIR /srv";
    ParseVerbAndArgument("WORKDIR", "/srv");
  }

  /**
   * A RUN line then a WORKDIR line, on an existing current image, with
   * the names of the steps to come free and every container exiting with
   * status 0, both succeed: the counter moves by 2 and the current image,
   * now that of the last step, exists.
   */
  lemma RunThenWorkdir(env: Env, m: Machine, run: string, cmd: string, workdir: string, directory: string)
    requires !env.dryRun
    requires forall name :: env.exitCode(name) == 0
    requires m.image in Known(env.present, m.calls)
    requires NamesAhead(env, m)
    requires ParseLine(run) == Ok(Run(cmd)) && ParseLine(workdir) == Ok(Workdir(directory))
    ensures var s := RunActions(env, Dispatcher(env), m, [run, workdir]);
      && s.failure == None
      && s.m.counter == m.counter + 2
      && s.m.image == StepTag(env.buildId, m.stage, s.m.counter)
      && s.m.image in Known(env.present, s.m.calls)
  {
    var h := Dispatcher(env);
    RunLineSucceeds(env, m, run, cmd);
    var t1 := RunAction(env, h, m, run);
    WorkdirLineSucceeds(env, t1.m, workdir, directory);
    TwoActions(env, h, m, run, workdir);
  }

  /** Two lines run one after the other, the second only when the first succeeds. */
  lemma TwoActions(env: Env, h: LineHandler, m: Machine, first: string, second: string)
    requires Handles(h, env)
    ensures var t := RunAction(env, h, m, first);
      RunActions(env, h, m, [first, second]) == if t.failure.Some? then t else RunAction(env, h, t.m, second)
  {
    assert [first, second][1..] == [second] && [second][1..] == [];
    var t := RunAction(env, h, m, first);
    if t.failure == None {
      var u := RunAction(env, h, t.m, second);
      assert RunActions(env, h, t.m, [second]) == if u.failure.Some? then u else RunActions(env, h, u.m, []);
    }
  }

  /**
   * A RUN line on an existing image, with the names of the steps to come
   * free and a container that exits with status 0, leaves the next step's
   * image current and existing, and the names after it free.
   */
  lemma RunLineSucceeds(env: Env, m: Machine, run: string, cmd: string)
    requires !env.dryRun
    requires forall name :: env.exitCode(name) == 0
    requires m.image in Known(env.present, m.calls)
    requires NamesAhead(env, m)
    requires ParseLine(run) == Ok(Run(cmd))
    ensures var t := RunAction(env, Dispatcher(env), m, run);
      && t.failure == None
      && t.m.counter == m.counter + 1
      && t.m.image == StepTag(env.buildId, m.stage, t.m.counter)
      && t.m.image in Known(env.present, t.m.calls)
      && NamesAhead(env, t.m)
  {
    assert Dispatcher(env)(m, run) == RunStep(env, m, cmd);
    RunImages(env, m, cmd);
    RunNames(env, m, cmd);
  }

  /**
   * A WORKDIR line on an existing image, with the names of the steps to
   * come free, leaves the next step's image current and existing, and the
   * names after it free.
   */
  lemma WorkdirLineSucceeds(env: Env, m: Machine, workdir: string, directory: string)
    requires !env.dryRun
    requires m.image in Known(env.present, m.calls)
    requires NamesAhead(env, m)
    requires ParseLine(workdir) == Ok(Workdir(directory))
    ensures var t := RunAction(env, Dispatcher(env), m, workdir);
      && t.failure == None
      && t.m.counter == m.counter + 1
      && t.m.image == StepTag(env.buildId, m.stage, t.m.counter)
      && t.m.image in Known(env.present, t.m.calls)
      && NamesAhead(env, t.m)
  {
    assert Dispatcher(env)(m, workdir) == WorkdirStep(env, m, directory);
    WorkdirImages(env, m, directory);
    WorkdirNames(env, m, directory);
  }

  /**
   * A WORKDIR line then a RUN line, under the same conditions, both
   * succeed: the corrected WORKDIR leaves the RUN after it its container
   * name.
   */
  lemma WorkdirThenRun(env: Env, m: Machine, workdir: string, directory: string, run: string, cmd: string)
    requires !env.dryRun
    requires forall name :: env.exitCode(name) == 0
    requires m.image in Known(env.present, m.calls)
    requires NamesAhead(env, m)
    requires ParseLine(workdir) == Ok(Workdir(directory)) && ParseLine(run) == Ok(Run(cmd))
    ensures var s := RunActions(env, Dispatcher(env), m, [workdir, run]);
      && s.failure == None
      && s.m.counter == m.counter + 2
      && s.m.image == StepTag(env.buildId, m.stage, s.m.counter)
      && s.m.image in Known(env.present, s.m.calls)
  {
    var h := Dispatcher(env);
    WorkdirLineSucceeds(env, m, workdir, directory);
    var t1 := RunAction(env, h, m, workdir);
    RunLineSucceeds(env, t1.m, run, cmd);
    TwoActions(env, h, m, workdir, run);
  }

  /**
   * A stage whose lines are a RUN and a WORKDIR builds once its pre-image
   * exists and its containers exit with status 0: the counter reaches 2
   * and the stage closes by tagging its step 002 under its own name,
   * which then exists.
   */
  lemma RunWorkdirStageBuilds(env: Env, m: Machine, decl: Declarations, e: ChainEntry, run: string, cmd: string, workdir: string, directory: string)
    requires !env.dryRun
    requires forall name :: env.exitCode(name) == 0
    requires e.preImage in Known(env.present, m.calls)
    requires StageUnnamed(env, e.stage, m.calls)
    requires e.stage in decl && decl[e.stage].actions == [run, workdir]
    requires ParseLine(run) == Ok(Run(cmd)) && ParseLine(workdir) == Ok(Workdir(directory))
    ensures var s := RunStage(env, Dispatcher(env), decl, m, e);
      && s.failure == None
      && s.m.counter == 2
      && |s.m.calls| > |m.calls|
      && s.m.calls[|s.m.calls| - 1] == Tag(StepTag(env.buildId, e.stage, 2), env.buildId, e.stage)
      && env.buildId + ":" + e.stage in Known(env.present, s.m.calls)
  {
    var tag := Tag(e.preImage, env.buildId, e.stage + "-" + Padded(0));
    var tagged := Machine(e.stage, StepTag(env.buildId, e.stage, 0), 0, m.calls + [Inspect(e.preImage)] + [tag]);
    StageOpens(env, m, e);
    var h := Dispatcher(env);
    RunThenWorkdir(env, tagged, run, cmd, workdir, directory);
    var a := RunActions(env, h, tagged, [run, workdir]);
    assert RunStage(env, h, decl, m, e) == Step(a.m.(calls := a.m.calls + [Tag(a.m.image, env.buildId, e.stage)]), None);
    StageTagsItself(env, h, decl, m, e);
  }

  /**
   * A stage whose pre-image exists and none of whose step names is taken
   * opens on step 000 with that image existing and the names of all its
   * steps free.
   */
  lemma StageOpens(env: Env, m: Machine, e: ChainEntry)
    requires e.preImage in Known(env.present, m.calls)
    requires StageUnnamed(env, e.stage, m.calls)
    ensures var tag := Tag(e.preImage, env.buildId, e.stage + "-" + Padded(0));
      var tagged := Machine(e.stage, StepTag(env.buildId, e.stage, 0), 0, m.calls + [Inspect(e.preImage)] + [tag]);
      tagged.image in Known(env.present, tagged.calls) && NamesAhead(env, tagged)
  {
    var started := m.calls + [Inspect(e.preImage)];
    var tag := Tag(e.preImage, env.buildId, e.stage + "-" + Padded(0));
    var tagged := Machine(e.stage, StepTag(env.buildId, e.stage, 0), 0, started + [tag]);
    KnownAppend(env.present, m.calls, Inspect(e.preImage));
    KnownAppend(env.present, started, tag);
    StepTagIsRepositoryAndTag(env.buildId, e.stage, 0);
    ContainersWithoutCreate(env.present, m.calls, [Inspect(e.preImage), tag]);
    assert m.calls + [Inspect(e.preImage), tag] == tagged.calls;
    UnnamedAhead(env, tagged);
  }

  /**
   * Once this build's `base` exists, the stage `app` builds: its two
   * lines take the counter to 2 and the stage closes by tagging
   * `<build_id>:app-002` as `<build_id>:app`, which then exists.
   */
  lemma AppStageBuilds(image: string, env: Env, m: Machine)
    requires !env.dryRun
    requires forall name :: env.exitCode(name) == 0
    requires env.buildId + ":" + "base" in Known(env.present, m.calls)
    requires StageUnnamed(env, "app", m.calls)
    ensures var s := RunStage(env, Dispatcher(env), TwoStages(image), m, ChainEntry("app", env.buildId + ":" + "base"));
      && s.failure == None
      && s.m.counter == 2
      && |s.m.calls| > |m.calls|
      && s.m.calls[|s.m.calls| - 1] == Tag(StepTag(env.buildId, "app", 2), env.buildId, "app")
      && env.buildId + ":" + "app" in Known(env.present, s.m.calls)
  {
    RunLineParses();
    WorkdirLineParses();
    RunWorkdirStageBuilds(env, m, TwoStages(image), ChainEntry("app", env.buildId + ":" + "base"),
      "RUN apt-get update", "apt-get update", "WORKDIR /srv", "/srv");
  }

  /**
   * With WORKDIR as written, a stage running a RUN and then a WORKDIR
   * cannot close: after RUN has committed step 001, WORKDIR commits onto
   * that image without a tag, the stage loop renames the current image to
   * step 002, which nothing created, and the closing tag is refused.
   */
  lemma WorkdirAsWrittenCannotClose(env: Env, m: Machine, run: string, cmd: string, directory: string)
    requires forall name :: env.exitCode(name) == 0
    requires ParseLine(run) == Ok(Run(cmd))
    requires m.counter == 0 && m.image == StepTag(env.buildId, m.stage, 0)
    requires m.image in Known(env.present, m.calls)
    requires NamesAhead(env, m)
    requires StepTag(env.buildId, m.stage, 2) !in Known(env.present, m.calls)
    ensures var t := Dispatch(env, m, run);
      && t.failure == None
      && t.m.counter == 1
      && var w := WorkdirAsWritten(env, Refresh(env, t.m), directory);
      && w.failure == None
      && Refresh(env, w.m).image == StepTag(env.buildId, m.stage, 2)
      && !Accepted(Known(env.present, w.m.calls), Tag(Refresh(env, w.m).image, env.buildId, m.stage))
  {
    var r := RunStep(env, m, cmd);
    assert Dispatch(env, m, run) == r;
    assert r.failure == None && r.m.counter == 1;
    RunImages(env, m, cmd);
    RunNames(env, m, cmd);
    StepTagsDistinct(env.buildId, m.stage, 2, 1);
    RunKeepsOut(env, m, cmd, StepTag(env.buildId, m.stage, 2));
    WorkdirAsWrittenLosesStepImage(env, Refresh(env, r.m), directory);
  }

  /** With WORKDIR as written, `app`'s closing tag would be refused. */
  lemma AppWorkdirAsWrittenCannotClose(env: Env, m: Machine)
    requires forall name :: env.exitCode(name) == 0
    requires m.counter == 0 && m.image == StepTag(env.buildId, m.stage, 0)
    requires m.image in Known(env.present, m.calls)
    requires NamesAhead(env, m)
    requires StepTag(env.buildId, m.stage, 2) !in Known(env.present, m.calls)
    ensures var t := Dispatch(env, m, "RUN apt-get update");
      && t.failure == None
      && var w := WorkdirAsWritten(env, Refresh(env, t.m), "/srv");
      && w.failure == None
      && !Accepted(Known(env.present, w.m.calls), Tag(StepTag(env.buildId, m.stage, 2), env.buildId, m.stage))
  {
    RunLineParses();
    WorkdirAsWrittenCannotClose(env, m, "RUN apt-get update", "apt-get update", "/srv");
  }
}
