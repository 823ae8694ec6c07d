/**
 * The builder object: its settings, the declarations it builds from, the
 * execution state of the running build and the engine it drives. Each
 * method changes the fields step by step as the builder does, and is
 * proved against the pure function that specifies it (the planner's
 * `Walk`, the executor's `RunStage`/`RunChain`, the handlers).
 */
module Redomat {
  import opened Wrappers
  import opened Text
  import opened Stages
  import opened DockerEngine
  import opened Resolver
  import opened Planner
  import opened Instructions
  import opened Executor

  class Redomat {
    /** The engine client every call goes to. */
    const engine: Engine
    /** Whether a path exists on the build host, for ADD's source file. */
    const sourceExists: string -> bool

    /** The declarations of the next build ("" keys absent until `add`). */
    var decl: Declarations
    /** The stage being built ("" before the first). */
    var currentStage: string
    /** The image the next instruction runs on ("" before the first stage). */
    var currentImage: string
    /** The step counter of the current stage. */
    var runSequence: nat
    /** Whether other users' images may stand in for a stage. */
    var includeForeigns: bool
    /** The id of the new build ("" until set or generated). */
    var buildId: string
    /** The build id whose images may stand in for stages ("" when unset). */
    var matchBuildId: string
    var dryRun: bool
    /** The stage declaration at which planning stops. */
    var entryStage: Option<StageDecl>
    /** The user name that goes into image-name patterns and generated build ids. */
    var username: string

    /** A builder on `engine`, acting as `username`, with nothing declared and every option off. */
    constructor (engine: Engine, username: string, sourceExists: string -> bool)
      ensures this.engine == engine && this.username == username && this.sourceExists == sourceExists
      ensures decl == map[] && currentStage == "" && currentImage == "" && runSequence == 0
      ensures !includeForeigns && buildId == "" && matchBuildId == "" && !dryRun && entryStage == None
    {
      this.engine := engine;
      this.username := username;
      this.sourceExists := sourceExists;
      decl := map[];
      currentStage := "";
      currentImage := "";
      runSequence := 0;
      includeForeigns := false;
      buildId := "";
      matchBuildId := "";
      dryRun := false;
      entryStage := None;
    }

    // ---- views of the object as the pure model sees it ---------------------

    /** The execution state: current stage, current image, counter and engine trace. */
    function State(): Machine
      reads this, engine
    {
      Machine(currentStage, currentImage, runSequence, engine.calls)
    }

    /** What a build reads and never changes. */
    function BuildEnv(): Env
      reads this, engine
    {
      Env(buildId, dryRun, engine.present, engine.exitCode, sourceExists)
    }

    /** What planning reads: the ids, the listing for the current name pattern, the entry stage. */
    function PlanContext(): PlanCtx
      reads this, engine
    {
      PlanCtx(buildId, matchBuildId, engine.listing(StagePattern(includeForeigns, username)), entryStage)
    }

    // ---- settings ------------------------------------------------------------

    method SetEntryStage(s: Option<StageDecl>)
      modifies this`entryStage
      ensures entryStage == s
    {
      entryStage := s;
    }

    /** `add(decl)`: the declarations of the next build. */
    method AddDeclarations(d: Declarations)
      modifies this`decl
      ensures decl == d
    {
      decl := d;
    }

    method SetDryRun(dry: bool)
      modifies this`dryRun
      ensures dryRun == dry
    {
      dryRun := dry;
    }

    method SetUser(user: string)
      modifies this`username
      ensures username == user
    {
      username := user;
    }

    method SetMatchBuildId(id: string)
      modifies this`matchBuildId
      ensures matchBuildId == id
    {
      matchBuildId := id;
    }

    method SetBuildId(id: string)
      modifies this`buildId
      ensures buildId == id
    {
      buildId := id;
    }

    /** Foreign images become candidates whatever the flag says. */
    method AllowForeignImages(flag: bool)
      modifies this`includeForeigns
      ensures includeForeigns
    {
      includeForeigns := true;
    }

    // ---- the sequence counter ------------------------------------------------

    method ResetSeq()
      modifies this`runSequence
      ensures runSequence == 0
    {
      runSequence := 0;
    }

    /** The counter as three or more decimal digits, exactly three below 1000, which read back as the counter. */
    function CurrentSeq(): (s: string)
      reads this
      ensures |s| >= 3 && (forall k :: 0 <= k < |s| ==> IsDigit(s[k]))
      ensures runSequence < 1000 ==> |s| == 3
      ensures ValueOf(s) == runSequence
    {
      PaddedRoundTrip(runSequence);
      PaddedDigits(runSequence);
      Padded(runSequence)
    }

    /** Advance the counter by one and return its new padded form. */
    method NextSeq() returns (s: string)
      modifies this`runSequence
      ensures runSequence == old(runSequence) + 1
      ensures s == CurrentSeq()
    {
      runSequence := runSequence + 1;
      s := CurrentSeq();
    }

    // ---- the instruction handlers ---------------------------------------------

    /**
     * `create_container` on the current image: the engine's refusal, as
     * `Refusal` states it, or none when the container now exists.
     */
    method CreateOnCurrent(name: string, command: Option<string>, workingDir: Option<string>, mountsFiles: bool) returns (refusal: Option<BuildError>)
      modifies engine
      ensures engine.calls == old(engine.calls) + [Create(currentImage, name, command, workingDir, mountsFiles)]
      ensures refusal == Refusal(BuildEnv(), old(State()), name)
    {
      var outcome := engine.CreateContainer(currentImage, name, command, workingDir, mountsFiles);
      if outcome == NoSuchImage {
        refusal := Some(ImageUnavailable(currentImage));
      } else if outcome == NameConflict {
        refusal := Some(NameInUse(name));
      } else {
        refusal := None;
      }
    }

    /** FROM is consumed by planning; reaching its handler fails. */
    method HandleFrom(image: string) returns (failure: Option<BuildError>)
      ensures Step(State(), failure) == FromStep(State())
    {
      failure := Some(FromReached);
    }

    method HandleRun(cmd: string) returns (failure: Option<BuildError>)
      modifies this`runSequence, engine
      ensures Step(State(), failure) == RunStep(BuildEnv(), old(State()), cmd)
    {
      var name := ContainerName(buildId, currentStage, CurrentSeq());
      var refusal := CreateOnCurrent(name, Some(cmd), None, false);
      if refusal.Some? {
        return refusal;
      }
      engine.StartContainer(name, true, false);
      var status := engine.WaitContainer(name);
      assert engine.calls == old(engine.calls) + [Create(currentImage, name, Some(cmd), None, false), Start(name, true, false), Wait(name)];
      if status != 0 {
        return Some(ExitNonZero(name));
      }
      var n := NextSeq();
      engine.CommitContainer(name, buildId, Some(currentStage + "-" + n));
      failure := None;
    }

    method HandleAdd(parameter: string) returns (failure: Option<BuildError>)
      modifies this`runSequence, engine
      ensures Step(State(), failure) == AddStep(BuildEnv(), old(State()), parameter)
    {
      var parts := Words(parameter);
      if |parts| != 2 {
        return Some(BadArguments(parameter));
      }
      var fileName := currentStage + "/" + parts[0];
      if !sourceExists(fileName) {
        return Some(NoSuchFile(fileName));
      }
      failure := AddFile(fileName, parts[1]);
    }

    /** ADD once its arguments are checked: the directory container, then the copy. */
    method AddFile(fileName: string, target: string) returns (failure: Option<BuildError>)
      modifies this`runSequence, engine
      ensures Step(State(), failure) == AddContainers(BuildEnv(), old(State()), fileName, target)
    {
      failure := MakeTargetDir(target);
      if failure.Some? {
        return;
      }
      failure := CopyData(fileName, target);
    }

    /** The container that creates the target's parent directory, named from the advanced counter. */
    method MakeTargetDir(target: string) returns (failure: Option<BuildError>)
      modifies this`runSequence, engine
      ensures Step(State(), failure) == MkdirStep(BuildEnv(), old(State()), target)
    {
      var n := NextSeq();
      var name := ContainerName(buildId, currentStage, n + "-create-target_dir");
      var refusal := CreateOnCurrent(name, Some("/bin/mkdir -pv " + Dirname(target)), None, false);
      if refusal.Some? {
        return refusal;
      }
      engine.StartContainer(name, false, false);
      var status := engine.WaitContainer(name);
      assert engine.calls == old(engine.calls) + [Create(currentImage, name, Some("/bin/mkdir -pv " + Dirname(target)), None, false), Start(name, false, false), Wait(name)];
      if status != 0 {
        return Some(MkdirFailed(name));
      }
      engine.CommitContainer(name, currentImage, None);
      failure := None;
    }

    /** The container that copies the file from the mounted stage directory, committed as its own step. */
    method CopyData(fileName: string, target: string) returns (failure: Option<BuildError>)
      modifies this`runSequence, engine
      ensures Step(State(), failure) == CopyStep(BuildEnv(), old(State()), fileName, target)
    {
      var n := NextSeq();
      var copy := ContainerName(buildId, currentStage, n + "-copy-data");
      var refusal := CreateOnCurrent(copy, Some("cp -rv /files/" + Basename(fileName) + " " + target), None, true);
      if refusal.Some? {
        return refusal;
      }
      engine.StartContainer(copy, false, true);
      var status := engine.WaitContainer(copy);
      assert engine.calls == old(engine.calls) + [Create(currentImage, copy, Some("cp -rv /files/" + Basename(fileName) + " " + target), None, true), Start(copy, false, true), Wait(copy)];
      if status != 0 {
        return Some(ExitNonZero(copy));
      }
      engine.CommitContainer(copy, buildId, Some(currentStage + "-" + n));
      failure := None;
    }

    method HandleWorkdir(directory: string) returns (failure: Option<BuildError>)
      modifies this`runSequence, engine
      ensures Step(State(), failure) == WorkdirStep(BuildEnv(), old(State()), directory)
    {
      var name := ContainerName(buildId, currentStage, CurrentSeq());
      var refusal := CreateOnCurrent(name, None, Some(directory), false);
      if refusal.Some? {
        return refusal;
      }
      var n := NextSeq();
      engine.CommitContainer(name, buildId, Some(currentStage + "-" + n));
      failure := None;
    }

    /** ENTRYPOINT on the builder's engine (see `Instructions.EntrypointAsWritten` for the handler as written). */
    method HandleEntrypoint(cmd: string) returns (failure: Option<BuildError>)
      modifies this`runSequence, engine
      ensures Step(State(), failure) == EntrypointStep(BuildEnv(), old(State()), cmd)
    {
      var name := ContainerName(buildId, currentStage, CurrentSeq());
      var refusal := CreateOnCurrent(name, Some(cmd), None, false);
      if refusal.Some? {
        return refusal;
      }
      var n := NextSeq();
      engine.CommitContainer(name, buildId, Some(currentStage + "-" + n));
      failure := None;
    }

    /** The handler call for one parsed instruction. */
    method ExecuteInstruction(i: Instruction) returns (failure: Option<BuildError>)
      modifies this`runSequence, engine
      ensures Step(State(), failure) == Execute(BuildEnv(), old(State()), i)
    {
      match i
      case From(image) => failure := HandleFrom(image);
      case Run(cmd) => failure := HandleRun(cmd);
      case Add(parameter) => failure := HandleAdd(parameter);
      case Workdir(directory) => failure := HandleWorkdir(directory);
      case Entrypoint(cmd) => failure := HandleEntrypoint(cmd);
    }

    /** `handle_dockerline(line)`: an unexposed verb fails before any handler runs. */
    method HandleDockerline(line: string) returns (failure: Option<BuildError>)
      modifies this`runSequence, engine
      ensures Step(State(), failure) == Dispatch(BuildEnv(), old(State()), line)
    {
      var parsed := ParseLine(line);
      match parsed
      case Err(e) => failure := Some(e);
      case Ok(i) => failure := ExecuteInstruction(i);
    }

    // ---- planning -------------------------------------------------------------

    /**
     * `generate_build_chain(target)`: the chain the planner walks, and the
     * declarations with the root stage's FROM line popped when the walk
     * reached a root stage.
     */
    method GenerateBuildChain(target: string, ghost rank: map<string, nat>) returns (r: Result<seq<ChainEntry>>)
      requires Ranked(decl, rank)
      modifies this`decl
      ensures r == Walk(old(PlanContext()), old(decl), target, rank).outcome
      ensures decl == PopFirstAction(old(decl), Walk(old(PlanContext()), old(decl), target, rank).popped)
    {
      ghost var ctx := PlanContext();
      ghost var decl0 := decl;
      var chain: seq<ChainEntry> := [];
      var sid := target;
      PrefixedNothing(Walk(ctx, decl0, target, rank));
      assert PopFirstAction(decl0, None) == decl0;
      while true
        invariant decl == decl0 && PlanContext() == ctx
        invariant Prefixed(chain, Walk(ctx, decl0, sid, rank)) == Walk(ctx, decl0, target, rank)
        decreases if sid in decl0 then rank[sid] + 1 else 0
      {
        if sid !in decl {
          assert Walk(ctx, decl0, target, rank) == Prefixed(chain, Walked(Err(StageUndeclared(sid)), None));
          return Err(StageUndeclared(sid));
        }
        var stage := decl[sid];
        if HasPrestage(stage) {
          var prestageImage := ResolveStageToImage(matchBuildId, engine.listing(StagePattern(includeForeigns, username)), stage.prestage);
          var entry := ChainEntry(sid, BuiltRef(buildId, stage.prestage));
          if prestageImage.Some? {
            assert Walk(ctx, decl0, target, rank) == Prefixed(chain, Walked(Ok([ChainEntry(sid, prestageImage.value)]), None)) by {
              assert prestageImage == Resolve(ctx, stage.prestage);
            }
            chain := chain + [ChainEntry(sid, prestageImage.value)];
            return Ok(chain);
          }
          ghost var before := chain;
          ghost var previous := sid;
          chain := chain + [entry];
          if entryStage == Some(stage) {
            assert Walk(ctx, decl0, target, rank) == Prefixed(before, Walked(Ok([entry]), None)) by {
              assert prestageImage == Resolve(ctx, stage.prestage);
            }
            return Ok(chain);
          }
          sid := stage.prestage;
          assert Prefixed(chain, Walk(ctx, decl0, sid, rank)) == Walk(ctx, decl0, target, rank) by {
            assert prestageImage == Resolve(ctx, stage.prestage);
            WalkThroughPrestage(ctx, decl0, previous, rank);
            PrefixedTwice(before, [entry], Walk(ctx, decl0, sid, rank));
          }
        } else {
          var last := PopFromLine(sid);
          assert Walk(ctx, decl0, target, rank) == Prefixed(chain, RootEnd(decl0, sid));
          match last
          case Ok(entries) => return Ok(chain + entries);
          case Err(e) => return Err(e);
        }
      }
    }

    /**
     * The end of planning at a stage without a prestage: its first
     * instruction is popped from the declarations and must be a FROM line.
     */
    method PopFromLine(sid: string) returns (r: Result<seq<ChainEntry>>)
      requires sid in decl && !HasPrestage(decl[sid])
      modifies this`decl
      ensures r == RootEnd(old(decl), sid).outcome
      ensures decl == PopFirstAction(old(decl), RootEnd(old(decl), sid).popped)
    {
      var stage := decl[sid];
      if stage.actions == [] {
        return Err(EmptyStage(sid));
      }
      var fromline := Strip(stage.actions[0]);
      decl := decl[sid := stage.(actions := stage.actions[1..])];
      if !StartsWith(fromline, "FROM ") {
        return Err(MissingFrom(sid));
      }
      r := Ok([ChainEntry(sid, FromImage(fromline))]);
    }

    // ---- building ---------------------------------------------------------------

    /**
     * One pass of `build`'s loop: make the entry's stage current, check
     * and tag its pre-image, run its actions (only refreshing the image
     * name in a dry run) and tag the result under the stage's name.
     */
    method BuildStage(e: ChainEntry) returns (failure: Option<BuildError>)
      modifies this`currentStage, this`currentImage, this`runSequence, engine
      ensures Step(State(), failure) == RunStage(BuildEnv(), Dispatcher(BuildEnv()), decl, old(State()), e)
    {
      if e.stage !in decl {
        return Some(StageUndeclared(e.stage));
      }
      var actions := decl[e.stage].actions;
      currentStage := e.stage;
      ResetSeq();
      currentImage := buildId + ":" + currentStage + "-" + CurrentSeq();
      var found := engine.InspectImage(e.preImage);
      if !found && !dryRun {
        return Some(PreImageUnavailable(e.preImage));
      }
      var tag := currentStage + "-" + CurrentSeq();
      if !dryRun {
        var tagged := engine.TagImage(e.preImage, buildId, tag);
        assert tagged by {
          KnownAppend(engine.present, old(engine.calls), Inspect(e.preImage));
        }
      }
      failure := RunActionLines(actions);
      if failure.Some? || dryRun {
        return;
      }
      var tagged := engine.TagImage(currentImage, buildId, currentStage);
      if !tagged {
        return Some(ImageUnavailable(currentImage));
      }
    }

    /**
     * The loop over a stage's instruction lines: each is handed to the
     * dispatcher (except in a dry run), then the current image is renamed
     * after the stage's latest step.
     */
    method RunActionLines(actions: seq<string>) returns (failure: Option<BuildError>)
      modifies this`currentImage, this`runSequence, engine
      ensures Step(State(), failure) == RunActions(BuildEnv(), Dispatcher(BuildEnv()), old(State()), actions)
    {
      ghost var env := BuildEnv();
      ghost var m0 := State();
      var i := 0;
      while i < |actions|
        invariant 0 <= i <= |actions|
        invariant BuildEnv() == env
        invariant RunActions(env, Dispatcher(env), m0, actions) == RunActions(env, Dispatcher(env), State(), actions[i..])
      {
        assert actions[i..][0] == actions[i] && actions[i..][1..] == actions[i + 1..];
        var f := RunActionLine(actions[i]);
        if f.Some? {
          return f;
        }
        i := i + 1;
      }
      assert actions[i..] == [];
      failure := None;
    }

    /** One line of that loop: dispatch it unless this is a dry run, then rename the current image. */
    method RunActionLine(line: string) returns (failure: Option<BuildError>)
      modifies this`currentImage, this`runSequence, engine
      ensures BuildEnv() == old(BuildEnv())
      ensures Step(State(), failure) == RunAction(BuildEnv(), Dispatcher(BuildEnv()), old(State()), line)
    {
      failure := None;
      if !dryRun {
        failure := HandleDockerline(line);
        if failure.Some? {
          return;
        }
      }
      currentImage := buildId + ":" + currentStage + "-" + CurrentSeq();
    }

    /**
     * `build(target)`: generate a build id from `stamp` and the user name
     * when none is set, plan the chain, then build its entries from the
     * last to the first.
     */
    method Build(target: string, stamp: string, ghost rank: map<string, nat>) returns (failure: Option<BuildError>)
      requires Ranked(decl, rank)
      modifies this`buildId, this`decl, this`currentStage, this`currentImage, this`runSequence, engine
      ensures buildId == if old(buildId) == "" then stamp + "-" + old(username) else old(buildId)
      ensures var w := Walk(old(PlanContext()).(buildId := buildId), old(decl), target, rank);
        && decl == PopFirstAction(old(decl), w.popped)
        && (w.outcome.Err? ==> failure == Some(w.outcome.error) && State() == old(State()))
        && (w.outcome.Ok? ==> Step(State(), failure) == RunChain(BuildEnv(), Dispatcher(BuildEnv()), decl, old(State()), w.outcome.value))
    {
      if buildId == "" {
        buildId := stamp + "-" + username;
      }
      var planned := GenerateBuildChain(target, rank);
      if planned.Err? {
        return Some(planned.error);
      }
      var chain := planned.value;
      ghost var env := BuildEnv();
      ghost var m0 := State();
      ghost var chain0 := chain;
      ghost var planDecl := decl;
      while chain != []
        invariant BuildEnv() == env && decl == planDecl
        invariant RunChain(env, Dispatcher(env), decl, m0, chain0) == RunChain(env, Dispatcher(env), decl, State(), chain)
        decreases |chain|
      {
        var e := chain[|chain| - 1];
        RunChainUnfold(env, Dispatcher(env), decl, State(), chain);
        chain := chain[..|chain| - 1];
        var f := BuildStage(e);
        if f.Some? {
          return f;
        }
      }
      failure := None;
    }
  }
}
