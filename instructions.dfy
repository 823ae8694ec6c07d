/**
 * The instruction interpreter: splitting an instruction line into a verb
 * and its argument, and what each of the five handlers asks of the engine.
 * A handler sees the build's execution state (current stage, current
 * image, sequence counter, engine trace) and yields the next one, or the
 * state at the point it raised.
 */
module Instructions {
  import opened Wrappers
  import opened Text
  import opened Stages
  import opened DockerEngine

  /** What the build reads but never changes: its id, the dry-run flag and the oracles. */
  datatype Env = Env(
    buildId: string,
    dryRun: bool,
    present: set<string>,          // image references existing before the build
    exitCode: string -> int,       // exit status per container name
    sourceExists: string -> bool)  // `os.path.exists` on the ADD source path

  /** The execution state: `current_stage`, `current_image`, `run_sequence` and the engine trace. */
  datatype Machine = Machine(stage: string, image: string, counter: nat, calls: seq<Call>)

  /** The state after a step, with the exception it raised, if any. */
  datatype Step = Step(m: Machine, failure: Option<BuildError>)

  /** An instruction line after dispatch: its verb and the stripped remainder. */
  datatype Instruction = From(arg: string) | Run(arg: string) | Add(arg: string) | Workdir(arg: string) | Entrypoint(arg: string)

  /** The verbs the builder exposes. */
  const ExposedCommands: set<string> := {"FROM", "RUN", "ADD", "WORKDIR", "ENTRYPOINT"}

  function Verb(i: Instruction): string
  {
    match i
    case From(_) => "FROM"
    case Run(_) => "RUN"
    case Add(_) => "ADD"
    case Workdir(_) => "WORKDIR"
    case Entrypoint(_) => "ENTRYPOINT"
  }

  /** `<build_id>-<stage>-<suffix>`, the name of a container. */
  function ContainerName(buildId: string, stage: string, suffix: string): string
  {
    buildId + "-" + stage + "-" + suffix
  }

  /** `<build_id>:<stage>-<seq>`, the image of a stage after step `n`. */
  function StepTag(buildId: string, stage: string, n: nat): string
  {
    buildId + ":" + stage + "-" + Padded(n)
  }

  /** Two steps of one stage never share an image name. */
  lemma StepTagInjective(buildId: string, stage: string, i: nat, j: nat)
    requires StepTag(buildId, stage, i) == StepTag(buildId, stage, j)
    ensures i == j
  {
    var prefix := buildId + ":" + stage + "-";
    CancelPrefix(prefix, Padded(i), Padded(j));
    PaddedInjective(i, j);
  }

  /** Distinct steps of one stage have distinct images. */
  lemma StepTagsDistinct(buildId: string, stage: string, i: nat, j: nat)
    requires i != j
    ensures StepTag(buildId, stage, i) != StepTag(buildId, stage, j)
  {
    if StepTag(buildId, stage, i) == StepTag(buildId, stage, j) {
      StepTagInjective(buildId, stage, i, j);
    }
  }

  /** A step's image is the build id and the tag `<stage>-<seq>`. */
  lemma StepTagIsRepositoryAndTag(buildId: string, stage: string, n: nat)
    ensures buildId + ":" + (stage + "-" + Padded(n)) == StepTag(buildId, stage, n)
  {
    ConcatAssociates(buildId + ":", stage + "-", Padded(n));
    ConcatAssociates(buildId + ":", stage, "-");
  }

  /** A commit under the build id, tagged `<stage>-<seq>`, creates exactly the image of that step. */
  lemma StepCommitCreates(name: string, buildId: string, stage: string, n: nat)
    ensures Created(Commit(name, buildId, Some(stage + "-" + Padded(n)))) == {StepTag(buildId, stage, n)}
  {
    StepTagIsRepositoryAndTag(buildId, stage, n);
  }

  /** The instruction an exposed verb makes of its argument. */
  function InstructionOf(verb: string, arg: string): (i: Instruction)
    requires verb in ExposedCommands
    ensures Verb(i) == verb && i.arg == arg
  {
    if verb == "FROM" then From(arg)
    else if verb == "RUN" then Run(arg)
    else if verb == "ADD" then Add(arg)
    else if verb == "WORKDIR" then Workdir(arg)
    else Entrypoint(arg)
  }

  /**
   * `handle_dockerline` before the call: the text before the first space
   * is the verb, which must be exposed; the stripped text after it is the
   * argument.
   */
  function ParseLine(line: string): (r: Result<Instruction>)
    ensures r.Err? <==> BeforeFirst(line, ' ') !in ExposedCommands
    ensures r.Err? ==> r.error == UnsupportedCommand(BeforeFirst(line, ' '))
    ensures r.Ok? ==> Verb(r.value) == BeforeFirst(line, ' ') && r.value.arg == Strip(AfterFirst(line, ' '))
  {
    var verb := BeforeFirst(line, ' ');
    if verb !in ExposedCommands then Err(UnsupportedCommand(verb))
    else Ok(InstructionOf(verb, Strip(AfterFirst(line, ' '))))
  }

  /**
   * A line made of an exposed verb, one space and an argument without
   * surrounding whitespace parses to that verb's instruction on that
   * argument.
   */
  lemma ParseVerbAndArgument(verb: string, arg: string)
    requires verb in ExposedCommands
    requires arg == [] || (!IsSpace(arg[0]) && !IsSpace(arg[|arg| - 1]))
    ensures ParseLine(verb + " " + arg) == Ok(InstructionOf(verb, arg))
  {
    assert ' ' !in verb;
    FirstSeparator(verb, ' ', arg);
    StripUnchanged(arg);
  }

  /**
   * The source splits the line on single spaces, takes the first piece as
   * the verb and joins the rest back with single spaces before stripping:
   * that is the same verb and the same argument.
   */
  lemma ParseLineSplits(line: string)
    ensures var words := SplitOn(line, ' ');
      && (ParseLine(line).Err? <==> words[0] !in ExposedCommands)
      && (ParseLine(line).Ok? ==>
            Verb(ParseLine(line).value) == words[0] && ParseLine(line).value.arg == Strip(Join(words[1..], " ")))
  {
    SplitHeadTail(line, ' ');
  }

  /** The state only grew by calls appended to the trace. */
  ghost predicate Extends(m: Machine, m': Machine)
  {
    && m'.stage == m.stage
    && m'.image == m.image
    && m.calls <= m'.calls
  }

  /** A handler's step: the trace only grew, and the counter moved by `k` if the step succeeded. */
  ghost predicate Advanced(m: Machine, s: Step, k: nat)
  {
    Extends(m, s.m) && (s.failure == None ==> s.m.counter == m.counter + k)
  }

  lemma ExtendsTransitive(a: Machine, b: Machine, c: Machine)
    requires Extends(a, b) && Extends(b, c)
    ensures Extends(a, c)
  {
    assert c.calls[..|a.calls|] == c.calls[..|b.calls|][..|a.calls|];
  }

  /** The FROM handler is never meant to run: it fails its assertion. */
  function FromStep(m: Machine): (s: Step)
    ensures s.m == m && s.failure == Some(FromReached)
  {
    Step(m, Some(FromReached))
  }

  /**
   * What the engine refuses a container on the current image under
   * `name` for: an image that does not exist, and otherwise a name a
   * container already has.
   */
  function Refusal(env: Env, m: Machine, name: string): (e: Option<BuildError>)
    ensures e == None <==> m.image in Known(env.present, m.calls) && name !in Containers(env.present, m.calls)
    ensures e == Some(ImageUnavailable(m.image)) <==> m.image !in Known(env.present, m.calls)
    ensures e.Some? ==> e == Some(ImageUnavailable(m.image)) || e == Some(NameInUse(name))
  {
    if m.image !in Known(env.present, m.calls) then Some(ImageUnavailable(m.image))
    else if name in Containers(env.present, m.calls) then Some(NameInUse(name))
    else None
  }

  /**
   * RUN: a privileged container runs the command on the current image
   * (the engine refuses it as `Refusal` says); a non-zero
   * exit fails the step, otherwise the container is committed as
   * `<stage>-<seq+1>` under the build id.
   */
  function RunStep(env: Env, m: Machine, cmd: string): (s: Step)
    ensures Advanced(m, s, 1)
  {
    var name := ContainerName(env.buildId, m.stage, Padded(m.counter));
    var create := Create(m.image, name, Some(cmd), None, false);
    var refusal := Refusal(env, m, name);
    if refusal.Some? then Step(m.(calls := m.calls + [create]), refusal)
    else
      var calls := m.calls + [create, Start(name, true, false), Wait(name)];
      if env.exitCode(name) != 0 then Step(m.(calls := calls), Some(ExitNonZero(name)))
      else
        var n := m.counter + 1;
        Step(m.(counter := n, calls := calls + [Commit(name, env.buildId, Some(m.stage + "-" + Padded(n)))]), None)
  }

  /**
   * RUN asks for its container on the current image and stops there when
   * the engine refuses it; otherwise it starts and waits on it, fails
   * exactly when it exits non-zero (leaving the counter alone), and
   * commits it under the next step's tag, which is the stage's next step
   * image.
   */
  lemma RunStepEffects(env: Env, m: Machine, cmd: string)
    ensures var s := RunStep(env, m, cmd);
      var name := ContainerName(env.buildId, m.stage, Padded(m.counter));
      && |s.m.calls| > |m.calls|
      && s.m.calls[|m.calls|] == Create(m.image, name, Some(cmd), None, false)
      && (Refusal(env, m, name).Some? ==>
            s.failure == Refusal(env, m, name) && s.m.calls == m.calls + [s.m.calls[|m.calls|]] && s.m.counter == m.counter)
      && (Refusal(env, m, name) == None ==>
            && |s.m.calls| >= |m.calls| + 3
            && s.m.calls[|m.calls| + 1] == Start(name, true, false)
            && s.m.calls[|m.calls| + 2] == Wait(name)
            && (s.failure == None <==> env.exitCode(name) == 0)
            && (s.failure != None ==> s.failure == Some(ExitNonZero(name)) && s.m.counter == m.counter))
      && (s.failure == None ==>
            var commit := s.m.calls[|s.m.calls| - 1];
            && commit == Commit(name, env.buildId, Some(m.stage + "-" + Padded(m.counter + 1)))
            && commit.repository + ":" + commit.commitTag.value == StepTag(env.buildId, m.stage, s.m.counter))
  {
  }

  /**
   * ADD `<file> <target>`: the file is looked up under the stage's
   * directory before any container is made.
   */
  function AddStep(env: Env, m: Machine, parameter: string): (s: Step)
    ensures Advanced(m, s, 2)
  {
    var parts := Words(parameter);
    if |parts| != 2 then Step(m, Some(BadArguments(parameter)))
    else
      var fileName := m.stage + "/" + parts[0];
      if !env.sourceExists(fileName) then Step(m, Some(NoSuchFile(fileName)))
      else AddContainers(env, m, fileName, parts[1])
  }

  /**
   * ADD's two containers, one after the other: the copy is made only when
   * the directory container exits with status 0.
   */
  function AddContainers(env: Env, m: Machine, fileName: string, target: string): (s: Step)
    ensures Advanced(m, s, 2)
  {
    var t := MkdirStep(env, m, target);
    if t.failure.Some? then t else CopyStep(env, t.m, fileName, target)
  }

  /** ADD's first container creates the target's parent directory and is committed onto the current image. */
  function MkdirStep(env: Env, m: Machine, target: string): (s: Step)
    ensures Advanced(m, s, 1) && s.m.counter == m.counter + 1
  {
    var n := m.counter + 1;
    var name := ContainerName(env.buildId, m.stage, Padded(n) + "-create-target_dir");
    var create := Create(m.image, name, Some("/bin/mkdir -pv " + Dirname(target)), None, false);
    var refusal := Refusal(env, m, name);
    if refusal.Some? then Step(m.(counter := n, calls := m.calls + [create]), refusal)
    else
      var calls := m.calls + [create, Start(name, false, false), Wait(name)];
      if env.exitCode(name) != 0 then Step(m.(counter := n, calls := calls), Some(MkdirFailed(name)))
      else Step(m.(counter := n, calls := calls + [Commit(name, m.image, None)]), None)
  }

  /**
   * ADD's second container copies the file from the mounted stage
   * directory; it is committed as the step `<stage>-<seq>` it was named
   * after, under the build id.
   */
  function CopyStep(env: Env, m: Machine, fileName: string, target: string): (s: Step)
    ensures Advanced(m, s, 1) && s.m.counter == m.counter + 1
  {
    var n := m.counter + 1;
    var name := ContainerName(env.buildId, m.stage, Padded(n) + "-copy-data");
    var create := Create(m.image, name, Some("cp -rv /files/" + Basename(fileName) + " " + target), None, true);
    var refusal := Refusal(env, m, name);
    if refusal.Some? then Step(m.(counter := n, calls := m.calls + [create]), refusal)
    else
      var calls := m.calls + [create, Start(name, false, true), Wait(name)];
      if env.exitCode(name) != 0 then Step(m.(counter := n, calls := calls), Some(ExitNonZero(name)))
      else Step(m.(counter := n, calls := calls + [Commit(name, env.buildId, Some(m.stage + "-" + Padded(n)))]), None)
  }

  /** ADD's second container as written: committed onto the current image, without a tag. */
  function CopyAsWritten(env: Env, m: Machine, fileName: string, target: string): (s: Step)
    ensures Advanced(m, s, 1) && s.m.counter == m.counter + 1
  {
    var n := m.counter + 1;
    var name := ContainerName(env.buildId, m.stage, Padded(n) + "-copy-data");
    var create := Create(m.image, name, Some("cp -rv /files/" + Basename(fileName) + " " + target), None, true);
    var refusal := Refusal(env, m, name);
    if refusal.Some? then Step(m.(counter := n, calls := m.calls + [create]), refusal)
    else
      var calls := m.calls + [create, Start(name, false, true), Wait(name)];
      if env.exitCode(name) != 0 then Step(m.(counter := n, calls := calls), Some(ExitNonZero(name)))
      else Step(m.(counter := n, calls := calls + [Commit(name, m.image, None)]), None)
  }

  /** ADD's two containers as written. */
  function AddContainersAsWritten(env: Env, m: Machine, fileName: string, target: string): (s: Step)
    ensures Advanced(m, s, 2)
  {
    var t := MkdirStep(env, m, target);
    if t.failure.Some? then t else CopyAsWritten(env, t.m, fileName, target)
  }

  /**
   * The directory container of ADD asks for its container on the current
   * image and stops there when the engine refuses it; otherwise it is
   * started and waited on, a non-zero exit fails the step with the
   * container's name, and the container is committed onto the current
   * image.
   */
  lemma MkdirStepEffects(env: Env, m: Machine, target: string)
    ensures var s := MkdirStep(env, m, target);
      var name := ContainerName(env.buildId, m.stage, Padded(m.counter + 1) + "-create-target_dir");
      && |s.m.calls| > |m.calls|
      && s.m.calls[|m.calls|] == Create(m.image, name, Some("/bin/mkdir -pv " + Dirname(target)), None, false)
      && (Refusal(env, m, name).Some? ==> s.failure == Refusal(env, m, name) && |s.m.calls| == |m.calls| + 1)
      && (Refusal(env, m, name) == None ==>
            && |s.m.calls| == |m.calls| + (if s.failure == None then 4 else 3)
            && s.m.calls[|m.calls| + 1] == Start(name, false, false)
            && s.m.calls[|m.calls| + 2] == Wait(name)
            && (s.failure == None <==> env.exitCode(name) == 0)
            && (s.failure != None ==> s.failure == Some(MkdirFailed(name)))
            && (s.failure == None ==> s.m.calls[|m.calls| + 3] == Commit(name, m.image, None)))
  {
  }

  /**
   * The copy container of ADD is created on the current image with the
   * stage's files mounted, and committed as its own step under the build
   * id when it exits with status 0.
   */
  lemma CopyStepEffects(env: Env, m: Machine, fileName: string, target: string)
    ensures var s := CopyStep(env, m, fileName, target);
      var name := ContainerName(env.buildId, m.stage, Padded(m.counter + 1) + "-copy-data");
      && |s.m.calls| > |m.calls|
      && s.m.calls[|m.calls|] == Create(m.image, name, Some("cp -rv /files/" + Basename(fileName) + " " + target), None, true)
      && (Refusal(env, m, name).Some? ==> s.failure == Refusal(env, m, name) && |s.m.calls| == |m.calls| + 1)
      && (Refusal(env, m, name) == None ==>
            && |s.m.calls| == |m.calls| + (if s.failure == None then 4 else 3)
            && s.m.calls[|m.calls| + 1] == Start(name, false, true)
            && s.m.calls[|m.calls| + 2] == Wait(name)
            && (s.failure == None <==> env.exitCode(name) == 0)
            && (s.failure != None ==> s.failure == Some(ExitNonZero(name)))
            && (s.failure == None ==> s.m.calls[|m.calls| + 3] == Commit(name, env.buildId, Some(m.stage + "-" + Padded(m.counter + 1)))))
  {
  }

  /**
   * ADD fails without touching the engine unless it is given exactly a
   * file and a target and the file exists under the stage's directory;
   * otherwise it runs the directory container and, only if that one
   * succeeds, the copy container right after it.
   */
  lemma AddStepEffects(env: Env, m: Machine, parameter: string)
    ensures var s := AddStep(env, m, parameter);
      var parts := Words(parameter);
      && (|parts| != 2 ==> s == Step(m, Some(BadArguments(parameter))))
      && (|parts| == 2 && !env.sourceExists(m.stage + "/" + parts[0]) ==>
            s == Step(m, Some(NoSuchFile(m.stage + "/" + parts[0]))))
      && (|parts| == 2 && env.sourceExists(m.stage + "/" + parts[0]) ==>
            var t := MkdirStep(env, m, parts[1]);
            s == if t.failure.Some? then t else CopyStep(env, t.m, m.stage + "/" + parts[0], parts[1]))
  {
  }

  /**
   * WORKDIR, corrected as the first and third findings say: a container
   * with the working directory set is created on the current image under
   * the name of the current step, as RUN names its container, and is
   * committed as the next step `<stage>-<seq+1>` under the build id.
   */
  function WorkdirStep(env: Env, m: Machine, directory: string): (s: Step)
    ensures Advanced(m, s, 1)
    ensures s.failure == None <==> Refusal(env, m, ContainerName(env.buildId, m.stage, Padded(m.counter))) == None
  {
    var name := ContainerName(env.buildId, m.stage, Padded(m.counter));
    var create := Create(m.image, name, None, Some(directory), false);
    var refusal := Refusal(env, m, name);
    if refusal.Some? then Step(m.(calls := m.calls + [create]), refusal)
    else
      var n := m.counter + 1;
      Step(m.(counter := n, calls := m.calls + [create, Commit(name, env.buildId, Some(m.stage + "-" + Padded(n)))]), None)
  }

  /**
   * WORKDIR as written: the counter is advanced first and names the
   * container, which is committed onto the current image without a tag.
   */
  function WorkdirAsWritten(env: Env, m: Machine, directory: string): (s: Step)
    ensures Advanced(m, s, 1)
    ensures s.failure == None <==> Refusal(env, m, ContainerName(env.buildId, m.stage, Padded(m.counter + 1))) == None
  {
    var n := m.counter + 1;
    var name := ContainerName(env.buildId, m.stage, Padded(n));
    var create := Create(m.image, name, None, Some(directory), false);
    var refusal := Refusal(env, m, name);
    if refusal.Some? then Step(m.(counter := n, calls := m.calls + [create]), refusal)
    else Step(m.(counter := n, calls := m.calls + [create, Commit(name, m.image, None)]), None)
  }

  /**
   * WORKDIR fails only when the engine refuses its container; otherwise
   * it creates one container with the directory set and commits it as
   * the next step, without starting it.
   */
  lemma WorkdirStepEffects(env: Env, m: Machine, directory: string)
    ensures var s := WorkdirStep(env, m, directory);
      var name := ContainerName(env.buildId, m.stage, Padded(m.counter));
      && |s.m.calls| > |m.calls|
      && s.m.calls[|m.calls|] == Create(m.image, name, None, Some(directory), false)
      && (s.failure != None ==> s.failure == Refusal(env, m, name) && |s.m.calls| == |m.calls| + 1 && s.m.counter == m.counter)
      && (s.failure == None ==>
            && |s.m.calls| == |m.calls| + 2
            && s.m.calls[|m.calls| + 1] == Commit(name, env.buildId, Some(m.stage + "-" + Padded(m.counter + 1))))
  {
  }

  /**
   * ENTRYPOINT corrected to use the builder's engine (see the second
   * Findings row) and to name its container as RUN does (the third): a
   * container with the new command is created on the current image and
   * committed as the next step under the build id.
   */
  function EntrypointStep(env: Env, m: Machine, cmd: string): (s: Step)
    ensures Advanced(m, s, 1)
    ensures s.failure == None <==> Refusal(env, m, ContainerName(env.buildId, m.stage, Padded(m.counter))) == None
  {
    var name := ContainerName(env.buildId, m.stage, Padded(m.counter));
    var create := Create(m.image, name, Some(cmd), None, false);
    var refusal := Refusal(env, m, name);
    if refusal.Some? then Step(m.(calls := m.calls + [create]), refusal)
    else
      var n := m.counter + 1;
      Step(m.(counter := n, calls := m.calls + [create, Commit(name, env.buildId, Some(m.stage + "-" + Padded(n)))]), None)
  }

  /**
   * ENTRYPOINT fails only when the engine refuses its container;
   * otherwise it creates one container with the new command and commits
   * it as the next step.
   */
  lemma EntrypointStepEffects(env: Env, m: Machine, cmd: string)
    ensures var s := EntrypointStep(env, m, cmd);
      var name := ContainerName(env.buildId, m.stage, Padded(m.counter));
      && |s.m.calls| > |m.calls|
      && s.m.calls[|m.calls|] == Create(m.image, name, Some(cmd), None, false)
      && (s.failure != None ==> s.failure == Refusal(env, m, name) && |s.m.calls| == |m.calls| + 1 && s.m.counter == m.counter)
      && (s.failure == None ==>
            && |s.m.calls| == |m.calls| + 2
            && s.m.calls[|m.calls| + 1] == Commit(name, env.buildId, Some(m.stage + "-" + Padded(m.counter + 1))))
  {
  }

  /**
   * ENTRYPOINT as written: the counter is advanced, then the handler
   * reaches for an engine attribute the builder never sets.
   */
  function EntrypointAsWritten(m: Machine, cmd: string): (s: Step)
    ensures s.m == m.(counter := m.counter + 1)
  {
    Step(m.(counter := m.counter + 1), Some(NoClientAttribute))
  }

  /**
   * As written, ENTRYPOINT never reaches the engine: it fails on every
   * input and adds no call, where the corrected handler commits whenever
   * the engine gives it its container.
   */
  lemma EntrypointAsWrittenAlwaysFails(env: Env, m: Machine, cmd: string)
    ensures EntrypointAsWritten(m, cmd).failure == Some(NoClientAttribute)
    ensures EntrypointAsWritten(m, cmd).m.calls == m.calls
    ensures Refusal(env, m, ContainerName(env.buildId, m.stage, Padded(m.counter))) == None ==>
      EntrypointStep(env, m, cmd).failure == None && |EntrypointStep(env, m, cmd).m.calls| == |m.calls| + 2
  {
  }

  /** How far a successful instruction advances the sequence counter. */
  function Advance(i: Instruction): nat
  {
    match i
    case From(_) => 0
    case Run(_) => 1
    case Add(_) => 2
    case Workdir(_) => 1
    case Entrypoint(_) => 1
  }

  /** Running one parsed instruction. */
  function Execute(env: Env, m: Machine, i: Instruction): Step
  {
    match i
    case From(_) => FromStep(m)
    case Run(cmd) => RunStep(env, m, cmd)
    case Add(parameter) => AddStep(env, m, parameter)
    case Workdir(directory) => WorkdirStep(env, m, directory)
    case Entrypoint(cmd) => EntrypointStep(env, m, cmd)
  }

  /** Each instruction's handler only appends to the trace and, when it succeeds, moves the counter by the instruction's advance. */
  lemma ExecuteAdvances(env: Env, m: Machine, i: Instruction)
    ensures Advanced(m, Execute(env, m, i), Advance(i))
  {
    match i
    case From(_) =>
    case Run(cmd) => RunAdvances(env, m, cmd);
    case Add(parameter) => AddAdvances(env, m, parameter);
    case Workdir(directory) => WorkdirAdvances(env, m, directory);
    case Entrypoint(cmd) => EntrypointAdvances(env, m, cmd);
  }

  lemma RunAdvances(env: Env, m: Machine, cmd: string)
    ensures Advanced(m, Execute(env, m, Run(cmd)), 1)
  {
    assert Execute(env, m, Run(cmd)) == RunStep(env, m, cmd);
  }

  lemma AddAdvances(env: Env, m: Machine, parameter: string)
    ensures Advanced(m, Execute(env, m, Add(parameter)), 2)
  {
    assert Execute(env, m, Add(parameter)) == AddStep(env, m, parameter);
  }

  lemma WorkdirAdvances(env: Env, m: Machine, directory: string)
    ensures Advanced(m, Execute(env, m, Workdir(directory)), 1)
  {
    assert Execute(env, m, Workdir(directory)) == WorkdirStep(env, m, directory);
  }

  lemma EntrypointAdvances(env: Env, m: Machine, cmd: string)
    ensures Advanced(m, Execute(env, m, Entrypoint(cmd)), 1)
  {
    assert Execute(env, m, Entrypoint(cmd)) == EntrypointStep(env, m, cmd);
  }

  /** `handle_dockerline(line)`: an unexposed verb fails before any handler runs. */
  function Dispatch(env: Env, m: Machine, line: string): (s: Step)
    ensures Extends(m, s.m)
    ensures BeforeFirst(line, ' ') !in ExposedCommands ==>
      s == Step(m, Some(UnsupportedCommand(BeforeFirst(line, ' '))))
    ensures s.failure == None ==> ParseLine(line).Ok? && s.m.counter == m.counter + Advance(ParseLine(line).value)
  {
    match ParseLine(line)
    case Err(e) => Step(m, Some(e))
    case Ok(i) => ExecuteAdvances(env, m, i); Execute(env, m, i)
  }

  /** How far the counter moves for one line: by its handler's advance when it parses. */
  function LineAdvance(line: string): nat
  {
    match ParseLine(line)
    case Ok(i) => Advance(i)
    case Err(_) => 0
  }

  /** The step failed because an image to start from was missing. */
  ghost predicate MissedPreImage(s: Step)
  {
    s.failure.Some? && s.failure.value.PreImageUnavailable?
  }

  /** The step failed because the engine refused an image that does not exist. */
  ghost predicate MissedImage(s: Step)
  {
    s.failure.Some? && s.failure.value.ImageUnavailable?
  }

  /**
   * What a handler's step promises about images, starting from `m`: it
   * never reports an unavailable pre-image; it reports a refused image
   * only when that is the current image and the engine did not know it;
   * and when it succeeds, the image of the stage's new step exists.
   */
  ghost predicate KeepsImages(env: Env, m: Machine, s: Step)
  {
    && !MissedPreImage(s)
    && (MissedImage(s) ==> s.failure.value.image == m.image && m.image !in Known(env.present, m.calls))
    && (s.failure == None ==> StepTag(env.buildId, m.stage, s.m.counter) in Known(env.present, s.m.calls))
  }

  /**
   * What follows the step number in a container name of a stage: nothing
   * for a plain step, and a suffix for each of ADD's two containers.
   */
  predicate IsNameSuffix(x: string)
  {
    x == "" || x == "-create-target_dir" || x == "-copy-data"
  }

  /** The length of the run of digits `s` starts with. */
  function DigitRun(s: string): (n: nat)
    ensures n <= |s| && (forall k :: 0 <= k < n ==> IsDigit(s[k]))
    ensures n < |s| ==> !IsDigit(s[n])
  {
    if s == [] || !IsDigit(s[0]) then 0 else 1 + DigitRun(s[1..])
  }

  /** A step number followed by a name suffix: the digits end where the suffix starts. */
  lemma {:induction false} DigitRunOfName(p: string, x: string)
    requires forall k :: 0 <= k < |p| ==> IsDigit(p[k])
    requires IsNameSuffix(x)
    ensures DigitRun(p + x) == |p|
    decreases |p|
  {
    if p == [] {
      assert p + x == x;
      assert x != [] ==> x[0] == '-';
    } else {
      assert (p + x)[1..] == p[1..] + x;
      DigitRunOfName(p[1..], x);
    }
  }

  /** A padded step number and a name suffix can be read back from their concatenation. */
  lemma SuffixedStepsEqual(i: nat, x: string, j: nat, y: string)
    requires IsNameSuffix(x) && IsNameSuffix(y)
    requires Padded(i) + x == Padded(j) + y
    ensures i == j && x == y
  {
    var u := Padded(i) + x;
    PaddedDigits(i);
    PaddedDigits(j);
    DigitRunOfName(Padded(i), x);
    DigitRunOfName(Padded(j), y);
    assert Padded(i) == u[..|Padded(i)|] == Padded(j);
    PaddedInjective(i, j);
    assert x == u[|Padded(i)|..] == y;
  }

  /**
   * Two container names of one stage are equal only when they name the
   * same step with the same suffix: a step number is all digits and a
   * suffix starts with '-'.
   */
  lemma NamesDiffer(buildId: string, stage: string, i: nat, x: string, j: nat, y: string)
    requires IsNameSuffix(x) && IsNameSuffix(y)
    ensures ContainerName(buildId, stage, Padded(i) + x) == ContainerName(buildId, stage, Padded(j) + y) ==> i == j && x == y
  {
    if ContainerName(buildId, stage, Padded(i) + x) == ContainerName(buildId, stage, Padded(j) + y) {
      CancelPrefix(buildId + "-" + stage + "-", Padded(i) + x, Padded(j) + y);
      SuffixedStepsEqual(i, x, j, y);
    }
  }

  /**
   * None of the names the stage's steps still to come will give their
   * containers is taken: no plain step name from the counter on, and no
   * ADD container name beyond it.
   */
  ghost predicate NamesAhead(env: Env, m: Machine)
  {
    forall k: nat :: k >= m.counter ==>
      && ContainerName(env.buildId, m.stage, Padded(k)) !in Containers(env.present, m.calls)
      && (k > m.counter ==>
            && ContainerName(env.buildId, m.stage, Padded(k) + "-create-target_dir") !in Containers(env.present, m.calls)
            && ContainerName(env.buildId, m.stage, Padded(k) + "-copy-data") !in Containers(env.present, m.calls))
  }

  /**
   * A step that has taken one more name of its stage, that of step `j`
   * with suffix `x`, behind its new counter or, for an ADD container, at
   * it, leaves the names of the steps still to come free.
   */
  lemma TakeName(env: Env, m: Machine, m': Machine, j: nat, x: string)
    requires NamesAhead(env, m)
    requires IsNameSuffix(x)
    requires m'.stage == m.stage && m.counter <= m'.counter
    requires j < m'.counter || (j == m'.counter && x != "")
    requires Containers(env.present, m'.calls) == Containers(env.present, m.calls) + {ContainerName(env.buildId, m.stage, Padded(j) + x)}
    ensures NamesAhead(env, m')
  {
    forall k: nat | k >= m'.counter
      ensures ContainerName(env.buildId, m.stage, Padded(k)) !in Containers(env.present, m'.calls)
      ensures k > m'.counter ==>
            && ContainerName(env.buildId, m.stage, Padded(k) + "-create-target_dir") !in Containers(env.present, m'.calls)
            && ContainerName(env.buildId, m.stage, Padded(k) + "-copy-data") !in Containers(env.present, m'.calls)
    {
      assert Padded(k) + "" == Padded(k);
      NamesDiffer(env.buildId, m.stage, k, "", j, x);
      NamesDiffer(env.buildId, m.stage, k, "-create-target_dir", j, x);
      NamesDiffer(env.buildId, m.stage, k, "-copy-data", j, x);
    }
  }

  /** The step failed because the engine refused a container name already taken. */
  ghost predicate ReusedName(s: Step)
  {
    s.failure.Some? && s.failure.value.NameInUse?
  }

  /**
   * What a handler's step promises about container names: while the
   * names of the stage's steps still to come are free, it is not refused
   * a name, and when it succeeds they are still free for the steps after
   * it.
   */
  ghost predicate KeepsNames(env: Env, m: Machine, s: Step)
  {
    NamesAhead(env, m) ==> !ReusedName(s) && (s.failure == None ==> NamesAhead(env, s.m))
  }

  /** What the stage loop runs each instruction line with. */
  type LineHandler = (Machine, string) -> Step

  /**
   * What the stage loop relies on of its line handler: each step only
   * appends to the trace, moves the counter by the line's advance when it
   * succeeds, and keeps the images and the container names as
   * `KeepsImages` and `KeepsNames` say.
   */
  ghost predicate Handles(h: LineHandler, env: Env)
  {
    forall m: Machine, line: string ::
      Advanced(m, h(m, line), LineAdvance(line)) && KeepsImages(env, m, h(m, line)) && KeepsNames(env, m, h(m, line))
  }

  /** `handle_dockerline` as the stage loop's line handler. */
  function Dispatcher(env: Env): (h: LineHandler)
    ensures Handles(h, env)
  {
    var h := (m: Machine, line: string) => Dispatch(env, m, line);
    assert Handles(h, env) by {
      forall m: Machine, line: string
        ensures Advanced(m, h(m, line), LineAdvance(line)) && KeepsImages(env, m, h(m, line)) && KeepsNames(env, m, h(m, line))
      {
        DispatchImages(env, m, line);
        DispatchNames(env, m, line);
      }
    }
    h
  }

  /** An instruction line is never refused a container name while the names of the steps still to come are free. */
  lemma DispatchNames(env: Env, m: Machine, line: string)
    ensures KeepsNames(env, m, Dispatch(env, m, line))
  {
    if ParseLine(line).Ok? {
      ExecuteNames(env, m, ParseLine(line).value);
    }
  }

  lemma ExecuteNames(env: Env, m: Machine, i: Instruction)
    ensures KeepsNames(env, m, Execute(env, m, i))
  {
    match i
    case From(_) =>
    case Run(cmd) =>
      assert Execute(env, m, i) == RunStep(env, m, cmd);
      RunNames(env, m, cmd);
    case Add(parameter) =>
      assert Execute(env, m, i) == AddStep(env, m, parameter);
      AddNames(env, m, parameter);
    case Workdir(directory) =>
      assert Execute(env, m, i) == WorkdirStep(env, m, directory);
      WorkdirNames(env, m, directory);
    case Entrypoint(cmd) =>
      assert Execute(env, m, i) == EntrypointStep(env, m, cmd);
      EntrypointNames(env, m, cmd);
  }

  /** RUN takes the name of the current step, which no later step uses. */
  lemma RunNames(env: Env, m: Machine, cmd: string)
    ensures KeepsNames(env, m, RunStep(env, m, cmd))
  {
    var s := RunStep(env, m, cmd);
    if NamesAhead(env, m) && s.failure == None {
      var name := ContainerName(env.buildId, m.stage, Padded(m.counter));
      var more := [Start(name, true, false), Wait(name), s.m.calls[|s.m.calls| - 1]];
      assert s.m.calls == m.calls + [Create(m.image, name, Some(cmd), None, false)] + more;
      CreateTakesName(env.present, m.calls, Create(m.image, name, Some(cmd), None, false), more);
      assert Padded(m.counter) + "" == Padded(m.counter);
      TakeName(env, m, s.m, m.counter, "");
    }
  }

  /** ADD's two containers take names no plain step and no later ADD uses. */
  lemma AddNames(env: Env, m: Machine, parameter: string)
    ensures KeepsNames(env, m, AddStep(env, m, parameter))
  {
    var parts := Words(parameter);
    if |parts| == 2 && env.sourceExists(m.stage + "/" + parts[0]) {
      AddContainersNames(env, m, m.stage + "/" + parts[0], parts[1]);
    }
  }

  lemma AddContainersNames(env: Env, m: Machine, fileName: string, target: string)
    ensures KeepsNames(env, m, AddContainers(env, m, fileName, target))
  {
    var t := MkdirStep(env, m, target);
    MkdirNames(env, m, target);
    if t.failure == None {
      CopyNames(env, t.m, fileName, target);
    }
  }

  /** The directory container takes the name of the next step with its suffix. */
  lemma MkdirNames(env: Env, m: Machine, target: string)
    ensures KeepsNames(env, m, MkdirStep(env, m, target))
  {
    var s := MkdirStep(env, m, target);
    if NamesAhead(env, m) && s.failure == None {
      var name := ContainerName(env.buildId, m.stage, Padded(m.counter + 1) + "-create-target_dir");
      var create := Create(m.image, name, Some("/bin/mkdir -pv " + Dirname(target)), None, false);
      var more := [Start(name, false, false), Wait(name), Commit(name, m.image, None)];
      assert s.m.calls == m.calls + [create] + more;
      CreateTakesName(env.present, m.calls, create, more);
      TakeName(env, m, s.m, m.counter + 1, "-create-target_dir");
    }
  }

  /** The copy container takes the name of the next step with its suffix. */
  lemma CopyNames(env: Env, m: Machine, fileName: string, target: string)
    ensures KeepsNames(env, m, CopyStep(env, m, fileName, target))
  {
    var s := CopyStep(env, m, fileName, target);
    if NamesAhead(env, m) && s.failure == None {
      var name := ContainerName(env.buildId, m.stage, Padded(m.counter + 1) + "-copy-data");
      var create := Create(m.image, name, Some("cp -rv /files/" + Basename(fileName) + " " + target), None, true);
      var more := [Start(name, false, true), Wait(name), s.m.calls[|s.m.calls| - 1]];
      assert s.m.calls == m.calls + [create] + more;
      CreateTakesName(env.present, m.calls, create, more);
      TakeName(env, m, s.m, m.counter + 1, "-copy-data");
    }
  }

  /** The corrected WORKDIR takes the name of the current step, as RUN does. */
  lemma WorkdirNames(env: Env, m: Machine, directory: string)
    ensures KeepsNames(env, m, WorkdirStep(env, m, directory))
  {
    var s := WorkdirStep(env, m, directory);
    if NamesAhead(env, m) && s.failure == None {
      var name := ContainerName(env.buildId, m.stage, Padded(m.counter));
      var more := [s.m.calls[|s.m.calls| - 1]];
      assert s.m.calls == m.calls + [Create(m.image, name, None, Some(directory), false)] + more;
      CreateTakesName(env.present, m.calls, Create(m.image, name, None, Some(directory), false), more);
      assert Padded(m.counter) + "" == Padded(m.counter);
      TakeName(env, m, s.m, m.counter, "");
    }
  }

  /** The corrected ENTRYPOINT takes the name of the current step, as RUN does. */
  lemma EntrypointNames(env: Env, m: Machine, cmd: string)
    ensures KeepsNames(env, m, EntrypointStep(env, m, cmd))
  {
    var s := EntrypointStep(env, m, cmd);
    if NamesAhead(env, m) && s.failure == None {
      var name := ContainerName(env.buildId, m.stage, Padded(m.counter));
      var more := [s.m.calls[|s.m.calls| - 1]];
      assert s.m.calls == m.calls + [Create(m.image, name, Some(cmd), None, false)] + more;
      CreateTakesName(env.present, m.calls, Create(m.image, name, Some(cmd), None, false), more);
      assert Padded(m.counter) + "" == Padded(m.counter);
      TakeName(env, m, s.m, m.counter, "");
    }
  }

  /**
   * An instruction line fails for want of an image only when the current
   * image does not exist, and a line that succeeds leaves the image of the
   * stage's new step in existence.
   */
  lemma DispatchImages(env: Env, m: Machine, line: string)
    ensures KeepsImages(env, m, Dispatch(env, m, line))
  {
    if ParseLine(line).Ok? {
      ExecuteImages(env, m, ParseLine(line).value);
    }
  }

  lemma ExecuteImages(env: Env, m: Machine, i: Instruction)
    ensures KeepsImages(env, m, Execute(env, m, i))
  {
    match i
    case From(_) =>
    case Run(cmd) =>
      assert Execute(env, m, i) == RunStep(env, m, cmd);
      RunImages(env, m, cmd);
    case Add(parameter) =>
      assert Execute(env, m, i) == AddStep(env, m, parameter);
      AddImages(env, m, parameter);
    case Workdir(directory) =>
      assert Execute(env, m, i) == WorkdirStep(env, m, directory);
      WorkdirImages(env, m, directory);
    case Entrypoint(cmd) =>
      assert Execute(env, m, i) == EntrypointStep(env, m, cmd);
      EntrypointImages(env, m, cmd);
  }

  /** RUN fails for want of an image only on a missing current image, and on success has committed its step image. */
  lemma RunImages(env: Env, m: Machine, cmd: string)
    ensures KeepsImages(env, m, RunStep(env, m, cmd))
  {
    var s := RunStep(env, m, cmd);
    if s.failure == None {
      StepCommitCreates(ContainerName(env.buildId, m.stage, Padded(m.counter)), env.buildId, m.stage, m.counter + 1);
      LastCommitKnown(env.present, s.m.calls);
    }
  }

  /** ADD fails for want of an image only on a missing current image, and on success has committed its copy step's image. */
  lemma AddImages(env: Env, m: Machine, parameter: string)
    ensures KeepsImages(env, m, AddStep(env, m, parameter))
  {
    var parts := Words(parameter);
    if |parts| == 2 && env.sourceExists(m.stage + "/" + parts[0]) {
      AddContainersImages(env, m, m.stage + "/" + parts[0], parts[1]);
    }
  }

  /**
   * The copy container never lacks its image: the directory container has
   * just committed onto it.
   */
  lemma AddContainersImages(env: Env, m: Machine, fileName: string, target: string)
    ensures KeepsImages(env, m, AddContainers(env, m, fileName, target))
  {
    var t := MkdirStep(env, m, target);
    if t.failure == None {
      LastCommitKnown(env.present, t.m.calls);
      assert t.m.image in Known(env.present, t.m.calls);
      var s := CopyStep(env, t.m, fileName, target);
      if s.failure == None {
        StepCommitCreates(ContainerName(env.buildId, m.stage, Padded(t.m.counter + 1) + "-copy-data"), env.buildId, m.stage, t.m.counter + 1);
        LastCommitKnown(env.present, s.m.calls);
      }
    }
  }

  lemma WorkdirImages(env: Env, m: Machine, directory: string)
    ensures KeepsImages(env, m, WorkdirStep(env, m, directory))
  {
    var s := WorkdirStep(env, m, directory);
    if s.failure == None {
      StepCommitCreates(ContainerName(env.buildId, m.stage, Padded(m.counter)), env.buildId, m.stage, m.counter + 1);
      LastCommitKnown(env.present, s.m.calls);
    }
  }

  lemma EntrypointImages(env: Env, m: Machine, cmd: string)
    ensures KeepsImages(env, m, EntrypointStep(env, m, cmd))
  {
    var s := EntrypointStep(env, m, cmd);
    if s.failure == None {
      StepCommitCreates(ContainerName(env.buildId, m.stage, Padded(m.counter)), env.buildId, m.stage, m.counter + 1);
      LastCommitKnown(env.present, s.m.calls);
    }
  }

  /**
   * As written, WORKDIR commits onto the current image without a tag, so
   * the image the stage loop renames the current image to afterwards, that
   * of the stage's next step, never comes into existence; the next
   * instruction's container and the stage's closing tag are then refused.
   * The corrected handler creates that image.
   */
  lemma WorkdirAsWrittenLosesStepImage(env: Env, m: Machine, directory: string)
    requires m.image == StepTag(env.buildId, m.stage, m.counter)
    requires m.image in Known(env.present, m.calls)
    requires NamesAhead(env, m)
    requires StepTag(env.buildId, m.stage, m.counter + 1) !in Known(env.present, m.calls)
    ensures var s := WorkdirAsWritten(env, m, directory);
      && s.failure == None
      && StepTag(env.buildId, m.stage, s.m.counter) !in Known(env.present, s.m.calls)
    ensures var s := WorkdirStep(env, m, directory);
      && s.failure == None
      && StepTag(env.buildId, m.stage, s.m.counter) in Known(env.present, s.m.calls)
  {
    var s := WorkdirAsWritten(env, m, directory);
    var next := StepTag(env.buildId, m.stage, m.counter + 1);
    StepTagsDistinct(env.buildId, m.stage, m.counter + 1, m.counter);
    var more := s.m.calls[|m.calls|..];
    assert m.calls + more == s.m.calls;
    KnownWithout(env.present, m.calls, more, next);
    WorkdirImages(env, m, directory);
  }

  /**
   * As written, WORKDIR names its container after the step it advances
   * to, which is the name the RUN after it gives its own container: even
   * on an image that exists, that RUN is refused its container. The
   * corrected WORKDIR names its container after the current step, as RUN
   * does, and leaves the RUN after it free to name its own.
   */
  lemma WorkdirAsWrittenReusesName(env: Env, m: Machine, directory: string, cmd: string)
    requires NamesAhead(env, m)
    requires m.image in Known(env.present, m.calls)
    ensures var w := WorkdirAsWritten(env, m, directory);
      && w.failure == None
      && w.m.image in Known(env.present, w.m.calls)
      && RunStep(env, w.m, cmd).failure == Some(NameInUse(ContainerName(env.buildId, m.stage, Padded(m.counter + 1))))
    ensures var w := WorkdirStep(env, m, directory);
      && w.failure == None
      && NamesAhead(env, w.m)
      && !ReusedName(RunStep(env, w.m, cmd))
  {
    var w := WorkdirAsWritten(env, m, directory);
    var name := ContainerName(env.buildId, m.stage, Padded(m.counter + 1));
    var create := Create(m.image, name, None, Some(directory), false);
    var more := [Commit(name, m.image, None)];
    assert w.m.calls == m.calls + [create] + more;
    CreateTakesName(env.present, m.calls, create, more);
    KnownGrows(env.present, m.calls, [create] + more);
    assert m.calls + ([create] + more) == w.m.calls;
    WorkdirNames(env, m, directory);
    RunNames(env, WorkdirStep(env, m, directory).m, cmd);
  }

  /**
   * The same holds for ADD as written: after both containers succeed, the
   * image of the step the counter has reached does not exist, where the
   * corrected handler has committed it.
   */
  lemma AddAsWrittenLosesStepImage(env: Env, m: Machine, fileName: string, target: string)
    requires m.image == StepTag(env.buildId, m.stage, m.counter)
    requires StepTag(env.buildId, m.stage, m.counter + 2) !in Known(env.present, m.calls)
    ensures var s := AddContainersAsWritten(env, m, fileName, target);
      s.failure == None ==> StepTag(env.buildId, m.stage, s.m.counter) !in Known(env.present, s.m.calls)
    ensures var s := AddContainers(env, m, fileName, target);
      s.failure == None ==> StepTag(env.buildId, m.stage, s.m.counter) in Known(env.present, s.m.calls)
  {
    var s := AddContainersAsWritten(env, m, fileName, target);
    if s.failure == None {
      var next := StepTag(env.buildId, m.stage, m.counter + 2);
      StepTagsDistinct(env.buildId, m.stage, m.counter + 2, m.counter);
      MkdirKeepsOut(env, m, target, next);
      CopyAsWrittenKeepsOut(env, MkdirStep(env, m, target).m, fileName, target, next);
    }
    AddContainersImages(env, m, fileName, target);
  }

  /** The directory container creates no image other than the current one. */
  lemma MkdirKeepsOut(env: Env, m: Machine, target: string, ref: string)
    requires ref != m.image && ref !in Known(env.present, m.calls)
    ensures ref !in Known(env.present, MkdirStep(env, m, target).m.calls)
  {
    var t := MkdirStep(env, m, target);
    var more := t.m.calls[|m.calls|..];
    assert m.calls + more == t.m.calls;
    KnownWithout(env.present, m.calls, more, ref);
  }

  /** As written, the copy container creates no image other than the current one. */
  lemma CopyAsWrittenKeepsOut(env: Env, m: Machine, fileName: string, target: string, ref: string)
    requires ref != m.image && ref !in Known(env.present, m.calls)
    ensures ref !in Known(env.present, CopyAsWritten(env, m, fileName, target).m.calls)
  {
    var t := CopyAsWritten(env, m, fileName, target);
    var more := t.m.calls[|m.calls|..];
    assert m.calls + more == t.m.calls;
    KnownWithout(env.present, m.calls, more, ref);
  }

  /** RUN creates no image other than that of the stage's next step. */
  lemma RunKeepsOut(env: Env, m: Machine, cmd: string, ref: string)
    requires ref != StepTag(env.buildId, m.stage, m.counter + 1) && ref !in Known(env.present, m.calls)
    ensures ref !in Known(env.present, RunStep(env, m, cmd).m.calls)
  {
    var t := RunStep(env, m, cmd);
    StepCommitCreates(ContainerName(env.buildId, m.stage, Padded(m.counter)), env.buildId, m.stage, m.counter + 1);
    var more := t.m.calls[|m.calls|..];
    assert m.calls + more == t.m.calls;
    KnownWithout(env.present, m.calls, more, ref);
  }
}
