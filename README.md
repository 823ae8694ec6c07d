# Redomat build core in Dafny

Redomat builds container images in stages. A stage declaration names the
stage it builds on (its *prestage*) and lists Dockerfile-like instruction
lines (`FROM`, `RUN`, `ADD`, `WORKDIR`, `ENTRYPOINT`). Building a target
stage has two parts:

- **Planning** (`generate_build_chain`) walks back from the target through
  prestage links. It collects `(stage, pre-image)` pairs and stops in one
  of three ways:
  - a prestage resolves to an image an earlier build made (`<match_build_id>:<stage>`);
  - it reaches a root stage, whose leading `FROM <image>` line is popped;
  - it reaches the entry stage.
- **Execution** (`build`) consumes that chain from its end, root first.
  For each stage it:
  - resets the step counter;
  - inspects the pre-image and tags it `<build_id>:<stage>-000`;
  - hands every instruction line to `handle_dockerline`, renaming the
    current image `<build_id>:<stage>-<seq>` after each line;
  - finally tags the result `<build_id>:<stage>`.

  In a dry run only the inspections reach the engine.

The Docker engine is a class that records every call it receives
(`engine.dfy`). What it answers comes from oracles fixed at creation:

- the image listing per name pattern;
- the image references that already exist;
- the exit status per container name.

An image exists when it existed before the build or an earlier tag or
commit in the trace created it (`Known`). The engine refuses an
inspection, a tag or a container creation on an image that does not
exist, and the handlers and the stage loop report that as
`ImageUnavailable`. A container name is taken once the engine has
created a container under it (`Containers`). The source never removes a
container, so the engine refuses a second creation under a taken name,
and the handlers report that as `NameInUse`. A commit without a tag is
taken to re-point the reference it names.

Files, in dependency order:

| file | module | what it holds |
|---|---|---|
| `wrappers.dfy` | `Wrappers` | `Option` |
| `text.dfy` | `Text` | Python 2 string operations the core uses: `strip`, `split(" ")`, `split()`, `join`, `"%03i"`, `os.path.basename`, `os.path.dirname` |
| `engine.dfy` | `DockerEngine` | the engine class and its call trace |
| `stages.dfy` | `Stages` | declarations, chain entries, the exceptions, acyclicity of prestage links |
| `resolver.dfy` | `Resolver` | `find_images_by_stage`, `resolve_stage_to_image` |
| `planner.dfy` | `Planner` | `generate_build_chain` as a pure walk, and its shape |
| `instructions.dfy` | `Instructions` | parsing an instruction line and the five handlers, as functions of the execution state |
| `executor.dfy` | `Executor` | `build`'s loops as functions over an abstract line handler, and what a build does to the engine |
| `redomat.dfy` | `Redomat` | the builder object: imperative methods over its fields, each proved equal to the pure function above |
| `scenarios.dfy` | `Scenarios` | a two-stage declaration planned with and without a match build id, and its second stage built |

Conventions:

- Python's `None` for `build_id`, `match_build_id` and `prestage` is the
  empty string. The source tests `match_build_id` and `prestage` only for
  truth; `build_id` is also formatted into names, and `build` always sets
  it before it is used.
- An exception is a `BuildError` value. The state at the point of the
  raise is kept with it.
- Planning takes a ghost ranking of the stages under which every prestage
  link goes down, so declarations with a cycle of prestages are outside
  the model. On such a cycle the source loops forever unless a prestage
  on it resolves to a cached image or the entry stage lies on it.
- The executor's functions take the line handler as a parameter `h`, with
  the precondition `Handles(h, env)`. The builder passes
  `Instructions.Dispatcher(env)`, which is `handle_dockerline`.
- ADD, WORKDIR and ENTRYPOINT commit their last container as the step
  the counter reaches, as RUN does. WORKDIR and ENTRYPOINT also name their container
  after the current step, as RUN does. The handlers as written are kept
  beside them (see "Findings").

Two quirks of the source are kept as written:

- `allow_foreign_images` sets the flag to true whatever it is given.
- The entry-stage test compares the stage's declaration, not its id.

## Model

| member | source | states |
|---|---|---|
| `Text.StripLeft` | libredo/Redomat.py:145 | the result is the suffix of the input after its leading whitespace, and starts with a non-space character |
| `Text.StripRight` | libredo/Redomat.py:145 | the result is the prefix of the input before its trailing whitespace, and ends with a non-space character |
| `Text.Strip` | libredo/Redomat.py:145 | `strip()` is the middle of its input: only whitespace lies before and after it, and it neither starts nor ends with whitespace |
| `Text.StripUnchanged` | libredo/Redomat.py:148 | `strip()` leaves a string without surrounding whitespace unchanged |
| `Text.SplitOn` | libredo/Redomat.py:265 | `split(" ")` yields at least one piece, and no piece holds the separator |
| `Text.BeforeFirst` | libredo/Redomat.py:265 | the text before the first separator is a separator-free prefix of the line |
| `Text.JoinSplit` | libredo/Redomat.py:277 | joining the pieces of `split(sep)` with `sep` gives back the string |
| `Text.SplitHeadTail` | libredo/Redomat.py:265-277 | the first piece of `split(" ")` is the text before the first space; the other pieces, re-joined with spaces, are the text after it |
| `Text.SplitAfterWord` | libredo/Redomat.py:148 | a separator-free word followed by the separator splits into that word followed by the split of the rest |
| `Text.SplitWithoutSeparator` | libredo/Redomat.py:148 | a string without the separator splits into itself alone |
| `Text.FirstSeparator` | libredo/Redomat.py:265-277 | for a separator-free head, the text before the first separator is that head and the text after it is the rest |
| `Text.Word` | libredo/Redomat.py:341 | the leading run of non-space characters is a prefix of the input and is followed by a space or the end |
| `Text.WordsAreWords` | libredo/Redomat.py:341 | every piece of `split()` is a non-empty run of non-space characters |
| `Text.WordsOfWord` | libredo/Redomat.py:341 | a single run of non-space characters splits into itself |
| `Text.WordBeforeSpace` | libredo/Redomat.py:341 | a run of non-space characters stops at the first whitespace character, whatever follows it |
| `Text.WordsSkipSpace` | libredo/Redomat.py:341 | leading whitespace does not change `split()` |
| `Text.WordsAfterWord` | libredo/Redomat.py:341 | a string that starts with a non-space character splits into its leading word followed by the split of the rest |
| `Text.WordsAtSpace` | libredo/Redomat.py:341 | `split()` cuts at every whitespace character: the split of `x + c + y` with `c` whitespace is the split of `x` followed by the split of `y` |
| `Text.WordsEmptyIffBlank` | libredo/Redomat.py:341 | `split()` yields no word exactly when the string is whitespace only |
| `Text.DigitChar` | libredo/Redomat.py:286 | a digit's character is a decimal digit whose code is the digit's offset from '0' |
| `Text.Decimal` | libredo/Redomat.py:286 | the decimal notation has one digit exactly below 10, at most two below 100 and at most three below 1000 |
| `Text.DecimalDigits` | libredo/Redomat.py:286 | the decimal notation consists of digits only |
| `Text.PadLeft` | libredo/Redomat.py:286 | zero-padding reaches the width, and leaves a string at least that wide unchanged |
| `Text.Padded` | libredo/Redomat.py:286 | `"%03i" % n` has at least three characters, exactly three below 1000, and is the plain decimal notation from 1000 on |
| `Text.PaddedDigits` | libredo/Redomat.py:286 | `"%03i" % n` consists of digits only |
| `Text.ValueOfDecimal` | libredo/Redomat.py:286 | reading back the decimal notation of `n` gives `n` |
| `Text.ValueOfZeroPrefix` | libredo/Redomat.py:286 | a leading '0' does not change the value read back |
| `Text.ValueOfPadLeft` | libredo/Redomat.py:286 | zero-padding does not change the value read back |
| `Text.PaddedRoundTrip` | libredo/Redomat.py:286 | reading back `"%03i" % n` gives `n` |
| `Text.PaddedInjective` | libredo/Redomat.py:286 | two counters with the same `"%03i"` label are equal |
| `Text.AfterLastSlash` | libredo/Redomat.py:354 | the cut point follows the last '/', and no '/' comes after it |
| `Text.BasenameIsTail` | libredo/Redomat.py:354 | `basename` is a slash-free tail of the path |
| `Text.Dirname` | libredo/Redomat.py:361 | `dirname` is a prefix of the path |
| `Text.DirHeadIsPosix` | libredo/Redomat.py:361 | a head is stripped of its trailing slashes exactly when it holds something other than slashes |
| `Text.DirnameIsPosix` | libredo/Redomat.py:361 | `dirname` cuts after the last '/' and then strips trailing slashes, unless only slashes are left |
| `Text.HasNonSlash` | libredo/Redomat.py:361 | true exactly when some character is not '/' |
| `DockerEngine.Created` | libredo/Redomat.py:202 | a tag creates exactly its `repository:tag` reference, a commit its `repository:tag` or, without a tag, the reference it names; other calls create nothing |
| `DockerEngine.Known` | libredo/Redomat.py:188 | the existing images include those present before the build |
| `DockerEngine.KnownAppend` | libredo/Redomat.py:188-202 | one more call adds what it creates when the engine accepts it, and nothing when it refuses it |
| `DockerEngine.LastCommitKnown` | libredo/Redomat.py:332 | what a commit creates exists right after it |
| `DockerEngine.KnownWithout` | libredo/Redomat.py:188-202 | a reference that does not exist stays missing through calls none of which creates it |
| `DockerEngine.KnownGrows` | libredo/Redomat.py:188 | later calls never make a reference unknown |
| `DockerEngine.TagMakesKnown` | libredo/Redomat.py:202 | after a tag of an existing image its target reference exists for the rest of the build |
| `DockerEngine.Containers` | libredo/Redomat.py:318 | every taken container name is the name of a creation in the trace |
| `DockerEngine.ContainersAppend` | libredo/Redomat.py:318 | one more call takes a name exactly when it is a creation on an existing image under a name not yet taken |
| `DockerEngine.ContainersWithoutCreate` | libredo/Redomat.py:323-332 | starts, waits, commits, tags and inspections take no container name |
| `DockerEngine.CreateTakesName` | libredo/Redomat.py:318-332 | a step whose one creation the engine carries out takes exactly that container's name |
| `DockerEngine.Engine.InspectImage` | libredo/Redomat.py:188 | inspection is recorded and succeeds exactly when the reference is known |
| `DockerEngine.Engine.TagImage` | libredo/Redomat.py:202 | the tag call is appended to the trace, and it succeeds exactly when the source image exists |
| `DockerEngine.Engine.CreateContainer` | libredo/Redomat.py:318 | the create call is appended to the trace; it is refused when the image does not exist, and otherwise when a container already has the name |
| `DockerEngine.Engine.StartContainer` | libredo/Redomat.py:323 | the start call is appended to the trace |
| `DockerEngine.Engine.WaitContainer` | libredo/Redomat.py:326 | the wait call is appended and returns the container's exit status |
| `DockerEngine.Engine.CommitContainer` | libredo/Redomat.py:332 | the commit call is appended to the trace |
| `Stages.PopFirstAction` | libredo/Redomat.py:145 | popping touches only the popped root stage, whose actions lose exactly their first line |
| `Stages.PopKeepsRanked` | libredo/Redomat.py:145 | popping keeps the prestage links free of cycles |
| `Resolver.FindImagesByStage` | libredo/Redomat.py:246-254 | the found references are no more than the listed images |
| `Resolver.FoundExactly` | libredo/Redomat.py:252-254 | a string is found for a stage exactly when some listed image has that tag and the string is its `Repository:Tag` |
| `Resolver.ResolveStageToImage` | libredo/Redomat.py:103-111 | nothing resolves without a match build id; a result is `<match_build_id>:<stage>` and is among the found images; a found candidate always resolves |
| `Resolver.ResolvesIffListed` | libredo/Redomat.py:103-111 | a stage resolves exactly when a match build id is set and an image of that repository tagged with the stage is listed |
| `Planner.FromImageIsSecondWord` | libredo/Redomat.py:148 | the image the planner reads from a FROM line is the stripped second piece of `split(" ")` |
| `Planner.RootEndAtFrom` | libredo/Redomat.py:145-149 | a root stage whose first line is a FROM line ends the chain at the image it names, and that line is popped |
| `Planner.Walk` | libredo/Redomat.py:119 | a chain that is returned is non-empty and starts at the target |
| `Planner.RootEnd` | libredo/Redomat.py:145 | the root stage's first line is popped whenever it has one |
| `Planner.WalkThroughPrestage` | libredo/Redomat.py:129-140 | an unresolved prestage of a non-entry stage adds the entry `(stage, <build_id>:<prestage>)` and the walk goes on from the prestage |
| `Planner.EndingsExclusive` | libredo/Redomat.py:130-152 | the three ways a chain ends exclude each other |
| `Planner.WalkShape` | libredo/Redomat.py:113-154 | every returned chain starts at the target; each entry but the last starts from `<build_id>:<prestage>`, and its successor's stage is that prestage; the last entry is a cache hit, a FROM image or the entry stage; a line was popped exactly when the chain ends at a root stage, and it was that stage's line |
| `Planner.WalkErrors` | libredo/Redomat.py:126-147 | planning fails only on an undeclared stage, on a root stage with no line, or on a root stage whose popped first line is not a FROM line |
| `Planner.PlanStopsAtCacheHit` | libredo/Redomat.py:130-136 | a target whose prestage resolves yields a one-entry chain starting from the resolved image |
| `Planner.NoMatchIdBuildsEverything` | libredo/Redomat.py:103-140 | without a match build id, every entry but the last starts from an image this build makes, and the last is a FROM image or the entry stage |
| `Instructions.StepTagInjective` | libredo/Redomat.py:184-225 | two steps of one stage never share an image name |
| `Instructions.StepTagsDistinct` | libredo/Redomat.py:184-225 | distinct steps of one stage have distinct image names |
| `Instructions.StepTagIsRepositoryAndTag` | libredo/Redomat.py:198-225 | a step image is the build id joined with the tag `<stage>-<seq>` |
| `Instructions.StepCommitCreates` | libredo/Redomat.py:331-332 | a commit under the build id tagged `<stage>-<seq>` creates exactly the image of that step |
| `Instructions.InstructionOf` | libredo/Redomat.py:274 | an exposed verb selects the handler of that verb with the given argument |
| `Instructions.ParseLine` | libredo/Redomat.py:265-277 | a line fails exactly when its first word is not an exposed verb; otherwise the instruction has that verb and the stripped rest of the line |
| `Instructions.ParseLineSplits` | libredo/Redomat.py:265-277 | parsing agrees with the source's split on spaces, membership test of the first piece, and re-join and strip of the others |
| `Instructions.ParseVerbAndArgument` | libredo/Redomat.py:265-277 | an exposed verb, one space and an argument without surrounding whitespace parse to that verb's instruction on that argument |
| `Instructions.Refusal` | libredo/Redomat.py:318 | a container creation is refused for a missing current image first, and otherwise for a taken name; it goes through exactly when the image exists and the name is free |
| `Instructions.FromStep` | libredo/Redomat.py:304 | the FROM handler always fails and changes nothing |
| `Instructions.RunStep` | libredo/Redomat.py:307-332 | RUN only appends to the trace and advances the counter by one when it succeeds |
| `Instructions.RunStepEffects` | libredo/Redomat.py:315-332 | RUN asks for its container, named after the current step, on the current image, and stops there when the engine refuses it for a missing image or a taken name; otherwise it starts it privileged and waits; it fails exactly on a non-zero exit, leaving the counter; on success it commits the container as the next step under the build id |
| `Instructions.AddStep` | libredo/Redomat.py:335-386 | ADD only appends to the trace and advances the counter by two when it succeeds |
| `Instructions.AddContainers` | libredo/Redomat.py:358-386 | ADD's two containers together advance the counter by two on success |
| `Instructions.MkdirStep` | libredo/Redomat.py:358-368 | the directory container advances the counter by one and only appends to the trace |
| `Instructions.CopyStep` | libredo/Redomat.py:371-386 | (corrected; see Findings) the copy container advances the counter by one and only appends to the trace |
| `Instructions.CopyAsWritten` | libredo/Redomat.py:371-386 | as written, the copy container advances the counter by one and only appends to the trace |
| `Instructions.AddContainersAsWritten` | libredo/Redomat.py:358-386 | as written, ADD's two containers together advance the counter by two on success |
| `Instructions.MkdirStepEffects` | libredo/Redomat.py:358-368 | the directory container runs `mkdir -pv` on the target's directory name on the current image, and stops when the engine refuses it for a missing image or a taken name; a non-zero exit fails ADD, otherwise it is committed onto the current image |
| `Instructions.CopyStepEffects` | libredo/Redomat.py:371-386 | (corrected; see Findings) the copy container mounts the stage's files and copies the file's base name to the target, and stops when the engine refuses it for a missing current image or a taken name; a non-zero exit fails ADD, otherwise it is committed as its own step `<stage>-<seq>` under the build id |
| `Instructions.AddStepEffects` | libredo/Redomat.py:341-351 | ADD fails without touching the engine unless it gets exactly two words and the file exists under the stage's directory; the copy runs only after the directory container succeeds |
| `Instructions.WorkdirStep` | libredo/Redomat.py:388-399 | (corrected; see Findings) WORKDIR advances the counter by one when it succeeds, and fails exactly when the engine refuses its container, which is named after the current step |
| `Instructions.WorkdirAsWritten` | libredo/Redomat.py:388-399 | as written, WORKDIR advances the counter by one, names its container after the advanced counter, and fails exactly when the engine refuses that container |
| `Instructions.WorkdirStepEffects` | libredo/Redomat.py:393-399 | (corrected; see Findings) WORKDIR creates one container, named after the current step, with the working directory set, and commits it as the next step under the build id; the engine's refusal is its only failure and leaves the counter |
| `Instructions.EntrypointStep` | libredo/Redomat.py:401-415 | (corrected; see Findings) ENTRYPOINT on the builder's engine advances the counter by one when it succeeds, and fails exactly when the engine refuses its container, which is named after the current step |
| `Instructions.EntrypointStepEffects` | libredo/Redomat.py:410-415 | (corrected; see Findings) ENTRYPOINT creates one container, named after the current step, with the new command and commits it as the next step under the build id; the engine's refusal is its only failure |
| `Instructions.EntrypointAsWritten` | libredo/Redomat.py:410-415 | as written, ENTRYPOINT advances the counter and changes nothing else |
| `Instructions.EntrypointAsWrittenAlwaysFails` | libredo/Redomat.py:413-415 | as written, ENTRYPOINT fails on every input and adds no call, while the corrected handler commits whenever the engine gives it its container |
| `Instructions.ExecuteAdvances` | libredo/Redomat.py:295-415 | every handler only appends to the trace; on success RUN, WORKDIR and ENTRYPOINT advance the counter by one and ADD by two |
| `Instructions.RunAdvances` | libredo/Redomat.py:331 | a successful RUN advances the counter by one |
| `Instructions.AddAdvances` | libredo/Redomat.py:358-386 | a successful ADD advances the counter by two |
| `Instructions.WorkdirAdvances` | libredo/Redomat.py:393 | WORKDIR advances the counter by one |
| `Instructions.EntrypointAdvances` | libredo/Redomat.py:410 | ENTRYPOINT advances the counter by one |
| `Instructions.Dispatch` | libredo/Redomat.py:260-277 | an unexposed verb fails before any handler runs and changes nothing; a dispatched line only appends to the trace, and succeeds only when it parses, advancing the counter by its handler's amount |
| `Instructions.Dispatcher` | libredo/Redomat.py:260-277 | `handle_dockerline` meets what the stage loop relies on of a line handler: it only appends, advances by the line's amount, keeps the images and is never refused a container name while the names ahead are free |
| `Instructions.DispatchImages` | libredo/Redomat.py:260-415 | an instruction line fails for want of an image only when the current image does not exist, never for a pre-image, and on success the image of the stage's new step exists |
| `Instructions.ExecuteImages` | libredo/Redomat.py:295-415 | each handler fails for want of an image only when the current image does not exist, and on success has created the image of the stage's new step |
| `Instructions.RunImages` | libredo/Redomat.py:315-332 | RUN fails for want of an image only on a missing current image, and on success the next step image exists |
| `Instructions.AddImages` | libredo/Redomat.py:335-386 | ADD fails for want of an image only on a missing current image, and on success its step image exists |
| `Instructions.AddContainersImages` | libredo/Redomat.py:358-386 | the copy container always finds its image, since the directory container has just committed onto it; on success the step image exists |
| `Instructions.WorkdirImages` | libredo/Redomat.py:388-399 | WORKDIR fails for want of an image only on a missing current image, and on success its step image exists |
| `Instructions.EntrypointImages` | libredo/Redomat.py:401-415 | ENTRYPOINT fails for want of an image only on a missing current image, and on success its step image exists |
| `Instructions.WorkdirAsWrittenLosesStepImage` | libredo/Redomat.py:225-399 | as written, a WORKDIR on an existing step image succeeds but the image of the step the counter has reached does not exist; the corrected handler creates it |
| `Instructions.AddAsWrittenLosesStepImage` | libredo/Redomat.py:225-386 | as written, a successful ADD leaves the image of the step the counter has reached missing; the corrected handler creates it |
| `Instructions.MkdirKeepsOut` | libredo/Redomat.py:358-368 | the directory container creates no image other than the current one |
| `Instructions.CopyAsWrittenKeepsOut` | libredo/Redomat.py:371-386 | as written, the copy container creates no image other than the current one |
| `Instructions.RunKeepsOut` | libredo/Redomat.py:315-332 | RUN creates no image other than that of the stage's next step |
| `Instructions.WorkdirAsWrittenReusesName` | libredo/Redomat.py:313-393 | as written, WORKDIR names its container after the step it advances to, so the RUN after it, which names its container after the current step, is refused its name even on an existing image; after the corrected WORKDIR that RUN is not |
| `Instructions.SuffixedStepsEqual` | libredo/Redomat.py:358-371 | a padded step number followed by a name suffix determines both |
| `Instructions.DigitRunOfName` | libredo/Redomat.py:358-371 | in a step number followed by a name suffix, the digits end where the suffix starts |
| `Instructions.NamesDiffer` | libredo/Redomat.py:315-410 | two container names of one stage are equal only for the same step and the same suffix |
| `Instructions.TakeName` | libredo/Redomat.py:315-410 | a step that takes the name of a step behind its new counter, or an ADD container name at it, leaves the names of the steps still to come free |
| `Instructions.DispatchNames` | libredo/Redomat.py:260-415 | while the names of the steps still to come are free, an instruction line is never refused a container name, and on success they stay free |
| `Instructions.ExecuteNames` | libredo/Redomat.py:295-415 | the same for each handler |
| `Instructions.RunNames` | libredo/Redomat.py:313-332 | RUN takes the name of the current step, which no later step uses |
| `Instructions.AddNames` | libredo/Redomat.py:335-386 | ADD takes two suffixed names that no plain step and no later ADD uses |
| `Instructions.AddContainersNames` | libredo/Redomat.py:358-386 | the directory container leaves the copy container's name free |
| `Instructions.MkdirNames` | libredo/Redomat.py:358-368 | the directory container takes the next step's name with its suffix |
| `Instructions.CopyNames` | libredo/Redomat.py:371-386 | the copy container takes the next step's name with its suffix |
| `Instructions.WorkdirNames` | libredo/Redomat.py:393-399 | (corrected; see Findings) WORKDIR takes the name of the current step, as RUN does |
| `Instructions.EntrypointNames` | libredo/Redomat.py:410-415 | (corrected; see Findings) ENTRYPOINT takes the name of the current step, as RUN does |
| `Executor.Refresh` | libredo/Redomat.py:225 | after an action the current image is `<build_id>:<stage>-<seq>`, and nothing else changes |
| `Executor.RunAction` | libredo/Redomat.py:219-225 | one pass of the action loop stays in the stage and only extends the trace; on success the current image names the stage's latest step |
| `Executor.RunActions` | libredo/Redomat.py:219-225 | the action loop stays in the stage and only extends the trace |
| `Executor.ActionsAdvance` | libredo/Redomat.py:219-225 | when all actions succeed the counter has moved by the sum of their advances, and the current image names the stage's latest step |
| `Executor.DryRunActions` | libredo/Redomat.py:220-225 | in a dry run no action fails, reaches the engine or moves the counter |
| `Executor.RunStage` | libredo/Redomat.py:171-228 | building a stage only extends the trace, and makes the stage current when it is declared; its closing tag is refused when the image of its last step does not exist |
| `Executor.StageTrace` | libredo/Redomat.py:183-228 | a stage built outside a dry run opens by inspecting its pre-image and tagging it `<stage>-000`, ends with the counter at the sum of its actions' advances, and closes by tagging its latest step image, which exists, as `<build_id>:<stage>` |
| `Executor.RunChain` | libredo/Redomat.py:170-228 | the build only extends the engine trace |
| `Executor.DryRunOnlyInspects` | libredo/Redomat.py:193-227 | a dry run sends the engine only inspections and fails only on an undeclared stage |
| `Executor.StageMissingPreImage` | libredo/Redomat.py:187-197 | a stage fails on its pre-image only when that image is unknown to the engine |
| `Executor.ActionsFindImages` | libredo/Redomat.py:219-225 | no action fails for want of a pre-image; outside a dry run, starting from an existing image, no action fails for want of an image and the current image exists after the last one |
| `Executor.StageFindsImages` | libredo/Redomat.py:183-228 | outside a dry run a stage never fails for want of an image: the step 000 tag, each instruction and the closing tag find theirs |
| `Executor.BuildFindsImages` | libredo/Redomat.py:170-228 | outside a dry run a build never fails for want of an image |
| `Executor.ActionsKeepNames` | libredo/Redomat.py:219-225 | while the names of the stage's steps still to come are free, no action is refused its container's name |
| `Executor.UnnamedAhead` | libredo/Redomat.py:183-184 | a stage with none of its step names taken has the names of all its steps free, whatever the counter |
| `Executor.StageKeepsNames` | libredo/Redomat.py:183-228 | a stage none of whose step names is taken is never refused a container name: no two of its containers share one |
| `Executor.StageTagsItself` | libredo/Redomat.py:228 | a stage built outside a dry run makes `<build_id>:<stage>` known to the engine |
| `Executor.OwnPreImagesFound` | libredo/Redomat.py:139-202 | outside a dry run a build fails on a missing pre-image only for the root entry; the images it makes itself are always found |
| `Executor.RootMissesPreImage` | libredo/Redomat.py:170-197 | when the root entry's stage fails on its pre-image, the build fails on that unknown image |
| `Executor.RestFindsPreImages` | libredo/Redomat.py:139-228 | once the root stage is built, the rest of the build never misses a pre-image |
| `Executor.NextPreImageKnown` | libredo/Redomat.py:139-228 | after the root stage is built, the next entry's pre-image is known to the engine |
| `Executor.BuildStartsAtRoot` | libredo/Redomat.py:170-202 | a successful build first inspects the root entry's pre-image and tags it as the root stage's step 000 |
| `Executor.BuildEndsAtTarget` | libredo/Redomat.py:170-228 | a successful build ends with the target stage current and its last call tagging the target's latest step image as `<build_id>:<target>` |
| `Executor.StageEnd` | libredo/Redomat.py:225-228 | a stage built outside a dry run ends by tagging its latest step image under its own name |
| `Redomat.Redomat.constructor` | libredo/Redomat.py:11-39 | a new builder has no declarations, no stage, no image, counter 0 and every option off |
| `Redomat.Redomat.SetEntryStage` | libredo/Redomat.py:41-42 | sets the entry stage |
| `Redomat.Redomat.AddDeclarations` | libredo/Redomat.py:54-58 | sets the declarations of the next build |
| `Redomat.Redomat.SetDryRun` | libredo/Redomat.py:60-65 | sets the dry-run flag |
| `Redomat.Redomat.SetUser` | libredo/Redomat.py:67-74 | sets the user name |
| `Redomat.Redomat.SetMatchBuildId` | libredo/Redomat.py:76-81 | sets the match build id |
| `Redomat.Redomat.SetBuildId` | libredo/Redomat.py:83-90 | sets the build id |
| `Redomat.Redomat.AllowForeignImages` | libredo/Redomat.py:232-237 | foreign images are allowed afterwards, whatever the flag |
| `Redomat.Redomat.ResetSeq` | libredo/Redomat.py:279-280 | the counter is 0 |
| `Redomat.Redomat.CurrentSeq` | libredo/Redomat.py:282-286 | the label has at least three digits, exactly three below 1000, and reads back as the counter |
| `Redomat.Redomat.NextSeq` | libredo/Redomat.py:288-293 | the counter grows by exactly one and the new label is returned |
| `Redomat.Redomat.HandleFrom` | libredo/Redomat.py:295-304 | the FROM handler is the failing step |
| `Redomat.Redomat.CreateOnCurrent` | libredo/Redomat.py:318 | `create_container` on the current image appends the call and answers with the refusal `Refusal` states |
| `Redomat.Redomat.HandleRun` | libredo/Redomat.py:307-332 | the RUN handler's new state and failure are those of `RunStep` |
| `Redomat.Redomat.HandleAdd` | libredo/Redomat.py:335-351 | the ADD handler's new state and failure are those of `AddStep` |
| `Redomat.Redomat.AddFile` | libredo/Redomat.py:353-386 | ADD's containers change the state as `AddContainers` does |
| `Redomat.Redomat.MakeTargetDir` | libredo/Redomat.py:358-368 | the directory container changes the state as `MkdirStep` does |
| `Redomat.Redomat.CopyData` | libredo/Redomat.py:371-386 | (corrected; see Findings) the copy container changes the state as `CopyStep` does |
| `Redomat.Redomat.HandleWorkdir` | libredo/Redomat.py:388-399 | (corrected; see Findings) the WORKDIR handler changes the state as `WorkdirStep` does |
| `Redomat.Redomat.HandleEntrypoint` | libredo/Redomat.py:401-415 | (corrected; see Findings) the ENTRYPOINT handler changes the state as `EntrypointStep` does |
| `Redomat.Redomat.ExecuteInstruction` | libredo/Redomat.py:274-277 | the handler call changes the state as `Execute` does |
| `Redomat.Redomat.HandleDockerline` | libredo/Redomat.py:260-277 | `handle_dockerline` changes the state as `Dispatch` does |
| `Redomat.Redomat.GenerateBuildChain` | libredo/Redomat.py:113-154 | the loop returns the chain of `Walk` and leaves the declarations with the root stage's first line popped |
| `Redomat.Redomat.PopFromLine` | libredo/Redomat.py:145-149 | the root stage's first line is popped and must be a FROM line naming the chain's last pre-image |
| `Redomat.Redomat.BuildStage` | libredo/Redomat.py:171-228 | one pass of `build`'s loop changes the state as `RunStage` does |
| `Redomat.Redomat.RunActionLines` | libredo/Redomat.py:219-225 | the loop over a stage's lines changes the state as `RunActions` does |
| `Redomat.Redomat.RunActionLine` | libredo/Redomat.py:220-225 | one line of that loop changes the state as `RunAction` does |
| `Redomat.Redomat.Build` | libredo/Redomat.py:156-228 | `build` generates a build id when none is set, returns the planner's error unchanged, and otherwise changes the state as `RunChain` does on the planned chain |
| `Scenarios.TwoStagesRank` | libredo/Redomat.py:125-140 | the two-stage declaration has no prestage cycle |
| `Scenarios.FromWord` | libredo/Redomat.py:145-148 | a FROM line naming a single word names that word |
| `Scenarios.BaseIsRoot` | libredo/Redomat.py:145-149 | the root stage ends the chain at its FROM image and its line is popped |
| `Scenarios.PlanWithoutMatchId` | libredo/Redomat.py:113-154 | without a match build id both stages are built, the target from this build's image of its prestage |
| `Scenarios.PlanWithMatchId` | libredo/Redomat.py:103-136 | with a listed match image the chain stops at once and the prestage is not built |
| `Scenarios.RunLineParses` | libredo/Redomat.py:265-277 | `RUN apt-get update` parses to a RUN of `apt-get update` |
| `Scenarios.WorkdirLineParses` | libredo/Redomat.py:265-277 | `WORKDIR /srv` parses to a WORKDIR of `/srv` |
| `Scenarios.TwoActions` | libredo/Redomat.py:219-225 | two lines run one after the other, the second only when the first succeeds |
| `Scenarios.RunLineSucceeds` | libredo/Redomat.py:307-332 | a RUN line on an existing image whose container exits with status 0 leaves the next step image current and existing |
| `Scenarios.WorkdirLineSucceeds` | libredo/Redomat.py:388-399 | a WORKDIR line on an existing image leaves the next step image current and existing |
| `Scenarios.RunThenWorkdir` | libredo/Redomat.py:219-225 | a RUN line and a WORKDIR line on an existing image both succeed, move the counter by two and leave the last step image current and existing |
| `Scenarios.WorkdirThenRun` | libredo/Redomat.py:219-225 | a WORKDIR line then a RUN line on an existing image, with the names ahead free, both succeed under the corrected WORKDIR |
| `Scenarios.RunWorkdirStageBuilds` | libredo/Redomat.py:183-228 | a stage of a RUN line and a WORKDIR line builds once its pre-image exists: the counter reaches 2 and the closing tag of step 002 creates `<build_id>:<stage>` |
| `Scenarios.StageOpens` | libredo/Redomat.py:183-202 | a stage whose pre-image exists and whose step names are free opens on step 000 with that image existing and all its step names free |
| `Scenarios.AppStageBuilds` | libredo/Redomat.py:183-228 | once `<build_id>:base` exists, the stage `app` (`RUN apt-get update`, `WORKDIR /srv`) builds and `<build_id>:app` exists |
| `Scenarios.WorkdirAsWrittenCannotClose` | libredo/Redomat.py:225-399 | as written, after a RUN a WORKDIR leaves step 002 missing, so the closing tag of the stage is refused |
| `Scenarios.AppWorkdirAsWrittenCannotClose` | libredo/Redomat.py:225-399 | as written, the stage `app` cannot close: its closing tag names `<build_id>:app-002`, which nothing created |

## Left out

- The Docker client and its transport (`libredo/Redomat.py:17`) are not modelled; `engine.dfy` stands in for them. So is `find_images_by_pattern` (`libredo/Redomat.py:256-258`): the listing the engine returns for a name pattern is an oracle.
- Engine errors other than a refused image or a taken container name are not modelled: lost connections, failed starts or commits. Container and image ids are not modelled either, since the source only logs them.
- Logging (`libredo/Redomat.py:44-52`) is output only and is not modelled.
- The clock and the login name are inputs. The generated build id takes the time stamp as a parameter `stamp`, and the constructor takes the user name.
- `os.path.exists` is an oracle on the file's path. `os.path.abspath` and the volume and bind dictionaries (`libredo/Redomat.py:356, 374-381`) are reduced to whether a container mounts the stage's files.
- The dead `if False:` block (`libredo/Redomat.py:207-217`) and the unused `find_images` (`libredo/Redomat.py:239-244`) are not modelled.
- The `hasattr` test in `handle_dockerline` is not modelled. Every exposed verb has a handler, so it never fires.
- ADD's `is None` tests on the file name and target never fire, because `split()` yields strings. A parameter that does not split into exactly two words raises in the source's unpacking; the model reports it as `BadArguments`.
- A stage missing from the declarations fails planning with `StageUndeclared`. In the source, `decl.stage(sid)` returns a non-dict and the type assertion fails.
- Before `add` is called the declarations are empty in the model. In the source the attribute does not exist yet.
- Whitespace is the six ASCII characters Python 2's `str.strip()` and `str.split()` use on byte strings. Unicode whitespace is not modelled.
- The entry stage is held by value. That matches the source's `==` on dictionaries; identity and aliasing are not modelled.
- Planning's in-place pop of the root stage's FROM line is modelled as a new `decl` map, not as a shared mutable list.
- `Redomat.Redomat.GenerateBuildChain`: an unset build id is the empty string, so a chain planned before any id is set names `:<prestage>` where the source formats `None:<prestage>`; `build` always sets the id before planning.
- `Planner.Walk`: declarations whose prestage links form a cycle are excluded by the ranking, even the ones on which the source stops (a prestage on the cycle resolves to a cached image, or the entry stage lies on the cycle).
- `Executor.StageKeepsNames`: container names are proved fresh within a stage, from a trace in which none of the stage's step names is taken. That two stages of one build never share a container name, and that no earlier build with the same build id left containers behind, is not proved.
- `Executor.RunStage`: the dry-run branch still inspects the pre-image, as the source does, and discards a failed inspection. The engine's answer to an inspection in a dry run is not used further.

## Findings

| source | as written | input that shows it | evidently intended | confidence | as-written member | corrected member |
|---|---|---|---|---|---|---|
| libredo/Redomat.py:368-415 | ADD, WORKDIR and ENTRYPOINT advance the counter but commit their last container onto the current image without a tag; `build` then renames the current image to `<build_id>:<stage>-<seq>` for the advanced counter (line 225), an image nothing created, so the next instruction's container or the stage's closing tag names a missing image | stage `app` with the lines `RUN apt-get update` and `WORKDIR /srv`: RUN commits `<build_id>:app-001`, WORKDIR commits onto it, and the closing tag names `<build_id>:app-002` | commit the last container as the step the counter reaches, `<stage>-<seq>` under the build id, as RUN does | high, not executed | `Instructions.WorkdirAsWritten` and `Instructions.AddContainersAsWritten` (shown by `Instructions.WorkdirAsWrittenLosesStepImage`, `Instructions.AddAsWrittenLosesStepImage` and `Scenarios.AppWorkdirAsWrittenCannotClose`) | `Instructions.WorkdirStep`, `Instructions.CopyStep` and `Instructions.EntrypointStep` (with `Instructions.ExecuteImages`, `Executor.BuildFindsImages` and `Scenarios.AppStageBuilds`) |
| libredo/Redomat.py:413-415 | ENTRYPOINT calls `create_container` and `commit` on `self.client`, an attribute the builder never sets, so the handler raises `AttributeError` after advancing the counter | any stage with the line `ENTRYPOINT /bin/sh`, built outside a dry run | use `self.dclient` like every other handler: create the container with the new command and commit it as its step | high, not executed | `Instructions.EntrypointAsWritten` (shown by `Instructions.EntrypointAsWrittenAlwaysFails`) | `Instructions.EntrypointStep` (with `Instructions.EntrypointStepEffects`) |
| libredo/Redomat.py:313-410 | RUN names its container after the current step (`_seq()`, line 315), but WORKDIR and ENTRYPOINT name theirs after the advanced counter (`_nextseq()`, lines 393 and 410). Containers are never removed, so after a WORKDIR or an ENTRYPOINT the next RUN asks for a container name already taken, and the engine refuses it. As written, that RUN is first refused for the missing image of the first row, and ENTRYPOINT never reaches the engine (second row); the name clash remains once those are corrected | a stage with the lines `WORKDIR /srv` and `RUN make`: WORKDIR creates `<build_id>-<stage>-001` and RUN asks for `<build_id>-<stage>-001` again | name every container that becomes a step after the current step, as RUN does, so that no two containers of a stage share a name | high, not executed | `Instructions.WorkdirAsWritten` (shown by `Instructions.WorkdirAsWrittenReusesName`) | `Instructions.WorkdirStep` and `Instructions.EntrypointStep` (with `Instructions.DispatchNames`, `Executor.StageKeepsNames` and `Scenarios.WorkdirThenRun`) |
