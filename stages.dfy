/**
 * Stage declarations, build-chain entries and the ways a build fails.
 */
module Stages {
  import opened Wrappers

  /**
   * One declared stage: the stage it builds on ("" when it has none, as
   * for a missing or empty `prestage` key) and its instruction lines.
   */
  datatype StageDecl = StageDecl(prestage: string, actions: seq<string>)

  /** The stage ids and their declarations. */
  type Declarations = map<string, StageDecl>

  /** Python's `if prestage:`. */
  predicate HasPrestage(s: StageDecl)
  {
    s.prestage != ""
  }

  /** A pair (stage id, image the stage starts from). */
  datatype ChainEntry = ChainEntry(stage: string, preImage: string)

  /** The exceptions the builder raises. */
  datatype BuildError =
    | StageUndeclared(stage: string)        // a referenced stage has no declaration
    | EmptyStage(stage: string)             // a root stage has no instruction to pop
    | MissingFrom(stage: string)            // a root stage's first instruction is not FROM
    | PreImageUnavailable(ref: string)      // the image a stage starts from cannot be inspected
    | ImageUnavailable(image: string)       // the engine refused a container or tag on an image that does not exist
    | NameInUse(container: string)          // the engine refused a container under a name already taken
    | UnsupportedCommand(verb: string)      // an instruction verb outside the allow-list
    | BadArguments(parameter: string)       // ADD not given exactly a file name and a target
    | NoSuchFile(path: string)              // ADD source file missing
    | MkdirFailed(container: string)        // ADD's target-directory container exited non-zero
    | ExitNonZero(container: string)        // RUN's or ADD's copy container exited non-zero
    | FromReached                           // the FROM handler ran: an internal invariant failed
    | NoClientAttribute                     // ENTRYPOINT as written: `self.client` does not exist

  datatype Result<T> = Ok(value: T) | Err(error: BuildError)

  /**
   * A ranking under which every declared prestage link goes down: the
   * prestage links are free of cycles, so walking them ends.
   */
  ghost predicate Ranked(decl: Declarations, rank: map<string, nat>)
  {
    && (forall s :: s in decl ==> s in rank)
    && (forall s :: s in decl && HasPrestage(decl[s]) && decl[s].prestage in decl ==>
          rank[decl[s].prestage] < rank[s])
  }

  /** The declarations after the root stage `popped` (if any) had its first instruction taken off. */
  function PopFirstAction(decl: Declarations, popped: Option<string>): (d: Declarations)
    ensures d.Keys == decl.Keys
    ensures forall s :: s in decl && Some(s) != popped ==> d[s] == decl[s]
    ensures popped.Some? && popped.value in decl && decl[popped.value].actions != [] ==>
      d[popped.value] == decl[popped.value].(actions := decl[popped.value].actions[1..])
  {
    if popped.Some? && popped.value in decl && decl[popped.value].actions != [] then
      var s := decl[popped.value];
      decl[popped.value := s.(actions := s.actions[1..])]
    else decl
  }

  /** Popping keeps every prestage link, so a ranking stays valid. */
  lemma PopKeepsRanked(decl: Declarations, popped: Option<string>, rank: map<string, nat>)
    requires Ranked(decl, rank)
    ensures Ranked(PopFirstAction(decl, popped), rank)
  {
  }
}
