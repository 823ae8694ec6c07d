/**
 * The build-chain planner: from the target stage, follow prestage links
 * backwards until a prestage resolves to an existing image, a root stage's
 * FROM line names the base image, or the entry stage is reached.
 * The chain lists the target first; the executor consumes it from the end.
 */
module Planner {
  import opened Wrappers
  import opened Text
  import opened Stages
  import opened DockerEngine
  import opened Resolver

  /** What the planner reads besides the declarations. */
  datatype PlanCtx = PlanCtx(buildId: string, matchBuildId: string, listed: seq<ImageInfo>, entry: Option<StageDecl>)

  /**
   * The outcome of a walk, and the root stage whose first instruction the
   * walk popped (the pop also happens when that instruction is not a FROM).
   */
  datatype Walked = Walked(outcome: Result<seq<ChainEntry>>, popped: Option<string>)

  function Resolve(ctx: PlanCtx, stage: string): Option<string>
  {
    ResolveStageToImage(ctx.matchBuildId, ctx.listed, stage)
  }

  /** The reference under which this build will tag `stage`. */
  function BuiltRef(buildId: string, stage: string): string
  {
    buildId + ":" + stage
  }

  /** The image a FROM line names: the text after "FROM " up to the next space, stripped. */
  function FromImage(fromline: string): string
    requires StartsWith(fromline, "FROM ")
  {
    Strip(BeforeFirst(fromline[5..], ' '))
  }

  /** The FROM image is `fromline.split(" ")[1].strip()`. */
  lemma FromImageIsSecondWord(fromline: string)
    requires StartsWith(fromline, "FROM ")
    ensures |SplitOn(fromline, ' ')| >= 2
    ensures FromImage(fromline) == Strip(SplitOn(fromline, ' ')[1])
  {
    assert fromline == "FROM" + [' '] + fromline[5..];
    SplitAfterWord("FROM", ' ', fromline[5..]);
    SplitHeadTail(fromline[5..], ' ');
  }

  /** The walk's chain with `prefix` in front of it. */
  function Prefixed(prefix: seq<ChainEntry>, w: Walked): Walked
  {
    Walked(if w.outcome.Ok? then Ok(prefix + w.outcome.value) else w.outcome, w.popped)
  }

  lemma PrefixedTwice(a: seq<ChainEntry>, b: seq<ChainEntry>, w: Walked)
    ensures Prefixed(a, Prefixed(b, w)) == Prefixed(a + b, w)
  {
    if w.outcome.Ok? {
      assert a + (b + w.outcome.value) == (a + b) + w.outcome.value;
    }
  }

  /** A root stage whose first instruction is a FROM line ends the walk at the image it names. */
  lemma RootEndAtFrom(decl: Declarations, sid: string)
    requires sid in decl && !HasPrestage(decl[sid]) && decl[sid].actions != []
    requires StartsWith(Strip(decl[sid].actions[0]), "FROM ")
    ensures RootEnd(decl, sid) == Walked(Ok([ChainEntry(sid, FromImage(Strip(decl[sid].actions[0])))]), Some(sid))
  {
  }

  lemma PrefixedNothing(w: Walked)
    ensures Prefixed([], w) == w
  {
    if w.outcome.Ok? {
      assert [] + w.outcome.value == w.outcome.value;
    }
  }

  /** `generate_build_chain(sid)` on the declarations `decl`. */
  function Walk(ctx: PlanCtx, decl: Declarations, sid: string, rank: map<string, nat>): (w: Walked)
    requires Ranked(decl, rank)
    ensures w.outcome.Ok? ==> |w.outcome.value| >= 1 && w.outcome.value[0].stage == sid
    decreases if sid in decl then rank[sid] + 1 else 0
  {
    if sid !in decl then Walked(Err(StageUndeclared(sid)), None)
    else
      var stage := decl[sid];
      if HasPrestage(stage) then
        var p := stage.prestage;
        match Resolve(ctx, p)
        case Some(image) => Walked(Ok([ChainEntry(sid, image)]), None)
        case None =>
          var entry := ChainEntry(sid, BuiltRef(ctx.buildId, p));
          if ctx.entry == Some(stage) then Walked(Ok([entry]), None)
          else Prefixed([entry], Walk(ctx, decl, p, rank))
      else RootEnd(decl, sid)
  }

  /**
   * How the walk ends at a stage without a prestage: its first instruction
   * is popped and must be a FROM line, which names the image to start from.
   */
  function RootEnd(decl: Declarations, sid: string): (w: Walked)
    requires sid in decl && !HasPrestage(decl[sid])
    ensures w.popped == if decl[sid].actions == [] then None else Some(sid)
  {
    var stage := decl[sid];
    if stage.actions == [] then Walked(Err(EmptyStage(sid)), None)
    else
      var fromline := Strip(stage.actions[0]);
      if !StartsWith(fromline, "FROM ") then Walked(Err(MissingFrom(sid)), Some(sid))
      else Walked(Ok([ChainEntry(sid, FromImage(fromline))]), Some(sid))
  }

  /** One step of the walk through an unresolved prestage that is not the entry stage. */
  lemma WalkThroughPrestage(ctx: PlanCtx, decl: Declarations, sid: string, rank: map<string, nat>)
    requires Ranked(decl, rank)
    requires sid in decl && HasPrestage(decl[sid])
    requires Resolve(ctx, decl[sid].prestage) == None && ctx.entry != Some(decl[sid])
    ensures Walk(ctx, decl, sid, rank) ==
      Prefixed([ChainEntry(sid, BuiltRef(ctx.buildId, decl[sid].prestage))], Walk(ctx, decl, decl[sid].prestage, rank))
  {
  }

  // ---- what a chain looks like -------------------------------------------

  /** Entry `a` is followed by `b`: `a`'s prestage is `b`'s stage, unresolved, and still to be built. */
  ghost predicate Link(ctx: PlanCtx, decl: Declarations, a: ChainEntry, b: ChainEntry)
  {
    && a.stage in decl
    && HasPrestage(decl[a.stage])
    && decl[a.stage].prestage == b.stage
    && Resolve(ctx, b.stage) == None
    && ctx.entry != Some(decl[a.stage])
    && a.preImage == BuiltRef(ctx.buildId, b.stage)
  }

  /** The stage's prestage resolved to an existing image, which the stage starts from. */
  ghost predicate CacheHit(ctx: PlanCtx, decl: Declarations, e: ChainEntry)
  {
    && e.stage in decl
    && HasPrestage(decl[e.stage])
    && Resolve(ctx, decl[e.stage].prestage) == Some(e.preImage)
  }

  /** The stage has no prestage and starts from the image its FROM line names. */
  ghost predicate RootFrom(decl: Declarations, e: ChainEntry)
  {
    && e.stage in decl
    && !HasPrestage(decl[e.stage])
    && decl[e.stage].actions != []
    && StartsWith(Strip(decl[e.stage].actions[0]), "FROM ")
    && e.preImage == FromImage(Strip(decl[e.stage].actions[0]))
  }

  /** The stage is the entry stage: the walk stops although its prestage has to be built. */
  ghost predicate EntryStop(ctx: PlanCtx, decl: Declarations, e: ChainEntry)
  {
    && e.stage in decl
    && HasPrestage(decl[e.stage])
    && Resolve(ctx, decl[e.stage].prestage) == None
    && ctx.entry == Some(decl[e.stage])
    && e.preImage == BuiltRef(ctx.buildId, decl[e.stage].prestage)
  }

  /**
   * A chain for `target`: it starts at the target, consecutive entries
   * follow prestage links, and the last entry ends the walk in one of the
   * three ways.
   */
  ghost predicate ChainFor(ctx: PlanCtx, decl: Declarations, target: string, c: seq<ChainEntry>)
  {
    && |c| >= 1
    && c[0].stage == target
    && (forall i :: 0 <= i < |c| - 1 ==> Link(ctx, decl, c[i], c[i + 1]))
    && (CacheHit(ctx, decl, c[|c| - 1]) || RootFrom(decl, c[|c| - 1]) || EntryStop(ctx, decl, c[|c| - 1]))
  }

  /** The three ways a chain ends exclude each other. */
  lemma EndingsExclusive(ctx: PlanCtx, decl: Declarations, e: ChainEntry)
    ensures !(CacheHit(ctx, decl, e) && RootFrom(decl, e))
    ensures !(CacheHit(ctx, decl, e) && EntryStop(ctx, decl, e))
    ensures !(RootFrom(decl, e) && EntryStop(ctx, decl, e))
  {
  }

  /**
   * Every chain the planner returns has the shape above, and the walk
   * popped a FROM line exactly when it ended at a root stage, whose
   * instruction it was.
   */
  lemma {:induction false} WalkShape(ctx: PlanCtx, decl: Declarations, sid: string, rank: map<string, nat>)
    requires Ranked(decl, rank)
    ensures var w := Walk(ctx, decl, sid, rank);
      w.outcome.Ok? ==>
        && ChainFor(ctx, decl, sid, w.outcome.value)
        && (w.popped.Some? <==> RootFrom(decl, w.outcome.value[|w.outcome.value| - 1]))
        && (w.popped.Some? ==> w.popped.value == w.outcome.value[|w.outcome.value| - 1].stage)
    decreases if sid in decl then rank[sid] + 1 else 0
  {
    var w := Walk(ctx, decl, sid, rank);
    if sid in decl && w.outcome.Ok? {
      var stage := decl[sid];
      if HasPrestage(stage) && Resolve(ctx, stage.prestage).None? && ctx.entry != Some(stage) {
        var p := stage.prestage;
        var rest := Walk(ctx, decl, p, rank);
        WalkShape(ctx, decl, p, rank);
        var c := w.outcome.value;
        var e := ChainEntry(sid, BuiltRef(ctx.buildId, p));
        assert c == [e] + rest.outcome.value;
        assert c[|c| - 1] == rest.outcome.value[|rest.outcome.value| - 1];
        forall i | 0 <= i < |c| - 1
          ensures Link(ctx, decl, c[i], c[i + 1])
        {
          if i > 0 {
            assert c[i] == rest.outcome.value[i - 1] && c[i + 1] == rest.outcome.value[i];
          }
        }
      }
    }
  }

  /**
   * The ways a walk fails: a stage reached but undeclared, a root stage
   * with no instruction, or a root stage whose first instruction (popped
   * all the same) is not a FROM line.
   */
  lemma {:induction false} WalkErrors(ctx: PlanCtx, decl: Declarations, sid: string, rank: map<string, nat>)
    requires Ranked(decl, rank)
    ensures var w := Walk(ctx, decl, sid, rank);
      w.outcome.Err? ==>
        match w.outcome.error
        case StageUndeclared(s) => s !in decl && w.popped == None
        case EmptyStage(s) => s in decl && !HasPrestage(decl[s]) && decl[s].actions == [] && w.popped == None
        case MissingFrom(s) =>
          && s in decl && !HasPrestage(decl[s]) && decl[s].actions != []
          && !StartsWith(Strip(decl[s].actions[0]), "FROM ")
          && w.popped == Some(s)
        case _ => false
    decreases if sid in decl then rank[sid] + 1 else 0
  {
    if sid in decl {
      var stage := decl[sid];
      if HasPrestage(stage) && Resolve(ctx, stage.prestage).None? && ctx.entry != Some(stage) {
        WalkErrors(ctx, decl, stage.prestage, rank);
      }
    }
  }

  /** A prestage that resolves ends the chain at once, however long the declared chain is. */
  lemma PlanStopsAtCacheHit(ctx: PlanCtx, decl: Declarations, target: string, rank: map<string, nat>)
    requires Ranked(decl, rank)
    requires target in decl && HasPrestage(decl[target])
    requires Resolve(ctx, decl[target].prestage).Some?
    ensures Walk(ctx, decl, target, rank) ==
      Walked(Ok([ChainEntry(target, Resolve(ctx, decl[target].prestage).value)]), None)
  {
  }

  /**
   * Without a match build id nothing resolves: every entry but the last
   * is still to be built, and the last one starts from a FROM image or is
   * the entry stage.
   */
  lemma NoMatchIdBuildsEverything(ctx: PlanCtx, decl: Declarations, target: string, rank: map<string, nat>)
    requires Ranked(decl, rank)
    requires ctx.matchBuildId == ""
    ensures var w := Walk(ctx, decl, target, rank);
      w.outcome.Ok? ==>
        var c := w.outcome.value;
        && (forall i :: 0 <= i < |c| - 1 ==> c[i].preImage == BuiltRef(ctx.buildId, c[i + 1].stage))
        && (RootFrom(decl, c[|c| - 1]) || EntryStop(ctx, decl, c[|c| - 1]))
  {
    WalkShape(ctx, decl, target, rank);
  }
}
