/**
 * The container engine the builder talks to, reduced to the calls it makes.
 * Every call is appended to a trace; what the engine answers comes from
 * oracles fixed when the engine is created: the image listing for a name
 * pattern, the image references that already exist, and the exit status
 * each container reports when waited on. An inspection, a tag or a
 * container creation on an image that does not exist is refused, and so
 * is a container creation under a name an earlier container already has.
 */
module DockerEngine {
  import opened Wrappers

  /** One entry of the engine's image listing. */
  datatype ImageInfo = ImageInfo(repository: string, tag: string, id: string)

  /** One call made to the engine, with the arguments that matter to the build. */
  datatype Call =
    | Inspect(ref: string)
    | Tag(source: string, repository: string, tag: string)
    | Create(image: string, name: string, command: Option<string>, workingDir: Option<string>, mountsFiles: bool)
    | Start(container: string, privileged: bool, bindsFiles: bool)
    | Wait(container: string)
    | Commit(container: string, repository: string, commitTag: Option<string>)

  /**
   * The image reference a call brings into existence when the engine
   * accepts it: a tag its `repository:tag`, a commit its repository with
   * the tag appended when one is given (without one, the commit re-points
   * the reference named as repository).
   */
  function Created(c: Call): (refs: set<string>)
    ensures |refs| <= 1
    ensures c.Tag? ==> refs == {c.repository + ":" + c.tag}
    ensures c.Commit? && c.commitTag.Some? ==> refs == {c.repository + ":" + c.commitTag.value}
    ensures c.Commit? && c.commitTag.None? ==> refs == {c.repository}
    ensures !c.Tag? && !c.Commit? ==> refs == {}
  {
    match c
    case Tag(_, repo, tag) => {repo + ":" + tag}
    case Commit(_, repo, tag) => if tag.Some? then {repo + ":" + tag.value} else {repo}
    case _ => {}
  }

  /**
   * Whether the engine, knowing the references `known`, carries out the
   * call: an inspection, a tag and a container creation each name an
   * image, and the engine refuses them when that image does not exist.
   */
  predicate Accepted(known: set<string>, c: Call)
  {
    match c
    case Inspect(ref) => ref in known
    case Tag(source, _, _) => source in known
    case Create(image, _, _, _, _) => image in known
    case _ => true
  }

  /** The references the engine can inspect after `calls`, given those present before. */
  function Known(present: set<string>, calls: seq<Call>): (refs: set<string>)
    ensures present <= refs
    decreases |calls|
  {
    if calls == [] then present
    else
      var known := Known(present, calls[..|calls| - 1]);
      if Accepted(known, calls[|calls| - 1]) then known + Created(calls[|calls| - 1]) else known
  }

  /**
   * The container names taken after `calls`: a creation takes its name
   * when the engine carries it out, which it does only when the image
   * exists and no container has that name yet.
   */
  function Containers(present: set<string>, calls: seq<Call>): (names: set<string>)
    ensures forall n :: n in names ==> exists k :: 0 <= k < |calls| && calls[k].Create? && calls[k].name == n
    decreases |calls|
  {
    if calls == [] then {}
    else
      var before := calls[..|calls| - 1];
      var names := Containers(present, before);
      var c := calls[|calls| - 1];
      assert forall k :: 0 <= k < |before| ==> before[k] == calls[k];
      if c.Create? && c.image in Known(present, before) && c.name !in names then names + {c.name} else names
  }

  /** One more call takes a name only when it is a creation the engine carries out. */
  lemma ContainersAppend(present: set<string>, calls: seq<Call>, c: Call)
    ensures var names := Containers(present, calls);
      Containers(present, calls + [c]) ==
        if c.Create? && c.image in Known(present, calls) && c.name !in names then names + {c.name} else names
  {
    assert (calls + [c])[..|calls|] == calls;
  }

  /** Calls none of which is a creation take no name. */
  lemma {:induction false} ContainersWithoutCreate(present: set<string>, calls: seq<Call>, more: seq<Call>)
    requires forall k :: 0 <= k < |more| ==> !more[k].Create?
    ensures Containers(present, calls + more) == Containers(present, calls)
    decreases |more|
  {
    if more == [] {
      assert calls + more == calls;
    } else {
      var all := calls + more;
      assert all[..|all| - 1] == calls + more[..|more| - 1];
      ContainersWithoutCreate(present, calls, more[..|more| - 1]);
    }
  }

  /** A creation the engine carries out, followed by calls that create no container, takes exactly its name. */
  lemma CreateTakesName(present: set<string>, calls: seq<Call>, c: Call, more: seq<Call>)
    requires c.Create? && c.image in Known(present, calls) && c.name !in Containers(present, calls)
    requires forall k :: 0 <= k < |more| ==> !more[k].Create?
    ensures Containers(present, calls + [c] + more) == Containers(present, calls) + {c.name}
  {
    ContainersAppend(present, calls, c);
    ContainersWithoutCreate(present, calls + [c], more);
  }

  /** One more call adds what it creates, and only when the engine accepts it. */
  lemma KnownAppend(present: set<string>, calls: seq<Call>, c: Call)
    ensures var known := Known(present, calls);
      Known(present, calls + [c]) == if Accepted(known, c) then known + Created(c) else known
  {
    assert (calls + [c])[..|calls|] == calls;
  }

  /** A trace that ends in a commit knows the reference the commit created. */
  lemma LastCommitKnown(present: set<string>, calls: seq<Call>)
    requires calls != [] && calls[|calls| - 1].Commit?
    ensures Created(calls[|calls| - 1]) <= Known(present, calls)
  {
  }

  /** The engine never forgets an image: later calls only add references. */
  lemma {:induction false} KnownGrows(present: set<string>, calls: seq<Call>, more: seq<Call>)
    ensures Known(present, calls) <= Known(present, calls + more)
    decreases |more|
  {
    if more == [] {
      assert calls + more == calls;
    } else {
      var all := calls + more;
      assert all[..|all| - 1] == calls + more[..|more| - 1];
      KnownGrows(present, calls, more[..|more| - 1]);
    }
  }

  /** Calls none of which would create `ref` do not make it known. */
  lemma {:induction false} KnownWithout(present: set<string>, calls: seq<Call>, more: seq<Call>, ref: string)
    requires forall k :: 0 <= k < |more| ==> ref !in Created(more[k])
    requires ref !in Known(present, calls)
    ensures ref !in Known(present, calls + more)
    decreases |more|
  {
    if more == [] {
      assert calls + more == calls;
    } else {
      var all := calls + more;
      assert all[..|all| - 1] == calls + more[..|more| - 1];
      KnownWithout(present, calls, more[..|more| - 1], ref);
    }
  }

  /** A tag of an existing image makes its target reference known from then on. */
  lemma TagMakesKnown(present: set<string>, calls: seq<Call>, c: Call, more: seq<Call>)
    requires c.Tag? && c.source in Known(present, calls)
    ensures c.repository + ":" + c.tag in Known(present, calls + [c] + more)
  {
    KnownAppend(present, calls, c);
    KnownGrows(present, calls + [c], more);
  }

  /** What the engine answers a container creation. */
  datatype CreateOutcome = ContainerCreated | NoSuchImage | NameConflict

  class Engine {
    /** The listing `images(name=pattern)` returns for each pattern. */
    const listing: string -> seq<ImageInfo>
    /** The image references that exist before the build starts. */
    const present: set<string>
    /** The exit status `wait` reports for each container name. */
    const exitCode: string -> int
    /** Every call received so far, oldest first. */
    var calls: seq<Call>

    constructor (listing: string -> seq<ImageInfo>, present: set<string>, exitCode: string -> int)
      ensures this.listing == listing && this.present == present && this.exitCode == exitCode
      ensures calls == []
    {
      this.listing := listing;
      this.present := present;
      this.exitCode := exitCode;
      calls := [];
    }

    /** `inspect_image(ref)`: succeeds when the reference exists. */
    method InspectImage(ref: string) returns (found: bool)
      modifies this
      ensures calls == old(calls) + [Inspect(ref)]
      ensures found <==> ref in Known(present, old(calls))
    {
      found := ref in Known(present, calls);
      calls := calls + [Inspect(ref)];
    }

    /** `tag(source, repository, tag=tag)`: succeeds when the source image exists. */
    method TagImage(source: string, repository: string, tag: string) returns (ok: bool)
      modifies this
      ensures calls == old(calls) + [Tag(source, repository, tag)]
      ensures ok <==> source in Known(present, old(calls))
    {
      ok := source in Known(present, calls);
      calls := calls + [Tag(source, repository, tag)];
    }

    /**
     * `create_container(image=..., name=..., command=..., working_dir=..., volumes=...)`:
     * refused when the image does not exist, and otherwise when a
     * container already has the name.
     */
    method CreateContainer(image: string, name: string, command: Option<string>, workingDir: Option<string>, mountsFiles: bool) returns (outcome: CreateOutcome)
      modifies this
      ensures calls == old(calls) + [Create(image, name, command, workingDir, mountsFiles)]
      ensures outcome == NoSuchImage <==> image !in Known(present, old(calls))
      ensures outcome == NameConflict <==> image in Known(present, old(calls)) && name in Containers(present, old(calls))
    {
      if image !in Known(present, calls) {
        outcome := NoSuchImage;
      } else if name in Containers(present, calls) {
        outcome := NameConflict;
      } else {
        outcome := ContainerCreated;
      }
      calls := calls + [Create(image, name, command, workingDir, mountsFiles)];
    }

    /** `start(container=name, privileged=..., binds=...)`. */
    method StartContainer(name: string, privileged: bool, bindsFiles: bool)
      modifies this
      ensures calls == old(calls) + [Start(name, privileged, bindsFiles)]
    {
      calls := calls + [Start(name, privileged, bindsFiles)];
    }

    /** `wait(container=name)`: blocks until the container exits and reports its status. */
    method WaitContainer(name: string) returns (status: int)
      modifies this
      ensures calls == old(calls) + [Wait(name)]
      ensures status == exitCode(name)
    {
      calls := calls + [Wait(name)];
      status := exitCode(name);
    }

    /** `commit(container=name, repository=..., tag=...)`. */
    method CommitContainer(name: string, repository: string, tag: Option<string>)
      modifies this
      ensures calls == old(calls) + [Commit(name, repository, tag)]
    {
      calls := calls + [Commit(name, repository, tag)];
    }
  }
}
