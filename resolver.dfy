/**
 * Deciding whether an already-built image can stand in for a stage.
 * The engine's image listing is a parameter: the query has no effects.
 */
module Resolver {
  import opened Wrappers
  import opened Text
  import opened DockerEngine

  /** The repository-name pattern the listing is asked for: any user's or the acting user's. */
  function StagePattern(includeForeigns: bool, username: string): string
  {
    if includeForeigns then "*-*" else "*-" + username
  }

  /** The `Repository:Tag` strings of the listed images whose tag is `stage`, in listing order. */
  function FindImagesByStage(listed: seq<ImageInfo>, stage: string): (found: seq<string>)
    ensures |found| <= |listed|
    decreases |listed|
  {
    if listed == [] then []
    else
      var rest := FindImagesByStage(listed[1..], stage);
      if listed[0].tag == stage then [listed[0].repository + ":" + listed[0].tag] + rest else rest
  }

  /** A string is found for `stage` exactly when some listed image has that tag and that name. */
  lemma {:induction false} FoundExactly(listed: seq<ImageInfo>, stage: string, x: string)
    ensures x in FindImagesByStage(listed, stage) <==>
      exists i :: 0 <= i < |listed| && listed[i].tag == stage && x == listed[i].repository + ":" + stage
    decreases |listed|
  {
    if listed != [] {
      FoundExactly(listed[1..], stage, x);
      if x in FindImagesByStage(listed[1..], stage) {
        var i :| 0 <= i < |listed[1..]| && listed[1..][i].tag == stage && x == listed[1..][i].repository + ":" + stage;
        assert listed[i + 1] == listed[1..][i];
      }
      if exists i :: 0 <= i < |listed| && listed[i].tag == stage && x == listed[i].repository + ":" + stage {
        var i :| 0 <= i < |listed| && listed[i].tag == stage && x == listed[i].repository + ":" + stage;
        if i > 0 {
          assert listed[1..][i - 1] == listed[i];
        }
      }
    }
  }

  /**
   * The image a stage resolves to: the candidate `<matchBuildId>:<stage>`
   * when a match build id is set and the candidate is among the found
   * images; nothing otherwise.
   */
  function ResolveStageToImage(matchBuildId: string, listed: seq<ImageInfo>, stage: string): (r: Option<string>)
    ensures matchBuildId == "" ==> r == None
    ensures r.Some? ==> r.value == matchBuildId + ":" + stage && r.value in FindImagesByStage(listed, stage)
    ensures matchBuildId != "" && matchBuildId + ":" + stage in FindImagesByStage(listed, stage) ==> r.Some?
  {
    if matchBuildId != "" then
      var expectation := matchBuildId + ":" + stage;
      if expectation in FindImagesByStage(listed, stage) then Some(expectation) else None
    else None
  }

  /**
   * A stage resolves exactly when a match build id is set and the listing
   * holds an image of that repository tagged with the stage.
   */
  lemma ResolvesIffListed(matchBuildId: string, listed: seq<ImageInfo>, stage: string)
    ensures ResolveStageToImage(matchBuildId, listed, stage).Some? <==>
      matchBuildId != "" &&
      exists i :: 0 <= i < |listed| && listed[i].repository == matchBuildId && listed[i].tag == stage
  {
    var candidate := matchBuildId + ":" + stage;
    FoundExactly(listed, stage, candidate);
    if matchBuildId != "" && candidate in FindImagesByStage(listed, stage) {
      var i :| 0 <= i < |listed| && listed[i].tag == stage && candidate == listed[i].repository + ":" + stage;
      assert matchBuildId + ":" + stage == matchBuildId + (":" + stage);
      assert listed[i].repository + ":" + stage == listed[i].repository + (":" + stage);
      CancelSuffix(matchBuildId, listed[i].repository, ":" + stage);
    }
  }
}
