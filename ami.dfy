/**
 * Machine image lookup: an image is named either by its id or by its Name
 * tag, and the query must return at most one image.
 */
module Ami {
  import opened Wrappers
  import opened Tags

  /** An image as the deployer records it. */
  datatype Image = Image(imageID: Option<string>, deployWithTag: Option<string>)

  /** An image as the describe call returns it. */
  datatype AwsImage = AwsImage(imageId: Option<string>, tags: seq<Tag>)

  /** isID: at least 5 characters, starting with "ami-". */
  predicate IsID(name: string)
  {
    |name| >= 5 && name[0..4] == "ami-"
  }

  /** The isID test cases. */
  lemma IsIDCases()
    ensures IsID("ami-asfasf")
    ensures !IsID("ubuntu") && !IsID("amigdshiunet") && !IsID("ami")
  {
    assert "amigdshiunet"[0..4] == "amig";
    assert "ubuntu"[0..4] == "ubun";
  }

  /** The describe query Find issues. */
  datatype ImageQuery = ByID(id: string) | ByNameTag(name: string)

  function QueryFor(nameTagOrID: string): (q: ImageQuery)
    ensures q.ByID? <==> IsID(nameTagOrID)
    ensures q.ByID? ==> q.id == nameTagOrID
    ensures q.ByNameTag? ==> q.name == nameTagOrID
  {
    if IsID(nameTagOrID) then ByID(nameTagOrID) else ByNameTag(nameTagOrID)
  }

  datatype AmiError = NilImage | TooManyImages(count: nat) | DescribeFailed(message: string)

  /**
   * Find given the describe call's answer: its error, or the images the
   * query returned (a nil entry stands for a nil image). No name is an
   * error, a failed call is its error, no image is no result and no error,
   * one image is the result with its DeployWith tag, more than one is an
   * error.
   */
  function Find(nameTagOrID: Option<string>, described: Result<seq<Option<AwsImage>>, string>): (r: Result<Option<Image>, AmiError>)
    ensures nameTagOrID.None? ==> r == Err(NilImage)
    ensures nameTagOrID.Some? && described.Err? ==> r == Err(DescribeFailed(described.error))
    ensures nameTagOrID.Some? && described == Ok([]) ==> r == Ok(None)
    ensures r.Ok? && r.value.Some? <==>
      nameTagOrID.Some? && described.Ok? && |described.value| == 1 && described.value[0].Some?
    ensures r.Ok? && r.value.Some? ==>
      r.value.value.imageID == described.value[0].value.imageId &&
      r.value.value.deployWithTag == FetchTag(described.value[0].value.tags, Some("DeployWith"))
    ensures nameTagOrID.Some? && described.Ok? && |described.value| > 1 ==> r == Err(TooManyImages(|described.value|))
    ensures nameTagOrID.Some? && described.Ok? && |described.value| == 1 && described.value[0].None? ==> r == Err(NilImage)
  {
    if nameTagOrID.None? then Err(NilImage)
    else if described.Err? then Err(DescribeFailed(described.error))
    else
      var images := described.value;
      if |images| == 0 then Ok(None)
      else if |images| == 1 then
        if images[0].None? then Err(NilImage)
        else Ok(Some(Image(images[0].value.imageId, FetchTag(images[0].value.tags, Some("DeployWith")))))
      else Err(TooManyImages(|images|))
  }
}
