/**
 * Tag lookups shared by every AWS resource kind (EC2, ELB, ELBv2 and
 * auto-scaling tags have the same key/value shape), and the ownership
 * predicates built on them.
 */
module Tags {
  import opened Wrappers

  /** A resource tag; either side may be absent. */
  datatype Tag = Tag(key: Option<string>, value: Option<string>)

  const AllValue := "_all"

  /** No tag before position `i` carries `key`. */
  predicate NoKeyBefore(tags: seq<Tag>, key: string, i: int)
    requires 0 <= i <= |tags|
  {
    forall j :: 0 <= j < i ==> tags[j].key != Some(key)
  }

  /**
   * The value of the first tag whose key equals `key`; tags without a key are
   * skipped. No key, or no matching tag, gives None.
   */
  function FetchTag(tags: seq<Tag>, key: Option<string>): (r: Option<string>)
    ensures key.None? ==> r == None
    ensures key.Some? && NoKeyBefore(tags, key.value, |tags|) ==> r == None
    ensures forall i :: 0 <= i < |tags| && key.Some? && tags[i].key == key && NoKeyBefore(tags, key.value, i) ==> r == tags[i].value
  {
    if key.None? || tags == [] then None
    else if tags[0].key.Some? && tags[0].key.value == key.value then tags[0].value
    else
      var rest := FetchTag(tags[1..], key);
      assert forall i :: 1 <= i <= |tags| && NoKeyBefore(tags, key.value, i) ==> NoKeyBefore(tags[1..], key.value, i - 1);
      rest
  }

  /** A later tag with the same key never changes the lookup. */
  lemma {:induction false} FetchTagIgnoresLaterDuplicates(tags: seq<Tag>, key: string, value: Option<string>)
    requires !NoKeyBefore(tags, key, |tags|)
    ensures FetchTag(tags + [Tag(Some(key), value)], Some(key)) == FetchTag(tags, Some(key))
  {
    if tags[0].key != Some(key) {
      assert (tags + [Tag(Some(key), value)])[1..] == tags[1..] + [Tag(Some(key), value)];
      assert !NoKeyBefore(tags[1..], key, |tags| - 1);
      FetchTagIgnoresLaterDuplicates(tags[1..], key, value);
    }
  }

  /** HasAllValue: the tag is present and is the `_all` wildcard. */
  function HasAllValue(tag: Option<string>): (r: bool)
    ensures r <==> tag == Some(AllValue)
  {
    tag.Some? && tag.value == AllValue
  }

  /**
   * HasProjectName, HasConfigName, HasServiceName and HasReleaseID: the
   * resource's value equals the wanted one, and neither is absent.
   */
  function HasName(have: Option<string>, want: Option<string>): (r: bool)
    ensures r ==> have.Some? && want.Some?
    ensures r <==> have.Some? && have == want
  {
    if have.None? || want.None? then false else have.value == want.value
  }

  /** The `project::config::service` key an ALB or ELB lists in its AllowedService tag. */
  function AllowedServiceKey(project: string, config: string, service: string): (r: string)
    ensures |r| == |project| + |config| + |service| + 4
    ensures r[..|project|] == project
  {
    project + "::" + config + "::" + service
  }

  /** The resource's AllowedService names this service; false when any side is absent. */
  function MatchesAllowedService(allowed: Option<string>, project: Option<string>, config: Option<string>, service: Option<string>): (r: bool)
    ensures r ==> allowed.Some? && project.Some? && config.Some? && service.Some?
    ensures allowed.Some? && project.Some? && config.Some? && service.Some? ==>
      (r <==> allowed.value == AllowedServiceKey(project.value, config.value, service.value))
  {
    if allowed.None? || project.None? || config.None? || service.None? then false
    else allowed.value == AllowedServiceKey(project.value, config.value, service.value)
  }
}
