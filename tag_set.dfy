/** The global tag list: `addTag` appends a tag not yet present and
    `removeTag` filters out every occurrence. */
module TagSet {

  /** `tags.includes(tag) ? tags : [...tags, tag]`. */
  function AddTag(tags: seq<string>, tag: string): (r: seq<string>)
    ensures tag in r
    ensures forall t :: t in r <==> t in tags || t == tag
  {
    if tag in tags then tags else tags + [tag]
  }

  /** `tags.filter(t => t !== tag)`. */
  function RemoveTag(tags: seq<string>, tag: string): (r: seq<string>)
    ensures forall t :: t in r <==> t in tags && t != tag
    ensures |r| <= |tags|
  {
    if tags == [] then []
    else if tags[|tags| - 1] == tag then RemoveTag(tags[..|tags| - 1], tag)
    else
      assert tags == tags[..|tags| - 1] + [tags[|tags| - 1]];
      RemoveTag(tags[..|tags| - 1], tag) + [tags[|tags| - 1]]
  }

  predicate NoDuplicates(tags: seq<string>) {
    forall i, j :: 0 <= i < j < |tags| ==> tags[i] != tags[j]
  }

  /** Adding is idempotent, and a list without duplicates keeps none. */
  lemma AddTagLaws(tags: seq<string>, tag: string)
    ensures AddTag(AddTag(tags, tag), tag) == AddTag(tags, tag)
    ensures tag in tags ==> AddTag(tags, tag) == tags
    ensures NoDuplicates(tags) ==> NoDuplicates(AddTag(tags, tag))
  {
  }

  /** Removing is idempotent, and removing a tag just added to a list that
      did not hold it gives the list back. */
  lemma {:induction false} RemoveTagLaws(tags: seq<string>, tag: string)
    ensures RemoveTag(RemoveTag(tags, tag), tag) == RemoveTag(tags, tag)
    ensures tag !in tags ==> RemoveTag(tags, tag) == tags
    decreases |tags|
  {
    if tags != [] {
      RemoveTagLaws(tags[..|tags| - 1], tag);
    }
  }

  lemma AddThenRemoveTag(tags: seq<string>, tag: string)
    requires tag !in tags
    ensures RemoveTag(AddTag(tags, tag), tag) == tags
  {
    var r := tags + [tag];
    assert r[..|r| - 1] == tags;
    RemoveTagLaws(tags, tag);
  }
}
