/**
 * matroska.go's one-level conversions: the engine's attachment, cue and tag arrays
 * become owned slices of the same length and order; each tag's targets and simple
 * tags are copied as far as their counts announce.
 */
module Metadata {
  import opened Types

  function AttachmentsOf(attachments: seq<NativeAttachment>, count: nat): (r: seq<Attachment>)
    requires count <= |attachments|
    ensures |r| == count
    ensures forall i :: 0 <= i < count ==> r[i] == ConvertAttachment(attachments[i])
  {
    seq(count, i requires 0 <= i < count => ConvertAttachment(attachments[i]))
  }

  function CuesOf(cues: seq<NativeCue>, count: nat): (r: seq<Cue>)
    requires count <= |cues|
    ensures |r| == count
    ensures forall i :: 0 <= i < count ==> r[i] == ConvertCue(cues[i])
  {
    seq(count, i requires 0 <= i < count => ConvertCue(cues[i]))
  }

  /** Each count of the tag fits the array it describes. */
  predicate TagWellFormed(t: NativeTag) {
    t.nTargets <= |t.targets| && t.nSimpleTags <= |t.simpleTags|
  }

  predicate TagsWellFormed(tags: seq<NativeTag>, count: nat) {
    count <= |tags| && forall i :: 0 <= i < count ==> TagWellFormed(tags[i])
  }

  /** The owned tag built from one native record: its targets, then its simple tags, in order. */
  function ConvertTag(t: NativeTag): (r: Tag)
    requires TagWellFormed(t)
    ensures |r.targets| == t.nTargets && |r.simpleTags| == t.nSimpleTags
    ensures forall j :: 0 <= j < t.nTargets ==> r.targets[j] == ConvertTarget(t.targets[j])
    ensures forall j :: 0 <= j < t.nSimpleTags ==> r.simpleTags[j] == ConvertSimpleTag(t.simpleTags[j])
  {
    Tag(seq(t.nTargets, j requires 0 <= j < t.nTargets => ConvertTarget(t.targets[j])),
        seq(t.nSimpleTags, j requires 0 <= j < t.nSimpleTags => ConvertSimpleTag(t.simpleTags[j])))
  }

  function TagsOf(tags: seq<NativeTag>, count: nat): (r: seq<Tag>)
    requires TagsWellFormed(tags, count)
    ensures |r| == count
    ensures forall i :: 0 <= i < count ==> r[i] == ConvertTag(tags[i])
  {
    seq(count, i requires 0 <= i < count => ConvertTag(tags[i]))
  }

  // ---- inverse descriptions and round trips ----

  function TagToNative(tag: Tag): NativeTag {
    NativeTag(
      |tag.targets|, seq(|tag.targets|, j requires 0 <= j < |tag.targets| =>
        NativeTarget(tag.targets[j].uid, tag.targets[j].targetType)),
      |tag.simpleTags|, seq(|tag.simpleTags|, j requires 0 <= j < |tag.simpleTags| =>
        NativeSimpleTag(tag.simpleTags[j].name, tag.simpleTags[j].value,
                        tag.simpleTags[j].language, tag.simpleTags[j].isDefault)))
  }

  function TrimTag(t: NativeTag): NativeTag
    requires TagWellFormed(t)
  {
    t.(targets := t.targets[..t.nTargets], simpleTags := t.simpleTags[..t.nSimpleTags])
  }

  /** Every owned tag is the conversion of its native description. */
  lemma ConvertTagToNative(tag: Tag)
    ensures TagWellFormed(TagToNative(tag))
    ensures ConvertTag(TagToNative(tag)) == tag
  {
  }

  /** Converting a tag loses nothing its counts announce, and reads nothing beyond them. */
  lemma NativeTagToConvert(t: NativeTag)
    requires TagWellFormed(t)
    ensures TagToNative(ConvertTag(t)) == TrimTag(t)
    ensures ConvertTag(TrimTag(t)) == ConvertTag(t)
  {
  }

  /** A list of tags described natively converts back to itself. */
  lemma TagsRoundTrip(tags: seq<Tag>)
    ensures TagsWellFormed(seq(|tags|, i requires 0 <= i < |tags| => TagToNative(tags[i])), |tags|)
    ensures TagsOf(seq(|tags|, i requires 0 <= i < |tags| => TagToNative(tags[i])), |tags|) == tags
  {
    forall i | 0 <= i < |tags|
      ensures TagWellFormed(TagToNative(tags[i])) && ConvertTag(TagToNative(tags[i])) == tags[i]
    {
      ConvertTagToNative(tags[i]);
    }
  }

}
