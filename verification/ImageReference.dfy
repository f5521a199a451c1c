/** Splitting a docker image reference into repository and tag. */
module ImageReference {
  import opened Wrappers
  import opened Text

  datatype Reference = Reference(image: string, tag: Option<string>)

  /** Where the last path segment starts. */
  function SegmentStart(s: string): (r: nat)
    ensures r <= |s| && '/' !in s[r..]
  {
    match LastIndexOf(s, '/')
    case None => 0
    case Some(i) => i + 1
  }

  /** The split of the modelled code: a digest is kept whole, and only a colon after the last slash starts a tag. */
  function SplitImageAndTag(rawImage: string): Reference {
    if rawImage == [] then Reference([], None)
    else if '@' in rawImage then Reference(rawImage, None)
    else
      var segmentStart := SegmentStart(rawImage);
      match LastIndexOf(rawImage[segmentStart..], ':')
      case None => Reference(rawImage, None)
      case Some(i) =>
        var colon := segmentStart + i;
        Reference(rawImage[..colon], Some(rawImage[colon + 1..]))
  }

  /** Tags hold none of the characters that delimit a reference. */
  predicate IsTag(tag: string) {
    '/' !in tag && ':' !in tag && '@' !in tag
  }

  function Unsplit(r: Reference): string {
    match r.tag
    case None => r.image
    case Some(tag) => r.image + [':'] + tag
  }

  /** Nothing is lost, and what is called a tag really is one. */
  lemma SplitLosesNothing(rawImage: string)
    ensures var r := SplitImageAndTag(rawImage);
            Unsplit(r) == rawImage && (r.tag.Some? ==> IsTag(r.tag.value))
  {
    var start := SegmentStart(rawImage);
    var segment := rawImage[start..];
    if rawImage != [] && '@' !in rawImage && LastIndexOf(segment, ':').Some? {
      var i := LastIndexOf(segment, ':').value;
      var colon := start + i;
      CutAt(rawImage, colon);
      assert rawImage[colon] == segment[i];
      assert rawImage[colon + 1..] == segment[i + 1..];
      SuffixCharacters(segment, i + 1, '/');
      SuffixCharacters(rawImage, colon + 1, '@');
    }
  }

  lemma CutAt(s: string, i: nat)
    requires i < |s|
    ensures s == s[..i] + [s[i]] + s[i + 1..]
  {
  }

  lemma SuffixCharacters(s: string, i: nat, c: char)
    requires i <= |s| && c !in s
    ensures c !in s[i..]
  {
  }

  /** A reference can be split at a tag: it is some repository without a digest, a colon and a tag. */
  ghost predicate HasTag(rawImage: string) {
    exists repo: string, tag: string :: '@' !in repo && IsTag(tag) && rawImage == repo + [':'] + tag
  }

  lemma LastSlashBeforeTag(repo: string, tag: string)
    requires IsTag(tag)
    ensures LastIndexOf(repo + [':'] + tag, '/') == LastIndexOf(repo, '/')
  {
    var raw := repo + [':'] + tag;
    match LastIndexOf(repo, '/')
    case None =>
    case Some(i) =>
      assert raw[i + 1..] == repo[i + 1..] + [':'] + tag;
      LastIndexIs(raw, '/', i);
  }

  lemma LastColonOfSegment(repo: string, tag: string, start: nat)
    requires IsTag(tag) && start <= |repo|
    ensures LastIndexOf((repo + [':'] + tag)[start..], ':') == Some(|repo| - start)
  {
    var segment := repo[start..] + [':'] + tag;
    assert (repo + [':'] + tag)[start..] == segment;
    assert segment[|repo| - start + 1..] == tag;
    LastIndexIs(segment, ':', |repo| - start);
  }

  lemma SplitsAtColon(raw: string, start: nat, i: nat)
    requires raw != [] && '@' !in raw && SegmentStart(raw) == start && LastIndexOf(raw[start..], ':') == Some(i)
    requires start + i < |raw|
    ensures SplitImageAndTag(raw) == Reference(raw[..start + i], Some(raw[start + i + 1..]))
  {
    hide SegmentStart, LastIndexOf;
  }

  /** Appending a tag to any repository, registry port and path included, and splitting recovers both. */
  lemma SplitRecoversTag(repo: string, tag: string)
    requires '@' !in repo && IsTag(tag)
    ensures SplitImageAndTag(repo + [':'] + tag) == Reference(repo, Some(tag))
  {
    var raw := repo + [':'] + tag;
    var start := SegmentStart(repo);
    assert SegmentStart(raw) == start by {
      LastSlashBeforeTag(repo, tag);
    }
    LastColonOfSegment(repo, tag, start);
    assert raw[..|repo|] == repo && raw[|repo| + 1..] == tag;
    hide SegmentStart, LastIndexOf, SplitImageAndTag;
    SplitsAtColon(raw, start, |repo| - start);
  }

  /** A tag is reported exactly when the reference has one, so a registry's port is never mistaken for a tag. */
  lemma SplitFindsTagIff(rawImage: string)
    ensures SplitImageAndTag(rawImage).tag.Some? <==> HasTag(rawImage)
  {
    var r := SplitImageAndTag(rawImage);
    SplitLosesNothing(rawImage);
    if r.tag.Some? {
      assert '@' !in rawImage;
      assert forall c :: c in r.image ==> c in rawImage;
      assert rawImage == r.image + [':'] + r.tag.value;
    }
    if HasTag(rawImage) {
      var repo: string, tag: string :| '@' !in repo && IsTag(tag) && rawImage == repo + [':'] + tag;
      SplitRecoversTag(repo, tag);
    }
  }
}
