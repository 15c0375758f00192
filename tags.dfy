/** Release tags of the upstream framework, as the release lookup returns them
    (for example "v13.0.0"), and their normalisation to a plain version string. */
module Tags {

  /** The version named by a release tag: one leading 'v' is removed if there
      is one, and the tag is otherwise left as it is. Versions are opaque
      strings; nothing here parses or orders them. */
  function NormaliseTag(tag: string): (r: string)
    ensures tag == r || tag == "v" + r
    ensures tag == r <==> !(|tag| > 0 && tag[0] == 'v')
    ensures |tag| - 1 <= |r| <= |tag|
  {
    if |tag| > 0 && tag[0] == 'v' then tag[1..] else tag
  }

  /** Exactly one 'v' is removed, whatever follows it. */
  lemma StripsOneV(s: string)
    ensures NormaliseTag("v" + s) == s
  {
  }

  /** A doubled prefix keeps its second 'v'. */
  lemma DoubledPrefixKeepsOneV()
    ensures NormaliseTag("vv1") == "v1"
  {
  }

  /** A tag with and without its 'v' name the same version, so they compare
      equal against the recorded version. */
  lemma PrefixedAndBareAgree(s: string)
    requires !(|s| > 0 && s[0] == 'v')
    ensures NormaliseTag("v" + s) == NormaliseTag(s) == s
  {
  }

  /** Normalising twice differs from normalising once exactly when the tag
      starts with two 'v's. */
  lemma SecondPassChangesOnlyDoubleV(tag: string)
    ensures NormaliseTag(NormaliseTag(tag)) != NormaliseTag(tag)
            <==> (|tag| > 1 && tag[0] == 'v' && tag[1] == 'v')
  {
  }
}
