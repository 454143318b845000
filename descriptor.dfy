/**
 * The descriptor normalisation applied before `display_address` in the
 * crate's tests: drop the checksum (everything from the first `#`), then
 * turn every wildcard `*` into the index `1`.
 */
module Descriptor {

  /** `split("#")` and its first piece: the text before the first `#`, or all of it. */
  function StripChecksum(d: string): (r: string)
    ensures r <= d
    ensures '#' !in r
    ensures |r| < |d| ==> d[|r|] == '#'
  {
    if |d| == 0 || d[0] == '#' then [] else [d[0]] + StripChecksum(d[1..])
  }

  /** `replace("*", "1")`, one character at a time. */
  function ReplaceWildcards(d: string): (r: string)
    ensures |r| == |d|
    ensures '*' !in r
    ensures forall i | 0 <= i < |d| :: d[i] != '*' ==> r[i] == d[i]
    ensures forall i | 0 <= i < |d| :: d[i] == '*' ==> r[i] == '1'
  {
    seq(|d|, i requires 0 <= i < |d| => if d[i] == '*' then '1' else d[i])
  }

  /**
   * The descriptor handed to `display_address`: the characters before the
   * first `#`, each wildcard replaced by `1`.
   */
  function NormalizeDescriptor(d: string): (r: string)
    ensures '#' !in r && '*' !in r
    ensures |r| <= |d| && (|r| < |d| ==> d[|r|] == '#')
    ensures forall i | 0 <= i < |r| :: d[i] != '#' && r[i] == (if d[i] == '*' then '1' else d[i])
  {
    ReplaceWildcards(StripChecksum(d))
  }

  /** A string without `#` has no checksum to strip. */
  lemma {:induction false} StripChecksumKeeps(d: string)
    requires '#' !in d
    ensures StripChecksum(d) == d
  {
    if |d| > 0 {
      assert d[0] in d;
      assert forall c | c in d[1..] :: c in d;
      StripChecksumKeeps(d[1..]);
    }
  }

  /** A string without `*` has no wildcard to replace. */
  lemma ReplaceWildcardsKeeps(d: string)
    requires '*' !in d
    ensures ReplaceWildcards(d) == d
  {
    var r := ReplaceWildcards(d);
    forall i | 0 <= i < |d|
      ensures r[i] == d[i]
    {
      assert d[i] in d;
    }
  }

  /** Normalising a normalised descriptor changes nothing. */
  lemma NormalizeIdempotent(d: string)
    ensures NormalizeDescriptor(NormalizeDescriptor(d)) == NormalizeDescriptor(d)
  {
    var n := NormalizeDescriptor(d);
    StripChecksumKeeps(n);
    ReplaceWildcardsKeeps(n);
  }

  /** The stripped descriptor is exactly the text before the first `#`. */
  lemma StripChecksumAt(d: string, k: nat)
    requires k < |d| && d[k] == '#'
    requires forall i | 0 <= i < k :: d[i] != '#'
    ensures StripChecksum(d) == d[..k]
  {
  }

  /** The checksum goes and the wildcard child index after `/0/` becomes `1`. */
  lemma NormalizeExample()
    ensures NormalizeDescriptor("/0/*#4ncdm8ue") == "/0/1"
  {
    var d := "/0/*#4ncdm8ue";
    StripChecksumAt(d, 4);
    assert d[..4] == "/0/*";
  }
}
