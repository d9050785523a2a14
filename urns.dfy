/**
 * URN helpers shared by the messaging scripts: the fixed own profile URN, the
 * trailing-junk cleaning of `clean_urn`, and the last `:` segment of a URN.
 */
module Urns {
  import opened PyStr

  const ProfilePrefix: string := "urn:li:fsd_profile:"

  /** The account owner's profile id, excluded from every candidate list. */
  const OwnId: string := "ACoAACP6v4EBbrCCbpgNB017RQfDpIJA4cgt_oc"

  const OwnUrn: string := ProfilePrefix + OwnId

  /** The character class `["'\s&;]` of the trailing-junk pattern. */
  predicate IsJunk(c: char) {
    c == '"' || c == '\'' || IsSpace(c) || c == '&' || c == ';'
  }

  /**
   * `re.sub(r'["\'\s&;]+$', '', s)`: the leftmost match starts where the trailing
   * run of junk begins and the greedy `+` takes it to the end, so exactly that run goes.
   */
  function TrimJunk(s: string): (r: string)
    ensures StartsWith(s, r)
    ensures r != [] ==> !IsJunk(r[|r| - 1])
    ensures forall i :: |r| <= i < |s| ==> IsJunk(s[i])
  {
    RStripByRemoved(s, IsJunk);
    RStripBy(s, IsJunk)
  }

  /** Trimming a string that does not end in junk leaves it alone. */
  lemma TrimJunkClean(s: string)
    requires s == [] || !IsJunk(s[|s| - 1])
    ensures TrimJunk(s) == s
  {
  }

  /** Trimming twice is trimming once. */
  lemma TrimJunkIdempotent(s: string)
    ensures TrimJunk(TrimJunk(s)) == TrimJunk(s)
  {
    TrimJunkClean(TrimJunk(s));
  }

  /**
   * `clean_urn`: an empty input comes back unchanged; otherwise HTML entities are
   * decoded (`unescape` stands for `html.unescape`) and trailing junk is removed.
   */
  function CleanUrn(urn: string, unescape: string -> string): (r: string)
    ensures urn == [] ==> r == []
    ensures r != [] ==> !IsJunk(r[|r| - 1])
    ensures urn != [] ==> StartsWith(unescape(urn), r)
  {
    if urn == [] then urn else TrimJunk(unescape(urn))
  }

  /** The trailing strip of `clean_urn` has nothing left to remove in its own result. */
  lemma CleanUrnTrimmed(urn: string, unescape: string -> string)
    ensures TrimJunk(CleanUrn(urn, unescape)) == CleanUrn(urn, unescape)
  {
    TrimJunkClean(CleanUrn(urn, unescape));
  }

  /** `s.split(":")[-1]`. */
  function LastSegment(s: string): string {
    SplitLast(s, ":")
  }

  /** The last segment is a suffix of the URN holding no `:`. */
  lemma LastSegmentShape(s: string)
    ensures var r := LastSegment(s); EndsWith(s, r) && ':' !in r
    ensures ':' !in s ==> LastSegment(s) == s
  {
    SplitLastIsSuffix(s, ":");
    ContainsChar(LastSegment(s), ':');
    ContainsChar(s, ':');
  }

  /** Re-prefixing the last segment of a profile URN gives back a URN with a bare id. */
  lemma LastSegmentOfProfileUrn(id: string)
    requires ':' !in id
    ensures LastSegment(ProfilePrefix + id) == id
  {
    assert ProfilePrefix + id == "urn:li:fsd_profile" + [':'] + id;
    SplitLastAfterChar("urn:li:fsd_profile", ':', id);
  }
}
