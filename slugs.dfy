/**
 * The profile-slug extractors.  The scripts carry three divergent variants of
 * "the text after `/in/`":
 *   - `get_public_identifier_from_url` strips `/` first and then cuts at `?` and `#`,
 *     so a slug can still end in `/`;
 *   - `extract_public_identifier` cuts first and strips afterwards;
 *   - `extract_public_id_from_url` (module ConversationExtractor) lower-cases the first
 *     variant's result.
 */
module Slugs {
  import opened Wrappers
  import opened PyStr

  const InMarker: string := "/in/"

  /** `url.split('/in/')[-1].strip('/')`. */
  function TailSlug(url: string): string {
    StripSlash(SplitLast(url, InMarker))
  }

  /** `s.split('?')[0].split('#')[0]`. */
  function CutQuery(s: string): string {
    SplitFirst(SplitFirst(s, "?"), "#")
  }

  /** `get_public_identifier_from_url`: None when the URL has no `/in/`. */
  function PublicIdFromUrl(url: string): Option<string> {
    if Contains(url, InMarker) then Some(CutQuery(TailSlug(url))) else None
  }

  /** `extract_public_identifier`: cut at `?`/`#` first, strip `/` last. */
  function ExtractPublicIdentifier(url: string): string {
    if !Contains(url, InMarker) then StripSlash(url)
    else StripSlash(CutQuery(SplitLast(url, InMarker)))
  }

  /** The canonical profile address in front of a slug. */
  const ProfileBase: string := "https://www.linkedin.com/in/"

  /**
   * A bare slug (non-empty, no `/`, `?` or `#`) put into the canonical address with a
   * trailing `/` is extracted back unchanged, while the bare slug itself has no `/in/`.
   */
  lemma CanonicalUrlSlug(slug: string)
    requires slug != [] && '/' !in slug && '?' !in slug && '#' !in slug
    ensures PublicIdFromUrl(slug) == None
    ensures PublicIdFromUrl(ProfileBase + slug + "/") == Some(slug)
  {
    NoMarker(slug);
    var rest := slug + "/";
    NoMarker(rest);
    var url := ProfileBase + slug + "/";
    assert url == ProfileBase + rest;
    BaseMarker(rest);
    assert Contains(url, InMarker);
    SplitLastStep(url, InMarker, 24);
    assert url[28..] == rest;
    SplitLastIsSuffix(rest, InMarker);
    assert SplitLast(url, InMarker) == rest;
    TrailingSlashStripped(slug);
    CutQueryNoop(slug);
  }

  /** Text whose only `/` sits among its last three characters holds no `/in/`. */
  lemma NoMarker(s: string)
    requires forall j :: 0 <= j < |s| - 3 ==> s[j] != '/'
    ensures !Contains(s, InMarker)
  {
    forall j | 0 <= j < |s|
      ensures !OccursAt(s, InMarker, j)
    {
      OccursAtChars(s, InMarker, j);
    }
    ContainsIff(s, InMarker);
  }

  /** In the canonical address the first `/in/` is the one that ends the base. */
  lemma BaseMarker(rest: string)
    ensures Find(ProfileBase + rest, InMarker) == Some(24)
  {
    var url := ProfileBase + rest;
    assert forall j :: 0 <= j < 28 ==> url[j] == ProfileBase[j];
    forall j | 0 <= j < 24
      ensures !OccursAt(url, InMarker, j)
    {
      OccursAtChars(url, InMarker, j);
    }
    assert url[24..28] == InMarker;
    FindAt(url, InMarker, 24);
  }

  /** Stripping `/` from a bare slug with one trailing `/` gives the slug. */
  lemma TrailingSlashStripped(slug: string)
    requires slug != [] && '/' !in slug
    ensures StripSlash(slug + "/") == slug
  {
    var rest := slug + "/";
    assert rest[0] == slug[0] && !IsSlash(slug[0]);
    assert LStripBy(rest, IsSlash) == rest;
    assert rest[..|rest| - 1] == slug;
    assert !IsSlash(slug[|slug| - 1]);
    assert RStripBy(slug, IsSlash) == slug;
    assert RStripBy(rest, IsSlash) == RStripBy(slug, IsSlash);
  }

  /** The cut text is a prefix of the input that holds neither `?` nor `#`. */
  lemma {:induction false} CutQueryShape(s: string)
    ensures var r := CutQuery(s); StartsWith(s, r) && '?' !in r && '#' !in r
  {
    var a := SplitFirst(s, "?");
    var r := SplitFirst(a, "#");
    SplitFirstIsPrefix(s, "?");
    SplitFirstIsPrefix(a, "#");
    ContainsChar(a, '?');
    ContainsChar(r, '#');
    assert r == a[..|r|];
    assert a == s[..|a|];
    assert s[..|r|] == r;
  }

  /** A string holding neither `?` nor `#` is not cut at all. */
  lemma {:induction false} CutQueryNoop(s: string)
    requires '?' !in s && '#' !in s
    ensures CutQuery(s) == s
  {
    ContainsChar(s, '?');
    SplitFirstIsPrefix(s, "?");
    ContainsChar(s, '#');
    SplitFirstIsPrefix(s, "#");
  }

  /**
   * `get_public_identifier_from_url` answers exactly when `/in/` occurs, and then with
   * the start of the `/`-stripped text after the last `/in/`, holding no `?` and no `#`.
   */
  lemma {:induction false} PublicIdFromUrlShape(url: string)
    ensures PublicIdFromUrl(url).None? <==> !Contains(url, InMarker)
    ensures PublicIdFromUrl(url).Some? ==>
      var r := PublicIdFromUrl(url).value;
      StartsWith(TailSlug(url), r) && '?' !in r && '#' !in r && !Contains(r, InMarker)
  {
    if Contains(url, InMarker) {
      var t := TailSlug(url);
      var r := CutQuery(t);
      CutQueryShape(t);
      TailSlugNoMarker(url);
      assert t[0..|r|] == r;
      ContainsOfSlice(t, InMarker, 0, r);
    }
  }

  /** The stripped text after the last `/in/` holds no further `/in/`. */
  lemma TailSlugNoMarker(url: string)
    ensures !Contains(TailSlug(url), InMarker)
  {
    SplitLastIsSuffix(url, InMarker);
    StripByKeepsAbsent(SplitLast(url, InMarker), IsSlash, InMarker);
  }

  /**
   * `extract_public_identifier` never starts or ends with `/`, and when `/in/` occurs its
   * result holds no `?` and no `#`; without `/in/` it is the input with `/` stripped.
   */
  lemma {:induction false} ExtractPublicIdentifierShape(url: string)
    ensures var r := ExtractPublicIdentifier(url);
      r != [] ==> r[0] != '/' && r[|r| - 1] != '/'
    ensures !Contains(url, InMarker) ==> ExtractPublicIdentifier(url) == StripSlash(url)
    ensures Contains(url, InMarker) ==>
      var r := ExtractPublicIdentifier(url); '?' !in r && '#' !in r
  {
    if Contains(url, InMarker) {
      var c := CutQuery(SplitLast(url, InMarker));
      CutQueryShape(SplitLast(url, InMarker));
      StripByEnds(c, IsSlash);
      StripByChars(c, IsSlash);
    } else {
      StripByEnds(url, IsSlash);
    }
  }

  /** `Find` reports the first occurrence. */
  lemma FindAt(s: string, sub: string, i: nat)
    requires OccursAt(s, sub, i)
    requires forall j :: 0 <= j < i ==> !OccursAt(s, sub, j)
    ensures Find(s, sub) == Some(i)
  {
  }

  lemma ExampleTail(url: string)
    requires url == "https://www.linkedin.com/in/foo/?x"
    ensures Contains(url, InMarker) && SplitLast(url, InMarker) == "foo/?x"
  {
    var rest := url[28..];
    assert rest == "foo/?x";
    assert url == ProfileBase + rest;
    BaseMarker(rest);
    NoMarker(rest);
    SplitLastStep(url, InMarker, 24);
    SplitLastIsSuffix(rest, InMarker);
  }

  lemma ExampleCut(s: string)
    requires s == "foo/?x"
    ensures CutQuery(s) == "foo/"
  {
    forall j | 0 <= j < 4
      ensures !OccursAt(s, "?", j)
    {
      OccursAtChars(s, "?", j);
    }
    FindAt(s, "?", 4);
    assert SplitFirst(s, "?") == "foo/";
    ContainsChar("foo/", '#');
    SplitFirstIsPrefix("foo/", "#");
  }

  lemma ExampleStrip(s: string, t: string)
    requires s == "foo/?x" && t == "foo/"
    ensures StripSlash(s) == s && StripSlash(t) == "foo"
  {
    assert LStripBy(t, IsSlash) == t;
    assert RStripBy(t, IsSlash) == RStripBy("foo", IsSlash);
  }

  /**
   * The two orders of stripping and cutting differ: for `https://www.linkedin.com/in/foo/?x`
   * the first variant keeps a trailing `/` that the second removes.
   */
  lemma TrailingSlashExample(url: string)
    requires url == "https://www.linkedin.com/in/foo/?x"
    ensures PublicIdFromUrl(url) == Some("foo/")
    ensures ExtractPublicIdentifier(url) == "foo"
  {
    ExampleTail(url);
    ExampleCut("foo/?x");
    ExampleStrip("foo/?x", "foo/");
  }
}
