/**
 * The URN logic of the messaging script: turning a profile URL or URN into the
 * recipient's profile URN, making a conversation URN, and deciding the pair
 * `(mailboxUrn, conversationUrn)`.  Requests are replaced by their outcomes.
 */
module SendMessage {
  import opened Wrappers
  import opened PyStr
  import opened Slugs
  import opened Urns

  /**
   * What fetching the profile page produced: the request raised, or the page was
   * read and the URN patterns found a first id (or none, or the status was not 200).
   */
  datatype PageScan = FetchFailed | Scanned(firstMatch: Option<string>)

  /** `extract_profile_urn_from_url`. */
  function ExtractProfileUrnFromUrl(url: string, unescape: string -> string, page: PageScan): (r: Option<string>)
    ensures StartsWith(url, ProfilePrefix) ==> r == Some(CleanUrn(url, unescape))
    ensures !StartsWith(url, ProfilePrefix) && page == Scanned(None) ==> r == Some(ProfilePrefix + TailSlug(url))
    ensures r.None? <==> !StartsWith(url, ProfilePrefix) && page.FetchFailed?
  {
    if StartsWith(url, ProfilePrefix) then Some(CleanUrn(url, unescape))
    else match page
      case FetchFailed => None
      case Scanned(Some(id)) => Some(CleanUrn(ProfilePrefix + id, unescape))
      case Scanned(None) => Some(ProfilePrefix + TailSlug(url))
  }

  /**
   * The slug fallback names the profile by the text after the last `/in/` with its
   * surrounding slashes removed.
   */
  lemma SlugFallbackShape(url: string, unescape: string -> string)
    requires !StartsWith(url, ProfilePrefix)
    ensures var r := ExtractProfileUrnFromUrl(url, unescape, Scanned(None));
            var tail := SplitLast(url, InMarker);
            var i := |tail| - |LStripBy(tail, IsSlash)|;
            r.Some? && StartsWith(r.value, ProfilePrefix)
            && var slug := r.value[|ProfilePrefix|..];
            i + |slug| <= |tail| && tail[i..i + |slug|] == slug
            && (forall j :: 0 <= j < |tail| && (j < i || i + |slug| <= j) ==> tail[j] == '/')
            && (slug == [] || (slug[0] != '/' && slug[|slug| - 1] != '/'))
  {
    var tail := SplitLast(url, InMarker);
    var slug := TailSlug(url);
    StripByEnds(tail, IsSlash);
    StripByWithin(tail, IsSlash);
    assert (ProfilePrefix + slug)[|ProfilePrefix|..] == slug;
  }

  /** `str(uuid4()).replace('-', '')`. */
  function RemoveDashes(s: string): (r: string)
    ensures '-' !in r && |r| <= |s|
  {
    if s == [] then []
    else (if s[0] == '-' then [] else [s[0]]) + RemoveDashes(s[1..])
  }

  lemma {:induction false} RemoveDashesAppend(a: string, b: string)
    ensures RemoveDashes(a + b) == RemoveDashes(a) + RemoveDashes(b)
    decreases |a|
  {
    if a != [] {
      var head := if a[0] == '-' then [] else [a[0]];
      assert (a + b)[0] == a[0];
      assert (a + b)[1..] == a[1..] + b;
      RemoveDashesAppend(a[1..], b);
      calc {
        RemoveDashes(a + b);
        head + RemoveDashes(a[1..] + b);
        head + (RemoveDashes(a[1..]) + RemoveDashes(b));
        (head + RemoveDashes(a[1..])) + RemoveDashes(b);
      }
    } else {
      assert a + b == b;
    }
  }

  lemma {:induction false} RemoveDashesKeeps(s: string)
    requires '-' !in s
    ensures RemoveDashes(s) == s
    decreases |s|
  {
    if s != [] {
      RemoveDashesKeeps(s[1..]);
    }
  }

  predicate IsHex(s: string) {
    forall i :: 0 <= i < |s| ==> '0' <= s[i] <= '9' || 'a' <= s[i] <= 'f'
  }

  /** `create_conversation_urn`; `uuidText` stands for `str(uuid.uuid4())`. */
  function CreateConversationUrn(profileUrn: string, conversationId: Option<string>, uuidText: string): (r: string)
    ensures conversationId.Some? && conversationId.value != [] ==>
              r == "urn:li:msg_conversation:(" + profileUrn + "," + conversationId.value + ")"
  {
    var id := if conversationId.Some? && conversationId.value != [] then conversationId.value
              else "2-" + Take(RemoveDashes(uuidText), 32);
    "urn:li:msg_conversation:(" + profileUrn + "," + id + ")"
  }

  /**
   * For the text of a version-4 UUID (hex groups of 8, 4, 4, 4 and 12 joined by
   * dashes) the generated id is `2-` followed by its 32 hex digits.
   */
  lemma GeneratedIdLength(profileUrn: string, a: string, b: string, c: string, d: string, e: string)
    requires |a| == 8 && |b| == 4 && |c| == 4 && |d| == 4 && |e| == 12
    requires IsHex(a) && IsHex(b) && IsHex(c) && IsHex(d) && IsHex(e)
    ensures var uuidText := a + "-" + b + "-" + c + "-" + d + "-" + e;
            var id := "2-" + a + b + c + d + e;
            |id| == 34 &&
            CreateConversationUrn(profileUrn, None, uuidText) == "urn:li:msg_conversation:(" + profileUrn + "," + id + ")"
  {
    var u1 := a + "-" + b;
    var u2 := u1 + "-" + c;
    var u3 := u2 + "-" + d;
    var u4 := u3 + "-" + e;
    assert u4 == a + "-" + b + "-" + c + "-" + d + "-" + e;
    RemoveDashesKeeps(a);
    JoinDash(a, b);
    JoinDash(u1, c);
    JoinDash(u2, d);
    JoinDash(u3, e);
    var digits := RemoveDashes(u4);
    assert digits == a + b + c + d + e;
    assert Take(digits, 32) == digits;
    assert "2-" + digits == "2-" + a + b + c + d + e;
  }

  /** Dropping the dashes of `x-y` for a dash-free `y`. */
  lemma JoinDash(x: string, y: string)
    requires '-' !in y
    ensures RemoveDashes(x + "-" + y) == RemoveDashes(x) + y
  {
    var xd := x + "-";
    RemoveDashesAppend(x, "-");
    RemoveDashesAppend(xd, y);
    RemoveDashesKeeps(y);
    assert RemoveDashes("-") == [] by {
      assert "-"[1..] == [];
    }
    assert RemoveDashes(xd) == RemoveDashes(x);
    assert x + "-" + y == xd + y;
  }

  /**
   * `get_linkedin_urns`: `page` is the outcome of the profile-page request, `session`
   * whether a session was passed, `search` what `search_conversations` returned.
   * A returned mailbox URN is non-empty, and the conversation URN is the search result
   * when a session was given and None otherwise; a URN input is cleaned without any
   * request, and a URL whose page request raised gives `(None, None)`.
   */
  function GetLinkedinUrns(input: string, unescape: string -> string, page: PageScan,
                           session: bool, search: Option<string>): (r: (Option<string>, Option<string>))
    ensures r.0.None? ==> r.1.None?
    ensures r.0.Some? ==> r.0.value != [] && r.1 == (if session then search else None)
    ensures StartsWith(input, ProfilePrefix) && CleanUrn(input, unescape) != [] ==>
              r == (Some(CleanUrn(input, unescape)), if session then search else None)
    ensures !StartsWith(input, ProfilePrefix) && page.FetchFailed? ==> r == (None, None)
  {
    var mailbox :=
      if StartsWith(input, ProfilePrefix) then Some(CleanUrn(input, unescape))
      else match ExtractProfileUrnFromUrl(input, unescape, page)
        case Some(m) => Some(if m != [] then CleanUrn(m, unescape) else m)
        case None => None;
    if mailbox.None? || mailbox.value == [] then (None, None)
    else (mailbox, if session then search else None)
  }
}
