/**
 * The profile-URN extractor: a URN short-circuit, URL normalisation for bare slugs,
 * the messaging-URN result dictionary, and the filter on fallback candidates.
 * The voyager API lookup and the page scan are given as functions of their input.
 */
module ProfileUrns {
  import opened Wrappers
  import opened PyStr
  import opened OrderedDict
  import opened PyJson
  import opened Slugs
  import opened Urns

  /** The address `extract_profile_urn_from_url` works on: bare slugs become profile URLs. */
  function NormaliseUrl(url: string): (r: string)
    ensures StartsWith(url, "http") ==> r == url
  {
    if StartsWith(url, "http") then url
    else match PublicIdFromUrl(url)
      case Some(id) => if id != [] then ProfileBase + id + "/" else ProfileBase + url + "/"
      case None => ProfileBase + url + "/"
  }

  /**
   * `extract_profile_urn_from_url`: `apiLookup` stands for `get_profile_urn_from_public_id`
   * and `pageScan` for the page request with its pattern scan, both on their argument.
   */
  function ExtractProfileUrnFromUrl(url: string, unescape: string -> string,
                                    apiLookup: string -> Option<string>,
                                    pageScan: string -> Option<string>): (r: Option<string>)
    ensures StartsWith(url, ProfilePrefix) ==> r == Some(CleanUrn(url, unescape))
  {
    if StartsWith(url, ProfilePrefix) then Some(CleanUrn(url, unescape))
    else
      var u := NormaliseUrl(url);
      match PublicIdFromUrl(u)
      case Some(id) =>
        if id != [] && apiLookup(id).Some? && apiLookup(id).value != [] then apiLookup(id)
        else pageScan(u)
      case None => pageScan(u)
  }

  /**
   * A bare slug is looked up as itself: it is turned into its canonical profile URL,
   * the API is asked for that slug, and the page fallback fetches that URL.
   */
  lemma BareSlugLookup(slug: string, unescape: string -> string,
                       apiLookup: string -> Option<string>, pageScan: string -> Option<string>)
    requires slug != [] && '/' !in slug && '?' !in slug && '#' !in slug
    requires !StartsWith(slug, "http") && !StartsWith(slug, ProfilePrefix)
    ensures NormaliseUrl(slug) == ProfileBase + slug + "/"
    ensures ExtractProfileUrnFromUrl(slug, unescape, apiLookup, pageScan)
            == if apiLookup(slug).Some? && apiLookup(slug).value != [] then apiLookup(slug)
               else pageScan(ProfileBase + slug + "/")
  {
    CanonicalUrlSlug(slug);
  }

  /** The first-page payload skeleton of `get_messaging_urns`. */
  function FormattedPayload(recipientUrn: string, originToken: string, trackingId: string): Json {
    JObj([("message", JObj([("body", JObj([("attributes", JArr([])), ("text", JStr("YOUR_MESSAGE_HERE"))])),
                            ("originToken", JStr(originToken)),
                            ("renderContentUnions", JArr([]))])),
          ("mailboxUrn", JStr(OwnUrn)),
          ("trackingId", JStr(trackingId)),
          ("dedupeByClientGeneratedToken", JBool(false)),
          ("hostRecipientUrns", JArr([JStr(recipientUrn)]))])
  }

  /**
   * `get_messaging_urns` once the recipient URN is known: the own URN twice, then,
   * for a non-empty recipient URN with a `:`, the recipient keys and the payload.
   * `uuidTexts` stand for the two `str(uuid.uuid4())` calls and `dumps` for the
   * PowerShell-quoted `json.dumps`.
   */
  method MessagingUrns(recipient: Option<string>, uuidText1: string, uuidText2: string, dumps: Json -> string)
    returns (result: seq<(string, Json)>)
    ensures Lookup(result, "your_urn") == Some(JStr(OwnUrn))
    ensures Lookup(result, "mailbox_urn") == Some(JStr(OwnUrn))
    ensures recipient.None? || recipient.value == [] || ':' !in recipient.value ==>
              Keys(result) == ["your_urn", "mailbox_urn"]
    ensures recipient.Some? && ':' in recipient.value ==>
              var urn := ProfilePrefix + LastSegment(recipient.value);
              Keys(result) == ["your_urn", "mailbox_urn", "hostRecipientUrns", "recipient_urn",
                               "formatted_payload", "powershell_json"]
              && Lookup(result, "hostRecipientUrns") == Some(JArr([JStr(urn)]))
              && Lookup(result, "recipient_urn") == Some(JStr(urn))
              && Lookup(result, "formatted_payload") == Some(FormattedPayload(urn, uuidText1, Take(uuidText2, 16)))
              && Lookup(result, "powershell_json") == Some(JStr(dumps(FormattedPayload(urn, uuidText1, Take(uuidText2, 16)))))
  {
    var own := ("your_urn", JStr(OwnUrn));
    var mailbox := ("mailbox_urn", JStr(OwnUrn));
    result := [];
    result := Put(result, own.0, own.1);
    result := Put(result, mailbox.0, mailbox.1);
    if recipient.Some? && recipient.value != [] {
      ContainsChar(recipient.value, ':');
      if Contains(recipient.value, ":") {
        var urn := ProfilePrefix + LastSegment(recipient.value);
        var payload := FormattedPayload(urn, uuidText1, Take(uuidText2, 16));
        var hosts := ("hostRecipientUrns", JArr([JStr(urn)]));
        var rcpt := ("recipient_urn", JStr(urn));
        var formatted := ("formatted_payload", payload);
        var ps := ("powershell_json", JStr(dumps(payload)));
        RecipientKeys(own, mailbox, hosts, rcpt, formatted, ps);
        result := Put(result, hosts.0, hosts.1);
        result := Put(result, rcpt.0, rcpt.1);
        result := Put(result, formatted.0, formatted.1);
        result := Put(result, ps.0, ps.1);
      } else {
        OwnKeys(own, mailbox);
      }
    } else {
      OwnKeys(own, mailbox);
    }
  }

  /** The two own-URN entries go in order. */
  lemma OwnKeys(own: (string, Json), mailbox: (string, Json))
    requires own.0 == "your_urn" && mailbox.0 == "mailbox_urn"
    ensures var r := Put(Put([], own.0, own.1), mailbox.0, mailbox.1);
            r == [own, mailbox] && Keys(r) == [own.0, mailbox.0]
            && Lookup(r, own.0) == Some(own.1) && Lookup(r, mailbox.0) == Some(mailbox.1)
  {
    PutNew([own], mailbox.0, mailbox.1);
    var r := [own, mailbox];
    LookupAt(r, 0, own.0);
    LookupAt(r, 1, mailbox.0);
  }

  /** The four recipient entries follow the own-URN entries in order, and all six read back. */
  lemma RecipientKeys(own: (string, Json), mailbox: (string, Json), hosts: (string, Json),
                      rcpt: (string, Json), formatted: (string, Json), ps: (string, Json))
    requires own.0 == "your_urn" && mailbox.0 == "mailbox_urn" && hosts.0 == "hostRecipientUrns"
    requires rcpt.0 == "recipient_urn" && formatted.0 == "formatted_payload" && ps.0 == "powershell_json"
    ensures var r0 := Put(Put([], own.0, own.1), mailbox.0, mailbox.1);
            var r := Put(Put(Put(Put(r0, hosts.0, hosts.1), rcpt.0, rcpt.1), formatted.0, formatted.1), ps.0, ps.1);
            Keys(r) == [own.0, mailbox.0, hosts.0, rcpt.0, formatted.0, ps.0]
            && Lookup(r, own.0) == Some(own.1) && Lookup(r, mailbox.0) == Some(mailbox.1)
            && Lookup(r, hosts.0) == Some(hosts.1) && Lookup(r, rcpt.0) == Some(rcpt.1)
            && Lookup(r, formatted.0) == Some(formatted.1) && Lookup(r, ps.0) == Some(ps.1)
  {
    var r0 := Put(Put([], own.0, own.1), mailbox.0, mailbox.1);
    var r := Put(Put(Put(Put(r0, hosts.0, hosts.1), rcpt.0, rcpt.1), formatted.0, formatted.1), ps.0, ps.1);
    assert r == [own, mailbox, hosts, rcpt, formatted, ps] by {
      RecipientPuts(own, mailbox, hosts, rcpt, formatted, ps);
    }
    MessagingKeysDistinct(r);
    SixLookups(r);
  }

  lemma RecipientPuts(own: (string, Json), mailbox: (string, Json), hosts: (string, Json),
                      rcpt: (string, Json), formatted: (string, Json), ps: (string, Json))
    requires own.0 == "your_urn" && mailbox.0 == "mailbox_urn" && hosts.0 == "hostRecipientUrns"
    requires rcpt.0 == "recipient_urn" && formatted.0 == "formatted_payload" && ps.0 == "powershell_json"
    ensures var r0 := Put(Put([], own.0, own.1), mailbox.0, mailbox.1);
            Put(Put(Put(Put(r0, hosts.0, hosts.1), rcpt.0, rcpt.1), formatted.0, formatted.1), ps.0, ps.1)
            == [own, mailbox, hosts, rcpt, formatted, ps]
  {
    OwnKeys(own, mailbox);
    var r0 := [own, mailbox];
    var r1 := r0 + [hosts];
    var r2 := r1 + [rcpt];
    var r3 := r2 + [formatted];
    assert Put(r0, hosts.0, hosts.1) == r1 by {
      AddKey(r0, hosts.0, hosts.1, [own.0, mailbox.0]);
    }
    assert Put(r1, rcpt.0, rcpt.1) == r2 by {
      AddKey(r0, hosts.0, hosts.1, [own.0, mailbox.0]);
      AddKey(r1, rcpt.0, rcpt.1, [own.0, mailbox.0, hosts.0]);
    }
    assert Put(r2, formatted.0, formatted.1) == r3 by {
      assert Keys(r2) == [own.0, mailbox.0, hosts.0, rcpt.0];
      AddKey(r2, formatted.0, formatted.1, [own.0, mailbox.0, hosts.0, rcpt.0]);
    }
    assert Put(r3, ps.0, ps.1) == r3 + [ps] by {
      assert Keys(r3) == [own.0, mailbox.0, hosts.0, rcpt.0, formatted.0];
      AddKey(r3, ps.0, ps.1, [own.0, mailbox.0, hosts.0, rcpt.0, formatted.0]);
    }
    assert r3 + [ps] == [own, mailbox, hosts, rcpt, formatted, ps];
  }

  /** Reading the six entries of a dict with six distinct keys. */
  lemma SixLookups(r: seq<(string, Json)>)
    requires |r| == 6 && DistinctKeys(r)
    ensures Keys(r) == [r[0].0, r[1].0, r[2].0, r[3].0, r[4].0, r[5].0]
    ensures Lookup(r, r[0].0) == Some(r[0].1) && Lookup(r, r[1].0) == Some(r[1].1)
    ensures Lookup(r, r[2].0) == Some(r[2].1) && Lookup(r, r[3].0) == Some(r[3].1)
    ensures Lookup(r, r[4].0) == Some(r[4].1) && Lookup(r, r[5].0) == Some(r[5].1)
  {
    LookupDistinct(r, 0);
    LookupDistinct(r, 1);
    LookupDistinct(r, 2);
    LookupDistinct(r, 3);
    LookupDistinct(r, 4);
    LookupDistinct(r, 5);
  }

  /** The six result keys are distinct: they differ in their first character. */
  lemma MessagingKeysDistinct(r: seq<(string, Json)>)
    requires |r| == 6 && r[0].0 == "your_urn" && r[1].0 == "mailbox_urn" && r[2].0 == "hostRecipientUrns"
    requires r[3].0 == "recipient_urn" && r[4].0 == "formatted_payload" && r[5].0 == "powershell_json"
    ensures DistinctKeys(r)
  {
    var firsts := ['y', 'm', 'h', 'r', 'f', 'p'];
    forall i | 0 <= i < 6
      ensures r[i].0 != [] && r[i].0[0] == firsts[i]
    {
    }
  }

  /** `result[k] = v` for a key not yet present, given the keys so far. */
  lemma AddKey(fields: seq<(string, Json)>, k: string, v: Json, keys: seq<string>)
    requires Keys(fields) == keys && k !in keys
    ensures Put(fields, k, v) == fields + [(k, v)]
    ensures Keys(fields + [(k, v)]) == keys + [k]
  {
    PutNew(fields, k, v);
  }

  /**
   * Given a profile URN that needs no cleaning, the messaging recipient is that URN:
   * the extractor returns it unchanged and its last segment is its id.
   */
  lemma RecipientOfProfileUrn(id: string, unescape: string -> string,
                              apiLookup: string -> Option<string>, pageScan: string -> Option<string>)
    requires ':' !in id && id != [] && !IsJunk(id[|id| - 1])
    requires unescape(ProfilePrefix + id) == ProfilePrefix + id
    ensures ExtractProfileUrnFromUrl(ProfilePrefix + id, unescape, apiLookup, pageScan) == Some(ProfilePrefix + id)
    ensures ProfilePrefix + LastSegment(ProfilePrefix + id) == ProfilePrefix + id
  {
    var urn := ProfilePrefix + id;
    assert StartsWith(urn, ProfilePrefix);
    TrimJunkClean(urn);
    LastSegmentOfProfileUrn(id);
  }

  /** `[u for u in set(all_urns) if your_urn not in u and u.startswith("ACoAA")]`, as a set. */
  function FilterCandidates(all: set<string>): (r: set<string>)
    ensures r <= all
    ensures forall u :: u in r <==> u in all && !Contains(u, OwnId) && StartsWith(u, "ACoAA")
  {
    set u | u in all && !Contains(u, OwnId) && StartsWith(u, "ACoAA")
  }

  /** The own id is never a candidate, though it has the `ACoAA` form. */
  lemma OwnIdNotCandidate(all: set<string>)
    ensures OwnId !in FilterCandidates(all)
    ensures StartsWith(OwnId, "ACoAA")
  {
    assert OwnId[0] == 'A' && OwnId[1] == 'C' && OwnId[2] == 'o' && OwnId[3] == 'A' && OwnId[4] == 'A';
    assert OccursAt(OwnId, OwnId, 0);
    ContainsIff(OwnId, OwnId);
  }
}
