/**
 * The identifiers an invite needs, read from a profile response: the numeric
 * member id, the encoded profile id and the first and last name, searched at the
 * top level of the response and then in its `included` profile elements, plus the
 * public identifier taken from the profile URL.
 */
module ProfileIdentifiers {
  import opened Wrappers
  import opened PyStr
  import opened OrderedDict
  import opened PyJson
  import opened Slugs
  import opened Urns

  const MemberMarker: string := "urn:li:member:"
  const ProfileMarker: string := "fsd_profile"

  /** The four variables of the search; `JNull` is Python's `None`. */
  datatype Sniffed = Sniffed(memberId: Json, profileId: Json, firstName: Json, lastName: Json)

  datatype Field = MemberId | ProfileId | FirstName | LastName

  function FieldOf(s: Sniffed, f: Field): Json {
    match f
    case MemberId => s.memberId
    case ProfileId => s.profileId
    case FirstName => s.firstName
    case LastName => s.lastName
  }

  /** `x.split(":")[-1]`: only strings have `split`. */
  function LastSegmentOf(x: Json): (r: Result<string>)
    ensures r.Ok? <==> x.JStr?
  {
    match x
    case JStr(s) => Ok(LastSegment(s))
    case _ => Raise(AttributeError)
  }

  /**
   * `key in d and marker in d[key]` and then `d[key].split(":")[-1]`: the id found
   * under `key`, or `None` when the test fails.
   */
  function UrnId(d: Json, key: string, marker: string): (r: Result<Option<string>>)
    ensures d.JObj? && key !in Keys(d.fields) ==> r == Ok(None)
    ensures d.JObj? && key in Keys(d.fields) && Lookup(d.fields, key).value.JStr? ==>
              var v := Lookup(d.fields, key).value.s;
              r == if PyStr.Contains(v, marker) then Ok(Some(LastSegment(v))) else Ok(None)
  {
    var has :- In(key, d);
    if !has then Ok(None)
    else
      var v :- Index(d, key);
      var found :- In(marker, v);
      if !found then Ok(None)
      else
        var id :- LastSegmentOf(v);
        Ok(Some(id))
  }

  /** `k in data and isinstance(data[k], str)`: the top-level name under `k`, if it is a string. */
  function TopName(data: Json, k: string): (r: Result<Option<string>>)
    ensures data.JObj? ==> r.Ok?
    ensures data.JObj? && k in Keys(data.fields) && Lookup(data.fields, k).value.JStr? ==>
              r == Ok(Some(Lookup(data.fields, k).value.s))
  {
    var has :- In(k, data);
    if !has then Ok(None)
    else
      var v :- Index(data, k);
      if v.JStr? then Ok(Some(v.s)) else Ok(None)
  }

  function OrNone(found: Option<string>): Json {
    match found
    case Some(s) => JStr(s)
    case None => JNull
  }

  /** The four variables after the top-level names and URNs have been read. */
  function TopLevel(data: Json): Result<Sniffed> {
    var first :- TopName(data, "firstName");
    var last :- TopName(data, "lastName");
    var member :- UrnId(data, "objectUrn", MemberMarker);
    var profile :- UrnId(data, "entityUrn", ProfileMarker);
    Ok(Sniffed(OrNone(member), OrNone(profile), OrNone(first), OrNone(last)))
  }

  /** `"Profile" in etype or "MiniProfile" in etype`, with Python's short circuit. */
  function ProfileTest(etype: Json): Result<bool> {
    var profile :- In("Profile", etype);
    if profile then Ok(true) else In("MiniProfile", etype)
  }

  /** An element the loop reads: a dict whose `$type` passes the test without raising. */
  predicate ProfileTyped(elem: Json) {
    elem.JObj? && ProfileTest(GetOr(elem, "$type", JStr(""))) == Ok(true)
  }

  /**
   * What a profile element offers for a field while that field is still empty:
   * its member id or profile id when present, or its `firstName` or `lastName`.
   * Any other element offers nothing.
   */
  function Candidate(elem: Json, f: Field): Json {
    if !ProfileTyped(elem) then JNull
    else
      match f
      case MemberId => (match UrnId(elem, "objectUrn", MemberMarker) case Ok(Some(id)) => JStr(id) case _ => JNull)
      case ProfileId => (match UrnId(elem, "entityUrn", ProfileMarker) case Ok(Some(id)) => JStr(id) case _ => JNull)
      case FirstName => GetOr(elem, "firstName", JNull)
      case LastName => GetOr(elem, "lastName", JNull)
  }

  /**
   * One pass of the loop over `data.get("included", [])`: `elem.get("$type", "")`,
   * the type test, the two URN tests guarded by `not member_id` / `not profile_id`,
   * and `maybe_set_name`, which fills a name only while it is empty.
   */
  function Step(s: Sniffed, elem: Json): Result<Sniffed> {
    var etype :- PyJson.Get(elem, "$type", JStr(""));
    var isProfile :- ProfileTest(etype);
    if !isProfile then Ok(s)
    else
      var member :- if Truthy(s.memberId) then Ok(None) else UrnId(elem, "objectUrn", MemberMarker);
      var profile :- if Truthy(s.profileId) then Ok(None) else UrnId(elem, "entityUrn", ProfileMarker);
      var f := GetOr(elem, "firstName", JNull);
      var l := GetOr(elem, "lastName", JNull);
      Ok(Sniffed(
        if member.Some? then JStr(member.value) else s.memberId,
        if profile.Some? then JStr(profile.value) else s.profileId,
        if Truthy(f) && !Truthy(s.firstName) then f else s.firstName,
        if Truthy(l) && !Truthy(s.lastName) then l else s.lastName))
  }

  /** A step never overwrites a field that holds something. */
  lemma StepKeepsFound(s: Sniffed, elem: Json, f: Field)
    requires Step(s, elem).Ok? && Truthy(FieldOf(s, f))
    ensures FieldOf(Step(s, elem).value, f) == FieldOf(s, f)
  {
  }

  /** While a field is empty, a step gives it the element's candidate, or leaves it empty. */
  lemma StepFillsEmpty(s: Sniffed, elem: Json, f: Field)
    requires Step(s, elem).Ok? && !Truthy(FieldOf(s, f))
    ensures Truthy(Candidate(elem, f)) ==> FieldOf(Step(s, elem).value, f) == Candidate(elem, f)
    ensures !Truthy(Candidate(elem, f)) ==> !Truthy(FieldOf(Step(s, elem).value, f))
  {
  }

  /** The loop: each element in turn, until one raises. */
  function Scan(s: Sniffed, elems: seq<Json>): Result<Sniffed>
    decreases |elems|
  {
    if elems == [] then Ok(s)
    else
      var s' :- Step(s, elems[0]);
      Scan(s', elems[1..])
  }

  /** The elements of `data.get("included", [])`. */
  function IncludedElems(data: Json): Result<seq<Json>> {
    var included :- PyJson.Get(data, "included", JArr([]));
    Iter(included)
  }

  /** `sniff_member_and_name`: the top level first, then the `included` elements. */
  function Sniff(data: Json): Result<Sniffed> {
    var top :- TopLevel(data);
    var elems :- IncludedElems(data);
    Scan(top, elems)
  }

  /** The dict `sniff_member_and_name` returns. */
  function Info(s: Sniffed): Json {
    JObj([("member_id", s.memberId), ("profile_id", s.profileId), ("first_name", s.firstName), ("last_name", s.lastName)])
  }

  /** A field that holds something is never overwritten by the loop. */
  lemma {:induction false} ScanKeepsFound(s: Sniffed, elems: seq<Json>, f: Field)
    requires Scan(s, elems).Ok? && Truthy(FieldOf(s, f))
    ensures FieldOf(Scan(s, elems).value, f) == FieldOf(s, f)
    decreases |elems|
  {
    if elems != [] {
      StepKeepsFound(s, elems[0], f);
      ScanKeepsFound(Step(s, elems[0]).value, elems[1..], f);
    }
  }

  /**
   * The first element that offers something for an empty field decides it: elements
   * before it offer nothing (or an empty value), and later ones are ignored.
   */
  lemma {:induction false} FirstFoundWins(s: Sniffed, elems: seq<Json>, f: Field, i: nat)
    requires Scan(s, elems).Ok? && !Truthy(FieldOf(s, f)) && i < |elems|
    requires Truthy(Candidate(elems[i], f))
    requires forall j :: 0 <= j < i ==> !Truthy(Candidate(elems[j], f))
    ensures FieldOf(Scan(s, elems).value, f) == Candidate(elems[i], f)
    decreases i
  {
    var s' := Step(s, elems[0]).value;
    StepFillsEmpty(s, elems[0], f);
    if i == 0 {
      ScanKeepsFound(s', elems[1..], f);
    } else {
      assert elems[1..][i - 1] == elems[i];
      FirstFoundWins(s', elems[1..], f, i - 1);
    }
  }

  /** A field nobody offers stays empty. */
  lemma {:induction false} NothingOfferedStaysEmpty(s: Sniffed, elems: seq<Json>, f: Field)
    requires Scan(s, elems).Ok? && !Truthy(FieldOf(s, f))
    requires forall j :: 0 <= j < |elems| ==> !Truthy(Candidate(elems[j], f))
    ensures !Truthy(FieldOf(Scan(s, elems).value, f))
    decreases |elems|
  {
    if elems != [] {
      StepFillsEmpty(s, elems[0], f);
      assert forall j :: 0 <= j < |elems[1..]| ==> elems[1..][j] == elems[j + 1];
      NothingOfferedStaysEmpty(Step(s, elems[0]).value, elems[1..], f);
    }
  }

  /** An element whose `$type` names no profile is skipped without effect. */
  lemma NonProfileSkipped(s: Sniffed, elem: Json)
    requires elem.JObj?
    requires var etype := GetOr(elem, "$type", JStr("")); etype.JStr? && !PyStr.Contains(etype.s, "Profile")
    ensures Step(s, elem) == Ok(s)
  {
    var etype := GetOr(elem, "$type", JStr("")).s;
    assert !PyStr.Contains(etype, "MiniProfile") by {
      ContainsIff(etype, "MiniProfile");
      ContainsIff(etype, "Profile");
      if PyStr.Contains(etype, "MiniProfile") {
        var i :| OccursAt(etype, "MiniProfile", i);
        assert etype[i + 4..i + 11] == "MiniProfile"[4..];
        assert OccursAt(etype, "Profile", i + 4);
      }
    }
  }

  /** A top-level string name that is not empty is the result, whatever `included` holds. */
  lemma TopNameWins(data: Json, k: string, f: Field)
    requires (k == "firstName" && f == FirstName) || (k == "lastName" && f == LastName)
    requires Sniff(data).Ok? && data.JObj? && k in Keys(data.fields)
    requires var v := Lookup(data.fields, k).value; v.JStr? && v.s != ""
    ensures FieldOf(Sniff(data).value, f) == Lookup(data.fields, k).value
  {
    var top := TopLevel(data).value;
    ScanKeepsFound(top, IncludedElems(data).value, f);
  }

  /**
   * A top-level URN that holds the marker decides the id, as its last `:` segment,
   * whenever that segment is not empty.
   */
  lemma TopUrnWins(data: Json, key: string, marker: string, f: Field)
    requires (key == "objectUrn" && marker == MemberMarker && f == MemberId) ||
             (key == "entityUrn" && marker == ProfileMarker && f == ProfileId)
    requires Sniff(data).Ok? && data.JObj? && key in Keys(data.fields)
    requires var v := Lookup(data.fields, key).value; v.JStr? && PyStr.Contains(v.s, marker) && LastSegment(v.s) != ""
    ensures FieldOf(Sniff(data).value, f) == JStr(LastSegment(Lookup(data.fields, key).value.s))
  {
    var top := TopLevel(data).value;
    ScanKeepsFound(top, IncludedElems(data).value, f);
  }

  /** One pass of the loop body on the four variables. */
  method SniffElement(s: Sniffed, elem: Json) returns (r: Result<Sniffed>)
    ensures r == Step(s, elem)
  {
    var memberId, profileId, firstName, lastName := s.memberId, s.profileId, s.firstName, s.lastName;
    var etype :- PyJson.Get(elem, "$type", JStr(""));
    var isProfile :- In("Profile", etype);
    if !isProfile {
      // The second `in` cannot raise once the first one answered.
      var mini := In("MiniProfile", etype);
      isProfile := mini.value;
    }
    if isProfile {
      if !Truthy(memberId) {
        var id :- UrnId(elem, "objectUrn", MemberMarker);
        if id.Some? {
          memberId := JStr(id.value);
        }
      }
      if !Truthy(profileId) {
        var id :- UrnId(elem, "entityUrn", ProfileMarker);
        if id.Some? {
          profileId := JStr(id.value);
        }
      }
      var f := GetOr(elem, "firstName", JNull);
      var l := GetOr(elem, "lastName", JNull);
      if Truthy(f) && !Truthy(firstName) {
        firstName := f;
      }
      if Truthy(l) && !Truthy(lastName) {
        lastName := l;
      }
    }
    r := Ok(Sniffed(memberId, profileId, firstName, lastName));
  }

  /** The top-level reads of `sniff_member_and_name`, before the loop. */
  method SniffTopLevel(data: Json) returns (r: Result<Sniffed>)
    ensures r == TopLevel(data)
  {
    var memberId, profileId, firstName, lastName := JNull, JNull, JNull, JNull;
    var first :- TopName(data, "firstName");
    if first.Some? {
      firstName := JStr(first.value);
    }
    var last :- TopName(data, "lastName");
    if last.Some? {
      lastName := JStr(last.value);
    }
    var member :- UrnId(data, "objectUrn", MemberMarker);
    if member.Some? {
      memberId := JStr(member.value);
    }
    var profile :- UrnId(data, "entityUrn", ProfileMarker);
    if profile.Some? {
      profileId := JStr(profile.value);
    }
    r := Ok(Sniffed(memberId, profileId, firstName, lastName));
  }

  /** `sniff_member_and_name` as the source runs it: the top-level reads, then the loop. */
  method SniffMemberAndName(data: Json) returns (r: Result<Json>)
    ensures r == (match Sniff(data) case Ok(s) => Ok(Info(s)) case Raise(e) => Raise(e))
  {
    var found :- SniffTopLevel(data);
    var elems :- IncludedElems(data);
    assert elems[0..] == elems;
    var i := 0;
    while i < |elems|
      invariant 0 <= i <= |elems|
      invariant Sniff(data) == Scan(found, elems[i..])
    {
      assert elems[i..][0] == elems[i] && elems[i..][1..] == elems[i + 1..];
      found :- SniffElement(found, elems[i]);
      i := i + 1;
    }
    assert elems[i..] == [];
    r := Ok(Info(found));
  }
  const InfoKeys: seq<string> := ["member_id", "profile_id", "first_name", "last_name", "public_identifier"]

  /**
   * `get_identifiers`: the public identifier from the URL, the identity response
   * for it (`fetch`, `None` when the request fails), the search, and the
   * profileView fallback (`profileViewId`: the `urn:li:fsd_profile:` id its
   * response holds, if any), which is consulted only while `profile_id` is empty.
   */
  function GetIdentifiers(profileUrl: string, fetch: string -> Option<Json>, profileViewId: string -> Option<string>): Result<Json> {
    var publicId := ExtractPublicIdentifier(profileUrl);
    Identify(fetch(publicId), publicId, profileViewId)
  }

  /** The part of `get_identifiers` after the identity request for `publicId`. */
  function Identify(data: Option<Json>, publicId: string, profileViewId: string -> Option<string>): Result<Json> {
    if data.None? || !Truthy(data.value) then Ok(JObj([]))
    else
      var s :- Sniff(data.value);
      var info := Put(Info(s).fields, "public_identifier", JStr(publicId));
      if Truthy(GetOr(JObj(info), "profile_id", JNull)) then Ok(JObj(info))
      else
        match profileViewId(publicId)
        case Some(id) => Ok(JObj(Put(info, "profile_id", JStr(id))))
        case None => Ok(JObj(info))
  }

  /** No usable identity response gives `{}`. */
  lemma GetIdentifiersNoData(profileUrl: string, fetch: string -> Option<Json>, profileViewId: string -> Option<string>)
    requires var data := fetch(ExtractPublicIdentifier(profileUrl)); data.None? || !Truthy(data.value)
    ensures GetIdentifiers(profileUrl, fetch, profileViewId) == Ok(JObj([]))
  {
  }

  /** The five keys differ from each other. */
  lemma InfoKeysDistinct()
    ensures forall a, b :: 0 <= a < b < |InfoKeys| ==> InfoKeys[a] != InfoKeys[b]
  {
    assert |InfoKeys[0]| == 9 && |InfoKeys[1]| == 10 && |InfoKeys[2]| == 10 && |InfoKeys[3]| == 9 && |InfoKeys[4]| == 17;
    assert InfoKeys[0][0] == 'm' && InfoKeys[1][0] == 'p' && InfoKeys[2][0] == 'f' && InfoKeys[3][0] == 'l';
  }

  /** In a dict with distinct keys, each key finds its own entry. */
  lemma LookupDistinct(fields: seq<(string, Json)>, i: nat)
    requires i < |fields| && forall a, b :: 0 <= a < b < |fields| ==> fields[a].0 != fields[b].0
    ensures Lookup(fields, fields[i].0) == Some(fields[i].1)
  {
    LookupAt(fields, i, fields[i].0);
  }

  /** The four search results, then the public identifier. */
  lemma InfoWithPublicId(s: Sniffed, publicId: string)
    ensures var info := Put(Info(s).fields, "public_identifier", JStr(publicId));
            Keys(info) == InfoKeys &&
            Lookup(info, "member_id") == Some(s.memberId) && Lookup(info, "profile_id") == Some(s.profileId) &&
            Lookup(info, "first_name") == Some(s.firstName) && Lookup(info, "last_name") == Some(s.lastName) &&
            Lookup(info, "public_identifier") == Some(JStr(publicId))
  {
    var v := JStr(publicId);
    var fields := Info(s).fields;
    InfoKeysWithPublicId(s, publicId);
    InfoLookups(s);
    assert |"public_identifier"| == 17;
    LookupPut(fields, "public_identifier", v, "member_id");
    LookupPut(fields, "public_identifier", v, "profile_id");
    LookupPut(fields, "public_identifier", v, "first_name");
    LookupPut(fields, "public_identifier", v, "last_name");
    LookupPut(fields, "public_identifier", v, "public_identifier");
  }

  /** The public identifier is a fifth key after the four of the search. */
  lemma InfoKeysWithPublicId(s: Sniffed, publicId: string)
    ensures Keys(Put(Info(s).fields, "public_identifier", JStr(publicId))) == InfoKeys
  {
    var fields := Info(s).fields;
    assert Keys(fields) == InfoKeys[..4];
    assert InfoKeys[..4] + [InfoKeys[4]] == InfoKeys;
    InfoKeysDistinct();
    KeysPut(fields, "public_identifier", JStr(publicId));
  }

  /** Each of the four search results sits under its own key. */
  lemma InfoLookups(s: Sniffed)
    ensures var fields := Info(s).fields;
            Lookup(fields, "member_id") == Some(s.memberId) && Lookup(fields, "profile_id") == Some(s.profileId) &&
            Lookup(fields, "first_name") == Some(s.firstName) && Lookup(fields, "last_name") == Some(s.lastName)
  {
    var fields := Info(s).fields;
    assert |"member_id"| == 9 && |"profile_id"| == 10 && |"first_name"| == 10 && |"last_name"| == 9;
    assert "profile_id"[0] != "first_name"[0] && "member_id"[0] != "last_name"[0];
    LookupAt(fields, 0, "member_id");
    LookupAt(fields, 1, "profile_id");
    LookupAt(fields, 2, "first_name");
    LookupAt(fields, 3, "last_name");
  }

  /** Replacing `profile_id` afterwards is the same as having found that id in the search. */
  lemma ReplaceProfileId(s: Sniffed, publicId: string, id: string)
    ensures var info := Put(Info(s).fields, "public_identifier", JStr(publicId));
            Put(info, "profile_id", JStr(id)) == Put(Info(s.(profileId := JStr(id))).fields, "public_identifier", JStr(publicId))
  {
    var fields := Info(s).fields;
    InfoKeysDistinct();
    assert Keys(fields) == InfoKeys[..4];
    PutNew(fields, "public_identifier", JStr(publicId));
    var fields' := Info(s.(profileId := JStr(id))).fields;
    assert Keys(fields') == InfoKeys[..4];
    PutNew(fields', "public_identifier", JStr(publicId));
    var info := fields + [("public_identifier", JStr(publicId))];
    assert info[0].0 != "profile_id" && info[1].0 == "profile_id";
    assert Put(info, "profile_id", JStr(id)) == [info[0]] + Put(info[1..], "profile_id", JStr(id));
  }

  /** The search result with `profile_id` filled from the fallback when the search left it empty. */
  function Resolved(s: Sniffed, fallback: Option<string>): (r: Sniffed)
    ensures r.memberId == s.memberId && r.firstName == s.firstName && r.lastName == s.lastName
    ensures Truthy(s.profileId) ==> r == s
    ensures fallback.None? ==> r == s
    ensures !Truthy(s.profileId) && fallback.Some? ==> r.profileId == JStr(fallback.value)
  {
    if !Truthy(s.profileId) && fallback.Some? then s.(profileId := JStr(fallback.value)) else s
  }

  /**
   * Otherwise the result is the dict of the search result, with `profile_id` taken from
   * the fallback only when the search left it empty, and the public identifier of the URL
   * appended; `InfoWithPublicId` gives its keys and values.
   */
  lemma GetIdentifiersShape(profileUrl: string, fetch: string -> Option<Json>, profileViewId: string -> Option<string>)
    requires var data := fetch(ExtractPublicIdentifier(profileUrl)); data.Some? && Truthy(data.value) && Sniff(data.value).Ok?
    ensures var publicId := ExtractPublicIdentifier(profileUrl);
            var s := Sniff(fetch(publicId).value).value;
            GetIdentifiers(profileUrl, fetch, profileViewId) ==
              Ok(JObj(Put(Info(Resolved(s, profileViewId(publicId))).fields, "public_identifier", JStr(publicId))))
  {
    var publicId := ExtractPublicIdentifier(profileUrl);
    IdentifyShape(fetch(publicId).value, publicId, profileViewId);
  }

  /** The part after the identity request on a usable response: the resolved search result and the public identifier. */
  lemma IdentifyShape(data: Json, publicId: string, profileViewId: string -> Option<string>)
    requires Truthy(data) && Sniff(data).Ok?
    ensures var s := Sniff(data).value;
            Identify(Some(data), publicId, profileViewId) ==
              Ok(JObj(Put(Info(Resolved(s, profileViewId(publicId))).fields, "public_identifier", JStr(publicId))))
  {
    var s := Sniff(data).value;
    var info := Put(Info(s).fields, "public_identifier", JStr(publicId));
    InfoWithPublicId(s, publicId);
    assert GetOr(JObj(info), "profile_id", JNull) == s.profileId;
    var r := Identify(Some(data), publicId, profileViewId);
    assert r == (if Truthy(s.profileId) then Ok(JObj(info))
      else match profileViewId(publicId)
        case Some(id) => Ok(JObj(Put(info, "profile_id", JStr(id))))
        case None => Ok(JObj(info)));
    if !Truthy(s.profileId) && profileViewId(publicId).Some? {
      var id := profileViewId(publicId).value;
      assert Resolved(s, profileViewId(publicId)) == s.(profileId := JStr(id));
      assert r == Ok(JObj(Put(info, "profile_id", JStr(id))));
      ReplaceProfileId(s, publicId, id);
    } else {
      assert Resolved(s, profileViewId(publicId)) == s;
      assert r == Ok(JObj(info));
    }
  }

  /** Two profileView answers can only make a difference when the search left `profile_id` empty. */
  lemma ProfileViewOnlyWhenMissing(profileUrl: string, fetch: string -> Option<Json>, viewA: string -> Option<string>, viewB: string -> Option<string>)
    requires GetIdentifiers(profileUrl, fetch, viewA) != GetIdentifiers(profileUrl, fetch, viewB)
    ensures var data := fetch(ExtractPublicIdentifier(profileUrl));
            data.Some? && Truthy(data.value) && Sniff(data.value).Ok? && !Truthy(Sniff(data.value).value.profileId)
    ensures viewA(ExtractPublicIdentifier(profileUrl)) != viewB(ExtractPublicIdentifier(profileUrl))
  {
    var publicId := ExtractPublicIdentifier(profileUrl);
    var data := fetch(publicId);
    if data.Some? && Truthy(data.value) && Sniff(data.value).Ok? {
      InfoWithPublicId(Sniff(data.value).value, publicId);
    }
  }
}
