/**
 * The conversation index: flattening the GraphQL conversation list into
 * conversations and participants, building the name-to-URN dict (lower-case keys,
 * own URN skipped, last write wins), and looking a person up by name or URL.
 */
module ConversationExtractor {
  import opened Wrappers
  import opened PyStr
  import opened OrderedDict
  import opened PyJson
  import opened Slugs
  import opened Urns
  import opened ProfileNames

  /** The name parts of a participant whose `participantType.member` is truthy. */
  datatype Member = Member(firstName: Json, lastName: Json, fullName: string, headline: Json,
                           profileUrl: Json, publicIdentifier: string)

  datatype Participant = Participant(hostIdentityUrn: Json, entityUrn: Json, profileUrn: Option<Json>,
                                     member: Option<Member>)

  datatype Conversation = Conversation(conversationUrn: Option<Json>, participants: seq<Participant>,
                                       lastActivity: Json, unreadCount: Json, backendUrn: Json,
                                       conversationUrl: Json)

  /** `x.get('text', '') if isinstance(x, dict) else str(x)`. */
  function TextOf(x: Json): Json {
    if x.JObj? then GetOr(x, "text", JStr("")) else JStr(StrOf(x))
  }

  /**
   * The public identifier of a member's `profileUrl`: the `/`-stripped text after
   * the last `/in/` (no query cut), `""` when the URL is falsy or lacks `/in/`.
   */
  function MemberPublicId(url: Json): (r: Result<string>)
    ensures url.JStr? ==> r == Ok(if Contains(url.s, InMarker) then TailSlug(url.s) else "")
  {
    if !Truthy(url) then Ok("")
    else
      var hasMarker :- In(InMarker, url);
      if !hasMarker then Ok("")
      else if url.JStr? then Ok(TailSlug(url.s))
      else Raise(AttributeError)
  }

  /** The `member` block of a participant. */
  function MemberOf(member: Json): (r: Result<Member>)
    ensures r.Ok? ==> r.value.fullName == FullName(StrOf(r.value.firstName), StrOf(r.value.lastName))
  {
    if !member.JObj? then Raise(AttributeError)
    else
      var first := TextOf(GetOr(member, "firstName", JObj([])));
      var last := TextOf(GetOr(member, "lastName", JObj([])));
      var headline := TextOf(GetOr(member, "headline", JObj([])));
      var url := GetOr(member, "profileUrl", JStr(""));
      var publicId :- MemberPublicId(url);
      Ok(Member(first, last, FullName(StrOf(first), StrOf(last)), headline, url, publicId))
  }

  /**
   * One participant: `profile_urn` is kept only when `hostIdentityUrn` is truthy and
   * `urn:li:fsd_profile:` is in it; the member block only when it is truthy.
   */
  function ParticipantOf(p: Json): (r: Result<Participant>)
    ensures r.Ok? ==> p.JObj? && r.value.hostIdentityUrn == GetOr(p, "hostIdentityUrn", JStr(""))
    ensures r.Ok? && r.value.profileUrn.Some? ==>
              r.value.profileUrn.value == r.value.hostIdentityUrn && Truthy(r.value.hostIdentityUrn)
              && In(ProfilePrefix, r.value.hostIdentityUrn) == Ok(true)
    ensures r.Ok? && r.value.hostIdentityUrn.JStr? ==>
              (r.value.profileUrn.Some? <==> Contains(r.value.hostIdentityUrn.s, ProfilePrefix))
  {
    if !p.JObj? then Raise(AttributeError)
    else
      var host := GetOr(p, "hostIdentityUrn", JStr(""));
      var entity := GetOr(p, "entityUrn", JStr(""));
      var isProfile :- if Truthy(host) then In(ProfilePrefix, host) else Ok(false);
      var participantType := GetOr(p, "participantType", JObj([]));
      if !participantType.JObj? then Raise(AttributeError)
      else
        var member := GetOr(participantType, "member", JObj([]));
        var m :- OptionalMember(member);
        Ok(Participant(host, entity, if isProfile then Some(host) else None, m))
  }

  /** `if member:` around the member block. */
  function OptionalMember(member: Json): (r: Result<Option<Member>>)
    ensures !Truthy(member) ==> r == Ok(None)
    ensures r.Ok? && r.value.Some? ==> MemberOf(member) == Ok(r.value.value)
  {
    if !Truthy(member) then Ok(None)
    else
      var m :- MemberOf(member);
      Ok(Some(m))
  }

  /** All participants, or the first exception. */
  function ParticipantsOf(items: seq<Json>): (r: Result<seq<Participant>>)
    ensures r.Ok? ==> |r.value| == |items| && forall i :: 0 <= i < |items| ==> ParticipantOf(items[i]) == Ok(r.value[i])
  {
    if items == [] then Ok([])
    else
      var p :- ParticipantOf(items[0]);
      var rest :- ParticipantsOf(items[1..]);
      assert forall i :: 1 <= i < |items| ==> items[1..][i - 1] == items[i];
      Ok([p] + rest)
  }

  /** One element of `elements`, with its defaults for missing metadata. */
  function ConversationOf(e: Json): (r: Result<Conversation>)
    ensures r.Ok? ==> e.JObj?
    ensures r.Ok? && "lastActivityAt" !in Keys(e.fields) ==> r.value.lastActivity == JInt(0)
    ensures r.Ok? && "unreadCount" !in Keys(e.fields) ==> r.value.unreadCount == JInt(0)
    ensures r.Ok? && "conversationParticipants" !in Keys(e.fields) ==> r.value.participants == []
    ensures r.Ok? ==> (r.value.conversationUrn.Some? <==> Truthy(GetOr(e, "entityUrn", JStr(""))))
  {
    if !e.JObj? then Raise(AttributeError)
    else
      var urn := GetOr(e, "entityUrn", JStr(""));
      var items :- Iter(GetOr(e, "conversationParticipants", JArr([])));
      var participants :- ParticipantsOf(items);
      Ok(Conversation(if Truthy(urn) then Some(urn) else None, participants,
                      GetOr(e, "lastActivityAt", JInt(0)), GetOr(e, "unreadCount", JInt(0)),
                      GetOr(e, "backendUrn", JStr("")), GetOr(e, "conversationUrl", JStr(""))))
  }

  /** `data.messengerConversationsByCategoryQuery.elements`, each level read with `.get`. */
  function ConversationElements(api: Json): Result<seq<Json>> {
    if !api.JObj? then Raise(AttributeError)
    else
      var data := GetOr(api, "data", JObj([]));
      if !data.JObj? then Raise(AttributeError)
      else
        var query := GetOr(data, "messengerConversationsByCategoryQuery", JObj([]));
        if !query.JObj? then Raise(AttributeError)
        // the `len()` of the count line raises exactly when iterating does
        else Iter(GetOr(query, "elements", JArr([])))
  }

  /**
   * `extract_conversation_data`: one conversation per element, in order; an
   * exception ends the list where it happened, and the partial list is returned.
   */
  function ConversationData(api: Json): seq<Conversation> {
    match ConversationElements(api)
    case Raise(_) => []
    case Ok(elems) => OkPrefix(elems, ConversationOf)
  }

  /** `extract_conversation_data`: the loop over `elements`. */
  method ExtractConversationData(api: Json) returns (conversations: seq<Conversation>)
    ensures conversations == ConversationData(api)
  {
    conversations := [];
    var elems := ConversationElements(api);
    if elems.Raise? {
      return;
    }
    var es := elems.value;
    assert es[0..] == es;
    var i := 0;
    while i < |es|
      invariant 0 <= i <= |es|
      invariant ConversationData(api) == conversations + OkPrefix(es[i..], ConversationOf)
    {
      assert es[i..][0] == es[i] && es[i..][1..] == es[i + 1..];
      OkPrefixStep(conversations, es[i..], ConversationOf);
      var c := ExtractConversation(es[i]);
      if c.Raise? {
        return;
      }
      conversations := conversations + [c.value];
      i := i + 1;
    }
    assert es[i..] == [];
    assert conversations + [] == conversations;
  }

  /** The body of the loop over `elements`, with the loop over its participants. */
  method ExtractConversation(e: Json) returns (r: Result<Conversation>)
    ensures r == ConversationOf(e)
  {
    if !e.JObj? {
      return Raise(AttributeError);
    }
    var urn := GetOr(e, "entityUrn", JStr(""));
    var items := Iter(GetOr(e, "conversationParticipants", JArr([])));
    if items.Raise? {
      return Raise(items.error);
    }
    var participants := ExtractParticipants(items.value);
    if participants.Raise? {
      return Raise(participants.error);
    }
    return Ok(Conversation(if Truthy(urn) then Some(urn) else None, participants.value,
                           GetOr(e, "lastActivityAt", JInt(0)), GetOr(e, "unreadCount", JInt(0)),
                           GetOr(e, "backendUrn", JStr("")), GetOr(e, "conversationUrl", JStr(""))));
  }

  /** The loop over `conversationParticipants`. */
  method ExtractParticipants(items: seq<Json>) returns (r: Result<seq<Participant>>)
    ensures r == ParticipantsOf(items)
  {
    var participants: seq<Participant> := [];
    var j := 0;
    assert items[j..] == items;
    assert ParticipantsOf(items).Ok? ==> [] + ParticipantsOf(items).value == ParticipantsOf(items).value;
    while j < |items|
      invariant 0 <= j <= |items|
      invariant ParticipantsOf(items) == Prepend(participants, ParticipantsOf(items[j..]))
    {
      assert items[j..][0] == items[j] && items[j..][1..] == items[j + 1..];
      var p := ParticipantOf(items[j]);
      if p.Raise? {
        return Raise(p.error);
      }
      PrependStep(participants, items[j..]);
      participants := participants + [p.value];
      j := j + 1;
    }
    assert items[j..] == [];
    assert participants + [] == participants;
    return Ok(participants);
  }
  lemma PrependStep(done: seq<Participant>, items: seq<Json>)
    requires items != [] && ParticipantOf(items[0]).Ok?
    ensures Prepend(done, ParticipantsOf(items)) ==
              Prepend(done + [ParticipantOf(items[0]).value], ParticipantsOf(items[1..]))
  {
    PrependAssoc(done, [ParticipantOf(items[0]).value], ParticipantsOf(items[1..]));
  }

  /** What `create_name_mapping` stores for a participant. */
  datatype MappingEntry = MappingEntry(mailboxUrn: string, conversationUrn: Json, recipientUrn: Json,
                                       fullName: string, firstName: Json, lastName: Json,
                                       publicIdentifier: string, lastActivity: Json, unreadCount: Json)

  /** What every entry of the name mapping satisfies. */
  predicate GoodEntry(key: string, d: MappingEntry) {
    key != [] && IsLower(key) && d.mailboxUrn == OwnUrn && d.recipientUrn != JStr(OwnUrn)
    && Truthy(d.recipientUrn)
  }

  /**
   * The keys and the entry one participant of `conv` contributes, None when it is
   * the own profile or lacks a profile URN or a name. `first_name.lower()` is taken
   * first and raises when the first name is not a string.
   */
  function ParticipantEntry(conv: Conversation, p: Participant): (r: Result<Option<(seq<string>, MappingEntry)>>)
    ensures r.Ok? && r.value.Some? ==>
              var (keys, d) := r.value.value;
              keys != [] && (forall k :: k in keys ==> GoodEntry(k, d))
              && p.profileUrn.Some? && d.recipientUrn == p.profileUrn.value
              && p.member.Some? && d.fullName == p.member.value.fullName
    ensures p.profileUrn == Some(JStr(OwnUrn)) ==> r.Ok? ==> r.value.None?
    ensures p.member.None? ==> r == Ok(None)
    ensures p.profileUrn.None? ==> r.Ok? ==> r.value.None?
  {
    var profileUrn := p.profileUrn.GetOr(JStr(""));
    var fullName := if p.member.Some? then p.member.value.fullName else "";
    var firstName := if p.member.Some? then p.member.value.firstName else JStr("");
    var lastName := if p.member.Some? then p.member.value.lastName else JStr("");
    var publicId := if p.member.Some? then p.member.value.publicIdentifier else "";
    var firstLower :- LowerOf(firstName);
    if profileUrn == JStr(OwnUrn) then Ok(None)
    else if Truthy(profileUrn) && (fullName != [] || firstLower != []) then
      var keys := (if firstLower != [] then [firstLower] else [])
                  + (if fullName != [] then [Lower(fullName)] else [])
                  + (if publicId != [] then [Lower(publicId)] else []);
      var d := MappingEntry(OwnUrn, conv.conversationUrn.GetOr(JStr("")), profileUrn, fullName,
                            firstName, lastName, publicId, conv.lastActivity, conv.unreadCount);
      Ok(Some((keys, d)))
    else Ok(None)
  }

  /** `name_mapping[key] = mapping_data` for each key in turn. */
  function PutKeys(m: seq<(string, MappingEntry)>, keys: seq<string>, d: MappingEntry): seq<(string, MappingEntry)>
    decreases |keys|
  {
    if keys == [] then m else PutKeys(Put(m, keys[0], d), keys[1..], d)
  }

  /** Every (conversation, participant) pair, in the order of the two loops. */
  function Pairs(convs: seq<Conversation>): seq<(Conversation, Participant)> {
    if convs == [] then [] else PairsOf(convs[0], convs[0].participants) + Pairs(convs[1..])
  }

  function PairsOf(c: Conversation, ps: seq<Participant>): seq<(Conversation, Participant)> {
    if ps == [] then [] else [(c, ps[0])] + PairsOf(c, ps[1..])
  }

  /** The mapping after the remaining pairs, or the first exception. */
  function MapPairs(m: seq<(string, MappingEntry)>, pairs: seq<(Conversation, Participant)>)
    : Result<seq<(string, MappingEntry)>>
    decreases |pairs|
  {
    if pairs == [] then Ok(m)
    else
      var entry :- ParticipantEntry(pairs[0].0, pairs[0].1);
      var m' := if entry.Some? then PutKeys(m, entry.value.0, entry.value.1) else m;
      MapPairs(m', pairs[1..])
  }

  /** `create_name_mapping`. */
  function NameMapping(convs: seq<Conversation>): Result<seq<(string, MappingEntry)>> {
    MapPairs([], Pairs(convs))
  }

  /** The outcome for `a + b` is the outcome for `a`, continued with `b`. */
  lemma {:induction false} MapPairsAppend(m: seq<(string, MappingEntry)>, a: seq<(Conversation, Participant)>,
                                          b: seq<(Conversation, Participant)>)
    ensures MapPairs(m, a + b) == match MapPairs(m, a) case Ok(m') => MapPairs(m', b) case Raise(e) => Raise(e)
    decreases |a|
  {
    if a != [] {
      assert (a + b)[0] == a[0] && (a + b)[1..] == a[1..] + b;
      var entry := ParticipantEntry(a[0].0, a[0].1);
      if entry.Ok? {
        var m' := if entry.value.Some? then PutKeys(m, entry.value.value.0, entry.value.value.1) else m;
        MapPairsAppend(m', a[1..], b);
      }
    } else {
      assert a + b == b;
    }
  }

  /** `create_name_mapping`: the loop over the conversations. */
  method CreateNameMapping(convs: seq<Conversation>) returns (r: Result<seq<(string, MappingEntry)>>)
    ensures r == NameMapping(convs)
  {
    var m: seq<(string, MappingEntry)> := [];
    var i := 0;
    while i < |convs|
      invariant 0 <= i <= |convs|
      invariant MapPairs(m, Pairs(convs[i..])) == NameMapping(convs)
    {
      var c := convs[i];
      assert convs[i..][0] == c && convs[i..][1..] == convs[i + 1..];
      MapPairsAppend(m, PairsOf(c, c.participants), Pairs(convs[i + 1..]));
      var next := MapParticipants(m, c);
      if next.Raise? {
        return next;
      }
      m := next.value;
      i := i + 1;
    }
    return Ok(m);
  }

  /** The loop over the participants of one conversation. */
  method MapParticipants(m0: seq<(string, MappingEntry)>, c: Conversation) returns (r: Result<seq<(string, MappingEntry)>>)
    ensures r == MapPairs(m0, PairsOf(c, c.participants))
  {
    var m := m0;
    var j := 0;
    while j < |c.participants|
      invariant 0 <= j <= |c.participants|
      invariant MapPairs(m, PairsOf(c, c.participants[j..])) == MapPairs(m0, PairsOf(c, c.participants))
    {
      var p := c.participants[j];
      assert c.participants[j..][0] == p && c.participants[j..][1..] == c.participants[j + 1..];
      var entry := ParticipantEntry(c, p);
      if entry.Raise? {
        return Raise(entry.error);
      }
      if entry.value.Some? {
        m := MapKeys(m, entry.value.value.0, entry.value.value.1);
      }
      j := j + 1;
    }
    return Ok(m);
  }

  /** `for key in keys_to_map: name_mapping[key] = mapping_data`. */
  method MapKeys(m0: seq<(string, MappingEntry)>, keys: seq<string>, d: MappingEntry) returns (m: seq<(string, MappingEntry)>)
    ensures m == PutKeys(m0, keys, d)
  {
    m := m0;
    var k := 0;
    while k < |keys|
      invariant 0 <= k <= |keys|
      invariant PutKeys(m, keys[k..], d) == PutKeys(m0, keys, d)
    {
      assert keys[k..][0] == keys[k] && keys[k..][1..] == keys[k + 1..];
      m := Put(m, keys[k], d);
      k := k + 1;
    }
  }

  /** Every entry satisfies `GoodEntry`. */
  predicate GoodMapping(m: seq<(string, MappingEntry)>) {
    forall e :: e in m ==> GoodEntry(e.0, e.1)
  }

  lemma {:induction false} PutKeysGood(m: seq<(string, MappingEntry)>, keys: seq<string>, d: MappingEntry)
    requires GoodMapping(m) && DistinctKeys(m)
    requires forall k :: k in keys ==> GoodEntry(k, d)
    ensures GoodMapping(PutKeys(m, keys, d)) && DistinctKeys(PutKeys(m, keys, d))
    decreases |keys|
  {
    if keys != [] {
      PutEntries(m, keys[0], d);
      PutDistinct(m, keys[0], d);
      PutKeysGood(Put(m, keys[0], d), keys[1..], d);
    }
  }

  lemma {:induction false} MapPairsGood(m: seq<(string, MappingEntry)>, pairs: seq<(Conversation, Participant)>)
    requires GoodMapping(m) && DistinctKeys(m)
    ensures MapPairs(m, pairs).Ok? ==> GoodMapping(MapPairs(m, pairs).value) && DistinctKeys(MapPairs(m, pairs).value)
    decreases |pairs|
  {
    if pairs != [] {
      var entry := ParticipantEntry(pairs[0].0, pairs[0].1);
      if entry.Ok? {
        if entry.value.Some? {
          PutKeysGood(m, entry.value.value.0, entry.value.value.1);
          MapPairsGood(PutKeys(m, entry.value.value.0, entry.value.value.1), pairs[1..]);
        } else {
          MapPairsGood(m, pairs[1..]);
        }
      }
    }
  }

  /**
   * Every key of the mapping is non-empty and lower-case and occurs once, every
   * entry's mailbox URN is the own URN, and the own URN is never a recipient.
   */
  lemma NameMappingGood(convs: seq<Conversation>)
    ensures var r := NameMapping(convs);
            r.Ok? ==> DistinctKeys(r.value)
                      && forall e :: e in r.value ==> GoodEntry(e.0, e.1)
  {
    MapPairsGood([], Pairs(convs));
  }

  /** The entry the last pair mapping `k` contributes. */
  function LastEntry(pairs: seq<(Conversation, Participant)>, k: string): Option<MappingEntry> {
    if pairs == [] then None
    else
      var later := LastEntry(pairs[1..], k);
      if later.Some? then later
      else match ParticipantEntry(pairs[0].0, pairs[0].1)
        case Ok(Some((keys, d))) => if k in keys then Some(d) else None
        case _ => None
  }

  lemma {:induction false} PutKeysLookup(m: seq<(string, MappingEntry)>, keys: seq<string>, d: MappingEntry, k: string)
    ensures Lookup(PutKeys(m, keys, d), k) == if k in keys then Some(d) else Lookup(m, k)
    decreases |keys|
  {
    if keys != [] {
      LookupPut(m, keys[0], d, k);
      PutKeysLookup(Put(m, keys[0], d), keys[1..], d, k);
      assert k in keys <==> k == keys[0] || k in keys[1..];
    }
  }

  lemma {:induction false} MapPairsLookup(m: seq<(string, MappingEntry)>, pairs: seq<(Conversation, Participant)>, k: string)
    requires MapPairs(m, pairs).Ok?
    ensures Lookup(MapPairs(m, pairs).value, k) ==
              if LastEntry(pairs, k).Some? then LastEntry(pairs, k) else Lookup(m, k)
    decreases |pairs|
  {
    if pairs != [] {
      var entry := ParticipantEntry(pairs[0].0, pairs[0].1);
      if entry.value.Some? {
        PutKeysLookup(m, entry.value.value.0, entry.value.value.1, k);
        MapPairsLookup(PutKeys(m, entry.value.value.0, entry.value.value.1), pairs[1..], k);
      } else {
        MapPairsLookup(m, pairs[1..], k);
      }
    }
  }

  /** Last write wins: a key maps to the entry of the last participant that produced it. */
  lemma LastWriteWins(convs: seq<Conversation>, k: string)
    requires NameMapping(convs).Ok?
    ensures Lookup(NameMapping(convs).value, k) == LastEntry(Pairs(convs), k)
  {
    MapPairsLookup([], Pairs(convs), k);
  }

  /** `extract_public_id_from_url`: the lower-cased slug, None without `/in/`. */
  function PublicIdLower(url: string): (r: Option<string>)
    ensures r.None? <==> !Contains(url, InMarker)
    ensures r.Some? ==> IsLower(r.value) && '?' !in r.value && '#' !in r.value
  {
    PublicIdFromUrlShape(url);
    match PublicIdFromUrl(url)
    case None => None
    case Some(s) =>
      LowerKeepsAbsentChar(s, '?');
      LowerKeepsAbsentChar(s, '#');
      Some(Lower(s))
  }

  const UrlMarker: string := "linkedin.com/in/"

  /** `check_if_person_exists`: a profile URL with a non-empty slug. */
  function CheckIfPersonExists(nameOrUrl: string): bool {
    Contains(nameOrUrl, UrlMarker) && var id := PublicIdLower(nameOrUrl); id.Some? && |id.value| > 0
  }

  /** A profile URL always yields a slug, so only an empty slug makes the check fail. */
  lemma PersonExistsIff(nameOrUrl: string)
    ensures CheckIfPersonExists(nameOrUrl) <==>
              Contains(nameOrUrl, UrlMarker) && PublicIdLower(nameOrUrl).Some? && PublicIdLower(nameOrUrl).value != []
    ensures Contains(nameOrUrl, UrlMarker) ==> PublicIdLower(nameOrUrl).Some?
  {
    if Contains(nameOrUrl, UrlMarker) {
      ContainsIff(nameOrUrl, UrlMarker);
      var i :| OccursAt(nameOrUrl, UrlMarker, i);
      assert nameOrUrl[i + 12..i + 16] == UrlMarker[12..];
      assert OccursAt(nameOrUrl, InMarker, i + 12);
      ContainsIff(nameOrUrl, InMarker);
    }
  }

  /** The first key, in insertion order, that contains `q` or is contained in it. */
  function FirstPartial(m: seq<(string, MappingEntry)>, q: string): (r: Option<MappingEntry>)
    ensures r.Some? <==> exists i :: 0 <= i < |m| && (Contains(m[i].0, q) || Contains(q, m[i].0))
    ensures r.Some? ==> exists i :: 0 <= i < |m| && m[i].1 == r.value && (Contains(m[i].0, q) || Contains(q, m[i].0))
                                    && forall j :: 0 <= j < i ==> !Contains(m[j].0, q) && !Contains(q, m[j].0)
  {
    if m == [] then None
    else if Contains(m[0].0, q) || Contains(q, m[0].0) then Some(m[0].1)
    else
      var r := FirstPartial(m[1..], q);
      assert forall i :: 1 <= i < |m| ==> m[1..][i - 1] == m[i];
      r
  }

  /** The loop over `name_mapping.items()`. */
  method FindPartial(m: seq<(string, MappingEntry)>, q: string) returns (r: Option<MappingEntry>)
    ensures r == FirstPartial(m, q)
  {
    var i := 0;
    while i < |m|
      invariant 0 <= i <= |m|
      invariant FirstPartial(m, q) == FirstPartial(m[i..], q)
    {
      assert m[i..][0] == m[i] && m[i..][1..] == m[i + 1..];
      if Contains(m[i].0, q) || Contains(q, m[i].0) {
        return Some(m[i].1);
      }
      i := i + 1;
    }
    return None;
  }

  /** An exact key first, then the first partial match. */
  function LookupName(m: seq<(string, MappingEntry)>, q: string): (r: Option<MappingEntry>)
    ensures q in Keys(m) ==> r == Lookup(m, q)
    ensures q !in Keys(m) ==> r == FirstPartial(m, q)
  {
    if q in Keys(m) then Lookup(m, q) else FirstPartial(m, q)
  }

  /**
   * The lookup of `get_urns_by_name` on a built mapping: a profile URL is looked up
   * by its lower-cased slug only, anything else by its lower-cased text.
   */
  function UrnsByName(m: seq<(string, MappingEntry)>, nameOrUrl: string): (r: Option<MappingEntry>)
    ensures Contains(nameOrUrl, UrlMarker) ==>
              var id := PublicIdLower(nameOrUrl);
              r == (if id.Some? && id.value != [] then LookupName(m, id.value) else None)
    ensures !Contains(nameOrUrl, UrlMarker) ==> r == LookupName(m, Lower(nameOrUrl))
  {
    if Contains(nameOrUrl, UrlMarker) then
      var id := PublicIdLower(nameOrUrl);
      if id.Some? && id.value != [] then LookupName(m, id.value) else None
    else LookupName(m, Lower(nameOrUrl))
  }

  /**
   * A profile URL never falls back to a name lookup: whatever it finds is stored
   * under a key equal to, containing or contained in its slug.
   */
  lemma UrlLooksUpSlugOnly(m: seq<(string, MappingEntry)>, url: string)
    requires Contains(url, UrlMarker)
    ensures var r := UrnsByName(m, url);
            r.Some? ==> var id := PublicIdLower(url).value;
              exists i :: 0 <= i < |m| && m[i].1 == r.value
                          && (m[i].0 == id || Contains(m[i].0, id) || Contains(id, m[i].0))
  {
    PersonExistsIff(url);
    var id := PublicIdLower(url).value;
    if id != [] && id in Keys(m) {
      var v := Lookup(m, id).value;
      LookupStored(m, id);
      var i :| 0 <= i < |m| && m[i] == (id, v);
    }
  }

  /**
   * `get_urns_by_name`: None without a (truthy) conversations response; the
   * exception of `create_name_mapping` propagates.
   */
  function UrnsByNameOf(apiResponse: Option<Json>, nameOrUrl: string): Result<Option<MappingEntry>> {
    if apiResponse.None? || !Truthy(apiResponse.value) then Ok(None)
    else
      var m :- NameMapping(ConversationData(apiResponse.value));
      Ok(UrnsByName(m, nameOrUrl))
  }

  /** `get_urns_by_name` as written, over the extraction and mapping loops. */
  method GetUrnsByName(apiResponse: Option<Json>, nameOrUrl: string) returns (r: Result<Option<MappingEntry>>)
    ensures r == UrnsByNameOf(apiResponse, nameOrUrl)
  {
    if apiResponse.None? || !Truthy(apiResponse.value) {
      return Ok(None);
    }
    var conversations := ExtractConversationData(apiResponse.value);
    var mapping := CreateNameMapping(conversations);
    if mapping.Raise? {
      return Raise(mapping.error);
    }
    var m := mapping.value;
    var q: string;
    if Contains(nameOrUrl, UrlMarker) {
      var id := PublicIdLower(nameOrUrl);
      if id.None? || id.value == [] {
        return Ok(None);
      }
      q := id.value;
    } else {
      q := Lower(nameOrUrl);
    }
    if q in Keys(m) {
      return Ok(Lookup(m, q));
    }
    var found := FindPartial(m, q);
    return Ok(found);
  }
}
