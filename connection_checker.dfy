/**
 * The original connection checker: the profile-name chain, the connection-info
 * extraction from one endpoint response, and the fallback chain across endpoints.
 * Each endpoint's request is replaced by its outcome; the pattern and messaging
 * scans over the serialised response are inputs.
 */
module ConnectionChecker {
  import opened Wrappers
  import opened PyStr
  import opened OrderedDict
  import opened PyJson
  import opened Slugs
  import opened Distance
  import opened ProfileNames

  /**
   * `extract_profile_name` up to its `except`: the direct fields, the combined
   * top-level pair, then the four scans over `included` in their order.
   */
  function ProfileNameResult(data: Json): Result<Option<string>> {
    var direct :- DirectName(data);
    if direct.Some? then Ok(direct)
    else
      var pair :- NamedElement(data);
      if pair.Some? then Ok(pair)
      else
        var hasIncluded :- In("included", data);
        if !hasIncluded then Ok(None)
        else
          var included :- Index(data, "included");
          // the `len()` of the debug line raises exactly when iterating does
          var elems :- Iter(included);
          IncludedScans(elems)
  }

  /** The four scans over `included`, in their order: Profile, MiniProfile, generic, paired names. */
  function IncludedScans(elems: seq<Json>): Result<Option<string>> {
    var typed :- FirstFound(elems, ProfileStep);
    if typed.Some? then Ok(typed)
    else
      var mini :- FirstFound(elems, MiniProfileStep);
      if mini.Some? then Ok(mini)
      else
        var generic :- FirstFound(elems, GenericStep);
        if generic.Some? then Ok(generic)
        else FirstFound(elems, PairStep)
  }

  /** `extract_profile_name`: any exception gives None. */
  function ProfileNameOf(data: Json): (r: Option<string>)
    ensures r.Some? ==> IsStripped(r.value)
  {
    match ProfileNameResult(data)
    case Ok(name) => name
    case Raise(_) => None
  }

  /** `extract_profile_name`, pass by pass, each scan a loop that returns its first find. */
  method ExtractProfileName(data: Json) returns (name: Option<string>)
    ensures name == ProfileNameOf(data)
  {
    var direct := FirstFoundLoop(DirectFields, DirectStepOf(data));
    if direct.Raise? {
      return None;
    }
    if direct.value.Some? {
      return direct.value;
    }
    var pair := NamedElement(data);
    if pair.Raise? {
      return None;
    }
    if pair.value.Some? {
      return pair.value;
    }
    var hasIncluded := In("included", data);
    if hasIncluded.Raise? || !hasIncluded.value {
      return None;
    }
    var included := Index(data, "included");
    if included.Raise? {
      return None;
    }
    var elems := Iter(included.value);
    if elems.Raise? {
      return None;
    }
    var steps := [ProfileStep, MiniProfileStep, GenericStep, PairStep];
    ScansInOrder(data, elems.value);
    assert steps[0..] == steps;
    var k := 0;
    while k < 4
      invariant 0 <= k <= 4
      invariant ProfileNameOf(data) == LaterScans(elems.value, steps[k..])
    {
      var found := FirstFoundLoop(elems.value, steps[k]);
      if found.Raise? {
        return None;
      }
      if found.value.Some? {
        return found.value;
      }
      assert steps[k..][1..] == steps[k + 1..];
      k := k + 1;
    }
    return None;
  }

  /** The scans still to run, in order, with an exception giving None. */
  function LaterScans(elems: seq<Json>, steps: seq<Json -> Result<Option<string>>>): Option<string> {
    if steps == [] then None
    else match FirstFound(elems, steps[0])
      case Raise(_) => None
      case Ok(Some(n)) => Some(n)
      case Ok(None) => LaterScans(elems, steps[1..])
  }

  /** Once the top level has no name, the name is the outcome of the four scans in order. */
  lemma ScansInOrder(data: Json, elems: seq<Json>)
    requires DirectName(data) == Ok(None) && NamedElement(data) == Ok(None)
    requires In("included", data) == Ok(true)
    requires Index(data, "included").Ok? && Iter(Index(data, "included").value) == Ok(elems)
    ensures ProfileNameOf(data) == LaterScans(elems, [ProfileStep, MiniProfileStep, GenericStep, PairStep])
  {
    assert ProfileNameResult(data) == IncludedScans(elems);
    IncludedScansInOrder(elems);
  }

  /** The scan chain stops at the first scan that raises or finds a name. */
  lemma IncludedScansInOrder(elems: seq<Json>)
    ensures (match IncludedScans(elems) case Ok(n) => n case Raise(_) => None)
            == LaterScans(elems, [ProfileStep, MiniProfileStep, GenericStep, PairStep])
  {
    var steps := [ProfileStep, MiniProfileStep, GenericStep, PairStep];
    var typed := FirstFound(elems, ProfileStep);
    var mini := FirstFound(elems, MiniProfileStep);
    var generic := FirstFound(elems, GenericStep);
    var pair := FirstFound(elems, PairStep);
    assert steps[0] == ProfileStep && steps[1..] == [MiniProfileStep, GenericStep, PairStep];
    if typed.Raise? || typed.value.Some? {
      assert IncludedScans(elems) == typed;
    } else {
      var rest := [MiniProfileStep, GenericStep, PairStep];
      assert LaterScans(elems, steps) == LaterScans(elems, rest);
      assert rest[0] == MiniProfileStep && rest[1..] == [GenericStep, PairStep];
      if mini.Raise? || mini.value.Some? {
        assert IncludedScans(elems) == mini;
      } else {
        var last := [GenericStep, PairStep];
        assert LaterScans(elems, rest) == LaterScans(elems, last);
        assert last[0] == GenericStep && last[1..] == [PairStep];
        assert [PairStep][1..] == [];
        if generic.Raise? || generic.value.Some? {
          assert IncludedScans(elems) == generic;
        } else {
          assert IncludedScans(elems) == pair;
          assert LaterScans(elems, last) == LaterScans(elems, [PairStep]);
          assert LaterScans(elems, [PairStep]) == match pair case Raise(_) => None case Ok(n) => n;
        }
      }
    }
  }

  /** A top-level `firstName` that is a non-empty string is the whole name, without `lastName`. */
  lemma FirstNameAlone(data: Json, s: string)
    requires data.JObj? && Lookup(data.fields, "firstName") == Some(JStr(s)) && Strip(s) != []
    ensures ProfileNameOf(data) == Some(Strip(s))
  {
    assert DirectStepOf(data)(DirectFields[0]) == Ok(Some(Strip(s)));
    FirstFoundAt(DirectFields, DirectStepOf(data), 0);
  }

  /**
   * Without a top-level name, the first named `…profile.Profile` element of
   * `included` gives the name, whatever MiniProfile, generic or paired elements
   * come before it.
   */
  lemma ProfileElementPreferred(data: Json, elems: seq<Json>, i: nat, name: string)
    requires DirectName(data) == Ok(None)
    requires data.JObj? && Lookup(data.fields, "included") == Some(JArr(elems))
    requires i < |elems| && ProfileStep(elems[i]) == Ok(Some(name))
    requires forall j :: 0 <= j < i ==> ProfileStep(elems[j]) == Ok(None)
    ensures ProfileNameOf(data) == Some(name)
  {
    MainPairUnreachable(data);
    FirstFoundAt(elems, ProfileStep, i);
  }

  /** When no Profile element is named, the first named MiniProfile element comes next. */
  lemma MiniProfileNext(data: Json, elems: seq<Json>, i: nat, name: string)
    requires DirectName(data) == Ok(None)
    requires data.JObj? && Lookup(data.fields, "included") == Some(JArr(elems))
    requires forall j :: 0 <= j < |elems| ==> ProfileStep(elems[j]) == Ok(None)
    requires i < |elems| && MiniProfileStep(elems[i]) == Ok(Some(name))
    requires forall j :: 0 <= j < i ==> MiniProfileStep(elems[j]) == Ok(None)
    ensures ProfileNameOf(data) == Some(name)
  {
    MainPairUnreachable(data);
    FirstFoundAt(elems, MiniProfileStep, i);
    assert FirstFound(elems, ProfileStep) == Ok(None);
    assert IncludedScans(elems) == Ok(Some(name));
    assert ProfileNameResult(data) == IncludedScans(elems);
  }

  /**
   * One element of `included` in the distance scan: a `distance` field decides by
   * the element rules, else `connectionDegree`, else `relationshipDistance` is
   * taken as it is. `Some(v)` is a `break` with `distance = v`, and `v` may be None.
   */
  function DistanceStep(e: Json): (r: Result<Option<Json>>)
    ensures e.JObj? && "distance" !in Keys(e.fields) && "connectionDegree" in Keys(e.fields) ==>
              r == Ok(Lookup(e.fields, "connectionDegree"))
    ensures e.JObj? && "distance" !in Keys(e.fields) && "connectionDegree" !in Keys(e.fields) ==>
              r == Ok(Lookup(e.fields, "relationshipDistance"))
    ensures e.JObj? && "distance" in Keys(e.fields) && ElementDistance(Lookup(e.fields, "distance").value).Decided? ==>
              r == Ok(Some(ElementDistance(Lookup(e.fields, "distance").value).value))
  {
    var hasDistance :- In("distance", e);
    var fromDistance :- if hasDistance then ElementDecision(e) else Ok(Undecided);
    if fromDistance.Decided? then Ok(Some(fromDistance.value))
    else
      // once `in` has answered for `e`, it answers again without raising
      if In("connectionDegree", e).value then
        var v :- Index(e, "connectionDegree");
        Ok(Some(v))
      else if In("relationshipDistance", e).value then
        var v :- Index(e, "relationshipDistance");
        Ok(Some(v))
      else Ok(None)
  }

  /** What an endpoint response yields: the dict `extract_connection_info` builds. */
  datatype ConnInfo = ConnInfo(isConnected: bool, distance: Json, connectionStatus: string,
                               profileName: Option<string>, source: string)

  const NotConnected: string := "Not Connected"

  /** The result for a final distance (None when still undetermined) and name. */
  function Info(distance: Json, name: Option<string>, source: string): (r: ConnInfo)
    ensures r.isConnected <==> EqInt(distance, 1)
    ensures distance == JNull ==> r.connectionStatus == NotConnected
    ensures distance != JNull ==> r.connectionStatus == Classify(distance).1
    ensures r.profileName.Some? ==> r.profileName == name && r.profileName.value != []
  {
    var named := if name.Some? && name.value != [] then name else None;
    if distance == JNull then ConnInfo(false, JNull, NotConnected, named, source)
    else ConnInfo(Classify(distance).0, distance, Classify(distance).1, named, source)
  }

  /**
   * `extract_connection_info` up to its `except`. `scan` is what the pattern and
   * text-indicator search of the serialised response found, `messaging` whether the
   * messaging indicators occur in it.
   */
  function ConnInfoResult(data: Json, source: string, scan: Option<int>, messaging: bool): Result<ConnInfo> {
    var hasIncluded :- In("included", data);
    var elems :- IncludedElems(data, hasIncluded);
    var name := ProfileNameOf(data);
    // once `in` has answered for `data`, it answers again without raising
    var hasTop := In("distance", data).value;
    var top :- TopDecision(data, hasTop);
    var distance :- DistanceResult(top, elems, hasIncluded, scan, messaging);
    Ok(Info(distance, name, source))
  }

  /**
   * The distance after the four methods of `extract_connection_info`: the top-level
   * decision, the `included` scan (only when `included` is present), the pattern
   * scan, and the messaging indicators; each consulted only while none is known.
   */
  function DistanceResult(top: Decision, elems: seq<Json>, hasIncluded: bool, scan: Option<int>,
                          messaging: bool): Result<Json> {
    var d1 := if top.Decided? then top.value else JNull;
    var found :- if d1 == JNull && hasIncluded then FirstFound(elems, DistanceStep) else Ok(None);
    var d2 := if d1 == JNull && found.Some? then found.value else d1;
    var d3 := if d2 == JNull && scan.Some? then JInt(scan.value) else d2;
    var d4 := if d3 == JNull && messaging then JInt(1) else d3;
    Ok(d4)
  }

  /** `extract_connection_info`: any exception gives None. */
  function ConnInfoOf(data: Json, source: string, scan: Option<int>, messaging: bool): (r: Option<ConnInfo>)
    ensures r.Some? ==> (r.value.isConnected <==> EqInt(r.value.distance, 1)) && r.value.source == source
    ensures r.Some? && r.value.distance == JNull ==> r.value.connectionStatus == NotConnected && !r.value.isConnected
    ensures r.Some? && r.value.distance != JNull ==> r.value.connectionStatus == Classify(r.value.distance).1
    ensures r.Some? ==> r.value.profileName.Some? ==> r.value.profileName == ProfileNameOf(data)
  {
    match ConnInfoResult(data, source, scan, messaging)
    case Ok(info) => Some(info)
    case Raise(_) => None
  }

  /**
   * `extract_connection_info` step by step: `distance` is updated by each method
   * in turn, the `included` scan breaking at its first decision.
   */
  method ExtractConnectionInfo(data: Json, source: string, scan: Option<int>, messaging: bool)
    returns (r: Option<ConnInfo>)
    ensures r == ConnInfoOf(data, source, scan, messaging)
  {
    var hasIncluded := In("included", data);
    if hasIncluded.Raise? {
      return None;
    }
    var elems := IncludedElems(data, hasIncluded.value);
    if elems.Raise? {
      return None;
    }
    var name := ExtractProfileName(data);
    var hasTop := In("distance", data).value;
    var top := TopDecision(data, hasTop);
    if top.Raise? {
      return None;
    }
    var distance := ResolveDistance(top.value, elems.value, hasIncluded.value, scan, messaging);
    if distance.Raise? {
      return None;
    }
    return Some(Info(distance.value, name, source));
  }

  /** The distance updated by each method in turn, the `included` scan breaking at its first decision. */
  method ResolveDistance(top: Decision, elems: seq<Json>, hasIncluded: bool, scan: Option<int>, messaging: bool)
    returns (r: Result<Json>)
    ensures r == DistanceResult(top, elems, hasIncluded, scan, messaging)
  {
    var distance := JNull;
    if top.Decided? {
      distance := top.value;
    }
    if distance == JNull && hasIncluded {
      var found := FirstFoundLoop(elems, DistanceStep);
      if found.Raise? {
        return Raise(found.error);
      }
      if found.value.Some? {
        distance := found.value.value;
      }
    }
    if distance == JNull && scan.Some? {
      distance := JInt(scan.value);
    }
    if distance == JNull && messaging {
      distance := JInt(1);
    }
    return Ok(distance);
  }

  /**
   * A top-level distance that is determined wins: `included` and the scans are
   * not consulted.
   */
  lemma TopLevelWins(data: Json, source: string, scan: Option<int>, messaging: bool, v: Json)
    requires data.JObj? && "distance" in Keys(data.fields)
    requires TopLevelDistance(Lookup(data.fields, "distance").value) == Decided(v) && v != JNull
    ensures var r := ConnInfoOf(data, source, scan, messaging);
            r.Some? ==> r.value.distance == v
  {
  }

  /**
   * Without a top-level `distance`, the first element of an `included` list that
   * decides a distance gives it, whatever the later elements and the scans say.
   */
  lemma FirstIncludedWins(data: Json, source: string, scan: Option<int>, messaging: bool,
                          elems: seq<Json>, i: nat, v: Json)
    requires data.JObj? && "distance" !in Keys(data.fields)
    requires Lookup(data.fields, "included") == Some(JArr(elems))
    requires i < |elems| && DistanceStep(elems[i]) == Ok(Some(v)) && v != JNull
    requires forall j :: 0 <= j < i ==> DistanceStep(elems[j]) == Ok(None)
    ensures ConnInfoOf(data, source, scan, messaging) == Some(Info(v, ProfileNameOf(data), source))
  {
    assert In("included", data) == Ok(true);
    assert IncludedElems(data, true) == Ok(elems);
    assert In("distance", data) == Ok(false);
    assert TopDecision(data, false) == Ok(Undecided);
    FirstFoundAt(elems, DistanceStep, i);
    assert DistanceResult(Undecided, elems, true, scan, messaging) == Ok(v);
  }

  /** With nothing found anywhere the result stays "Not Connected" with no distance. */
  lemma NothingFound(data: Json, source: string)
    requires data.JObj? && "distance" !in Keys(data.fields) && "included" !in Keys(data.fields)
    ensures ConnInfoOf(data, source, None, false) == Some(ConnInfo(false, JNull, NotConnected,
              if ProfileNameOf(data).Some? && ProfileNameOf(data).value != [] then ProfileNameOf(data) else None, source))
  {
  }

  /** `check_via_relationship_endpoint`: the first endpoint whose result has a distance. */
  function FirstWithDistance(outcomes: seq<Option<ConnInfo>>): (r: Option<ConnInfo>)
    ensures r.Some? ==> exists i :: 0 <= i < |outcomes| && outcomes[i] == r && r.value.distance != JNull
                                      && forall j :: 0 <= j < i ==> outcomes[j].None? || outcomes[j].value.distance == JNull
    ensures r.None? <==> forall i :: 0 <= i < |outcomes| ==> outcomes[i].None? || outcomes[i].value.distance == JNull
  {
    if outcomes == [] then None
    else if outcomes[0].Some? && outcomes[0].value.distance != JNull then outcomes[0]
    else
      var r := FirstWithDistance(outcomes[1..]);
      assert forall i :: 1 <= i < |outcomes| ==> outcomes[1..][i - 1] == outcomes[i];
      r
  }

  /** The loop over the relationship endpoints. */
  method RelationshipLoop(outcomes: seq<Option<ConnInfo>>) returns (r: Option<ConnInfo>)
    ensures r == FirstWithDistance(outcomes)
  {
    var i := 0;
    while i < |outcomes|
      invariant 0 <= i <= |outcomes|
      invariant FirstWithDistance(outcomes) == FirstWithDistance(outcomes[i..])
    {
      if outcomes[i].Some? && outcomes[i].value.distance != JNull {
        return outcomes[i];
      }
      assert outcomes[i..][1..] == outcomes[i + 1..];
      i := i + 1;
    }
    return None;
  }

  /** The dict `check_connection_status` returns. */
  datatype Status = Status(profileUrl: string, isConnected: bool, distance: Json, connectionStatus: string,
                           profileName: Option<string>, error: Option<string>, source: Option<string>)

  const NoIdentifier: string := "Could not extract public identifier from URL"
  const NameOnly: string := "Could not determine connection status, but found profile name"
  const NothingAtAll: string := "Could not determine connection status using any method"

  /** `result.update(info)` after the carried name has been written into `info`. */
  function Merge(profileUrl: string, carried: Option<string>, info: ConnInfo): Status {
    Status(profileUrl, info.isConnected, info.distance, info.connectionStatus,
           if carried.Some? then carried else info.profileName, None, Some(info.source))
  }

  /** The name profileView found, which every later method's result keeps: only a non-empty one. */
  function CarriedName(pv: Option<ConnInfo>): (r: Option<string>)
    ensures r.Some? <==> pv.Some? && pv.value.profileName.Some? && pv.value.profileName.value != []
    ensures r.Some? ==> r == pv.value.profileName
  {
    if pv.Some? && pv.value.profileName.Some? && pv.value.profileName.value != [] then pv.value.profileName else None
  }

  /**
   * `check_connection_status`: `pv`, `actions`, `identity` and `card` are what the
   * endpoint methods returned, `relationship` what each relationship endpoint
   * yielded. The unreachable outer `except` is not modelled.
   */
  function ConnectionStatus(profileUrl: string, pv: Option<ConnInfo>, relationship: seq<Option<ConnInfo>>,
                            actions: Option<ConnInfo>, identity: Option<ConnInfo>, card: Option<ConnInfo>): (r: Status)
    ensures r.profileUrl == profileUrl
    ensures r.source.Some? <==> r.error.None?
    ensures r.source.None? ==> !r.isConnected && r.distance == JNull && r.connectionStatus == "Unknown"
  {
    var slug := PublicIdFromUrl(profileUrl);
    if slug.None? || slug.value == [] then
      Status(profileUrl, false, JNull, "Unknown", None, Some(NoIdentifier), None)
    else
      var carried := CarriedName(pv);
      var rel := FirstWithDistance(relationship);
      if pv.Some? && pv.value.distance != JNull then Merge(profileUrl, carried, pv.value)
      else if rel.Some? then Merge(profileUrl, carried, rel.value)
      else if actions.Some? && actions.value.distance != JNull then Merge(profileUrl, carried, actions.value)
      else if identity.Some? then Merge(profileUrl, carried, identity.value)
      else if card.Some? then Merge(profileUrl, carried, card.value)
      else Status(profileUrl, false, JNull, "Unknown", carried,
                  Some(if carried.Some? then NameOnly else NothingAtAll), None)
  }

  /** `check_connection_status` as written: `result` filled in and updated method by method. */
  method CheckConnectionStatus(profileUrl: string, pv: Option<ConnInfo>, relationship: seq<Option<ConnInfo>>,
                               actions: Option<ConnInfo>, identity: Option<ConnInfo>, card: Option<ConnInfo>)
    returns (result: Status)
    ensures result == ConnectionStatus(profileUrl, pv, relationship, actions, identity, card)
  {
    result := Status(profileUrl, false, JNull, "Unknown", None, None, None);
    var slug := PublicIdFromUrl(profileUrl);
    if slug.None? || slug.value == [] {
      result := result.(error := Some(NoIdentifier));
      return;
    }
    if pv.Some? {
      if pv.value.profileName.Some? && pv.value.profileName.value != [] {
        result := result.(profileName := pv.value.profileName);
      }
      if pv.value.distance != JNull {
        result := Merge(profileUrl, result.profileName, pv.value);
        return;
      }
    }
    var rel := RelationshipLoop(relationship);
    if rel.Some? {
      result := Merge(profileUrl, result.profileName, rel.value);
      return;
    }
    if actions.Some? && actions.value.distance != JNull {
      result := Merge(profileUrl, result.profileName, actions.value);
      return;
    }
    if identity.Some? {
      result := Merge(profileUrl, result.profileName, identity.value);
      return;
    }
    if card.Some? {
      result := Merge(profileUrl, result.profileName, card.value);
      return;
    }
    result := result.(error := Some(if result.profileName.Some? then NameOnly else NothingAtAll));
  }

  /** Without a usable slug no endpoint outcome matters. */
  lemma NoSlugNoEndpoint(profileUrl: string, pv: Option<ConnInfo>, relationship: seq<Option<ConnInfo>>,
                         actions: Option<ConnInfo>, identity: Option<ConnInfo>, card: Option<ConnInfo>)
    requires PublicIdFromUrl(profileUrl).None? || PublicIdFromUrl(profileUrl) == Some("")
    ensures var r := ConnectionStatus(profileUrl, pv, relationship, actions, identity, card);
            r.error == Some(NoIdentifier) && r == ConnectionStatus(profileUrl, None, [], None, None, None)
  {
  }

  /** A name that profileView found is the name of whichever later method succeeds. */
  lemma NameCarried(profileUrl: string, pv: Option<ConnInfo>, relationship: seq<Option<ConnInfo>>,
                    actions: Option<ConnInfo>, identity: Option<ConnInfo>, card: Option<ConnInfo>)
    requires pv.Some? && pv.value.profileName.Some? && pv.value.profileName.value != []
    requires PublicIdFromUrl(profileUrl).Some? && PublicIdFromUrl(profileUrl).value != []
    ensures ConnectionStatus(profileUrl, pv, relationship, actions, identity, card).profileName == pv.value.profileName
  {
    var r := ConnectionStatus(profileUrl, pv, relationship, actions, identity, card);
    var rel := FirstWithDistance(relationship);
    if pv.value.distance != JNull {
      assert r == Merge(profileUrl, pv.value.profileName, pv.value);
    } else if rel.Some? {
      assert r == Merge(profileUrl, pv.value.profileName, rel.value);
    } else if actions.Some? && actions.value.distance != JNull {
      assert r == Merge(profileUrl, pv.value.profileName, actions.value);
    } else if identity.Some? {
      assert r == Merge(profileUrl, pv.value.profileName, identity.value);
    } else if card.Some? {
      assert r == Merge(profileUrl, pv.value.profileName, card.value);
    }
  }

  /** A usable slug: the endpoint chain runs. */
  predicate HasSlug(profileUrl: string) {
    PublicIdFromUrl(profileUrl).Some? && PublicIdFromUrl(profileUrl).value != []
  }

  /** First in the chain: a profileView result with a distance is the result, whatever the other methods say. */
  lemma ProfileViewFirst(profileUrl: string, pv: Option<ConnInfo>, relationship: seq<Option<ConnInfo>>,
                         actions: Option<ConnInfo>, identity: Option<ConnInfo>, card: Option<ConnInfo>)
    requires HasSlug(profileUrl) && pv.Some? && pv.value.distance != JNull
    ensures ConnectionStatus(profileUrl, pv, relationship, actions, identity, card) == Merge(profileUrl, CarriedName(pv), pv.value)
  {
  }

  /** An endpoint with a distance at index `i`: the first one with a distance is at `i` or before it. */
  lemma FirstWithDistanceNoLater(outcomes: seq<Option<ConnInfo>>, i: nat)
    requires i < |outcomes| && outcomes[i].Some? && outcomes[i].value.distance != JNull
    ensures FirstWithDistance(outcomes).Some?
    ensures exists k :: 0 <= k <= i && outcomes[k] == FirstWithDistance(outcomes)
              && forall j :: 0 <= j < k ==> outcomes[j].None? || outcomes[j].value.distance == JNull
  {
    var r := FirstWithDistance(outcomes);
    assert r.Some?;
    var k :| 0 <= k < |outcomes| && outcomes[k] == r && r.value.distance != JNull
             && forall j :: 0 <= j < k ==> outcomes[j].None? || outcomes[j].value.distance == JNull;
    assert k <= i;
  }

  /**
   * Second: without a profileView distance, the first relationship endpoint whose
   * result has a distance gives the result, even when actions, identity and the
   * hovering card answered too.
   */
  lemma RelationshipBeforeIdentity(profileUrl: string, pv: Option<ConnInfo>, relationship: seq<Option<ConnInfo>>,
                                   actions: Option<ConnInfo>, identity: Option<ConnInfo>, card: Option<ConnInfo>,
                                   i: nat)
    requires HasSlug(profileUrl)
    requires pv.None? || pv.value.distance == JNull
    requires i < |relationship| && relationship[i].Some? && relationship[i].value.distance != JNull
    ensures FirstWithDistance(relationship).Some?
    ensures ConnectionStatus(profileUrl, pv, relationship, actions, identity, card)
              == Merge(profileUrl, CarriedName(pv), FirstWithDistance(relationship).value)
    ensures exists k :: 0 <= k <= i && relationship[k] == FirstWithDistance(relationship)
              && forall j :: 0 <= j < k ==> relationship[j].None? || relationship[j].value.distance == JNull
  {
    FirstWithDistanceNoLater(relationship, i);
  }

  /** Third: profile actions count only with a distance, and only when neither profileView nor a relationship endpoint had one. */
  lemma ActionsThird(profileUrl: string, pv: Option<ConnInfo>, relationship: seq<Option<ConnInfo>>,
                     actions: Option<ConnInfo>, identity: Option<ConnInfo>, card: Option<ConnInfo>)
    requires HasSlug(profileUrl)
    requires pv.None? || pv.value.distance == JNull
    requires forall i :: 0 <= i < |relationship| ==> relationship[i].None? || relationship[i].value.distance == JNull
    ensures actions.Some? && actions.value.distance != JNull ==>
              ConnectionStatus(profileUrl, pv, relationship, actions, identity, card) == Merge(profileUrl, CarriedName(pv), actions.value)
    ensures !(actions.Some? && actions.value.distance != JNull) ==>
              ConnectionStatus(profileUrl, pv, relationship, actions, identity, card)
                == ConnectionStatus(profileUrl, pv, [], None, identity, card)
  {
  }

  /**
   * Fourth and fifth: once no method found a distance, any identity answer is the
   * result, distance or not, and the hovering card is used only without one; with
   * neither, the error says whether a name was found.
   */
  lemma IdentityBeforeCard(profileUrl: string, pv: Option<ConnInfo>, identity: Option<ConnInfo>, card: Option<ConnInfo>)
    requires HasSlug(profileUrl)
    requires pv.None? || pv.value.distance == JNull
    ensures identity.Some? ==> ConnectionStatus(profileUrl, pv, [], None, identity, card) == Merge(profileUrl, CarriedName(pv), identity.value)
    ensures identity.None? && card.Some? ==> ConnectionStatus(profileUrl, pv, [], None, identity, card) == Merge(profileUrl, CarriedName(pv), card.value)
    ensures identity.None? && card.None? ==>
              ConnectionStatus(profileUrl, pv, [], None, identity, card)
                == Status(profileUrl, false, JNull, "Unknown", CarriedName(pv), Some(if CarriedName(pv).Some? then NameOnly else NothingAtAll), None)
  {
  }
}
