/**
 * The cleaned-up connection checker: the name from typed `included` elements
 * only, the connection distance with early returns, and the two-step status
 * check. Requests are replaced by the parsed responses they returned.
 */
module ConnectionCheckerClean {
  import opened Wrappers
  import opened PyStr
  import opened OrderedDict
  import opened PyJson
  import opened Slugs
  import opened Distance
  import opened ProfileNames

  /** `extract_profile_name` up to its `except`: Profile elements first, then MiniProfile elements. */
  function ProfileNameResult(data: Json): Result<Option<string>> {
    var hasIncluded :- In("included", data);
    if !hasIncluded then Ok(None)
    else
      var elems :- IncludedElems(data, true);
      var typed :- FirstFound(elems, ProfileStep);
      if typed.Some? then Ok(typed) else FirstFound(elems, MiniProfileStep)
  }

  /** `extract_profile_name`: any exception gives None. */
  function ProfileNameOf(data: Json): (r: Option<string>)
    ensures data.JObj? && "included" !in Keys(data.fields) ==> r.None?
    ensures r.Some? ==> r.value != [] && IsStripped(r.value)
  {
    match ProfileNameResult(data)
    case Ok(name) => name
    case Raise(_) => None
  }

  /** `extract_profile_name` with its two loops over `included`. */
  method ExtractProfileName(data: Json) returns (name: Option<string>)
    ensures name == ProfileNameOf(data)
  {
    var hasIncluded := In("included", data);
    if hasIncluded.Raise? || !hasIncluded.value {
      return None;
    }
    var elems := IncludedElems(data, true);
    if elems.Raise? {
      return None;
    }
    var typed := FirstFoundLoop(elems.value, ProfileStep);
    if typed.Raise? {
      return None;
    }
    if typed.value.Some? {
      return typed.value;
    }
    var mini := FirstFoundLoop(elems.value, MiniProfileStep);
    if mini.Raise? {
      return None;
    }
    return mini.value;
  }

  /** The first named Profile element of an `included` list gives the name, whatever precedes it. */
  lemma ProfileElementFirst(data: Json, elems: seq<Json>, i: nat, name: string)
    requires data.JObj? && Lookup(data.fields, "included") == Some(JArr(elems))
    requires i < |elems| && ProfileStep(elems[i]) == Ok(Some(name))
    requires forall j :: 0 <= j < i ==> ProfileStep(elems[j]) == Ok(None)
    ensures ProfileNameOf(data) == Some(name)
  {
    assert In("included", data) == Ok(true);
    assert IncludedElems(data, true) == Ok(elems);
    FirstFoundAt(elems, ProfileStep, i);
  }

  /** Without a named Profile element, the first named MiniProfile element gives the name. */
  lemma MiniProfileNext(data: Json, elems: seq<Json>, i: nat, name: string)
    requires data.JObj? && Lookup(data.fields, "included") == Some(JArr(elems))
    requires forall j :: 0 <= j < |elems| ==> ProfileStep(elems[j]) == Ok(None)
    requires i < |elems| && MiniProfileStep(elems[i]) == Ok(Some(name))
    requires forall j :: 0 <= j < i ==> MiniProfileStep(elems[j]) == Ok(None)
    ensures ProfileNameOf(data) == Some(name)
  {
    assert In("included", data) == Ok(true);
    assert IncludedElems(data, true) == Ok(elems);
    FirstFoundAt(elems, MiniProfileStep, i);
  }

  /** No other element of `included` is ever consulted: without typed names there is no name. */
  lemma OnlyTypedElements(data: Json, elems: seq<Json>)
    requires data.JObj? && Lookup(data.fields, "included") == Some(JArr(elems))
    requires forall j :: 0 <= j < |elems| ==> ProfileStep(elems[j]) == Ok(None) && MiniProfileStep(elems[j]) == Ok(None)
    ensures ProfileNameOf(data) == None
  {
    assert In("included", data) == Ok(true);
    assert IncludedElems(data, true) == Ok(elems);
  }

  /** One element of `included`: only its `distance` field counts, by the element rules. */
  function DistanceStep(e: Json): (r: Result<Option<Json>>)
    ensures e.JObj? && "distance" !in Keys(e.fields) ==> r == Ok(None)
    ensures e.JObj? && "distance" in Keys(e.fields) ==>
              r == Ok(var d := ElementDistance(Lookup(e.fields, "distance").value);
                      if d.Decided? then Some(d.value) else None)
  {
    var hasDistance :- In("distance", e);
    if hasDistance then
      var d :- ElementDecision(e);
      Ok(if d.Decided? then Some(d.value) else None)
    else Ok(None)
  }

  /**
   * `extract_connection_distance` up to its `except`: a decided top-level distance
   * is returned at once, even when it is None; then the first decided element of
   * `included`; then what the pattern search (`scan`) found.
   */
  function DistanceResult(data: Json, scan: Option<int>): Result<Json> {
    var hasTop :- In("distance", data);
    var top :- TopDecision(data, hasTop);
    if top.Decided? then Ok(top.value)
    else
      // once `in` has answered for `data`, it answers again without raising
      var hasIncluded := In("included", data).value;
      var elems :- IncludedElems(data, hasIncluded);
      var found :- FirstFound(elems, DistanceStep);
      if found.Some? then Ok(found.value)
      else Ok(if scan.Some? then JInt(scan.value) else JNull)
  }

  /** `extract_connection_distance`: any exception gives None. */
  function ExtractConnectionDistance(data: Json, scan: Option<int>): Json {
    match DistanceResult(data, scan)
    case Ok(d) => d
    case Raise(_) => JNull
  }

  /** A decided top-level distance is the answer, whatever `included` and the pattern search hold. */
  lemma TopLevelWins(data: Json, scan: Option<int>, v: Json)
    requires data.JObj? && "distance" in Keys(data.fields)
    requires TopLevelDistance(Lookup(data.fields, "distance").value) == Decided(v)
    ensures ExtractConnectionDistance(data, scan) == v
  {
  }

  /**
   * Without a top-level `distance`, the first element of an `included` list whose
   * `distance` decides gives the answer, whatever later elements and the pattern
   * search hold.
   */
  lemma FirstIncludedWins(data: Json, scan: Option<int>, elems: seq<Json>, i: nat, v: Json)
    requires data.JObj? && "distance" !in Keys(data.fields)
    requires Lookup(data.fields, "included") == Some(JArr(elems))
    requires i < |elems| && DistanceStep(elems[i]) == Ok(Some(v))
    requires forall j :: 0 <= j < i ==> DistanceStep(elems[j]) == Ok(None)
    ensures ExtractConnectionDistance(data, scan) == v
  {
    assert In("distance", data) == Ok(false);
    assert TopDecision(data, false) == Ok(Undecided);
    assert In("included", data) == Ok(true);
    assert IncludedElems(data, true) == Ok(elems);
    FirstFoundAt(elems, DistanceStep, i);
  }

  /** A `DISTANCE_<n>` value at the top level gives `n`. */
  lemma DistanceTextAtTop(data: Json, scan: Option<int>, n: int, rest: seq<(string, Json)>)
    requires data.JObj? && Lookup(data.fields, "distance") == Some(JStr(DistancePrefix + Decimal(n)))
    ensures ExtractConnectionDistance(data, scan) == JInt(n)
  {
    DistanceTextDecides(n, rest);
    TopLevelWins(data, scan, JInt(n));
  }

  /** The dict `check_connection_status` returns. */
  datatype Status = Status(profileUrl: string, isConnected: bool, distance: Json, connectionStatus: string,
                           profileName: Option<string>, error: Option<string>)

  const NoIdentifier: string := "Could not extract public identifier from URL"
  const NameOnly: string := "Could not determine connection status, but found profile name"
  const NoStatus: string := "Could not determine connection status"

  /**
   * `check_connection_status`: `pvData` and `networkData` are the parsed 200
   * responses of the profileView and networkinfo requests (None when a request
   * failed), `scan` what the pattern search of the networkinfo response found.
   * The unreachable outer `except` is not modelled.
   */
  function ConnectionStatus(profileUrl: string, pvData: Option<Json>, networkData: Option<Json>,
                            scan: Option<int>): (r: Status)
    ensures r.profileUrl == profileUrl
    ensures r.distance != JNull ==> r.error.None? && (r.isConnected <==> EqInt(r.distance, 1))
                                    && r.connectionStatus == Classify(r.distance).1
    ensures r.distance == JNull ==> !r.isConnected && r.connectionStatus == "Unknown" && r.error.Some?
    ensures r.distance == JNull && r.error != Some(NoIdentifier) ==>
              r.error == Some(if r.profileName.Some? then NameOnly else NoStatus)
  {
    var slug := PublicIdFromUrl(profileUrl);
    if slug.None? || slug.value == [] then
      Status(profileUrl, false, JNull, "Unknown", None, Some(NoIdentifier))
    else
      var name := if pvData.Some? then ProfileNameOf(pvData.value) else None;
      var distance := if networkData.Some? then ExtractConnectionDistance(networkData.value, scan) else JNull;
      if distance != JNull then
        Status(profileUrl, Classify(distance).0, distance, Classify(distance).1, name, None)
      else
        Status(profileUrl, false, JNull, "Unknown", name, Some(if name.Some? then NameOnly else NoStatus))
  }

  /** `check_connection_status` as written: the fields of `result` set one after another. */
  method CheckConnectionStatus(profileUrl: string, pvData: Option<Json>, networkData: Option<Json>,
                               scan: Option<int>) returns (result: Status)
    ensures result == ConnectionStatus(profileUrl, pvData, networkData, scan)
  {
    result := Status(profileUrl, false, JNull, "Unknown", None, None);
    var slug := PublicIdFromUrl(profileUrl);
    if slug.None? || slug.value == [] {
      result := result.(error := Some(NoIdentifier));
      return;
    }
    if pvData.Some? {
      var name := ExtractProfileName(pvData.value);
      if name.Some? && name.value != [] {
        result := result.(profileName := name);
      }
    }
    if networkData.Some? {
      var distance := ExtractConnectionDistance(networkData.value, scan);
      if distance != JNull {
        result := result.(distance := distance);
        if EqInt(distance, 1) {
          result := result.(isConnected := true, connectionStatus := FirstDegree);
        } else if EqInt(distance, 2) {
          result := result.(connectionStatus := SecondDegree);
        } else if EqInt(distance, 3) {
          result := result.(connectionStatus := ThirdDegree);
        } else {
          result := result.(connectionStatus := StrOf(distance) + OtherDegree);
        }
        return;
      }
    }
    if result.profileName.Some? {
      result := result.(error := Some(NameOnly));
    } else {
      result := result.(error := Some(NoStatus));
    }
  }
}
