/**
 * Connection distance as both connection checkers read it: `DISTANCE_<n>` texts,
 * the `distance` field at the top level of a response and inside `included`
 * elements, and the status table for a distance.
 */
module Distance {
  import opened Wrappers
  import opened PyStr
  import opened OrderedDict
  import opened PyJson

  const DistancePrefix: string := "DISTANCE_"

  /**
   * `int(s.split('_')[1])` inside `try: … except: pass`: a missing second part or a
   * part that `int()` rejects leaves the distance undetermined.
   */
  function DistanceText(s: string): Option<int> {
    var parts := Split(s, "_");
    if |parts| < 2 then None else ParseInt(parts[1])
  }

  /** A value that is a string starting with `DISTANCE_`. */
  predicate IsDistanceText(x: Json) {
    x.JStr? && StartsWith(x.s, DistancePrefix)
  }

  /** After the prefix, only the text up to the next underscore is read. */
  lemma DistanceTextAfterPrefix(t: string)
    ensures DistanceText(DistancePrefix + t) == ParseInt(SplitFirst(t, "_"))
  {
    var s := DistancePrefix + t;
    forall j | 0 <= j < 8
      ensures !OccursAt(s, "_", j)
    {
      OccursAtChars(s, "_", j);
    }
    assert OccursAt(s, "_", 8) by {
      assert s[8..9] == "_";
    }
    FindAt8(s);
    assert s[9..] == t;
    assert Split(s, "_") == [s[..8]] + Split(t, "_");
  }

  /** Only the text between the first and the second underscore is read. */
  lemma DistanceTextSuffix(t: string)
    requires '_' !in t
    ensures DistanceText(DistancePrefix + t) == ParseInt(t)
  {
    DistanceTextAfterPrefix(t);
    ContainsChar(t, '_');
    SplitFirstIsPrefix(t, "_");
  }

  lemma FindAt8(s: string)
    requires OccursAt(s, "_", 8)
    requires forall j :: 0 <= j < 8 ==> !OccursAt(s, "_", j)
    ensures Find(s, "_") == Some(8)
  {
  }

  /** `DISTANCE_` followed by `str(n)` reads back as `n`. */
  lemma DistanceTextRoundTrip(n: int)
    ensures DistanceText(DistancePrefix + Decimal(n)) == Some(n)
  {
    var d := Decimal(n);
    var digits := NatDecimal(if n < 0 then -n else n);
    assert forall i :: 0 <= i < |d| ==> d[i] == '-' || IsDigit(d[i]) by {
      if n < 0 {
        assert forall i :: 1 <= i < |d| ==> d[i] == digits[i - 1];
      }
    }
    DistanceTextSuffix(d);
    ParseDecimal(n);
  }

  /** The value LinkedIn uses outside the network, `DISTANCE_OUT_OF_NETWORK`, gives no distance. */
  lemma OutOfNetworkUndetermined()
    ensures DistanceText(DistancePrefix + "OUT_OF_NETWORK") == None
  {
    DistanceTextAfterPrefix("OUT_OF_NETWORK");
    OutBeforeUnderscore();
    OutIsNoInt();
  }

  lemma OutBeforeUnderscore()
    ensures SplitFirst("OUT_OF_NETWORK", "_") == "OUT"
  {
    var rest := "OUT_OF_NETWORK";
    assert OccursAt(rest, "_", 3) by {
      assert rest[3..4] == "_";
    }
    forall j | 0 <= j < 3
      ensures !OccursAt(rest, "_", j)
    {
      OccursAtChars(rest, "_", j);
    }
    FindAt3(rest);
    assert rest[..3] == "OUT";
  }

  lemma OutIsNoInt()
    ensures ParseInt("OUT") == None
  {
    var t := "OUT";
    assert t[0] == 'O' && t[2] == 'T';
    ParseNoLeadingDigit(t);
  }

  lemma FindAt3(s: string)
    requires OccursAt(s, "_", 3)
    requires forall j :: 0 <= j < 3 ==> !OccursAt(s, "_", j)
    ensures Find(s, "_") == Some(3)
  {
  }

  /** What one distance field yields: nothing yet, or a value (which may be None). */
  datatype Decision = Undecided | Decided(value: Json)

  /** The parse of a `DISTANCE_` text as a decision. */
  function ParsedDecision(s: string): Decision {
    match DistanceText(s)
    case Some(n) => Decided(JInt(n))
    case None => Undecided
  }

  /**
   * The top-level `data['distance']` rules: in a dict, `value` is consulted if
   * present (and only a `DISTANCE_` text there counts), otherwise `distance`;
   * an int (or bool) is the distance; a `DISTANCE_` text is parsed.
   */
  function TopLevelDistance(dd: Json): (r: Decision)
    ensures dd.JObj? && "value" in Keys(dd.fields) && !IsDistanceText(Lookup(dd.fields, "value").value) ==> r == Undecided
    ensures dd.JObj? && "value" !in Keys(dd.fields) && "distance" in Keys(dd.fields) ==>
              r == Decided(Lookup(dd.fields, "distance").value)
    ensures IsInt(dd) ==> r == Decided(dd)
    ensures r.Decided? && !dd.JObj? && !IsInt(dd) ==> IsDistanceText(dd) && r.value.JInt?
  {
    match dd
    case JObj(fields) =>
      if "value" in Keys(fields) then
        var v := Lookup(fields, "value").value;
        if IsDistanceText(v) then ParsedDecision(v.s) else Undecided
      else if "distance" in Keys(fields) then Decided(Lookup(fields, "distance").value)
      else Undecided
    case JInt(_) => Decided(dd)
    case JBool(_) => Decided(dd)
    case JStr(s) => if StartsWith(s, DistancePrefix) then ParsedDecision(s) else Undecided
    case _ => Undecided
  }

  /**
   * The `element['distance']` rules inside `included`: in a dict, a `DISTANCE_`
   * text under `value` is parsed, and otherwise (also when `value` holds anything
   * else) `distance` is taken; ints and `DISTANCE_` texts as at the top level.
   */
  function ElementDistance(dd: Json): (r: Decision)
    ensures (dd.JObj? && "value" in Keys(dd.fields) && !IsDistanceText(Lookup(dd.fields, "value").value)
             && "distance" in Keys(dd.fields)) ==> r == Decided(Lookup(dd.fields, "distance").value)
    ensures !dd.JObj? ==> r == TopLevelDistance(dd)
  {
    match dd
    case JObj(fields) =>
      if "value" in Keys(fields) && IsDistanceText(Lookup(fields, "value").value) then
        ParsedDecision(Lookup(fields, "value").value.s)
      else if "distance" in Keys(fields) then Decided(Lookup(fields, "distance").value)
      else Undecided
    case _ => TopLevelDistance(dd)
  }

  /** The two rule sets differ only on a dict whose `value` is not a `DISTANCE_` text. */
  lemma ElementDistanceDiffers(dd: Json)
    ensures ElementDistance(dd) != TopLevelDistance(dd) ==>
              dd.JObj? && "value" in Keys(dd.fields) && !IsDistanceText(Lookup(dd.fields, "value").value)
              && "distance" in Keys(dd.fields)
  {
  }

  /** A `DISTANCE_<n>` text decides `n` under both rule sets, bare or under `value`. */
  lemma DistanceTextDecides(n: int, rest: seq<(string, Json)>)
    ensures TopLevelDistance(JStr(DistancePrefix + Decimal(n))) == Decided(JInt(n))
    ensures ElementDistance(JStr(DistancePrefix + Decimal(n))) == Decided(JInt(n))
    ensures var dd := JObj([("value", JStr(DistancePrefix + Decimal(n)))] + rest);
            TopLevelDistance(dd) == Decided(JInt(n)) && ElementDistance(dd) == Decided(JInt(n))
  {
    var s := DistancePrefix + Decimal(n);
    DistanceTextParsed(n);
    var fields := [("value", JStr(s))] + rest;
    assert Keys(fields)[0] == "value";
    assert Lookup(fields, "value") == Some(JStr(s));
  }

  lemma DistanceTextParsed(n: int)
    ensures var s := DistancePrefix + Decimal(n);
            IsDistanceText(JStr(s)) && ParsedDecision(s) == Decided(JInt(n))
  {
    DistanceTextRoundTrip(n);
    var s := DistancePrefix + Decimal(n);
    assert s[..|DistancePrefix|] == DistancePrefix;
  }

  const FirstDegree: string := "1st degree - Direct connection"
  const SecondDegree: string := "2nd degree - Connection of connection"
  const ThirdDegree: string := "3rd degree - Extended network"
  const OtherDegree: string := "th degree connection"

  /**
   * `is_connected` and `connection_status` for a found distance `d`; Python's
   * `d == 1` also holds for `True`, and `f"{d}th …"` inserts `str(d)`.
   */
  function Classify(d: Json): (r: (bool, string))
    ensures r.0 <==> EqInt(d, 1)
    ensures EqInt(d, 2) ==> r.1 == SecondDegree
    ensures EqInt(d, 3) ==> r.1 == ThirdDegree
    ensures !EqInt(d, 1) && !EqInt(d, 2) && !EqInt(d, 3) ==> r.1 == StrOf(d) + OtherDegree
  {
    if EqInt(d, 1) then (true, FirstDegree)
    else if EqInt(d, 2) then (false, SecondDegree)
    else if EqInt(d, 3) then (false, ThirdDegree)
    else (false, StrOf(d) + OtherDegree)
  }

  lemma DecimalSecondIsDigit(n: int)
    ensures var d := Decimal(n); |d| >= 2 ==> IsDigit(d[1])
  {
    var d := Decimal(n);
    if n < 0 {
      assert d[1] == NatDecimal(-n)[0];
    }
  }

  /** A distance other than 1, 2 or 3 never reads like one of the fixed texts. */
  lemma OtherDegreeNotFixed(n: int)
    requires n != 1 && n != 2 && n != 3
    ensures var s := Decimal(n) + OtherDegree;
            s != FirstDegree && s != SecondDegree && s != ThirdDegree
  {
    var s := Decimal(n) + OtherDegree;
    DecimalSecondIsDigit(n);
    assert FirstDegree[1] == 's' && SecondDegree[1] == 'n' && ThirdDegree[1] == 'r';
    if |Decimal(n)| >= 2 {
      assert s[1] == Decimal(n)[1];
    } else {
      assert s[1] == OtherDegree[1 - |Decimal(n)|];
    }
  }

  /** The suffix can be cut off again, and `str` is injective on integers. */
  lemma OtherDegreeInjective(a: int, b: int)
    requires Decimal(a) + OtherDegree == Decimal(b) + OtherDegree
    ensures a == b
  {
    var x := Decimal(a) + OtherDegree;
    assert x[..|Decimal(a)|] == Decimal(a);
    assert x[..|Decimal(b)|] == Decimal(b);
    ParseDecimal(a);
    ParseDecimal(b);
  }

  /** Different integer distances get different status texts. */
  lemma ClassifyIntInjective(a: int, b: int)
    requires a != b
    ensures Classify(JInt(a)).1 != Classify(JInt(b)).1
  {
    if a != 1 && a != 2 && a != 3 {
      OtherDegreeNotFixed(a);
    }
    if b != 1 && b != 2 && b != 3 {
      OtherDegreeNotFixed(b);
    }
    if a != 1 && a != 2 && a != 3 && b != 1 && b != 2 && b != 3 {
      if Decimal(a) + OtherDegree == Decimal(b) + OtherDegree {
        OtherDegreeInjective(a, b);
      }
    }
  }

  /** `element['distance']` under the element rules. */
  function ElementDecision(e: Json): Result<Decision> {
    var dd :- Index(e, "distance");
    Ok(ElementDistance(dd))
  }

  /** The elements of `data['included']` when `'included' in data` held, as iteration visits them. */
  function IncludedElems(data: Json, hasIncluded: bool): Result<seq<Json>> {
    if hasIncluded then
      var included :- Index(data, "included");
      Iter(included)
    else Ok([])
  }

  /** The top-level distance decision, `Undecided` when `data` has no `distance`. */
  function TopDecision(data: Json, hasTop: bool): Result<Decision> {
    if hasTop then
      var dd :- Index(data, "distance");
      Ok(TopLevelDistance(dd))
    else Ok(Undecided)
  }
}
