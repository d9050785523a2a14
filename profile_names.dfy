/**
 * Reading a person's name out of a profile response, as both connection checkers
 * do it: the name fields of one JSON object, the scans over `included` for typed
 * Profile / MiniProfile elements, for generic person elements and for any
 * first/last pair, and the first-match loop they all share.
 */
module ProfileNames {
  import opened Wrappers
  import opened PyStr
  import opened OrderedDict
  import opened PyJson

  const ProfileType: string := "com.linkedin.voyager.identity.profile.Profile"
  const MiniProfileType: string := "com.linkedin.voyager.identity.shared.MiniProfile"

  /**
   * The first non-empty outcome of `step` over `xs`: the value of a loop that
   * returns from inside its body, where an exception also ends the loop.
   */
  function FirstFound<T, U(==)>(xs: seq<T>, step: T -> Result<Option<U>>): (r: Result<Option<U>>)
    ensures r == Ok(None) <==> forall i :: 0 <= i < |xs| ==> step(xs[i]) == Ok(None)
    ensures r != Ok(None) ==>
              exists i :: 0 <= i < |xs| && step(xs[i]) == r && forall j :: 0 <= j < i ==> step(xs[j]) == Ok(None)
  {
    if xs == [] then Ok(None)
    else if step(xs[0]) != Ok(None) then step(xs[0])
    else
      var r := FirstFound(xs[1..], step);
      assert forall i :: 1 <= i < |xs| ==> xs[1..][i - 1] == xs[i];
      r
  }

  /** The outcome at the first position that is not `Ok(None)` is the outcome of the loop. */
  lemma {:induction false} FirstFoundAt<T, U>(xs: seq<T>, step: T -> Result<Option<U>>, i: nat)
    requires i < |xs| && step(xs[i]) != Ok(None)
    requires forall j :: 0 <= j < i ==> step(xs[j]) == Ok(None)
    ensures FirstFound(xs, step) == step(xs[i])
  {
    if i > 0 {
      assert step(xs[0]) == Ok(None);
      assert xs[1..][i - 1] == xs[i];
      assert forall j :: 0 <= j < i - 1 ==> xs[1..][j] == xs[j + 1];
      FirstFoundAt(xs[1..], step, i - 1);
    }
  }

  /** The loop itself: `for x in xs: … return …`. */
  method FirstFoundLoop<T, U(==)>(xs: seq<T>, step: T -> Result<Option<U>>) returns (r: Result<Option<U>>)
    ensures r == FirstFound(xs, step)
  {
    var i := 0;
    while i < |xs|
      invariant 0 <= i <= |xs|
      invariant FirstFound(xs, step) == FirstFound(xs[i..], step)
    {
      var s := step(xs[i]);
      if s != Ok(None) {
        return s;
      }
      assert xs[i..][1..] == xs[i + 1..];
      i := i + 1;
    }
    return Ok(None);
  }

  /**
   * The value of one name field: a string is stripped, a dict's `text` is
   * stripped (raising when it is not a string), anything else gives `""`.
   */
  function NameValue(x: Json): (r: Result<string>)
    ensures x.JStr? ==> r == Ok(Strip(x.s))
    ensures r.Raise? <==> x.JObj? && "text" in Keys(x.fields) && !Lookup(x.fields, "text").value.JStr?
    ensures !x.JStr? && !x.JObj? ==> r == Ok("")
    ensures r.Ok? ==> IsStripped(r.value)
  {
    match x
    case JStr(s) =>
      StripIsStripped(s);
      Ok(Strip(s))
    case JObj(fields) =>
      if "text" in Keys(fields) then
        var t := Lookup(fields, "text").value;
        if t.JStr? then StripIsStripped(t.s); StripOf(t) else StripOf(t)
      else Ok("")
    case _ => Ok("")
  }

  /** `name_value` for `field` of `e`: `""` when the field is absent. */
  function FieldName(e: Json, field: string): (r: Result<string>)
    ensures e.JObj? && field !in Keys(e.fields) ==> r == Ok("")
    ensures e.JObj? && field in Keys(e.fields) ==> r == NameValue(Lookup(e.fields, field).value)
    ensures r.Ok? ==> IsStripped(r.value)
  {
    var present :- In(field, e);
    if present then
      var v :- Index(e, field);
      NameValue(v)
    else Ok("")
  }

  /** `f"{first} {last}".strip()`. */
  function FullName(first: string, last: string): string {
    Strip(first + " " + last)
  }

  /** The joined name of two stripped parts, at least one of them non-empty. */
  lemma FullNameOfParts(first: string, last: string)
    requires IsStripped(first) && IsStripped(last)
    ensures first == [] ==> FullName(first, last) == last
    ensures last == [] ==> FullName(first, last) == first
    ensures first != [] && last != [] ==> FullName(first, last) == first + " " + last
  {
    StripJoinedBySpace(first, last);
  }

  /** The name of one element from its `firstName` and `lastName`, when either is non-empty. */
  function NamedElement(e: Json): (r: Result<Option<string>>)
    ensures r.Ok? && r.value.Some? ==> r.value.value != [] && IsStripped(r.value.value)
  {
    var first :- FieldName(e, "firstName");
    var last :- FieldName(e, "lastName");
    if first != [] || last != [] then
      FullNameOfParts(first, last);
      StripIsStripped(first + " " + last);
      Ok(Some(FullName(first, last)))
    else Ok(None)
  }

  /** One step of the typed scans: an element whose `$type` is `target` and that has a name. */
  function TypedStep(e: Json, target: string): (r: Result<Option<string>>)
    ensures r.Raise? && !e.JObj? ==> r == Raise(AttributeError)
    ensures r.Ok? && r.value.Some? ==> r.value.value != [] && IsStripped(r.value.value)
                                       && Get(e, "$type", JStr("")) == Ok(JStr(target))
  {
    var t :- Get(e, "$type", JStr(""));
    if t == JStr(target) then NamedElement(e) else Ok(None)
  }

  /** A lower-cased `$type` that names a person: it mentions `profile` but no company. */
  predicate IsPersonType(lowerType: string) {
    Contains(lowerType, "profile") && !Contains(lowerType, "company") && !Contains(lowerType, "minicompany")
  }

  /** The `minicompany` test adds nothing: every type containing it contains `company`. */
  lemma MiniCompanyRedundant(lowerType: string)
    ensures IsPersonType(lowerType) <==> Contains(lowerType, "profile") && !Contains(lowerType, "company")
  {
    if Contains(lowerType, "minicompany") {
      ContainsIff(lowerType, "minicompany");
      var i :| OccursAt(lowerType, "minicompany", i);
      assert lowerType[i + 4..i + 11] == "minicompany"[4..];
      assert OccursAt(lowerType, "company", i + 4);
      ContainsIff(lowerType, "company");
    }
  }

  /**
   * One step of the generic scan: `$type` (read with `.get`) is lower-cased, which
   * raises when it is not a string, and a person element with a name is taken.
   * The `entityUrn` read beside it cannot fail on a dict and is not used.
   */
  function GenericStep(e: Json): (r: Result<Option<string>>)
    ensures r.Ok? && r.value.Some? ==>
              r.value.value != [] && IsStripped(r.value.value)
              && var t := Get(e, "$type", JStr("")); t.Ok? && t.value.JStr? && IsPersonType(Lower(t.value.s))
  {
    var t :- Get(e, "$type", JStr(""));
    var lowerType :- LowerOf(t);
    if IsPersonType(lowerType) then NamedElement(e) else Ok(None)
  }

  /** One step of the last scan: any element holding both `firstName` and `lastName`. */
  function PairStep(e: Json): (r: Result<Option<string>>)
    ensures e.JObj? && ("firstName" !in Keys(e.fields) || "lastName" !in Keys(e.fields)) ==> r == Ok(None)
    ensures r.Ok? && r.value.Some? ==> r.value.value != [] && IsStripped(r.value.value)
  {
    var hasFirst :- In("firstName", e);
    // once `in` has answered for `e`, it answers again without raising
    var hasLast := hasFirst && In("lastName", e).value;
    if hasLast then
      var firstData :- Index(e, "firstName");
      // `e` is a dict holding both keys once the first lookup succeeded
      var lastData := Index(e, "lastName").value;
      var first :- NameValue(firstData);
      var last :- NameValue(lastData);
      if first != [] || last != [] then
        FullNameOfParts(first, last);
        StripIsStripped(first + " " + last);
        Ok(Some(FullName(first, last)))
      else Ok(None)
    else Ok(None)
  }

  /** The fields tried one by one for a name at the top level of the original checker. */
  const DirectFields: seq<string> := ["firstName", "lastName", "name", "fullName"]

  /**
   * One field of the direct pass: a string with a non-empty strip is the name; a
   * dict with `text` gives its stripped text even when that is empty.
   */
  function DirectStep(data: Json, field: string): (r: Result<Option<string>>)
    ensures data.JObj? && field in Keys(data.fields) && Lookup(data.fields, field).value.JStr?
            && Strip(Lookup(data.fields, field).value.s) != [] ==>
              r == Ok(Some(Strip(Lookup(data.fields, field).value.s)))
    ensures r.Ok? && r.value.Some? ==> IsStripped(r.value.value)
  {
    var present :- In(field, data);
    if !present then Ok(None)
    else
      var v :- Index(data, field);
      if v.JStr? && Strip(v.s) != [] then
        StripIsStripped(v.s);
        Ok(Some(Strip(v.s)))
      else if v.JObj? && "text" in Keys(v.fields) then
        var t :- NameValue(v);
        Ok(Some(t))
      else Ok(None)
  }

  /** `DirectStep` for one response, as the step of the direct pass. */
  function DirectStepOf(data: Json): string -> Result<Option<string>> {
    field => DirectStep(data, field)
  }

  /** The direct pass over `firstName`, `lastName`, `name` and `fullName`. */
  function DirectName(data: Json): Result<Option<string>> {
    FirstFound(DirectFields, DirectStepOf(data))
  }

  function ProfileStep(e: Json): Result<Option<string>> {
    TypedStep(e, ProfileType)
  }

  function MiniProfileStep(e: Json): Result<Option<string>> {
    TypedStep(e, MiniProfileType)
  }

  /**
   * When the direct pass finds nothing, the pass that combines the top-level
   * `firstName` and `lastName` finds nothing either: each of them was already
   * either an empty string after stripping or not a name at all.
   */
  lemma MainPairUnreachable(data: Json)
    requires DirectName(data) == Ok(None)
    ensures NamedElement(data) == Ok(None)
  {
    var step := DirectStepOf(data);
    assert step(DirectFields[0]) == Ok(None);
    assert step(DirectFields[1]) == Ok(None);
    if data.JObj? {
      assert FieldName(data, "firstName") == Ok("");
      assert FieldName(data, "lastName") == Ok("");
    }
  }
}
