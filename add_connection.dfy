/**
 * The connection-invite request body: `build_payload` takes the parsed template
 * body and rewrites, in place, only the fields that depend on the person invited.
 * The two parallel `requestedArguments` blocks receive the same seven fields, and
 * the state keys of the client-failure actions are pointed at the new person.
 */
module AddConnection {
  import opened Wrappers
  import opened PyStr
  import opened OrderedDict
  import opened PyJson
  import opened JsonPath

  const ProfileUrlPrefix: string := "https://www.linkedin.com/in/"
  const DisabledPrefix: string := "connect-button-disabled-"
  const InvitationPrefix: string := "state:invitation:urn:li:member:"

  /** The arguments of `build_payload`. */
  datatype Invitee = Invitee(
    memberId: string,
    profileId: string,
    firstName: string,
    lastName: string,
    publicIdentifier: string)

  /** The two requested-argument blocks, at `base["serverRequest"]["requestedArguments"]` and `base["requestedArguments"]`. */
  const ServerArgsPath: Path := [Key("serverRequest"), Key("requestedArguments")]
  const TopArgsPath: Path := [Key("requestedArguments")]

  /** The failure actions, at `base["serverRequest"]["onClientRequestFailureAction"]["actions"]`. */
  const ActionsPath: Path := [Key("serverRequest"), Key("onClientRequestFailureAction"), Key("actions")]

  /** The state key of one action, at `action["value"]["state"]["key"]["value"]`. */
  const StateKeyPath: Path := [Key("value"), Key("state"), Key("key"), Key("value")]

  /** The places the patch assigns inside a `payload` dict. */
  const MemberIdPath: Path := [Key("inviteeUrn"), Key("memberId")]
  const ProfileIdPath: Path := [Key("nonIterableProfileId")]
  const FirstNamePath: Path := [Key("firstName")]
  const LastNamePath: Path := [Key("lastName")]
  const CanonicalUrlPath: Path := [Key("profileCanonicalUrl")]
  const DisabledKeyPath: Path := [Key("isDisabled"), Key("key")]
  const ConnectionStateKeyPath: Path := [Key("connectionState"), Key("key")]

  /**
   * The assignments made inside a block's `payload` dict, in source order: where
   * each one writes and what it writes.
   */
  function PayloadWrites(who: Invitee): (ws: seq<(Path, Json)>)
    ensures |ws| == 7
    ensures forall i :: 0 <= i < |ws| ==> ws[i].0 != []
  {
    [
      (MemberIdPath, JStr(who.memberId)),
      (ProfileIdPath, JStr(who.profileId)),
      (FirstNamePath, JStr(who.firstName)),
      (LastNamePath, JStr(who.lastName)),
      (CanonicalUrlPath, JStr(ProfileUrlPrefix + who.publicIdentifier)),
      (DisabledKeyPath, JStr(DisabledPrefix + who.publicIdentifier)),
      (ConnectionStateKeyPath, JStr(InvitationPrefix + who.memberId))
    ]
  }

  /** The seven places are key paths, and no two of them overlap. */
  lemma PayloadWritesApart(who: Invitee)
    ensures var ws := PayloadWrites(who);
            (forall i :: 0 <= i < |ws| ==> KeyPath(ws[i].0)) && PairwiseApart(ws)
  {
    var ws := PayloadWrites(who);
    assert forall i, j :: 0 <= i < j < |ws| ==> ws[i].0[0] != ws[j].0[0];
    assert forall i, j :: 0 <= i < j < |ws| ==> Apart(ws[i].0, ws[j].0) by {
      forall i, j | 0 <= i < j < |ws| ensures Apart(ws[i].0, ws[j].0) {
        ApartAtHead(ws[i].0, ws[j].0);
      }
    }
  }

  /** Where a payload assignment lands, seen from the block that holds the payload. */
  function InPayload(p: Path): Path {
    [Key("payload")] + p
  }

  /**
   * `_patch_requested_arguments(arg)`: `arg.get("payload", {})` and then the
   * assignments into that dict, which `arg` holds. Without a `payload` key the
   * fresh `{}` has no `inviteeUrn`, so the first assignment raises `KeyError`.
   */
  function Patched(arg: Json, who: Invitee): (r: Result<Json>)
    ensures !arg.JObj? ==> r == Raise(AttributeError)
    ensures arg.JObj? && "payload" !in Keys(arg.fields) ==> r == Raise(KeyError)
  {
    var payload :- PyJson.Get(arg, "payload", JObj([]));
    var payload' :- AssignAll(payload, PayloadWrites(who));
    Assign(arg, [Key("payload")], payload')
  }

  /** The `k`-th assignment of a run either raises, ending it, or leaves the rest of the run to do. */
  lemma AssignAllAt(x: Json, ws: seq<(Path, Json)>, k: nat)
    requires k < |ws| && forall i :: 0 <= i < |ws| ==> ws[i].0 != []
    ensures Assign(x, ws[k].0, ws[k].1).Raise? ==> AssignAll(x, ws[k..]) == Raise(Assign(x, ws[k].0, ws[k].1).error)
    ensures Assign(x, ws[k].0, ws[k].1).Ok? ==> AssignAll(x, ws[k..]) == AssignAll(Assign(x, ws[k].0, ws[k].1).value, ws[k + 1..])
  {
    assert ws[k..][0] == ws[k] && ws[k..][1..] == ws[k + 1..];
  }

  /**
   * The patch as the closure runs it, one assignment after another; entry `k` of
   * the table is the `k`-th assignment of the source.
   */
  method PatchRequestedArguments(arg: Json, who: Invitee) returns (r: Result<Json>)
    ensures r == Patched(arg, who)
  {
    var ws := PayloadWrites(who);
    var payload :- PyJson.Get(arg, "payload", JObj([]));
    assert ws[0..] == ws;
    payload :- PatchIdentity(payload, ws);
    payload :- PatchDynamicKeys(payload, ws);
    r := Assign(arg, [Key("payload")], payload);
  }

  /** The basic identity fields: the first five assignments of the patch. */
  method PatchIdentity(payload0: Json, ws: seq<(Path, Json)>) returns (r: Result<Json>)
    requires |ws| == 7 && forall i :: 0 <= i < |ws| ==> ws[i].0 != []
    ensures r.Raise? ==> AssignAll(payload0, ws) == r
    ensures r.Ok? ==> AssignAll(payload0, ws) == AssignAll(r.value, ws[5..])
  {
    var payload := payload0;
    assert ws[0..] == ws;
    AssignAllAt(payload, ws, 0);
    payload :- Assign(payload, ws[0].0, ws[0].1);  // the member id under inviteeUrn
    AssignAllAt(payload, ws, 1);
    payload :- Assign(payload, ws[1].0, ws[1].1);  // the profile id
    AssignAllAt(payload, ws, 2);
    payload :- Assign(payload, ws[2].0, ws[2].1);  // the first name
    AssignAllAt(payload, ws, 3);
    payload :- Assign(payload, ws[3].0, ws[3].1);  // the last name
    AssignAllAt(payload, ws, 4);
    payload :- Assign(payload, ws[4].0, ws[4].1);  // the canonical profile URL
    r := Ok(payload);
  }

  /** The dynamic keys that name the profile slug and member id: the last two assignments. */
  method PatchDynamicKeys(payload0: Json, ws: seq<(Path, Json)>) returns (r: Result<Json>)
    requires |ws| == 7 && forall i :: 0 <= i < |ws| ==> ws[i].0 != []
    ensures r == AssignAll(payload0, ws[5..])
  {
    var payload := payload0;
    AssignAllAt(payload, ws, 5);
    payload :- Assign(payload, ws[5].0, ws[5].1);  // the disabled-button key
    AssignAllAt(payload, ws, 6);
    payload :- Assign(payload, ws[6].0, ws[6].1);  // the connection-state key
    assert ws[7..] == [];
    r := Ok(payload);
  }

  /** Each of the seven fields reads back, in the block's payload, what the patch wrote. */
  lemma PatchedFields(arg: Json, who: Invitee, i: nat)
    requires Patched(arg, who).Ok? && i < |PayloadWrites(who)|
    ensures Follow(Patched(arg, who).value, InPayload(PayloadWrites(who)[i].0)) == Ok(PayloadWrites(who)[i].1)
  {
    var ws := PayloadWrites(who);
    var payload := Lookup(arg.fields, "payload").value;
    var payload' := AssignAll(payload, ws).value;
    PayloadWritesApart(who);
    FollowAssignAll(payload, ws, i);
    FollowAssignInside(arg, [Key("payload")], payload', ws[i].0);
  }

  /** The patch changes nothing but the seven fields: every place apart from them reads as before. */
  lemma PatchedPreserves(arg: Json, who: Invitee, q: Path)
    requires Patched(arg, who).Ok?
    requires forall i :: 0 <= i < |PayloadWrites(who)| ==> Apart(InPayload(PayloadWrites(who)[i].0), q)
    ensures Follow(Patched(arg, who).value, q) == Follow(arg, q)
  {
    var ws := PayloadWrites(who);
    var payload := Lookup(arg.fields, "payload").value;
    var payload' := AssignAll(payload, ws).value;
    var at: Path := [Key("payload")];
    if Apart(at, q) {
      FollowAssignApart(arg, at, payload', q);
    } else {
      ApartBelow(at, ws[0].0, q);
      var below := q[1..];
      forall i | 0 <= i < |ws| ensures Apart(ws[i].0, below) {
        ApartBelow(at, ws[i].0, q);
      }
      FollowAssignAllApart(payload, ws, below);
      FollowAssignInside(arg, at, payload', below);
    }
  }

  /** No state key starts with both prefixes, so the order of the two tests does not matter. */
  lemma PrefixesExclusive(s: string)
    ensures !(StartsWith(s, InvitationPrefix) && StartsWith(s, DisabledPrefix))
  {
    assert InvitationPrefix[0] != DisabledPrefix[0];
  }

  /**
   * The replacement for a string state key: an invitation key names the new
   * member, a disabled-button key the new slug; any other key is kept (`None`).
   */
  function NewStateKey(s: string, who: Invitee): Option<Json> {
    if StartsWith(s, InvitationPrefix) then Some(JStr(InvitationPrefix + who.memberId))
    else if StartsWith(s, DisabledPrefix) then Some(JStr(DisabledPrefix + who.publicIdentifier))
    else None
  }

  /**
   * One pass of the failure-action loop: read the state key; a `KeyError` or
   * `TypeError` on the way skips the action; a string key with one of the two
   * prefixes is replaced, any other string is kept; `startswith` on anything
   * that is not a string raises `AttributeError`, which the loop does not catch.
   */
  function PatchAction(action: Json, who: Invitee): Result<Json> {
    match Follow(action, StateKeyPath)
    case Raise(e) =>
      if e == KeyError || e == TypeError then Ok(action) else Raise(e)
    case Ok(JStr(s)) =>
      (match NewStateKey(s, who)
       case Some(key) => Assign(action, StateKeyPath, key)
       case None => Ok(action))
    case Ok(_) => Raise(AttributeError)
  }

  /**
   * An action whose state key cannot be read is skipped; the pass raises, with
   * `AttributeError`, exactly when the state key is there but is not a string.
   */
  lemma PatchActionOutcome(action: Json, who: Invitee)
    ensures Follow(action, StateKeyPath).Raise? ==> PatchAction(action, who) == Ok(action)
    ensures PatchAction(action, who).Raise? <==> Follow(action, StateKeyPath).Ok? && !Follow(action, StateKeyPath).value.JStr?
    ensures PatchAction(action, who).Raise? ==> PatchAction(action, who).error == AttributeError
  {
    assert KeyPath(StateKeyPath);
    var found := Follow(action, StateKeyPath);
    if found.Raise? {
      FollowKeyPathErrors(action, StateKeyPath);
      assert PatchAction(action, who) == Ok(action);
    } else if found.value.JStr? {
      var key := NewStateKey(found.value.s, who);
      if key.Some? {
        AssignAfterFollow(action, StateKeyPath, key.value);
        assert PatchAction(action, who) == Assign(action, StateKeyPath, key.value);
      } else {
        assert PatchAction(action, who) == Ok(action);
      }
    } else {
      assert PatchAction(action, who) == Raise(AttributeError);
    }
  }

  /** What a string state key becomes: an invitation key names the new member, a disabled key the new slug. */
  lemma PatchActionRewrites(action: Json, who: Invitee, s: string)
    requires Follow(action, StateKeyPath) == Ok(JStr(s))
    ensures PatchAction(action, who).Ok?
    ensures StartsWith(s, InvitationPrefix) ==>
              Follow(PatchAction(action, who).value, StateKeyPath) == Ok(JStr(InvitationPrefix + who.memberId))
    ensures StartsWith(s, DisabledPrefix) ==>
              Follow(PatchAction(action, who).value, StateKeyPath) == Ok(JStr(DisabledPrefix + who.publicIdentifier))
    ensures !StartsWith(s, InvitationPrefix) && !StartsWith(s, DisabledPrefix) ==> PatchAction(action, who) == Ok(action)
  {
    PrefixesExclusive(s);
    var key := NewStateKey(s, who);
    if key.Some? {
      assert KeyPath(StateKeyPath);
      AssignAfterFollow(action, StateKeyPath, key.value);
      assert PatchAction(action, who) == Assign(action, StateKeyPath, key.value);
      FollowAssign(action, StateKeyPath, key.value);
    } else {
      assert PatchAction(action, who) == Ok(action);
    }
  }

  /** Only the state key of an action changes. */
  lemma PatchActionPreserves(action: Json, who: Invitee, q: Path)
    requires PatchAction(action, who).Ok? && Apart(StateKeyPath, q)
    ensures Follow(PatchAction(action, who).value, q) == Follow(action, q)
  {
    var found := Follow(action, StateKeyPath);
    if found.Ok? && found.value.JStr? {
      var key := NewStateKey(found.value.s, who);
      if key.Some? {
        FollowAssignApart(action, StateKeyPath, key.value, q);
      }
    }
  }

  lemma StartsWithPrefix(prefix: string, rest: string)
    ensures StartsWith(prefix + rest, prefix)
  {
    assert (prefix + rest)[..|prefix|] == prefix;
  }

  /** A replaced state key is replaced by itself a second time. */
  lemma NewStateKeyStable(s: string, who: Invitee)
    requires NewStateKey(s, who).Some?
    ensures NewStateKey(NewStateKey(s, who).value.s, who) == NewStateKey(s, who)
  {
    var member := InvitationPrefix + who.memberId;
    var disabled := DisabledPrefix + who.publicIdentifier;
    StartsWithPrefix(InvitationPrefix, who.memberId);
    StartsWithPrefix(DisabledPrefix, who.publicIdentifier);
    PrefixesExclusive(disabled);
  }

  /** Patching an action that has already been patched for the same person changes nothing more. */
  lemma PatchActionIdempotent(action: Json, who: Invitee)
    requires PatchAction(action, who).Ok?
    ensures PatchAction(PatchAction(action, who).value, who) == PatchAction(action, who)
  {
    var found := Follow(action, StateKeyPath);
    if found.Ok? && found.value.JStr? {
      var key := NewStateKey(found.value.s, who);
      if key.Some? {
        assert PatchAction(action, who) == Assign(action, StateKeyPath, key.value);
        FollowAssign(action, StateKeyPath, key.value);
        NewStateKeyStable(found.value.s, who);
        AssignTwice(action, StateKeyPath, key.value);
      }
    }
  }

  /** The whole failure-action loop: each action patched in turn, until one raises. */
  function PatchedActions(items: seq<Json>, who: Invitee): (r: Result<seq<Json>>)
    ensures r.Ok? ==> |r.value| == |items| && forall i :: 0 <= i < |items| ==> PatchAction(items[i], who) == Ok(r.value[i])
    ensures r.Raise? <==> exists i :: 0 <= i < |items| && PatchAction(items[i], who).Raise?
    decreases |items|
  {
    if items == [] then Ok([])
    else
      var first :- PatchAction(items[0], who);
      var rest :- PatchedActions(items[1..], who);
      assert forall i :: 1 <= i < |items| ==> items[i] == items[1..][i - 1];
      Ok([first] + rest)
  }

  /** Iterating a dict or a string yields strings, which the loop skips: nothing changes. */
  lemma StringItemsUntouched(items: seq<Json>, who: Invitee)
    requires forall i :: 0 <= i < |items| ==> items[i].JStr?
    ensures PatchedActions(items, who) == Ok(items)
  {
    forall i | 0 <= i < |items| ensures PatchAction(items[i], who) == Ok(items[i]) {
      assert Sub(items[i], StateKeyPath[0]).Raise?;
    }
    assert PatchedActions(items, who).value == items;
  }

  /** The loop over the failure actions. */
  method PatchFailureActions(items: seq<Json>, who: Invitee) returns (r: Result<seq<Json>>)
    ensures r == PatchedActions(items, who)
  {
    var done: seq<Json> := [];
    var i := 0;
    assert items[0..] == items;
    PrependNothing(PatchedActions(items, who));
    while i < |items|
      invariant 0 <= i <= |items|
      invariant PatchedActions(items, who) == Prepend(done, PatchedActions(items[i..], who))
    {
      assert items[i..][0] == items[i] && items[i..][1..] == items[i + 1..];
      var action :- PatchAction(items[i], who);
      PrependAssoc(done, [action], PatchedActions(items[i + 1..], who));
      done := done + [action];
      i := i + 1;
    }
    assert items[i..] == [];
    assert done + [] == done;
    r := Ok(done);
  }
  /** `_patch_requested_arguments(base[...])` on the block that `block` reaches, updated in place. */
  function PatchBlock(base: Json, block: Path, who: Invitee): Result<Json>
    requires block != []
  {
    var arg :- Follow(base, block);
    var arg' :- Patched(arg, who);
    Assign(base, block, arg')
  }

  /** The block's payload reads back the seven written fields. */
  lemma PatchBlockFields(base: Json, block: Path, who: Invitee, i: nat)
    requires block != [] && PatchBlock(base, block, who).Ok? && i < |PayloadWrites(who)|
    ensures Follow(PatchBlock(base, block, who).value, block + InPayload(PayloadWrites(who)[i].0)) == Ok(PayloadWrites(who)[i].1)
  {
    var arg := Follow(base, block).value;
    var arg' := Patched(arg, who).value;
    PatchedFields(arg, who, i);
    FollowAssignInside(base, block, arg', InPayload(PayloadWrites(who)[i].0));
  }

  /** Patching a block changes nothing apart from the seven fields of its payload. */
  lemma PatchBlockPreserves(base: Json, block: Path, who: Invitee, q: Path)
    requires block != [] && PatchBlock(base, block, who).Ok?
    requires forall i :: 0 <= i < |PayloadWrites(who)| ==> Apart(block + InPayload(PayloadWrites(who)[i].0), q)
    ensures Follow(PatchBlock(base, block, who).value, q) == Follow(base, q)
  {
    var ws := PayloadWrites(who);
    var arg := Follow(base, block).value;
    var arg' := Patched(arg, who).value;
    if Apart(block, q) {
      FollowAssignApart(base, block, arg', q);
    } else {
      ApartBelow(block, InPayload(ws[0].0), q);
      var below := q[|block|..];
      forall i | 0 <= i < |ws| ensures Apart(InPayload(ws[i].0), below) {
        ApartBelow(block, InPayload(ws[i].0), q);
      }
      PatchedPreserves(arg, who, below);
      FollowAssignInside(base, block, arg', below);
    }
  }

  /**
   * The loop over `base["serverRequest"].get("onClientRequestFailureAction", {}).get("actions", [])`.
   * When that is the list held in `base`, the patched actions replace its items; a
   * missing key gives a fresh empty value, and iterating a dict or a string yields
   * strings, which are skipped, so `base` is unchanged in those cases.
   */
  function FailureActions(base: Json, who: Invitee): Result<Json> {
    var serverRequest :- Index(base, "serverRequest");
    var failure :- PyJson.Get(serverRequest, "onClientRequestFailureAction", JObj([]));
    var actions :- PyJson.Get(failure, "actions", JArr([]));
    var items :- Iter(actions);
    var items' :- PatchedActions(items, who);
    if actions.JArr? && Follow(base, ActionsPath).Ok? then Assign(base, ActionsPath, JArr(items'))
    else Ok(base)
  }

  /** When `base` holds a list of actions, the result holds the patched actions in its place. */
  lemma FailureActionsList(base: Json, who: Invitee, items: seq<Json>)
    requires FailureActions(base, who).Ok? && Follow(base, ActionsPath) == Ok(JArr(items))
    ensures PatchedActions(items, who).Ok?
    ensures Follow(FailureActions(base, who).value, ActionsPath) == Ok(JArr(PatchedActions(items, who).value))
  {
    var serverRequest := Index(base, "serverRequest").value;
    assert Follow(base, ActionsPath) == Follow(serverRequest, ActionsPath[1..]);
    var failure := Index(serverRequest, "onClientRequestFailureAction").value;
    assert Follow(serverRequest, ActionsPath[1..]) == Follow(failure, ActionsPath[2..]);
    assert Follow(failure, ActionsPath[2..]) == Index(failure, "actions");
    assert PyJson.Get(serverRequest, "onClientRequestFailureAction", JObj([])) == Ok(failure);
    assert PyJson.Get(failure, "actions", JArr([])) == Ok(JArr(items));
    FollowAssign(base, ActionsPath, JArr(PatchedActions(items, who).value));
  }

  /** The failure-action loop changes nothing apart from the action list. */
  lemma FailureActionsPreserves(base: Json, who: Invitee, q: Path)
    requires FailureActions(base, who).Ok? && Apart(ActionsPath, q)
    ensures Follow(FailureActions(base, who).value, q) == Follow(base, q)
  {
    var serverRequest := Index(base, "serverRequest").value;
    var failure := PyJson.Get(serverRequest, "onClientRequestFailureAction", JObj([])).value;
    var actions := PyJson.Get(failure, "actions", JArr([])).value;
    if actions.JArr? && Follow(base, ActionsPath).Ok? {
      var items' := PatchedActions(Iter(actions).value, who).value;
      FollowAssignApart(base, ActionsPath, JArr(items'), q);
    }
  }

  /**
   * `build_payload` on the parsed template, up to `json.dumps`: patch the block
   * under `serverRequest`, then the top-level block, then the failure actions.
   */
  function Payload(template: Json, who: Invitee): Result<Json> {
    var base :- PatchBlock(template, ServerArgsPath, who);
    var base' :- PatchBlock(base, TopArgsPath, who);
    FailureActions(base', who)
  }

  /** The paths of the seven fields in both blocks are apart from each other and from the actions. */
  lemma TargetsApart(ws: seq<(Path, Json)>, i: nat, j: nat)
    requires i < |ws| && j < |ws|
    ensures Apart(TopArgsPath + InPayload(ws[j].0), ServerArgsPath + InPayload(ws[i].0))
    ensures Apart(ServerArgsPath + InPayload(ws[j].0), TopArgsPath + InPayload(ws[i].0))
    ensures Apart(ActionsPath, ServerArgsPath + InPayload(ws[i].0))
    ensures Apart(ActionsPath, TopArgsPath + InPayload(ws[i].0))
    ensures Apart(ServerArgsPath + InPayload(ws[i].0), ActionsPath)
    ensures Apart(TopArgsPath + InPayload(ws[i].0), ActionsPath)
  {
    var server := ServerArgsPath + InPayload(ws[i].0);
    var top := TopArgsPath + InPayload(ws[i].0);
    assert (ServerArgsPath + InPayload(ws[j].0))[0] == Key("serverRequest") && top[0] == Key("requestedArguments");
    assert (TopArgsPath + InPayload(ws[j].0))[0] == Key("requestedArguments") && server[0] == Key("serverRequest");
    assert server[1] == Key("requestedArguments") && ActionsPath[1] == Key("onClientRequestFailureAction");
    assert (ServerArgsPath + InPayload(ws[i].0))[1] != ActionsPath[1];
  }

  /** Both requested-argument blocks end up with the same seven fields, as the table gives them. */
  lemma PayloadFields(template: Json, who: Invitee, i: nat)
    requires Payload(template, who).Ok? && i < |PayloadWrites(who)|
    ensures Follow(Payload(template, who).value, ServerArgsPath + InPayload(PayloadWrites(who)[i].0)) == Ok(PayloadWrites(who)[i].1)
    ensures Follow(Payload(template, who).value, TopArgsPath + InPayload(PayloadWrites(who)[i].0)) == Ok(PayloadWrites(who)[i].1)
  {
    var ws := PayloadWrites(who);
    var base := PatchBlock(template, ServerArgsPath, who).value;
    var base' := PatchBlock(base, TopArgsPath, who).value;
    var server := ServerArgsPath + InPayload(ws[i].0);
    var top := TopArgsPath + InPayload(ws[i].0);
    forall j | 0 <= j < |ws| ensures Apart(TopArgsPath + InPayload(ws[j].0), server) {
      TargetsApart(ws, i, j);
    }
    TargetsApart(ws, i, i);
    PatchBlockFields(template, ServerArgsPath, who, i);
    PatchBlockPreserves(base, TopArgsPath, who, server);
    PatchBlockFields(base, TopArgsPath, who, i);
    FailureActionsPreserves(base', who, server);
    FailureActionsPreserves(base', who, top);
  }

  /** A template holding a list of failure actions gets each of them patched in place. */
  lemma PayloadActions(template: Json, who: Invitee, items: seq<Json>)
    requires Payload(template, who).Ok? && Follow(template, ActionsPath) == Ok(JArr(items))
    ensures PatchedActions(items, who).Ok?
    ensures Follow(Payload(template, who).value, ActionsPath) == Ok(JArr(PatchedActions(items, who).value))
  {
    var ws := PayloadWrites(who);
    var base := PatchBlock(template, ServerArgsPath, who).value;
    var base' := PatchBlock(base, TopArgsPath, who).value;
    forall j | 0 <= j < |ws|
      ensures Apart(ServerArgsPath + InPayload(ws[j].0), ActionsPath)
      ensures Apart(TopArgsPath + InPayload(ws[j].0), ActionsPath)
    {
      TargetsApart(ws, j, j);
    }
    PatchBlockPreserves(template, ServerArgsPath, who, ActionsPath);
    PatchBlockPreserves(base, TopArgsPath, who, ActionsPath);
    FailureActionsList(base', who, items);
  }

  /**
   * Only the user-dependent fields change: every place apart from the seven fields
   * of both blocks and from the action list reads as in the template.
   */
  lemma PayloadPreserves(template: Json, who: Invitee, q: Path)
    requires Payload(template, who).Ok?
    requires forall i :: 0 <= i < |PayloadWrites(who)| ==>
               Apart(ServerArgsPath + InPayload(PayloadWrites(who)[i].0), q) && Apart(TopArgsPath + InPayload(PayloadWrites(who)[i].0), q)
    requires Apart(ActionsPath, q)
    ensures Follow(Payload(template, who).value, q) == Follow(template, q)
  {
    var base := PatchBlock(template, ServerArgsPath, who).value;
    var base' := PatchBlock(base, TopArgsPath, who).value;
    PatchBlockPreserves(template, ServerArgsPath, who, q);
    PatchBlockPreserves(base, TopArgsPath, who, q);
    FailureActionsPreserves(base', who, q);
  }

  /** `build_payload`, step by step on one working copy of the template. */
  method BuildPayload(template: Json, who: Invitee) returns (r: Result<Json>)
    ensures r == Payload(template, who)
  {
    var base := template;
    var arg :- Follow(base, ServerArgsPath);
    arg :- PatchRequestedArguments(arg, who);
    base :- Assign(base, ServerArgsPath, arg);
    arg :- Follow(base, TopArgsPath);
    arg :- PatchRequestedArguments(arg, who);
    base :- Assign(base, TopArgsPath, arg);
    var serverRequest :- Index(base, "serverRequest");
    var failure :- PyJson.Get(serverRequest, "onClientRequestFailureAction", JObj([]));
    var actions :- PyJson.Get(failure, "actions", JArr([]));
    var items :- Iter(actions);
    items :- PatchFailureActions(items, who);
    if actions.JArr? && Follow(base, ActionsPath).Ok? {
      base :- Assign(base, ActionsPath, JArr(items));
    }
    r := Ok(base);
  }
}
