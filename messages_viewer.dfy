/**
 * The message viewer: reading the messages of one conversation out of a GraphQL
 * response, and formatting them as a chat: sorted in place by timestamp, the own
 * messages labelled, empty messages skipped but still counted and numbered.
 */
module MessagesViewer {
  import opened Wrappers
  import opened PyStr
  import opened OrderedDict
  import opened PyJson
  import opened ProfileNames
  import opened ConversationExtractor

  const Unknown: string := "Unknown"
  const OwnMarker: string := "SAIFEDDINE"
  const DefaultYou: string := "You"

  /** One message; `sender_first_name`/`sender_last_name` are set only for a member sender. */
  datatype Message = Message(text: Json, timestamp: Json, senderName: string, senderFirstName: Option<Json>,
                             senderLastName: Option<Json>, senderUrn: Json, messageUrn: Json, backendUrn: Json)

  /**
   * `datetime.fromtimestamp(delivered_at / 1000) if delivered_at else None` raises
   * on a truthy value that is not a number.
   */
  predicate TimestampRaises(deliveredAt: Json) {
    Truthy(deliveredAt) && !IsInt(deliveredAt)
  }

  /** The sender of one message: the member's joined name, or `Unknown`. */
  function SenderOf(sender: Json): (r: Result<(string, Option<Json>, Option<Json>)>)
    ensures r.Ok? && r.value.1.None? ==> r.value.0 == Unknown
    ensures r.Ok? && r.value.1.Some? ==>
              r.value.2.Some? && r.value.0 == FullName(StrOf(r.value.1.value), StrOf(r.value.2.value))
  {
    var participantType :- Get(sender, "participantType", JObj([]));
    var member :- Get(participantType, "member", JObj([]));
    if !Truthy(member) then Ok((Unknown, None, None))
    else if !member.JObj? then Raise(AttributeError)
    else
      var first := TextOf(GetOr(member, "firstName", JObj([])));
      var last := TextOf(GetOr(member, "lastName", JObj([])));
      Ok((FullName(StrOf(first), StrOf(last)), Some(first), Some(last)))
  }

  /** One element of `elements`. */
  function MessageOf(e: Json): (r: Result<Message>)
    ensures r.Ok? ==> e.JObj?
    ensures r.Ok? && !Truthy(GetOr(e, "body", JObj([]))) ==> r.value.text == JStr("")
    ensures r.Ok? && "deliveredAt" !in Keys(e.fields) ==> r.value.timestamp == JInt(0)
    ensures r.Ok? ==> !TimestampRaises(r.value.timestamp)
  {
    if !e.JObj? then Raise(AttributeError)
    else
      var body := GetOr(e, "body", JObj([]));
      var text :- if Truthy(body) then Get(body, "text", JStr("")) else Ok(JStr(""));
      var deliveredAt := GetOr(e, "deliveredAt", JInt(0));
      if TimestampRaises(deliveredAt) then Raise(TypeError)
      else
        var sender := GetOr(e, "sender", JObj([]));
        var (name, first, last) :- SenderOf(sender);
        // `sender` is a dict once `SenderOf` has read it
        var urn := GetOr(sender, "hostIdentityUrn", JStr(""));
        Ok(Message(text, deliveredAt, name, first, last, urn,
                   GetOr(e, "entityUrn", JStr("")), GetOr(e, "backendUrn", JStr(""))))
  }

  /** `data.messengerMessagesBySyncToken.elements`, each level read with `.get`. */
  function MessageElements(api: Json): Result<seq<Json>> {
    var data :- Get(api, "data", JObj([]));
    var messaging :- Get(data, "messengerMessagesBySyncToken", JObj([]));
    var elements :- Get(messaging, "elements", JArr([]));
    Iter(elements)
  }

  /**
   * `extract_messages`: one message per element, in order; an exception ends the
   * list where it happened, and the partial list is returned.
   */
  function Messages(api: Json): seq<Message> {
    match MessageElements(api)
    case Raise(_) => []
    case Ok(elems) => OkPrefix(elems, MessageOf)
  }

  method ExtractMessages(api: Json) returns (messages: seq<Message>)
    ensures messages == Messages(api)
  {
    messages := [];
    var elems := MessageElements(api);
    if elems.Raise? {
      return;
    }
    var es := elems.value;
    assert es[0..] == es;
    var i := 0;
    while i < |es|
      invariant 0 <= i <= |es|
      invariant Messages(api) == messages + OkPrefix(es[i..], MessageOf)
    {
      assert es[i..][0] == es[i] && es[i..][1..] == es[i + 1..];
      OkPrefixStep(messages, es[i..], MessageOf);
      var m := MessageOf(es[i]);
      if m.Raise? {
        return;
      }
      messages := messages + [m.value];
      i := i + 1;
    }
    assert es[i..] == [];
    assert messages + [] == messages;
  }

  /** The sort key `x.get('timestamp', 0)` of an integer (or bool) timestamp. */
  function Key(m: Message): int {
    match m.timestamp
    case JInt(i) => i
    case JBool(b) => if b then 1 else 0
    case _ => 0
  }

  predicate IntKeys(ms: seq<Message>) {
    forall i :: 0 <= i < |ms| ==> IsInt(ms[i].timestamp)
  }

  predicate SortedByKey(ms: seq<Message>) {
    forall i, j :: 0 <= i < j < |ms| ==> Key(ms[i]) <= Key(ms[j])
  }

  /** Exchanges two neighbouring messages. */
  method Swap(a: array<Message>, i: nat, j: nat)
    requires i < j < a.Length
    modifies a
    ensures a[i] == old(a[j]) && a[j] == old(a[i])
    ensures forall k :: 0 <= k < a.Length && k != i && k != j ==> a[k] == old(a[k])
    ensures multiset(a[..]) == multiset(old(a[..]))
  {
    a[i], a[j] := a[j], a[i];
  }

  /** `messages.sort(key=…)`: ascending by timestamp, in place. */
  method SortByTimestamp(a: array<Message>)
    modifies a
    ensures SortedByKey(a[..])
    ensures multiset(a[..]) == multiset(old(a[..]))
  {
    if a.Length == 0 {
      return;
    }
    var i := 1;
    while i < a.Length
      invariant 1 <= i <= a.Length
      invariant forall k, l :: 0 <= k < l < i ==> Key(a[k]) <= Key(a[l])
      invariant multiset(a[..]) == multiset(old(a[..]))
    {
      var j := i;
      while j > 0 && Key(a[j - 1]) > Key(a[j])
        invariant 0 <= j <= i
        invariant forall k, l :: 0 <= k < l <= i && k != j && l != j ==> Key(a[k]) <= Key(a[l])
        invariant forall l :: j < l <= i ==> Key(a[j]) < Key(a[l])
        invariant multiset(a[..]) == multiset(old(a[..]))
      {
        Swap(a, j - 1, j);
        j := j - 1;
      }
      i := i + 1;
    }
  }

  /** The first sender name containing `SAIFEDDINE`. */
  function FirstOwnSender(ms: seq<Message>): (r: Option<string>)
    ensures r.None? <==> forall i :: 0 <= i < |ms| ==> !Contains(ms[i].senderName, OwnMarker)
    ensures r.Some? ==> exists i :: 0 <= i < |ms| && ms[i].senderName == r.value && Contains(r.value, OwnMarker)
                                    && forall j :: 0 <= j < i ==> !Contains(ms[j].senderName, OwnMarker)
  {
    if ms == [] then None
    else if Contains(ms[0].senderName, OwnMarker) then Some(ms[0].senderName)
    else
      var r := FirstOwnSender(ms[1..]);
      assert forall i :: 1 <= i < |ms| ==> ms[1..][i - 1] == ms[i];
      r
  }

  /** `your_name`: that sender, or `You` when there is none (or it is empty). */
  function YourName(ms: seq<Message>): string {
    var found := FirstOwnSender(ms);
    if found.None? || found.value == [] then DefaultYou else found.value
  }

  /** `your_name` is `You` exactly when no sender contains `SAIFEDDINE`; otherwise the first that does. */
  lemma YourNameDefault(ms: seq<Message>)
    ensures YourName(ms) == DefaultYou <==> forall i :: 0 <= i < |ms| ==> !Contains(ms[i].senderName, OwnMarker)
    ensures FirstOwnSender(ms).Some? ==> YourName(ms) == FirstOwnSender(ms).value
  {
    var found := FirstOwnSender(ms);
    if found.Some? {
      ContainsIff(found.value, OwnMarker);
      var k :| OccursAt(found.value, OwnMarker, k);
      assert |found.value| >= |OwnMarker|;
    }
  }

  /** The search loop for `your_name`. */
  method FindYourName(ms: seq<Message>) returns (name: string)
    ensures name == YourName(ms)
  {
    var i := 0;
    while i < |ms|
      invariant 0 <= i <= |ms|
      invariant FirstOwnSender(ms) == FirstOwnSender(ms[i..])
    {
      assert ms[i..][0] == ms[i] && ms[i..][1..] == ms[i + 1..];
      if Contains(ms[i].senderName, OwnMarker) {
        name := if ms[i].senderName == [] then DefaultYou else ms[i].senderName;
        return;
      }
      i := i + 1;
    }
    name := DefaultYou;
  }

  /** The label decision: an own message contains `SAIFEDDINE` or is from `your_name`. */
  predicate FromYou(sender: string, yourName: string) {
    Contains(sender, OwnMarker) || sender == yourName
  }

  /** One printed message: its 1-based number, whether it is labelled `You`, the sender and the stripped text. */
  datatype Entry = Entry(number: nat, fromYou: bool, sender: string, text: string)

  /** The printed entries for messages `i` onwards; `text.strip()` raises on a non-string text. */
  function EntriesFrom(ms: seq<Message>, i: nat, yourName: string): Result<seq<Entry>>
    decreases |ms| - i
  {
    if i >= |ms| then Ok([])
    else
      var text :- StripOf(ms[i].text);
      Prepend(EntryAt(ms, i, text, yourName), EntriesFrom(ms, i + 1, yourName))
  }

  /** The entry of message `i` with stripped text `text`: none when the text is empty. */
  function EntryAt(ms: seq<Message>, i: nat, text: string, yourName: string): seq<Entry>
    requires i < |ms|
  {
    if text == [] then [] else [Entry(i + 1, FromYou(ms[i].senderName, yourName), ms[i].senderName, text)]
  }

  /** An entry is printed for a message with a non-empty stripped text, under its number. */
  predicate EntryOf(ms: seq<Message>, yourName: string, e: Entry) {
    0 < e.number <= |ms| && e.text != [] && StripOf(ms[e.number - 1].text) == Ok(e.text)
    && e.sender == ms[e.number - 1].senderName && e.fromYou == FromYou(e.sender, yourName)
  }

  /** Each entry is the entry of the message it is numbered after. */
  lemma {:induction false} EntriesSound(ms: seq<Message>, i: nat, yourName: string)
    requires EntriesFrom(ms, i, yourName).Ok?
    ensures forall e :: e in EntriesFrom(ms, i, yourName).value ==> i < e.number && EntryOf(ms, yourName, e)
    decreases |ms| - i
  {
    if i < |ms| {
      var text := StripOf(ms[i].text).value;
      EntriesSound(ms, i + 1, yourName);
      var rest: seq<Entry> := EntriesFrom(ms, i + 1, yourName).value;
      if text == [] {
        assert EntriesFrom(ms, i, yourName).value == rest;
      } else {
        var e := Entry(i + 1, FromYou(ms[i].senderName, yourName), ms[i].senderName, text);
        assert EntriesFrom(ms, i, yourName).value == [e] + rest;
        assert EntryOf(ms, yourName, e);
      }
    }
  }

  /** The entries from message `i` on are numbered after `i`. */
  lemma {:induction false} EntriesAfter(ms: seq<Message>, i: nat, yourName: string)
    requires EntriesFrom(ms, i, yourName).Ok?
    ensures forall e :: e in EntriesFrom(ms, i, yourName).value ==> i < e.number
    decreases |ms| - i
  {
    if i < |ms| {
      var text := StripOf(ms[i].text).value;
      EntriesAfter(ms, i + 1, yourName);
      var rest: seq<Entry> := EntriesFrom(ms, i + 1, yourName).value;
      assert EntriesFrom(ms, i, yourName).value == EntryAt(ms, i, text, yourName) + rest;
    }
  }

  /** Entries numbered in strictly increasing order. */
  predicate Increasing(es: seq<Entry>) {
    forall j, k :: 0 <= j < k < |es| ==> es[j].number < es[k].number
  }

  /** An entry numbered before all of an increasing list keeps it increasing in front. */
  lemma PrependIncreasing(e: Entry, rest: seq<Entry>)
    requires Increasing(rest) && forall x :: x in rest ==> e.number < x.number
    ensures Increasing([e] + rest)
  {
    var all := [e] + rest;
    forall j, k | 0 <= j < k < |all|
      ensures all[j].number < all[k].number
    {
      assert all[k] == rest[k - 1] && all[k] in rest;
      if j > 0 {
        assert all[j] == rest[j - 1];
      }
    }
  }

  /** The entries come in increasing message order. */
  lemma {:induction false} EntriesIncreasing(ms: seq<Message>, i: nat, yourName: string)
    requires EntriesFrom(ms, i, yourName).Ok?
    ensures Increasing(EntriesFrom(ms, i, yourName).value)
    decreases |ms| - i
  {
    if i < |ms| {
      var text := StripOf(ms[i].text).value;
      EntriesIncreasing(ms, i + 1, yourName);
      EntriesAfter(ms, i + 1, yourName);
      var rest: seq<Entry> := EntriesFrom(ms, i + 1, yourName).value;
      if text != [] {
        var e := Entry(i + 1, FromYou(ms[i].senderName, yourName), ms[i].senderName, text);
        assert EntriesFrom(ms, i, yourName).value == [e] + rest;
        PrependIncreasing(e, rest);
      } else {
        assert EntriesFrom(ms, i, yourName).value == rest;
      }
    }
  }

  /** Every message with a non-empty stripped text gets an entry under its own number. */
  lemma {:induction false} EntriesComplete(ms: seq<Message>, i: nat, yourName: string, k: nat)
    requires EntriesFrom(ms, i, yourName).Ok?
    requires i <= k < |ms| && StripOf(ms[k].text) != Ok("")
    ensures exists j :: 0 <= j < |EntriesFrom(ms, i, yourName).value| && EntriesFrom(ms, i, yourName).value[j].number == k + 1
    decreases |ms| - i
  {
    var text := StripOf(ms[i].text).value;
    var here: seq<Entry> := EntryAt(ms, i, text, yourName);
    var rest: seq<Entry> := EntriesFrom(ms, i + 1, yourName).value;
    var all: seq<Entry> := here + rest;
    assert EntriesFrom(ms, i, yourName).value == all;
    if k == i {
      assert all[0].number == k + 1;
    } else {
      EntriesComplete(ms, i + 1, yourName, k);
      var j :| 0 <= j < |rest| && rest[j].number == k + 1;
      assert (here + rest)[j + |here|] == rest[j];
    }
  }

  /** What `format_messages` shows, apart from the dates. */
  datatype Formatted = NoMessages | Chat(total: nat, entries: seq<Entry>)

  /** `format_messages` on messages already in sorted order. */
  function Format(ms: seq<Message>): Result<Formatted> {
    if ms == [] then Ok(NoMessages)
    else
      var entries :- EntriesFrom(ms, 0, YourName(ms));
      Ok(Chat(|ms|, entries))
  }

  /** The loop over `enumerate(messages, 1)`. */
  method RenderEntries(ms: seq<Message>, yourName: string) returns (r: Result<seq<Entry>>)
    ensures r == EntriesFrom(ms, 0, yourName)
  {
    var entries: seq<Entry> := [];
    var i := 0;
    PrependNothing(EntriesFrom(ms, 0, yourName));
    while i < |ms|
      invariant 0 <= i <= |ms|
      invariant EntriesFrom(ms, 0, yourName) == Prepend(entries, EntriesFrom(ms, i, yourName))
    {
      var text := StripOf(ms[i].text);
      if text.Raise? {
        return Raise(text.error);
      }
      var here := EntryAt(ms, i, text.value, yourName);
      PrependAssoc(entries, here, EntriesFrom(ms, i + 1, yourName));
      entries := entries + here;
      i := i + 1;
    }
    assert entries + [] == entries;
    return Ok(entries);
  }

  /**
   * `format_messages`: sorts the caller's list in place (ascending by timestamp, a
   * permutation of it) and formats the sorted messages.  The sort is defined for
   * integer timestamps only.
   */
  method FormatMessages(messages: array<Message>) returns (r: Result<Formatted>)
    requires IntKeys(messages[..])
    modifies messages
    ensures messages.Length == 0 ==> r == Ok(NoMessages)
    ensures SortedByKey(messages[..]) && multiset(messages[..]) == multiset(old(messages[..]))
    ensures r == Format(messages[..])
  {
    if messages.Length == 0 {
      return Ok(NoMessages);
    }
    SortByTimestamp(messages);
    var ms := messages[..];
    var yourName := FindYourName(ms);
    var entries := RenderEntries(ms, yourName);
    if entries.Raise? {
      return Raise(entries.error);
    }
    return Ok(Chat(messages.Length, entries.value));
  }

  /** A message with an empty stripped text is skipped but still counted and numbered. */
  lemma SkippedStillCounted(ms: seq<Message>, k: nat)
    requires Format(ms).Ok? && ms != [] && k < |ms|
    ensures Format(ms).value.total == |ms|
    ensures (exists j :: 0 <= j < |Format(ms).value.entries| && Format(ms).value.entries[j].number == k + 1)
            <==> StripOf(ms[k].text) != Ok("")
  {
    var entries := Format(ms).value.entries;
    if StripOf(ms[k].text) != Ok("") {
      EntriesComplete(ms, 0, YourName(ms), k);
    } else {
      EntriesSound(ms, 0, YourName(ms));
      forall j | 0 <= j < |entries|
        ensures entries[j].number != k + 1
      {
        assert entries[j] in entries;
      }
    }
  }
}
