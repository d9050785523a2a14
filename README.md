# LinkedIn helper scripts — a verified model of their extraction and decision logic

The repository is a set of Python scripts that talk to LinkedIn's internal
("voyager") API. They check the connection degree to a profile, index the
conversation list, send messages and invitations, scrape search results and show
the messages of a conversation. The HTTP plumbing around them is not modelled.
Each script passes a JSON response or a URL through small, deterministic
extraction and decision steps, and those steps are what this project models and
proves properties of:

- the profile-slug extractors and their three divergent variants (`Slugs`);
- the URN helpers: `clean_urn`, the last `:` segment, conversation URNs, the
  messaging-URN dictionary and the candidate filter (`Urns`, `SendMessage`,
  `ProfileUrns`);
- the connection-distance parsing and classification, the profile-name search and
  the endpoint fallback chain of both connection checkers (`Distance`,
  `ProfileNames`, `ConnectionChecker`, `ConnectionCheckerClean`);
- the conversation index: the flattening, the name→URN dictionary and the lookup
  (`ConversationExtractor`);
- invitation-payload patching (`AddConnection`, over `JsonPath`);
- search-result extraction and the paginated scrape loop (`PostScraper`);
- message extraction and formatting (`MessagesViewer`);
- identity sniffing and result shaping (`ProfileIdentifiers`).

Python's own semantics are modelled once and shared:

- `Wrappers`: `Option`, and `Result` with an error value for a raised exception.
- `PyStr`: `strip`, `split`, `find`, `in`, ASCII `lower`, `int()` and `str()` on ints.
- `OrderedDict`: insertion-ordered dicts as sequences of pairs.
- `PyJson`: a JSON datatype with Python's `in`, `[]`, `.get`, iteration and truthiness.
- `JsonPath`: nested reads and writes.

JSON objects keep their key order, because the scripts iterate dicts in insertion
order. A Python exception that a script catches becomes a `Raise` result, and the
model follows it to the value the `except` branch returns.

Each network call becomes an input: the parsed response, or its outcome
(`Option<Json>`, a page function, an endpoint outcome). The regular-expression
scans over serialised responses are inputs as well, and so are `html.unescape`
and `uuid4`, passed as a function parameter and as strings. The `json.dumps` of
`get_messaging_urns` is a function parameter; `build_payload` is modelled up to
the dict it hands to `json.dumps`, and the serialisation itself is left out. Where a script
works step by step (loops that append, a dict filled in place, an in-place sort,
the pagination loop), a method with loop invariants is proved equal to a
recursive specification function, and the properties are proved about that
function.

## Model

| member | source | states |
|---|---|---|
| Slugs.PublicIdFromUrlShape | linkedin_connection_checker.py:76-87 | `get_public_identifier_from_url` returns None exactly when `/in/` is absent; otherwise a prefix of the `/`-stripped text after the last `/in/` holding no `?`, no `#` and no `/in/` |
| Slugs.CutQueryShape | linkedin_connection_checker.py:83 | cutting at the first `?` and then the first `#` keeps a prefix of the input holding neither character |
| Slugs.CutQueryNoop | linkedin_connection_checker.py:83 | a text without `?` and `#` is not cut |
| Slugs.TailSlugNoMarker | linkedin_connection_checker.py:81 | the `/`-stripped text after the last `/in/` holds no `/in/` |
| Slugs.CanonicalUrlSlug | linkedin_connection_checker.py:79-84 | a bare slug has no `/in/` (the extractor gives None), and the extractor recovers it unchanged from `https://www.linkedin.com/in/<slug>/` |
| Slugs.ExtractPublicIdentifierShape | get_profile_identifiers.py:65-71 | `extract_public_identifier` never starts or ends with `/`; without `/in/` it is the input `/`-stripped; with `/in/` it holds no `?` and no `#` |
| Slugs.TrailingSlashExample | linkedin_connection_checker.py:81-83 | for `https://www.linkedin.com/in/foo/?x` the strip-then-cut variant gives `foo/` while `extract_public_identifier` (cut then strip) gives `foo` |
| Urns.TrimJunk | get_profile_urns.py:80 | the trailing-junk substitution keeps a prefix of the input that does not end in `"`, `'`, white space, `&` or `;`, and everything it removed is such a character |
| Urns.TrimJunkClean | get_profile_urns.py:80 | a text that does not end in junk is left unchanged |
| Urns.TrimJunkIdempotent | get_profile_urns.py:80 | trimming twice is trimming once |
| Urns.CleanUrn | get_profile_urns.py:71-82 | `clean_urn` returns an empty input unchanged; otherwise a prefix of the unescaped input that does not end in junk |
| Urns.CleanUrnTrimmed | send_message.py:12-23 | the trailing strip has nothing left to remove in `clean_urn`'s result |
| Urns.LastSegmentShape | get_profile_urns.py:362 | `split(":")[-1]` is a suffix without `:`, and a text without `:` is its own last segment |
| Urns.LastSegmentOfProfileUrn | get_profile_urns.py:362-364 | the last segment of `urn:li:fsd_profile:<id>` is `<id>` when the id has no `:` |
| SendMessage.ExtractProfileUrnFromUrl | send_message.py:25-83 | a `urn:li:fsd_profile:` input is cleaned and returned before any request; with no page match the slug fallback gives `urn:li:fsd_profile:` + the stripped text after the last `/in/`; None exactly when the input is no URN and the request raised |
| SendMessage.SlugFallbackShape | send_message.py:76-79 | the fallback's slug is the text after the last `/in/` with its surrounding run of `/` removed, and it neither starts nor ends with `/` |
| SendMessage.RemoveDashes | send_message.py:141 | `replace('-', '')` leaves no dash and never lengthens the text |
| SendMessage.RemoveDashesAppend | send_message.py:141 | dropping dashes distributes over concatenation |
| SendMessage.RemoveDashesKeeps | send_message.py:141 | a dash-free text is unchanged |
| SendMessage.JoinDash | send_message.py:141 | dropping the dashes of `x-y` for a dash-free `y` gives the dash-free `x` followed by `y` |
| SendMessage.CreateConversationUrn | send_message.py:128-143 | with a non-empty id the result is exactly `urn:li:msg_conversation:(<profile_urn>,<id>)` |
| SendMessage.GeneratedIdLength | send_message.py:139-143 | without an id, for the text of a UUID the generated id is `2-` followed by its 32 hex digits (34 characters) |
| SendMessage.GetLinkedinUrns | send_message.py:145-182 | no mailbox URN gives `(None, None)`; a returned mailbox URN is non-empty and the conversation URN is the search result only when a session is given; a cleaned URN input needs no request; a failed page request gives `(None, None)` |
| ProfileUrns.NormaliseUrl | get_profile_urns.py:106-112 | an input starting with `http` is not normalised |
| ProfileUrns.ExtractProfileUrnFromUrl | get_profile_urns.py:97-104 | a `urn:li:fsd_profile:` input is cleaned and returned before any request |
| ProfileUrns.BareSlugLookup | get_profile_urns.py:106-119 | a bare slug becomes `https://www.linkedin.com/in/<slug>/`, the API is asked for that slug, and the page fallback fetches that URL |
| ProfileUrns.RecipientOfProfileUrn | get_profile_urns.py:357-364 | a clean profile URN is returned unchanged and re-prefixing its last segment gives it back |
| ProfileUrns.MessagingUrns | get_profile_urns.py:342-386 | `your_urn` and `mailbox_urn` are the fixed own URN; without a recipient URN holding `:` those are the only keys; otherwise six keys in order, with `hostRecipientUrns` the singleton and `recipient_urn` the URN `urn:li:fsd_profile:` + last `:` segment, and the payload built around it; `powershell_json` holds `dumps` of the formatted payload with the first UUID and the first 16 characters of the second |
| ProfileUrns.OwnKeys | get_profile_urns.py:353-354 | the two own-URN entries are stored in order |
| ProfileUrns.RecipientKeys | get_profile_urns.py:363-384 | the four recipient entries follow the own-URN entries in order, and all six entries, `powershell_json` included, read back their values |
| ProfileUrns.MessagingKeysDistinct | get_profile_urns.py:353-384 | the six result keys are distinct |
| ProfileUrns.FilterCandidates | get_profile_urns.py:305 | a candidate is kept exactly when it does not contain the own id and starts with `ACoAA` |
| ProfileUrns.OwnIdNotCandidate | get_profile_urns.py:305 | the own id is never a candidate, though it starts with `ACoAA` |
| Distance.DistanceTextRoundTrip | linkedin_connection_checker.py:444-449 | `("DISTANCE_" + str(n)).split('_')[1]` parses back to `n` for every integer `n` |
| Distance.DistanceTextAfterPrefix | linkedin_connection_checker.py:446 | after `DISTANCE_` only the text up to the next `_` is parsed |
| Distance.DistanceTextSuffix | linkedin_connection_checker.py:446 | for a suffix without `_` the parse is `int()` of the suffix |
| Distance.OutOfNetworkUndetermined | linkedin_connection_checker.py:444-449 | `DISTANCE_OUT_OF_NETWORK` raises inside the `try` and leaves the distance undetermined rather than failing |
| Distance.OutBeforeUnderscore | linkedin_connection_checker.py:446 | the part read from `DISTANCE_OUT_OF_NETWORK` is `OUT` |
| Distance.OutIsNoInt | linkedin_connection_checker.py:446 | `int("OUT")` fails |
| Distance.TopLevelDistance | linkedin_connection_checker.py:426-449 | top-level rules: a dict with `value` counts only through a `DISTANCE_` text there, otherwise its `distance`; an int (or bool) is the distance; anything that decides without being a dict or an int is a parsed `DISTANCE_` text |
| Distance.ElementDistance | linkedin_connection_checker.py:455-479 | element rules: a dict whose `value` is no `DISTANCE_` text falls through to its `distance`; non-dicts follow the top-level rules |
| Distance.ElementDistanceDiffers | linkedin_connection_checker.py:431-441 | the two rule sets differ only on a dict whose `value` is not a `DISTANCE_` text and which has `distance` |
| Distance.DistanceTextDecides | linkedin_connection_checker.py:426-479 | `DISTANCE_<n>`, bare or under `value`, decides `n` under both rule sets |
| Distance.DistanceTextParsed | linkedin_connection_checker.py:444-449 | `DISTANCE_<n>` is a distance text whose parse decides `n` |
| Distance.Classify | linkedin_connection_checker.py:541-552 | connected iff the distance equals 1 (as Python's `==`, so `True` too); the fixed texts for 2 and 3; `str(d) + "th degree connection"` otherwise |
| Distance.OtherDegreeNotFixed | linkedin_connection_checker.py:544-552 | a distance other than 1, 2 and 3 never gets one of the fixed texts |
| Distance.OtherDegreeInjective | linkedin_connection_checker.py:552 | two distances with the same `…th degree connection` text are equal |
| Distance.ClassifyIntInjective | linkedin_connection_checker.py:544-552 | different integer distances get different status texts |
| ProfileNames.FirstFound | linkedin_connection_checker.py:611-641 | a loop that returns its first find gives None exactly when no step finds anything, and otherwise the outcome of the first step that finds or raises |
| ProfileNames.FirstFoundAt | linkedin_connection_checker.py:611-641 | the outcome at the first position that finds or raises is the loop's outcome |
| ProfileNames.FirstFoundLoop | linkedin_connection_checker.py:611-641 | the loop over the elements computes `FirstFound` |
| ProfileNames.NameValue | linkedin_connection_checker.py:628-632 | a string is stripped, a dict's `text` is stripped and raises exactly when `text` is no string, anything else is `""`; the result is always stripped |
| ProfileNames.FieldName | linkedin_connection_checker.py:623-632 | an absent field gives `""`, a present one its name value |
| ProfileNames.FullNameOfParts | linkedin_connection_checker.py:639-640 | `f"{first} {last}".strip()` of stripped parts is the one non-empty part alone, or both joined by one space |
| ProfileNames.NamedElement | linkedin_connection_checker.py:619-641 | a name found in one element is non-empty and stripped |
| ProfileNames.TypedStep | linkedin_connection_checker.py:613-641 | a name is taken only from an element whose `$type` is the target type; `.get` on a non-dict raises |
| ProfileNames.MiniCompanyRedundant | linkedin_connection_checker.py:650-654 | the `minicompany` test adds nothing to the `company` test |
| ProfileNames.GenericStep | linkedin_connection_checker.py:645-682 | a generic name comes only from an element whose lower-cased string `$type` mentions `profile` and no `company` |
| ProfileNames.PairStep | linkedin_connection_checker.py:685-706 | an element lacking `firstName` or `lastName` is skipped; a found name is non-empty and stripped |
| ProfileNames.DirectStep | linkedin_connection_checker.py:568-575 | a top-level string field with a non-empty strip is the name; a found name is stripped |
| ProfileNames.MainPairUnreachable | linkedin_connection_checker.py:577-600 | when the direct pass finds nothing, the combined top-level pair finds nothing either |
| ConnectionChecker.ProfileNameOf | linkedin_connection_checker.py:562-716 | a name returned by `extract_profile_name` is stripped |
| ConnectionChecker.ExtractProfileName | linkedin_connection_checker.py:562-716 | the pass-by-pass method with its scan loops computes `ProfileNameOf` |
| ConnectionChecker.ScansInOrder | linkedin_connection_checker.py:602-708 | without a top-level name, the name is the outcome of the Profile, MiniProfile, generic and paired scans in that order |
| ConnectionChecker.IncludedScansInOrder | linkedin_connection_checker.py:607-708 | the scan chain stops at the first scan that raises or finds a name |
| ConnectionChecker.FirstNameAlone | linkedin_connection_checker.py:568-573 | a non-empty top-level string `firstName` is the whole name, stripped, without `lastName` |
| ConnectionChecker.ProfileElementPreferred | linkedin_connection_checker.py:607-641 | without a top-level name, the first named `…profile.Profile` element wins over any MiniProfile, generic or paired element |
| ConnectionChecker.MiniProfileNext | linkedin_connection_checker.py:607-641 | when no Profile element is named, the first named MiniProfile element gives the name |
| ConnectionChecker.DistanceStep | linkedin_connection_checker.py:452-491 | in one element a deciding `distance` breaks with its value; otherwise `connectionDegree`, then `relationshipDistance`, is taken as it is |
| ConnectionChecker.Info | linkedin_connection_checker.py:403-409 | connected iff the distance is 1; "Not Connected" without a distance, the status table otherwise; only a non-empty name is kept |
| ConnectionChecker.ConnInfoOf | linkedin_connection_checker.py:400-560 | every returned result is connected iff its distance is 1, has "Not Connected" without a distance and the table's text with one, the given source, and the extracted name if any |
| ConnectionChecker.ExtractConnectionInfo | linkedin_connection_checker.py:400-560 | the method that updates `distance` method by method computes `ConnInfoOf` |
| ConnectionChecker.ResolveDistance | linkedin_connection_checker.py:423-532 | the distance updates of the four methods, with the `included` loop breaking at its first decision, compute `DistanceResult` |
| ConnectionChecker.TopLevelWins | linkedin_connection_checker.py:426-451 | a determined top-level distance is the result's distance: `included` and the scans are not consulted |
| ConnectionChecker.FirstIncludedWins | linkedin_connection_checker.py:451-491 | without a top-level `distance`, the first `included` element that decides gives the distance, whatever later elements and the scans say |
| ConnectionChecker.NothingFound | linkedin_connection_checker.py:403-409 | with nothing found the result keeps no distance, not connected and "Not Connected" |
| ConnectionChecker.FirstWithDistance | linkedin_connection_checker.py:311-331 | the relationship endpoints give the first result with a distance, and None exactly when none has one |
| ConnectionChecker.FirstWithDistanceNoLater | linkedin_connection_checker.py:311-331 | when the endpoint at index `i` has a distance, the one returned is at `i` or earlier, and every endpoint before it had none |
| ConnectionChecker.RelationshipLoop | linkedin_connection_checker.py:311-331 | the loop over the relationship endpoints computes `FirstWithDistance` |
| ConnectionChecker.CarriedName | linkedin_connection_checker.py:119-122 | only a non-empty profileView name is carried, and it is that name |
| ConnectionChecker.ConnectionStatus | linkedin_connection_checker.py:89-174 | the result keeps the URL; it has a source exactly when it has no error; without a source it stays not connected, without distance, "Unknown"; the order of the chain is stated by the four lemmas `ProfileViewFirst`, `RelationshipBeforeIdentity`, `ActionsThird` and `IdentityBeforeCard` |
| ConnectionChecker.CheckConnectionStatus | linkedin_connection_checker.py:89-174 | the method that fills and updates `result` computes `ConnectionStatus` |
| ConnectionChecker.NoSlugNoEndpoint | linkedin_connection_checker.py:110-113 | without a usable slug the error is "Could not extract public identifier from URL" and no endpoint outcome matters |
| ConnectionChecker.NameCarried | linkedin_connection_checker.py:118-163 | a name found by profileView is the name of the result, whichever later method succeeds |
| ConnectionChecker.ProfileViewFirst | linkedin_connection_checker.py:118-127 | a profileView result with a distance is merged into the result, whatever the other methods answered |
| ConnectionChecker.RelationshipBeforeIdentity | linkedin_connection_checker.py:129-136 | without a profileView distance, the result is the merge of the first relationship endpoint whose result has a distance (at or before any one that has one), whatever actions, identity and the card answered |
| ConnectionChecker.ActionsThird | linkedin_connection_checker.py:138-145 | with no distance from profileView or any relationship endpoint, an actions result with a distance is merged; an actions result without one is ignored, as if neither it nor the relationship endpoints had answered |
| ConnectionChecker.IdentityBeforeCard | linkedin_connection_checker.py:147-170 | after that, any identity answer is merged, distance or not; the hovering card only without one; with neither, the error tells whether a name was carried |
| ConnectionCheckerClean.ProfileNameOf | linkedin_connection_checker_clean.py:77-116 | no `included` gives None; a returned name is non-empty and stripped |
| ConnectionCheckerClean.ExtractProfileName | linkedin_connection_checker_clean.py:77-116 | the method with its two loops over `included` computes `ProfileNameOf` |
| ConnectionCheckerClean.ProfileElementFirst | linkedin_connection_checker_clean.py:87-111 | the first named Profile element gives the name, whatever precedes it |
| ConnectionCheckerClean.MiniProfileNext | linkedin_connection_checker_clean.py:87-111 | without a named Profile element the first named MiniProfile element gives the name |
| ConnectionCheckerClean.OnlyTypedElements | linkedin_connection_checker_clean.py:81-113 | without typed names there is no name: no other element is consulted |
| ConnectionCheckerClean.DistanceStep | linkedin_connection_checker_clean.py:146-164 | an element counts only through its `distance` field, by the element rules |
| ConnectionCheckerClean.TopLevelWins | linkedin_connection_checker_clean.py:122-142 | a decided top-level distance is returned, whatever `included` and the pattern search hold |
| ConnectionCheckerClean.FirstIncludedWins | linkedin_connection_checker_clean.py:144-164 | without a top-level `distance`, the first element whose `distance` decides gives the answer |
| ConnectionCheckerClean.DistanceTextAtTop | linkedin_connection_checker_clean.py:137-142 | a top-level `DISTANCE_<n>` gives `n` |
| ConnectionCheckerClean.ConnectionStatus | linkedin_connection_checker_clean.py:185-260 | with a distance the error stays None, connected iff the distance is 1, the status from the table; without one, not connected, "Unknown", and the error names whether a profile name was found (or that no slug was extracted) |
| ConnectionCheckerClean.CheckConnectionStatus | linkedin_connection_checker_clean.py:185-260 | the method that sets the fields of `result` one after another computes `ConnectionStatus` |
| ConversationExtractor.MemberPublicId | linkedin_conversation_extractor.py:193-199 | a string `profileUrl` gives the `/`-stripped text after the last `/in/` (no query cut), or `""` without `/in/` |
| ConversationExtractor.MemberOf | linkedin_conversation_extractor.py:170-199 | `full_name` is `f"{first} {last}".strip()` of the texts read for the two name parts |
| ConversationExtractor.ParticipantOf | linkedin_conversation_extractor.py:156-201 | `host_identity_urn` is the `.get` of `hostIdentityUrn`; `profile_urn` is kept only when that is truthy and contains `urn:li:fsd_profile:`, and for a string exactly then |
| ConversationExtractor.OptionalMember | linkedin_conversation_extractor.py:167-170 | a falsy member gives no name block; a present block is the member's |
| ConversationExtractor.ParticipantsOf | linkedin_conversation_extractor.py:155-201 | one participant per input item, in order |
| ConversationExtractor.ConversationOf | linkedin_conversation_extractor.py:143-207 | missing `lastActivityAt` and `unreadCount` default to 0, missing participants to `[]`, and `conversation_urn` is present exactly when `entityUrn` is truthy |
| ConversationExtractor.ExtractConversationData | linkedin_conversation_extractor.py:123-214 | the loop over `elements` computes `ConversationData`: one conversation per element in order, the list built so far when an exception ends the loop |
| ConversationExtractor.ExtractConversation | linkedin_conversation_extractor.py:144-209 | the loop body, with its participant loop, computes `ConversationOf` |
| ConversationExtractor.ExtractParticipants | linkedin_conversation_extractor.py:155-201 | the participant loop computes `ParticipantsOf` |
| ConversationExtractor.ParticipantEntry | linkedin_conversation_extractor.py:233-266 | the own URN, a missing profile URN and a missing member contribute nothing; a contributing participant gives non-empty, lower-case keys with the own URN as `mailbox_urn` and its own profile URN and full name |
| ConversationExtractor.MapPairsAppend | linkedin_conversation_extractor.py:231-269 | the mapping over two runs of participants is the mapping over the first continued with the second |
| ConversationExtractor.CreateNameMapping | linkedin_conversation_extractor.py:216-271 | the loop over the conversations computes `NameMapping` |
| ConversationExtractor.MapParticipants | linkedin_conversation_extractor.py:234-269 | the loop over one conversation's participants continues the mapping by their pairs |
| ConversationExtractor.MapKeys | linkedin_conversation_extractor.py:267-269 | `name_mapping[key] = mapping_data` for each key computes `PutKeys` |
| ConversationExtractor.PutKeysGood | linkedin_conversation_extractor.py:267-269 | storing good entries keeps every entry good and every key unique |
| ConversationExtractor.MapPairsGood | linkedin_conversation_extractor.py:231-269 | the whole mapping loop keeps every entry good and every key unique |
| ConversationExtractor.NameMappingGood | linkedin_conversation_extractor.py:216-271 | every key is non-empty, lower-case and unique; every `mailbox_urn` is the own URN, which is never a recipient |
| ConversationExtractor.PutKeysLookup | linkedin_conversation_extractor.py:267-269 | after storing, a stored key reads the new entry and any other key what it read before |
| ConversationExtractor.MapPairsLookup | linkedin_conversation_extractor.py:231-269 | a key reads the entry of the last participant that produced it, or what it read before |
| ConversationExtractor.LastWriteWins | linkedin_conversation_extractor.py:231-271 | in the finished mapping a key maps to the entry of the last participant that produced it |
| ConversationExtractor.PublicIdLower | linkedin_conversation_extractor.py:273-292 | None exactly without `/in/`; otherwise lower-case, without `?` and `#` |
| ConversationExtractor.PersonExistsIff | linkedin_conversation_extractor.py:294-314 | true iff the input contains `linkedin.com/in/` and its slug is non-empty; such an input always has a slug |
| ConversationExtractor.FirstPartial | linkedin_conversation_extractor.py:366-369 | the first entry in insertion order whose key contains the query or is contained in it, and None exactly when there is none |
| ConversationExtractor.FindPartial | linkedin_conversation_extractor.py:366-369 | the loop over `name_mapping.items()` computes `FirstPartial` |
| ConversationExtractor.LookupName | linkedin_conversation_extractor.py:358-369 | an exact key is tried first, then the first partial match |
| ConversationExtractor.UrnsByName | linkedin_conversation_extractor.py:337-372 | a profile URL is looked up by its lower-cased slug only, and gives None without a slug; anything else by its lower-cased text |
| ConversationExtractor.UrlLooksUpSlugOnly | linkedin_conversation_extractor.py:337-355 | a profile URL never falls back to a name lookup: what it finds is stored under a key equal to, containing or contained in its slug |
| ConversationExtractor.GetUrnsByName | linkedin_conversation_extractor.py:316-372 | the method over the extraction and mapping loops computes `UrnsByNameOf` |
| PostScraper.CleanUrl | linkedin_api_call.py:221-230 | an empty URL or one containing `URL not found` is returned as is; a `/in/` URL with a `?` is cut at its first `?`; any other URL is returned as is |
| PostScraper.CleanUrlPrefix | linkedin_api_call.py:221-230 | the cleaned URL is a prefix of the input: the whole input, or the part before its first `?`, which holds no `?` |
| PostScraper.CleanUrlIdempotent | linkedin_api_call.py:221-230 | cleaning a cleaned URL changes nothing |
| PostScraper.CleanProfileUrl | linkedin_api_call.py:221-230 | on a string it is `CleanUrl`; a falsy value is returned as is |
| PostScraper.ProfileUrlOf | linkedin_api_call.py:271-276 | a falsy `navigationContext` gives `URL not found` |
| PostScraper.PostDataOf | linkedin_api_call.py:260-290 | `author_name` and `profile_url` are set only under a truthy `actor`, and `profile_url` always is under one |
| PostScraper.AuthorOf | linkedin_api_call.py:266-269 | a falsy actor sets no author |
| PostScraper.ContentOf | linkedin_api_call.py:279-283 | a falsy `commentary` sets no content |
| PostScraper.ItemUpdate | linkedin_api_call.py:242-247 | an item yields its `searchFeedUpdate.update` only when that is truthy, and `None` otherwise; a wrong type raises |
| PostScraper.ItemPost | linkedin_api_call.py:242-252 | an item without a truthy update gives nothing; with one, the extracted post is kept exactly when its content and author are truthy, and an extraction error is raised |
| PostScraper.Kept | linkedin_api_call.py:245-252 | extraction over a list of updates keeps at most one post per update |
| PostScraper.ItemPosts | linkedin_api_call.py:241-252 | at most one post per item, each meaningful |
| PostScraper.ElementPosts | linkedin_api_call.py:240-252 | every post kept from an element is meaningful |
| PostScraper.ElementsPosts | linkedin_api_call.py:239-252 | every post kept from the elements is meaningful |
| PostScraper.KeptAppend | linkedin_api_call.py:239-252 | extracting from two runs of updates is extracting from the first and then, unless it raised, from the second |
| PostScraper.ItemPostsInOrder | linkedin_api_call.py:241-252 | the posts of a list of items are exactly the meaningful posts of their truthy updates, in item order, raising where they raise |
| PostScraper.ElementsPostsInOrder | linkedin_api_call.py:239-252 | the posts of the search elements are exactly the meaningful posts of all their truthy updates, element by element in order, raising where they raise |
| PostScraper.PostsFromJson | linkedin_api_call.py:232-258 | the result is the meaningful posts of all truthy updates of the response, in response order (complete and ordered); any exception gives `[]` |
| PostScraper.ExtractPostsFromJson | linkedin_api_call.py:232-258 | the two nested loops compute `PostsFromJson` |
| PostScraper.ElementPostsLoop | linkedin_api_call.py:240-252 | the loop over one element's items computes `ElementPosts` |
| PostScraper.PageAt | linkedin_api_call.py:376-379 | a fetched page holds only meaningful posts |
| PostScraper.Scrape | linkedin_api_call.py:367-396 | the loop fetches at most `MAX_PAGES` pages, fetches at least one more page while it has fewer posts than the target and pages are left, and fetches nothing otherwise |
| PostScraper.ScrapeCollects | linkedin_api_call.py:367-396 | the posts gathered are the posts of the pages fetched, in page order |
| PostScraper.ScrapeFailureLast | linkedin_api_call.py:378-394 | every page fetched before the last succeeded |
| PostScraper.ScrapeEmptyPairLast | linkedin_api_call.py:381-391 | no two empty pages in a row come before the last page fetched |
| PostScraper.ScrapeStopReason | linkedin_api_call.py:367-394 | the loop ends because the target is reached, the pages ran out, the last page failed, or the last page was empty after an empty page before it (or after the one empty page counted at the start) |
| PostScraper.SliceTo | linkedin_api_call.py:399-400 | `all_posts[:n]` is a prefix of length `min(len, n)` for `n >= 0` |
| PostScraper.OffsetsAt | linkedin_api_call.py:368-376 | request `k` asks for offset `k * posts_per_page` |
| PostScraper.ScrapePostsLoop | linkedin_api_call.py:357-403 | the method returns the posts of `ScrapePosts` and requests the offsets of the pages it fetches |
| PostScraper.FetchPages | linkedin_api_call.py:361-396 | the `while` loop gathers what `Scrape` gathers and requests the offsets of the pages `Scrape` fetches |
| PostScraper.FetchPage | linkedin_api_call.py:368-379 | one request gives the page at that index |
| PostScraper.ScrapeTurn | linkedin_api_call.py:367-396 | the loop is one turn (stop on a failure or a second empty page, otherwise go on) followed by the loop from the next page |
| PostScraper.PagesOfMeaningful | linkedin_api_call.py:376-382 | every page the responses give holds only meaningful posts |
| PostScraper.CollectedMeaningful | linkedin_api_call.py:379-382 | every post gathered from meaningful pages is meaningful |
| PostScraper.ScrapePostsBounds | linkedin_api_call.py:357-403 | at most `target_posts` posts, none for a non-positive target, all meaningful and a prefix of the posts of the pages fetched; at most `MAX_PAGES` fetches; none after a failure or after two empty pages in a row |
| PostScraper.FirstFailureStops | linkedin_api_call.py:392-394 | a failed first call ends the loop after one fetch with no posts |
| PostScraper.TwoEmptyPagesStop | linkedin_api_call.py:385-391 | two empty first pages end the loop after two fetches with no posts |
| PostScraper.NonEmptyPageResets | linkedin_api_call.py:381-391 | a non-empty page resets the empty-page count to zero and adds its posts, so a single empty page after it does not stop the loop |
| MessagesViewer.SenderOf | linkedin_messages_viewer.py:154-174 | a falsy member gives `Unknown` and no name parts; a member gives the stripped join of its first and last name, with both parts |
| MessagesViewer.MessageOf | linkedin_messages_viewer.py:140-180 | a falsy `body` gives the text `""`, a missing `deliveredAt` the timestamp 0, and a kept message never has a timestamp that raises in `fromtimestamp` |
| MessagesViewer.ExtractMessages | linkedin_messages_viewer.py:120-185 | the loop over `elements` computes `Messages`: one message per element in order, the partial list when an exception ends it |
| MessagesViewer.Swap | linkedin_messages_viewer.py:202 | two messages trade places and nothing else changes; the contents are a permutation of what they were |
| MessagesViewer.SortByTimestamp | linkedin_messages_viewer.py:202 | the array ends ascending by timestamp and is a permutation of what it was |
| MessagesViewer.FirstOwnSender | linkedin_messages_viewer.py:205-209 | None exactly when no sender name contains `SAIFEDDINE`; otherwise a sender name that does |
| MessagesViewer.YourNameDefault | linkedin_messages_viewer.py:205-212 | `your_name` is `You` exactly when no sender contains `SAIFEDDINE`, and the first such sender otherwise |
| MessagesViewer.FindYourName | linkedin_messages_viewer.py:205-212 | the search loop computes `YourName` |
| MessagesViewer.EntriesSound | linkedin_messages_viewer.py:231-249 | each printed entry is numbered after a message with a non-empty stripped text and carries that text, its sender and its `You` label |
| MessagesViewer.EntriesAfter | linkedin_messages_viewer.py:231 | the entries from message `i` on are numbered after `i` |
| MessagesViewer.EntriesIncreasing | linkedin_messages_viewer.py:231-249 | the entries come in strictly increasing message number |
| MessagesViewer.EntriesComplete | linkedin_messages_viewer.py:231-249 | every message with a non-empty stripped text is printed under its own number |
| MessagesViewer.RenderEntries | linkedin_messages_viewer.py:231-249 | the `enumerate` loop computes `EntriesFrom` from message 0 |
| MessagesViewer.FormatMessages | linkedin_messages_viewer.py:187-253 | an empty list gives the no-messages text; otherwise the caller's array is sorted by timestamp in place, as a permutation, and formatted |
| MessagesViewer.SkippedStillCounted | linkedin_messages_viewer.py:218-237 | the total counts every message, and a message with an empty text is skipped without shifting the numbers of the others |
| AddConnection.PayloadWrites | linkedin_add_connection.py:130-139 | the seven assignments into a block's payload, each at a non-empty key path, in source order |
| AddConnection.PayloadWritesApart | linkedin_add_connection.py:130-139 | no two of the seven places overlap, so no assignment undoes another |
| AddConnection.Patched | linkedin_add_connection.py:127-139 | a block that is not a dict raises `AttributeError`; a block without `payload` raises `KeyError`, since the fresh `{}` has no `inviteeUrn` |
| AddConnection.PatchRequestedArguments | linkedin_add_connection.py:127-139 | the closure, one assignment after another, computes `Patched` |
| AddConnection.PatchIdentity | linkedin_add_connection.py:130-135 | the first five assignments either raise as the whole patch does, or leave the last two to do |
| AddConnection.PatchDynamicKeys | linkedin_add_connection.py:137-139 | the last two assignments, in order |
| AddConnection.PatchedFields | linkedin_add_connection.py:127-139 | after the patch each of the seven places reads what was written there |
| AddConnection.PatchedPreserves | linkedin_add_connection.py:127-139 | every place apart from the seven reads as before the patch |
| AddConnection.PrefixesExclusive | linkedin_add_connection.py:151-158 | no state key starts with both prefixes, so the `elif` order does not matter |
| AddConnection.PatchActionOutcome | linkedin_add_connection.py:149-160 | an action whose state key cannot be read is skipped unchanged; the pass raises, with `AttributeError`, exactly when the state key is there and is not a string |
| AddConnection.PatchActionRewrites | linkedin_add_connection.py:150-158 | an invitation key becomes the new member's, a disabled-button key the new slug's, any other string key is left alone |
| AddConnection.PatchActionPreserves | linkedin_add_connection.py:149-158 | only the state key of an action changes |
| AddConnection.NewStateKeyStable | linkedin_add_connection.py:151-158 | a replaced state key is replaced by itself again |
| AddConnection.PatchActionIdempotent | linkedin_add_connection.py:149-160 | patching a patched action for the same person changes nothing |
| AddConnection.PatchedActions | linkedin_add_connection.py:146-160 | on success every action is patched in place; the loop raises exactly when some action's pass raises |
| AddConnection.StringItemsUntouched | linkedin_add_connection.py:146-160 | iterating strings (a dict's keys or a string's characters) changes nothing |
| AddConnection.PatchFailureActions | linkedin_add_connection.py:146-160 | the loop computes `PatchedActions` |
| AddConnection.PatchBlockFields | linkedin_add_connection.py:142-143 | the patched block's payload reads back the seven written fields |
| AddConnection.PatchBlockPreserves | linkedin_add_connection.py:142-143 | patching a block changes nothing apart from the seven fields of its payload |
| AddConnection.FailureActionsList | linkedin_add_connection.py:146-160 | a list of actions in the template is replaced by the patched actions |
| AddConnection.FailureActionsPreserves | linkedin_add_connection.py:146-160 | the loop changes nothing apart from the action list |
| AddConnection.TargetsApart | linkedin_add_connection.py:142-147 | the fourteen field paths of the two blocks and the action list are pairwise apart |
| AddConnection.PayloadFields | linkedin_add_connection.py:118-162 | both requested-argument blocks end with the same seven fields |
| AddConnection.PayloadActions | linkedin_add_connection.py:118-162 | the template's failure actions are each patched in place |
| AddConnection.PayloadPreserves | linkedin_add_connection.py:118-162 | every place apart from the fourteen fields and the action list reads as in the template |
| AddConnection.BuildPayload | linkedin_add_connection.py:118-162 | the method, one working copy patched step by step, computes `Payload` |
| ProfileIdentifiers.LastSegmentOf | get_profile_identifiers.py:111 | `split(":")[-1]` succeeds exactly on a string |
| ProfileIdentifiers.UrnId | get_profile_identifiers.py:110-114 | a missing key gives None; a string holding the marker gives its last `:` segment |
| ProfileIdentifiers.TopName | get_profile_identifiers.py:103-108 | on a dict a string under the key is taken as the name, anything else is not |
| ProfileIdentifiers.StepKeepsFound | get_profile_identifiers.py:117-124 | a pass of the loop never overwrites a field that already holds something |
| ProfileIdentifiers.StepFillsEmpty | get_profile_identifiers.py:117-124 | an empty field takes the element's candidate when it is truthy and stays empty otherwise |
| ProfileIdentifiers.ScanKeepsFound | get_profile_identifiers.py:117-124 | the whole loop never overwrites a field that holds something |
| ProfileIdentifiers.FirstFoundWins | get_profile_identifiers.py:117-124 | the first element that offers a truthy value for an empty field decides it |
| ProfileIdentifiers.NothingOfferedStaysEmpty | get_profile_identifiers.py:117-124 | a field no element offers stays empty |
| ProfileIdentifiers.NonProfileSkipped | get_profile_identifiers.py:118-119 | an element whose `$type` does not contain `Profile` changes nothing |
| ProfileIdentifiers.TopNameWins | get_profile_identifiers.py:95-108 | a non-empty top-level string name is the result whatever `included` holds |
| ProfileIdentifiers.TopUrnWins | get_profile_identifiers.py:110-123 | a top-level URN holding its marker decides the id, as its last `:` segment, when that is non-empty |
| ProfileIdentifiers.SniffElement | get_profile_identifiers.py:118-124 | the loop body computes `Step` |
| ProfileIdentifiers.SniffTopLevel | get_profile_identifiers.py:89-114 | the top-level reads compute `TopLevel` |
| ProfileIdentifiers.SniffMemberAndName | get_profile_identifiers.py:88-131 | the top-level reads and the loop compute the dict of `Sniff` |
| ProfileIdentifiers.GetIdentifiersNoData | get_profile_identifiers.py:139-142 | a failed or falsy identity response gives `{}` |
| ProfileIdentifiers.InfoKeysDistinct | get_profile_identifiers.py:126-144 | the five result keys differ |
| ProfileIdentifiers.InfoKeysWithPublicId | get_profile_identifiers.py:126-144 | the result has the four search keys, then `public_identifier` |
| ProfileIdentifiers.InfoLookups | get_profile_identifiers.py:126-131 | each of the four search results sits under its own key |
| ProfileIdentifiers.InfoWithPublicId | get_profile_identifiers.py:126-144 | the five keys in order, each holding its value |
| ProfileIdentifiers.ReplaceProfileId | get_profile_identifiers.py:144-164 | replacing `profile_id` later gives the dict the search would have given with that id |
| ProfileIdentifiers.Resolved | get_profile_identifiers.py:147-164 | the fallback fills `profile_id` only when the search left it empty and found an id, and touches nothing else |
| ProfileIdentifiers.GetIdentifiersShape | get_profile_identifiers.py:134-166 | a usable response gives the search result, with `profile_id` resolved, and the public identifier of the URL |
| ProfileIdentifiers.IdentifyShape | get_profile_identifiers.py:141-166 | the steps after the identity request give the resolved search result and the public identifier |
| ProfileIdentifiers.ProfileViewOnlyWhenMissing | get_profile_identifiers.py:147-164 | two profileView answers can change the result only when the search left `profile_id` empty and the answers differ |
| PyStr.LStripBy | get_profile_identifiers.py:68 | the left strip leaves a suffix of the text that does not start with a stripped character |
| PyStr.RStripBy | get_profile_identifiers.py:68 | the right strip leaves a prefix of the text that does not end with a stripped character |
| PyStr.StripByWithin | get_profile_identifiers.py:68 | `strip` keeps a slice of the text and removes only stripped characters around it |
| PyStr.StripByKeepsAbsent | get_profile_identifiers.py:70 | stripping brings in no substring the text did not hold |
| PyStr.StripByIdempotent | linkedin_connection_checker.py:572-573 | stripping a stripped text changes nothing |
| PyStr.StripJoinedBySpace | linkedin_connection_checker.py:598 | `f"{a} {b}".strip()` of stripped parts joins them with one space, or gives the part that is present |
| PyStr.FindFrom | linkedin_connection_checker.py:436 | the first occurrence at or after the start, and None exactly when there is none |
| PyStr.Lower | linkedin_connection_checker.py:517 | lower-casing keeps the length, lowers each ASCII letter and leaves no upper-case letter |
| PyStr.SplitFirstIsPrefix | get_profile_identifiers.py:70 | `split(sep)[0]` is a prefix of the text without the separator, and the whole text when it holds none |
| PyStr.SplitLastIsSuffix | get_profile_identifiers.py:69 | `split(sep)[-1]` is a suffix of the text without the separator, and the whole text when it holds none |
| PyStr.SplitLengthTwoOrMore | linkedin_connection_checker.py:436 | `split(sep)` has a second part exactly when the text holds the separator |
| PyStr.NatDecimalValue | linkedin_connection_checker.py:511 | the digits `str(n)` writes read back as `n` |
| PyStr.ParseDecimal | linkedin_connection_checker.py:436 | `int(str(n)) == n` for every integer |
| PyStr.ParseNoLeadingDigit | linkedin_connection_checker.py:436 | text that starts with neither a sign nor a digit makes `int()` raise |
| PyJson.In | linkedin_connection_checker.py:426-449 | `in` raises exactly on a value that is neither a dict, a list nor a string, and on a dict tests its keys |
| PyJson.Index | linkedin_add_connection.py:150 | `x[k]` succeeds exactly on a dict holding `k`, and gives its value |
| PyJson.Get | get_profile_identifiers.py:117-118 | `.get` succeeds exactly on a dict, and gives the default for a missing key |
| PyJson.Iter | get_profile_identifiers.py:117 | `for` succeeds on a list, a dict or a string, and visits a list's items |
| PyJson.StrOfRoundTrip | linkedin_connection_checker.py:436 | `str()` of a string is itself, and `int(str(n)) == n` |
| OrderedDict.Lookup | get_profile_identifiers.py:147 | a key is found exactly when it is among the dict's keys |
| OrderedDict.LookupPut | linkedin_conversation_extractor.py:269 | after `d[k] = v` the key reads `v` and every other key reads as before |
| OrderedDict.KeysPut | get_profile_identifiers.py:144 | `d[k] = v` keeps the key order and appends `k` only when it was missing |
| OrderedDict.PutTwice | linkedin_conversation_extractor.py:269 | storing the same entry twice is storing it once |
| OrderedDict.PutDistinct | linkedin_conversation_extractor.py:269 | storing keeps the keys distinct |
| JsonPath.FollowAssign | linkedin_add_connection.py:131-139 | after `x[p0]...[pn] = v` the path reads `v` |
| JsonPath.FollowAssignApart | linkedin_add_connection.py:131-139 | an assignment leaves every place apart from it as it was |
| JsonPath.FollowAssignAll | linkedin_add_connection.py:131-139 | after a run of non-overlapping assignments each path reads its own value |
| JsonPath.FollowAssignAllApart | linkedin_add_connection.py:131-139 | a run of assignments leaves every place apart from all of them as it was |
| JsonPath.FollowKeyPathErrors | linkedin_add_connection.py:150-160 | reading along a key path raises only `KeyError` or `TypeError`, the two the loop catches |
| JsonPath.AssignTwice | linkedin_add_connection.py:152-158 | assigning the same value twice along a path is assigning it once |
| Wrappers.OkPrefix | linkedin_messages_viewer.py:140-185 | a loop appending one result per item inside a `try` keeps the results up to the first exception, and stops at it |

## Left out

- HTTP requests, sessions, cookies, headers and the debug files the scripts write: every response is an input, as described above.
- The regular-expression scans over serialised JSON and HTML (the distance patterns and text indicators, the URN patterns of the profile page and the profileView response): their outcomes are inputs (`scan`, `messaging`, `pageScan`, `profileViewId`). Modelling them would need Python's JSON serialiser and regex engine.
- `html.unescape`, `uuid.uuid4` and the PowerShell-quoted `json.dumps` of `get_messaging_urns` are function or string parameters and are not interpreted.
- AddConnection.Payload: stops at the dict `build_payload` passes to `json.dumps(base, separators=(",", ":"))`; the compact serialisation is not modelled.
- PyJson.Repr: always quotes strings with single quotes and escapes nothing; Python's `repr` switches to double quotes for a string holding `'` and escapes backslashes and control characters, so `str()` of lists and dicts holding such strings differs.
- `apply_rate_limiting`, `get_random_headers`, the retry loop of `make_api_call` and `safe_get`'s timeouts: randomness, sleeping and live status codes.
- `datetime.fromtimestamp` and `strftime`: dates are not shown in the formatted entries, and an integer timestamp outside the platform's date range, which raises in Python, is not modelled.
- The CSV and TXT writers, the backup files and the emoji display formatters (`format_result` and the printed lines of `format_messages`), which are output formatting only.
- Floating-point JSON numbers: every JSON number is an integer.
- Module-level code of `send_message.py`, which runs network calls at import time, and the command-line wrappers and live-API probe scripts, which only call the modelled functions.
- ProfileUrns.FilterCandidates: states which candidates are kept, as a set; the list order of `set()` iteration is not deterministic and is not modelled.
- MessagesViewer.SortByTimestamp: sorted and a permutation; the stability of Python's sort is not stated.
- MessagesViewer.FormatMessages: requires integer (or boolean) timestamps; Python would also sort a list of all-string timestamps and raise on a mix, which is not modelled.
- ConnectionChecker.ConnectionStatus: the outer `except` of `check_connection_status` cannot be reached once the endpoint methods catch their own errors, and is not modelled.
- ConnectionCheckerClean.ConnectionStatus: the same holds for the outer `except` of the clean checker.
- Urns.CleanUrn: `html.unescape` is a parameter, so the full `clean_urn` is not shown idempotent; the trimming step alone is (`Urns.TrimJunkIdempotent`).
- PyStr.Lower: lower-cases ASCII letters only; Unicode case mappings are not modelled.
- PyStr.ParseDecimal: `int()` is modelled for ASCII digits without underscores; Unicode digits and `_` separators are not.
