/**
 * The search-result scraper: cleaning an author's profile URL, reading the posts
 * out of one GraphQL search page, and the pagination loop that fetches pages until
 * it has enough posts, runs out of pages, hits a failed call or sees two empty
 * pages in a row.  The API call itself is an input: the response for each offset.
 */
module PostScraper {
  import opened Wrappers
  import opened PyStr
  import opened OrderedDict
  import opened PyJson

  const NotFound: string := "URL not found"
  const MaxPages: nat := 6
  const MaxEmptyPages: nat := 2

  /** `clean_profile_url` on a string: the query is cut off a `/in/` URL only. */
  function CleanUrl(url: string): (r: string)
    ensures url == [] || Contains(url, NotFound) ==> r == url
    ensures Contains(url, "/in/") && Contains(url, "?") && !Contains(url, NotFound) ==> r == SplitFirst(url, "?")
    ensures !Contains(url, "/in/") || !Contains(url, "?") ==> r == url
  {
    if url == [] || Contains(url, NotFound) then url
    else if Contains(url, "/in/") && Contains(url, "?") then SplitFirst(url, "?")
    else url
  }

  /** The cleaned URL is the input up to (not including) its first `?`, or the whole input. */
  lemma CleanUrlPrefix(url: string)
    ensures var r := CleanUrl(url); StartsWith(url, r) && (r == url || (r == SplitFirst(url, "?") && !Contains(r, "?")))
  {
    SplitFirstIsPrefix(url, "?");
  }

  /** Cleaning twice is cleaning once: a cut URL has no `?` left. */
  lemma CleanUrlIdempotent(url: string)
    ensures CleanUrl(CleanUrl(url)) == CleanUrl(url)
  {
    CleanUrlPrefix(url);
  }

  /**
   * `clean_profile_url` on whatever `actionTarget` holds: the `in` tests raise on a
   * value that is neither a string, a list nor a dict, and `split` on a non-string.
   */
  function CleanProfileUrl(url: Json): (r: Result<Json>)
    ensures url.JStr? ==> r == Ok(JStr(CleanUrl(url.s)))
    ensures !Truthy(url) ==> r == Ok(url)
  {
    if !Truthy(url) then Ok(url)
    else
      var notFound :- In(NotFound, url);
      if notFound then Ok(url)
      else
        // `in` answers for `url` again once it has answered
        var cut := In("/in/", url).value && In("?", url).value;
        if !cut then Ok(url)
        else if url.JStr? then Ok(JStr(SplitFirst(url.s, "?")))
        else Raise(AttributeError)
  }

  /** The keys `_extract_post_data` sets, each present or absent. */
  datatype PostData = PostData(authorName: Option<Json>, profileUrl: Option<Json>, postContent: Option<Json>,
                               postUrl: Option<Json>)

  /** `navigationContext` of a truthy actor: the cleaned `actionTarget`, or `URL not found`. */
  function ProfileUrlOf(actor: Json): (r: Result<Json>)
    requires actor.JObj?
    ensures !Truthy(GetOr(actor, "navigationContext", JObj([]))) ==> r == Ok(JStr(NotFound))
  {
    var nav := GetOr(actor, "navigationContext", JObj([]));
    if !Truthy(nav) then Ok(JStr(NotFound))
    else
      var target :- Get(nav, "actionTarget", JStr(""));
      CleanProfileUrl(target)
  }

  /** `_extract_post_data`: author and profile URL from `actor`, text, share URL. */
  function PostDataOf(update: Json): (r: Result<PostData>)
    ensures r.Ok? ==> update.JObj?
    ensures r.Ok? && Truthy(GetOr(update, "actor", JObj([]))) ==> r.value.profileUrl.Some?
    ensures r.Ok? && !Truthy(GetOr(update, "actor", JObj([]))) ==> r.value.authorName.None? && r.value.profileUrl.None?
    ensures r.Ok? && r.value.authorName.Some? ==> Truthy(GetOr(update, "actor", JObj([])))
  {
    if !update.JObj? then Raise(AttributeError)
    else
      var actor := GetOr(update, "actor", JObj([]));
      var author: Option<Json> :- AuthorOf(actor);
      var profileUrl: Option<Json> :-
        if !Truthy(actor) then Ok(None)
        else if !actor.JObj? then Raise(AttributeError)
        else (var u :- ProfileUrlOf(actor); Ok(Some(u)));
      var content :- ContentOf(GetOr(update, "commentary", JObj([])));
      var social := GetOr(update, "socialContent", JObj([]));
      var postUrl: Option<Json> :-
        if !Truthy(social) then Ok(None)
        else (var u :- Get(social, "shareUrl", JStr("")); Ok(Some(u)));
      Ok(PostData(author, profileUrl, content, postUrl))
  }

  /** `author_name`: the `text` of a truthy `name`, `Unknown` when it has none. */
  function AuthorOf(actor: Json): (r: Result<Option<Json>>)
    ensures !Truthy(actor) ==> r == Ok(None)
    ensures r.Ok? && r.value.Some? ==> Truthy(actor)
  {
    if !Truthy(actor) then Ok(None)
    else
      var name :- Get(actor, "name", JObj([]));
      if !Truthy(name) then Ok(None)
      else (var t :- Get(name, "text", JStr("Unknown")); Ok(Some(t)))
  }

  /** `post_content`: `commentary.text.text`, absent when either level is falsy. */
  function ContentOf(commentary: Json): (r: Result<Option<Json>>)
    ensures !Truthy(commentary) ==> r == Ok(None)
  {
    if !Truthy(commentary) then Ok(None)
    else
      var textObj :- Get(commentary, "text", JObj([]));
      if !Truthy(textObj) then Ok(None)
      else (var t :- Get(textObj, "text", JStr("")); Ok(Some(t)))
  }

  /** A post is kept only with a truthy `post_content` and a truthy `author_name`. */
  predicate Meaningful(p: PostData) {
    p.postContent.Some? && Truthy(p.postContent.value) && p.authorName.Some? && Truthy(p.authorName.value)
  }

  /** The truthy `item.searchFeedUpdate.update` of one item wrapper, or None when either level is falsy. */
  function ItemUpdate(wrapper: Json): (r: Result<Option<Json>>)
    ensures r.Ok? && r.value.Some? ==> Truthy(r.value.value)
  {
    var item :- Get(wrapper, "item", JObj([]));
    var feed :- Get(item, "searchFeedUpdate", JNull);
    if !Truthy(feed) then Ok(None)
    else
      var update :- Get(feed, "update", JObj([]));
      Ok(if Truthy(update) then Some(update) else None)
  }

  /**
   * The post of one item wrapper: an item without a truthy update gives none, and
   * the post data of its update is kept exactly when it is meaningful.
   */
  function ItemPost(wrapper: Json): (r: Result<Option<PostData>>)
    ensures r.Ok? && r.value.Some? ==> Meaningful(r.value.value)
    ensures ItemUpdate(wrapper) == Ok(None) ==> r == Ok(None)
    ensures ItemUpdate(wrapper).Ok? && ItemUpdate(wrapper).value.Some? ==>
              var p := PostDataOf(ItemUpdate(wrapper).value.value);
              (p.Raise? ==> r == Raise(p.error))
              && (p.Ok? && Meaningful(p.value) ==> r == Ok(Some(p.value)))
              && (p.Ok? && !Meaningful(p.value) ==> r == Ok(None))
    ensures ItemUpdate(wrapper).Raise? ==> r == Raise(ItemUpdate(wrapper).error)
  {
    var update :- ItemUpdate(wrapper);
    if update.None? then Ok(None)
    else
      var p :- PostDataOf(update.value);
      Ok(if Meaningful(p) then Some(p) else None)
  }

  /** The kept posts of a run of item wrappers, in order. */
  function ItemPosts(wrappers: seq<Json>): (r: Result<seq<PostData>>)
    ensures r.Ok? ==> |r.value| <= |wrappers| && forall i :: 0 <= i < |r.value| ==> Meaningful(r.value[i])
    decreases |wrappers|
  {
    if wrappers == [] then Ok([])
    else
      var p :- ItemPost(wrappers[0]);
      Prepend(if p.Some? then [p.value] else [], ItemPosts(wrappers[1..]))
  }

  /** The kept posts of one element of `elements`. */
  function ElementPosts(element: Json): (r: Result<seq<PostData>>)
    ensures r.Ok? ==> forall i :: 0 <= i < |r.value| ==> Meaningful(r.value[i])
  {
    var items :- Get(element, "items", JArr([]));
    var wrappers :- Iter(items);
    ItemPosts(wrappers)
  }

  /** Two runs of meaningful posts make one. */
  lemma MeaningfulConcat(a: seq<PostData>, b: seq<PostData>)
    requires forall i :: 0 <= i < |a| ==> Meaningful(a[i])
    requires forall i :: 0 <= i < |b| ==> Meaningful(b[i])
    ensures forall i :: 0 <= i < |a + b| ==> Meaningful((a + b)[i])
  {
    forall i | |a| <= i < |a + b|
      ensures Meaningful((a + b)[i])
    {
      assert (a + b)[i] == b[i - |a|];
    }
  }

  function ElementsPosts(elements: seq<Json>): (r: Result<seq<PostData>>)
    ensures r.Ok? ==> forall i :: 0 <= i < |r.value| ==> Meaningful(r.value[i])
    decreases |elements|
  {
    if elements == [] then Ok([])
    else
      var ps :- ElementPosts(elements[0]);
      var rest := ElementsPosts(elements[1..]);
      if rest.Raise? then Raise(rest.error)
      else
        MeaningfulConcat(ps, rest.value);
        Ok(ps + rest.value)
  }

  /** `data.searchDashClustersByAll.elements`, each level read with `.get`. */
  function SearchElements(response: Json): Result<seq<Json>> {
    var data :- Get(response, "data", JObj([]));
    var clusters :- Get(data, "searchDashClustersByAll", JObj([]));
    var elements :- Get(clusters, "elements", JArr([]));
    Iter(elements)
  }

  /** The truthy updates of a run of item wrappers, in order; the first failed read raises. */
  function Updates(wrappers: seq<Json>): Result<seq<Json>>
    decreases |wrappers|
  {
    if wrappers == [] then Ok([])
    else
      var u :- ItemUpdate(wrappers[0]);
      Prepend(if u.Some? then [u.value] else [], Updates(wrappers[1..]))
  }

  /** The truthy updates of one element of `elements`. */
  function ElementUpdates(element: Json): Result<seq<Json>> {
    var items :- Get(element, "items", JArr([]));
    var wrappers :- Iter(items);
    Updates(wrappers)
  }

  /** The truthy updates of all elements, element by element and item by item. */
  function AllUpdates(elements: seq<Json>): Result<seq<Json>>
    decreases |elements|
  {
    if elements == [] then Ok([])
    else
      var us :- ElementUpdates(elements[0]);
      Prepend(us, AllUpdates(elements[1..]))
  }

  /** The truthy updates of a whole response, in response order. */
  function ResponseUpdates(response: Json): Result<seq<Json>> {
    var elements :- SearchElements(response);
    AllUpdates(elements)
  }

  /** The post data of each update, in order, kept when it is meaningful; the first failure raises. */
  function Kept(updates: seq<Json>): (r: Result<seq<PostData>>)
    ensures r.Ok? ==> |r.value| <= |updates|
    decreases |updates|
  {
    if updates == [] then Ok([])
    else
      var p :- PostDataOf(updates[0]);
      Prepend(if Meaningful(p) then [p] else [], Kept(updates[1..]))
  }

  /** Filtering the updates in two runs is filtering them in one. */
  lemma {:induction false} KeptAppend(a: seq<Json>, b: seq<Json>)
    ensures Kept(a + b) == (match Kept(a) case Raise(e) => Raise(e) case Ok(x) => Prepend(x, Kept(b)))
    decreases |a|
  {
    if a == [] {
      assert a + b == b;
      PrependNothing(Kept(b));
    } else {
      assert (a + b)[0] == a[0] && (a + b)[1..] == a[1..] + b;
      KeptAppend(a[1..], b);
      var p := PostDataOf(a[0]);
      if p.Ok? {
        var k := if Meaningful(p.value) then [p.value] else [];
        match Kept(a[1..])
        case Raise(e) =>
        case Ok(x) =>
          PrependAssoc(k, x, Kept(b));
      }
    }
  }

  /** Both outcomes succeed or both raise, and on success they agree; the kind of exception may differ. */
  predicate SameOutcome(a: Result<seq<PostData>>, b: Result<seq<PostData>>) {
    a.Ok? == b.Ok? && (a.Ok? ==> a.value == b.value)
  }

  /** The updates read first and then filtered. */
  function KeptOf(updates: Result<seq<Json>>): Result<seq<PostData>> {
    match updates
    case Raise(e) => Raise(e)
    case Ok(us) => Kept(us)
  }

  /**
   * Taking items one by one, each read and then filtered, keeps what reading all
   * the updates first and filtering them afterwards keeps, in the same order.
   */
  lemma {:induction false} ItemPostsInOrder(wrappers: seq<Json>)
    ensures SameOutcome(ItemPosts(wrappers), KeptOf(Updates(wrappers)))
    decreases |wrappers|
  {
    if wrappers != [] {
      var rest := wrappers[1..];
      ItemPostsInOrder(rest);
      var u := ItemUpdate(wrappers[0]);
      if u.Ok? {
        var us0 := if u.value.Some? then [u.value.value] else [];
        assert Updates(wrappers) == Prepend(us0, Updates(rest));
        match Updates(rest)
        case Raise(e) =>
        case Ok(v) =>
          KeptAppend(us0, v);
          if u.value.Some? {
            assert [u.value.value][1..] == [];
          }
      }
    }
  }

  /** Element by element, the kept posts are the filtered updates of all elements, in order. */
  lemma {:induction false} ElementsPostsInOrder(elements: seq<Json>)
    ensures SameOutcome(ElementsPosts(elements), KeptOf(AllUpdates(elements)))
    decreases |elements|
  {
    if elements != [] {
      var e := elements[0];
      var rest := elements[1..];
      ElementsPostsInOrder(rest);
      var items := Get(e, "items", JArr([]));
      if items.Ok? && Iter(items.value).Ok? {
        ItemPostsInOrder(Iter(items.value).value);
      }
      assert SameOutcome(ElementPosts(e), KeptOf(ElementUpdates(e)));
      match ElementUpdates(e)
      case Raise(_) =>
      case Ok(a) =>
        match AllUpdates(rest)
        case Raise(_) =>
        case Ok(v) =>
          KeptAppend(a, v);
    }
  }

  /**
   * `extract_posts_from_json`: every kept post, in response order; any exception
   * discards what was gathered and gives no posts at all.
   */
  function PostsFromJson(response: Json): (r: seq<PostData>)
    ensures forall i :: 0 <= i < |r| ==> Meaningful(r[i])
    ensures var us := ResponseUpdates(response);
            us.Ok? && Kept(us.value).Ok? ==> r == Kept(us.value).value
    ensures var us := ResponseUpdates(response);
            !(us.Ok? && Kept(us.value).Ok?) ==> r == []
  {
    match SearchElements(response)
    case Raise(_) => []
    case Ok(elements) =>
      ElementsPostsInOrder(elements);
      var posts := ElementsPosts(elements);
      if posts.Ok? then posts.value else []
  }

  /** `extract_posts_from_json` with its two nested loops. */
  method ExtractPostsFromJson(response: Json) returns (posts: seq<PostData>)
    ensures posts == PostsFromJson(response)
  {
    var elements := SearchElements(response);
    if elements.Raise? {
      return [];
    }
    posts := [];
    var i := 0;
    assert elements.value[i..] == elements.value;
    PrependNothing(ElementsPosts(elements.value));
    while i < |elements.value|
      invariant 0 <= i <= |elements.value|
      invariant ElementsPosts(elements.value) == Prepend(posts, ElementsPosts(elements.value[i..]))
    {
      var e := elements.value[i];
      assert elements.value[i..][0] == e && elements.value[i..][1..] == elements.value[i + 1..];
      var found := ElementPostsLoop(e);
      if found.Raise? {
        return [];
      }
      PrependAssoc(posts, found.value, ElementsPosts(elements.value[i + 1..]));
      posts := posts + found.value;
      i := i + 1;
    }
    assert elements.value[i..] == [];
    assert posts + [] == posts;
  }

  /** The loop over `items` of one element. */
  method ElementPostsLoop(element: Json) returns (r: Result<seq<PostData>>)
    ensures r == ElementPosts(element)
  {
    var items := Get(element, "items", JArr([]));
    if items.Raise? {
      return Raise(items.error);
    }
    var wrappers := Iter(items.value);
    if wrappers.Raise? {
      return Raise(wrappers.error);
    }
    var ws := wrappers.value;
    var posts: seq<PostData> := [];
    var j := 0;
    assert ws[j..] == ws;
    PrependNothing(ItemPosts(ws));
    while j < |ws|
      invariant 0 <= j <= |ws|
      invariant ItemPosts(ws) == Prepend(posts, ItemPosts(ws[j..]))
    {
      assert ws[j..][0] == ws[j] && ws[j..][1..] == ws[j + 1..];
      var p := ItemPost(ws[j]);
      if p.Raise? {
        return Raise(p.error);
      }
      var kept := if p.value.Some? then [p.value.value] else [];
      PrependAssoc(posts, kept, ItemPosts(ws[j + 1..]));
      posts := posts + kept;
      j := j + 1;
    }
    assert ws[j..] == [];
    assert posts + [] == posts;
    return Ok(posts);
  }

  /** What one fetch gives the loop: a failed call, or the posts of a page. */
  datatype Page = Failed | Fetched(posts: seq<PostData>)

  /** The `start_page` offset of the page at index `k`. */
  function Offset(postsPerPage: int, k: nat): int {
    k * postsPerPage
  }

  /** The page at index `k`, requested at its offset; a falsy response is a failure. */
  function PageAt(fetch: int -> Json, postsPerPage: int, k: nat): (p: Page)
    ensures p.Fetched? ==> forall i :: 0 <= i < |p.posts| ==> Meaningful(p.posts[i])
  {
    var response := fetch(Offset(postsPerPage, k));
    if Truthy(response) then Fetched(PostsFromJson(response)) else Failed
  }

  /** The pages a run of `fetch` yields, by index. */
  function PagesOf(fetch: int -> Json, postsPerPage: int): nat -> Page {
    (k: nat) => PageAt(fetch, postsPerPage, k)
  }

  predicate EmptyPage(pages: nat -> Page, k: nat) {
    pages(k) == Fetched([])
  }

  /** The posts of pages `from` up to (not including) `to`, in page order. */
  function Collected(pages: nat -> Page, from: nat, to: nat): seq<PostData>
    decreases if from < to then to - from else 0
  {
    if from >= to then []
    else (if pages(from).Fetched? then pages(from).posts else []) + Collected(pages, from + 1, to)
  }

  /** What a turn of the loop leaves after its fetch: stop, or go on with this count and these posts. */
  datatype Turn = Stop | Continue(empty: nat, acc: seq<PostData>)

  /**
   * One turn of the `while` loop on the page it fetched: a failed call stops it; a page
   * with posts adds them and resets the count of empty pages; an empty page is counted,
   * and reaching `MAX_EMPTY_PAGES` of them stops it.
   */
  function TurnOn(p: Page, empty: nat, acc: seq<PostData>): Turn {
    match p
    case Failed => Stop
    case Fetched(posts) =>
      if posts != [] then Continue(0, acc + posts)
      else if empty + 1 >= MaxEmptyPages then Stop
      else Continue(empty + 1, acc)
  }

  /**
   * The `while` loop of `scrape_posts` from page `page` with `empty` empty pages
   * just seen and `acc` gathered: the posts it ends with and the number of pages
   * fetched.  While it has fewer posts than the target and pages are left, it fetches.
   */
  function Scrape(pages: nat -> Page, target: int, page: nat, empty: nat, acc: seq<PostData>): (r: (seq<PostData>, nat))
    requires page <= MaxPages && empty < MaxEmptyPages
    ensures page <= r.1 <= MaxPages
    ensures |acc| < target && page < MaxPages ==> page < r.1
    ensures !(|acc| < target && page < MaxPages) ==> r == (acc, page)
    decreases MaxPages - page
  {
    if !(|acc| < target && page < MaxPages) then (acc, page)
    else
      match TurnOn(pages(page), empty, acc)
      case Stop => (acc, page + 1)
      case Continue(e, a) => Scrape(pages, target, page + 1, e, a)
  }

  /** The posts gathered are exactly those of the pages fetched, in page order. */
  lemma {:induction false} ScrapeCollects(pages: nat -> Page, target: int, page: nat, empty: nat, acc: seq<PostData>)
    requires page <= MaxPages && empty < MaxEmptyPages
    ensures var r := Scrape(pages, target, page, empty, acc);
            r.0 == acc + Collected(pages, page, r.1)
    decreases MaxPages - page
  {
    var r := Scrape(pages, target, page, empty, acc);
    if |acc| < target && page < MaxPages {
      var got := if pages(page).Fetched? then pages(page).posts else [];
      var rest := Collected(pages, page + 1, r.1);
      assert Collected(pages, page, r.1) == got + rest;
      match TurnOn(pages(page), empty, acc)
      case Stop =>
        assert got == [] && rest == [];
        assert acc + (got + rest) == acc;
      case Continue(e, a) =>
        assert a == acc + got;
        ScrapeCollects(pages, target, page + 1, e, a);
        assert (acc + got) + rest == acc + (got + rest);
    } else {
      assert acc + [] == acc;
    }
  }

  /** No page is fetched after a failed call: only the last page fetched can have failed. */
  lemma {:induction false} ScrapeFailureLast(pages: nat -> Page, target: int, page: nat, empty: nat, acc: seq<PostData>)
    requires page <= MaxPages && empty < MaxEmptyPages
    ensures var r := Scrape(pages, target, page, empty, acc);
            forall k: nat :: page <= k < r.1 - 1 ==> pages(k).Fetched?
    decreases MaxPages - page
  {
    if |acc| < target && page < MaxPages {
      match TurnOn(pages(page), empty, acc)
      case Stop =>
      case Continue(e, a) =>
        ScrapeFailureLast(pages, target, page + 1, e, a);
    }
  }

  /**
   * No page is fetched after two empty pages in a row; with one empty page just
   * seen, an empty page at `page` is the last one fetched.
   */
  lemma {:induction false} ScrapeEmptyPairLast(pages: nat -> Page, target: int, page: nat, empty: nat, acc: seq<PostData>)
    requires page <= MaxPages && empty < MaxEmptyPages
    ensures var r := Scrape(pages, target, page, empty, acc);
            (forall k: nat :: page <= k && k + 1 < r.1 - 1 ==> !(EmptyPage(pages, k) && EmptyPage(pages, k + 1)))
            && (empty == 1 && page < r.1 - 1 ==> !EmptyPage(pages, page))
    decreases MaxPages - page
  {
    if |acc| < target && page < MaxPages {
      match TurnOn(pages(page), empty, acc)
      case Stop =>
      case Continue(e, a) =>
        ScrapeEmptyPairLast(pages, target, page + 1, e, a);
    }
  }

  /**
   * Why the loop stopped: the target was reached, the pages ran out, the last page
   * fetched failed, or it was the second empty page in a row (the page before it
   * empty too, or, for the first page of this run, one empty page just seen).
   */
  lemma {:induction false} ScrapeStopReason(pages: nat -> Page, target: int, page: nat, empty: nat, acc: seq<PostData>)
    requires page <= MaxPages && empty < MaxEmptyPages
    ensures var r := Scrape(pages, target, page, empty, acc);
            r.1 == MaxPages || |r.0| >= target
            || (page < r.1 && (pages(r.1 - 1).Failed?
                               || (EmptyPage(pages, r.1 - 1)
                                   && (if r.1 - 1 == page then empty == 1 else EmptyPage(pages, r.1 - 2)))))
    decreases MaxPages - page
  {
    if |acc| < target && page < MaxPages {
      match TurnOn(pages(page), empty, acc)
      case Stop =>
      case Continue(e, a) =>
        ScrapeStopReason(pages, target, page + 1, e, a);
    }
  }

  /** `all_posts[:n]` for any `n`, as Python slices. */
  function SliceTo<T>(s: seq<T>, n: int): (r: seq<T>)
    ensures n >= 0 ==> |r| == if |s| < n then |s| else n
    ensures |r| <= |s| && r == s[..|r|]
  {
    if n >= |s| then s
    else if n >= 0 then s[..n]
    else if |s| + n >= 0 then s[..|s| + n]
    else []
  }

  /** `scrape_posts`: the posts returned and the number of pages fetched. */
  function ScrapePosts(fetch: int -> Json, target: int, postsPerPage: int): (seq<PostData>, nat) {
    var (all, n) := Scrape(PagesOf(fetch, postsPerPage), target, 0, 0, []);
    (if |all| > target then SliceTo(all, target) else all, n)
  }

  /** The offsets of the first `n` page requests. */
  function Offsets(postsPerPage: int, n: nat): seq<int> {
    if n == 0 then [] else Offsets(postsPerPage, n - 1) + [Offset(postsPerPage, n - 1)]
  }

  /** Request `k` asks for offset `k * posts_per_page`. */
  lemma {:induction false} OffsetsAt(postsPerPage: int, n: nat)
    ensures |Offsets(postsPerPage, n)| == n
    ensures forall k :: 0 <= k < n ==> Offsets(postsPerPage, n)[k] == k * postsPerPage
  {
    if n > 0 {
      OffsetsAt(postsPerPage, n - 1);
    }
  }

  /**
   * `scrape_posts`; `fetch` stands for `make_api_call(start_page=offset)` and
   * `offsets` records the offsets requested, in order.
   */
  method ScrapePostsLoop(fetch: int -> Json, target: int, postsPerPage: int)
    returns (posts: seq<PostData>, offsets: seq<int>)
    ensures posts == ScrapePosts(fetch, target, postsPerPage).0
    ensures offsets == Offsets(postsPerPage, ScrapePosts(fetch, target, postsPerPage).1)
  {
    var all;
    all, offsets := FetchPages(fetch, target, postsPerPage, PagesOf(fetch, postsPerPage));
    if |all| > target {
      all := SliceTo(all, target);
    }
    posts := all;
  }

  /**
   * The `while` loop of `scrape_posts`: what it gathers and the offsets it requests
   * are those of the loop over `pages`, the pages its requests yield.
   */
  method FetchPages(fetch: int -> Json, target: int, postsPerPage: int, ghost pages: nat -> Page)
    returns (all: seq<PostData>, offsets: seq<int>)
    requires forall k: nat {:trigger PageAt(fetch, postsPerPage, k)} :: pages(k) == PageAt(fetch, postsPerPage, k)
    ensures all == Scrape(pages, target, 0, 0, []).0
    ensures offsets == Offsets(postsPerPage, Scrape(pages, target, 0, 0, []).1)
  {
    ghost var outcome := Scrape(pages, target, 0, 0, []);
    all := [];
    var page: nat := 0;
    var empty: nat := 0;
    offsets := [];
    while |all| < target && page < MaxPages
      invariant page <= MaxPages && empty < MaxEmptyPages
      invariant Scrape(pages, target, page, empty, all) == outcome
      invariant offsets == Offsets(postsPerPage, page)
      decreases MaxPages - page
    {
      ScrapeTurn(pages, target, page, empty, all);
      var start := Offset(postsPerPage, page);
      offsets := offsets + [start];
      assert offsets == Offsets(postsPerPage, page + 1);
      var fetched := FetchPage(fetch, postsPerPage, page, pages);
      if fetched.Failed? {
        assert outcome == (all, page + 1);
        break;
      }
      var found := fetched.posts;
      if found != [] {
        assert outcome == Scrape(pages, target, page + 1, 0, all + found);
        all := all + found;
        empty := 0;
      } else {
        empty := empty + 1;
        if empty >= MaxEmptyPages {
          assert outcome == (all, page + 1);
          break;
        }
        assert outcome == Scrape(pages, target, page + 1, empty, all);
      }
      page := page + 1;
    }
  }

  /**
   * The request for page `k` at its offset; a falsy response is a failed call,
   * otherwise its posts are extracted.
   */
  method FetchPage(fetch: int -> Json, postsPerPage: int, k: nat, ghost pages: nat -> Page) returns (p: Page)
    requires forall j: nat {:trigger PageAt(fetch, postsPerPage, j)} :: pages(j) == PageAt(fetch, postsPerPage, j)
    ensures p == pages(k)
  {
    assert pages(k) == PageAt(fetch, postsPerPage, k);
    var response := fetch(Offset(postsPerPage, k));
    if !Truthy(response) {
      return Failed;
    }
    var found := ExtractPostsFromJson(response);
    return Fetched(found);
  }

  /** The loop from `page` on is one turn, then the loop from the next page. */
  lemma ScrapeTurn(pages: nat -> Page, target: int, page: nat, empty: nat, acc: seq<PostData>)
    requires page < MaxPages && empty < MaxEmptyPages && |acc| < target
    ensures Scrape(pages, target, page, empty, acc) ==
      match TurnOn(pages(page), empty, acc)
      case Stop => (acc, page + 1)
      case Continue(e, a) => Scrape(pages, target, page + 1, e, a)
  {
  }

  /** Every fetched page holds only meaningful posts. */
  ghost predicate MeaningfulPages(pages: nat -> Page) {
    forall k: nat :: pages(k).Fetched? ==> forall i :: 0 <= i < |pages(k).posts| ==> Meaningful(pages(k).posts[i])
  }

  lemma PagesOfMeaningful(fetch: int -> Json, postsPerPage: int)
    ensures MeaningfulPages(PagesOf(fetch, postsPerPage))
  {
    var pages := PagesOf(fetch, postsPerPage);
    forall k: nat | pages(k).Fetched?
      ensures forall i :: 0 <= i < |pages(k).posts| ==> Meaningful(pages(k).posts[i])
    {
      assert pages(k) == PageAt(fetch, postsPerPage, k);
    }
  }

  /** Every post of the pages fetched is meaningful: it has content and an author. */
  lemma {:induction false} CollectedMeaningful(pages: nat -> Page, from: nat, to: nat)
    requires MeaningfulPages(pages)
    ensures forall i :: 0 <= i < |Collected(pages, from, to)| ==> Meaningful(Collected(pages, from, to)[i])
    decreases if from < to then to - from else 0
  {
    if from < to {
      CollectedMeaningful(pages, from + 1, to);
      var here := if pages(from).Fetched? then pages(from).posts else [];
      var rest := Collected(pages, from + 1, to);
      assert Collected(pages, from, to) == here + rest;
      forall i | 0 <= i < |here + rest|
        ensures Meaningful((here + rest)[i])
      {
        if i < |here| {
          assert (here + rest)[i] == pages(from).posts[i];
          assert Meaningful(pages(from).posts[i]);
        } else {
          assert (here + rest)[i] == rest[i - |here|];
          assert Meaningful(rest[i - |here|]);
        }
      }
    }
  }

  /**
   * What `scrape_posts` promises over every sequence of responses: at most
   * `target_posts` posts, all of them meaningful and taken in page order from the
   * pages fetched; at most `MAX_PAGES` fetches; no fetch after a failed one or
   * after two empty pages in a row.
   */
  lemma ScrapePostsBounds(fetch: int -> Json, target: int, postsPerPage: int)
    ensures var (posts, n) := ScrapePosts(fetch, target, postsPerPage);
            var pages := PagesOf(fetch, postsPerPage);
            (target >= 0 ==> |posts| <= target) && (target <= 0 ==> posts == [] && n == 0)
            && n <= MaxPages
            && |posts| <= |Collected(pages, 0, n)| && posts == Collected(pages, 0, n)[..|posts|]
            && (forall i :: 0 <= i < |posts| ==> Meaningful(posts[i]))
            && (forall k: nat :: k < n - 1 ==> pages(k).Fetched?)
            && (forall k: nat :: k + 1 < n - 1 ==> !(EmptyPage(pages, k) && EmptyPage(pages, k + 1)))
  {
    var pages := PagesOf(fetch, postsPerPage);
    var (all, n) := Scrape(pages, target, 0, 0, []);
    ScrapeCollects(pages, target, 0, 0, []);
    ScrapeFailureLast(pages, target, 0, 0, []);
    ScrapeEmptyPairLast(pages, target, 0, 0, []);
    PagesOfMeaningful(fetch, postsPerPage);
    CollectedMeaningful(pages, 0, n);
    assert [] + Collected(pages, 0, n) == Collected(pages, 0, n);
  }

  /** A failed first call ends the loop at once with no posts. */
  lemma FirstFailureStops(pages: nat -> Page, target: int)
    requires target > 0 && pages(0).Failed?
    ensures Scrape(pages, target, 0, 0, []) == ([], 1)
  {
  }

  /** Two empty pages in a row at the start end the loop after the second fetch. */
  lemma TwoEmptyPagesStop(pages: nat -> Page, target: int)
    requires target > 0 && EmptyPage(pages, 0) && EmptyPage(pages, 1)
    ensures Scrape(pages, target, 0, 0, []) == ([], 2)
  {
    assert Scrape(pages, target, 0, 0, []) == Scrape(pages, target, 1, 1, []);
  }

  /**
   * A page with posts resets the empty-page count, whatever it was: the loop goes on
   * from the next page with no empty page seen, so a single empty page right after it
   * does not stop the loop.
   */
  lemma NonEmptyPageResets(pages: nat -> Page, target: int, page: nat, empty: nat, acc: seq<PostData>)
    requires page < MaxPages && empty < MaxEmptyPages && |acc| < target
    requires pages(page).Fetched? && pages(page).posts != []
    ensures Scrape(pages, target, page, empty, acc) == Scrape(pages, target, page + 1, 0, acc + pages(page).posts)
    ensures EmptyPage(pages, page + 1) && page + 2 < MaxPages && |acc + pages(page).posts| < target ==>
              Scrape(pages, target, page, empty, acc).1 > page + 2
  {
    var a := acc + pages(page).posts;
    if EmptyPage(pages, page + 1) && page + 2 < MaxPages && |a| < target {
      assert Scrape(pages, target, page + 1, 0, a) == Scrape(pages, target, page + 2, 1, a);
    }
  }

}
