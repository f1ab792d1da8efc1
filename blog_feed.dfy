/** The state machine of `AdvancedDevToBlogManager` (script.js) as values: loading pages of
    articles, the guard against overlapping fetches, the card grid, the "load more" button and
    the preview modal. The class in module `BlogManager` keeps this state in fields; its methods
    are specified by the transition functions here. */
module BlogFeed {
  import opened Wrappers
  import opened BlogCards

  /** `postsPerPage`: the page size asked of the API. */
  const PostsPerPage: int := 6

  /** How a fetch ended: the parsed article array, or a failure (a non-ok status, a network error
      or an unparsable body, all of which land in the same `catch`). */
  datatype Outcome = Success(items: seq<Post>) | Failure

  /** What the grid element shows: the page's initial markup, one card per post, or the
      "More posts coming soon!" fallback panel. */
  datatype Grid = InitialMarkup | Cards(shown: seq<Post>) | Fallback

  /** The loader's state. `pendingPage` is the page the suspended `loadBlogPosts` call is waiting
      for (meaningful while `isLoading`); `listening` says whether `setupEventListeners` has run,
      which `init` does only once its first load has returned. */
  datatype Feed = Feed(
    posts: seq<Post>,
    currentPage: int,
    isLoading: bool,
    pendingPage: int,
    listening: bool,
    grid: Grid,
    loadMoreVisible: bool)

  /** The state right after construction: `init` has started loading page 1 and is suspended. */
  function InitialFeed(loadMoreVisible: bool): Feed {
    Feed([], 1, true, 1, false, InitialMarkup, loadMoreVisible)
  }

  /** Building the cards throws when a card for some post throws. */
  predicate RenderThrows(posts: seq<Post>) {
    exists k | 0 <= k < |posts| :: CardThrows(posts[k])
  }

  /** The synchronous part of `loadBlogPosts(page)`: when a load is running nothing happens and
      no fetch is issued; otherwise the loader is marked busy and `page` is requested. */
  function Start(f: Feed, page: int): (r: (Feed, Option<int>))
    ensures f.isLoading ==> r == (f, None)
    ensures !f.isLoading ==> r.1 == Some(page) && r.0.isLoading && r.0.pendingPage == page
    ensures r.0.posts == f.posts && r.0.currentPage == f.currentPage && r.0.grid == f.grid
    ensures r.0.loadMoreVisible == f.loadMoreVisible && r.0.listening == f.listening
  {
    if f.isLoading then (f, None)
    else (f.(isLoading := true, pendingPage := page), Some(page))
  }

  /** The rest of `loadBlogPosts`, once the fetch for `f.pendingPage` has ended.
      On success page 1 replaces the list and any other page is appended to it; the grid is
      rebuilt, and the button is shown exactly when the page was full. On failure the list and
      the button stay as they were and the fallback panel is shown. Either way the loader is free
      again, and the event listeners are in place. */
  function Finish(f: Feed, outcome: Outcome): (r: Feed)
    requires f.isLoading
    ensures !r.isLoading && r.listening
    ensures r.currentPage == f.currentPage
    ensures outcome.Failure? ==>
              r.posts == f.posts && r.loadMoreVisible == f.loadMoreVisible && r.grid == Fallback
    ensures outcome.Success? && f.pendingPage == 1 ==> r.posts == outcome.items
    ensures outcome.Success? && f.pendingPage != 1 ==> r.posts == f.posts + outcome.items
    ensures outcome.Success? && (r.posts == [] || RenderThrows(r.posts)) ==> r.grid == Fallback
    ensures outcome.Success? && r.posts != [] && !RenderThrows(r.posts) ==> r.grid == Cards(r.posts)
    ensures outcome.Success? && !RenderThrows(r.posts) ==>
              (r.loadMoreVisible <==> |outcome.items| >= PostsPerPage)
    ensures outcome.Success? && RenderThrows(r.posts) ==> r.loadMoreVisible == f.loadMoreVisible
  {
    match outcome
    case Failure =>
      f.(isLoading := false, listening := true, grid := Fallback)
    case Success(items) =>
      var posts := if f.pendingPage == 1 then items else f.posts + items;
      if RenderThrows(posts) then
        f.(posts := posts, isLoading := false, listening := true, grid := Fallback)
      else
        f.(posts := posts, isLoading := false, listening := true,
           grid := if |posts| == 0 then Fallback else Cards(posts),
           loadMoreVisible := !(|items| < PostsPerPage))
  }

  /** A first page holding one article titled with 29 letters and an emoji shows the fallback
      panel, although the article has its tag list: the card's placeholder throws. */
  lemma EmojiTitleBlanksFirstPage(post: Post, loadMoreVisible: bool)
    requires post.title == EmojiTitle && post.tags.Some?
    ensures Finish(InitialFeed(loadMoreVisible), Success([post])).grid == Fallback
  {
    EmojiAtUnit30HasNoPlaceholder(0);
    assert [post][0] == post;
  }

  /** The load-more click handler: `currentPage` goes up by one on every click once the
      listeners are attached, and that page is requested unless a load is still running. */
  function LoadMore(f: Feed): (r: (Feed, Option<int>))
    ensures !f.listening ==> r == (f, None)
    ensures f.listening ==> r.0.currentPage == f.currentPage + 1
    ensures f.listening ==> (r.1.Some? <==> !f.isLoading)
    ensures r.1.Some? ==> r.1.value == r.0.currentPage == r.0.pendingPage && r.0.isLoading
    ensures f.listening && f.isLoading ==> r.0 == f.(currentPage := f.currentPage + 1)
    ensures r.0.posts == f.posts && r.0.grid == f.grid && r.0.loadMoreVisible == f.loadMoreVisible
            && r.0.listening == f.listening
  {
    if !f.listening then (f, None)
    else Start(f.(currentPage := f.currentPage + 1), f.currentPage + 1)
  }

  /** One thing happening to the loader: a load-more click, or the pending fetch ending. */
  datatype Event = LoadMoreClick | Response(outcome: Outcome)

  /** The effect of one event and the page it requests, if any. A response arrives only for a
      fetch in flight, so one arriving while nothing is pending changes nothing. */
  function Step(f: Feed, e: Event): (Feed, Option<int>) {
    match e
    case LoadMoreClick => LoadMore(f)
    case Response(o) => if f.isLoading then (Finish(f, o), None) else (f, None)
  }

  /** The article lists of the successful responses an event delivers. */
  function Delivered(f: Feed, e: Event): seq<seq<Post>> {
    if e.Response? && f.isLoading && e.outcome.Success? then [e.outcome.items] else []
  }

  /** What a run of events leads to: the final state, the pages requested in order, and the
      article lists delivered in order. */
  datatype History = History(feed: Feed, requests: seq<int>, pages: seq<seq<Post>>)

  function Run(f: Feed, events: seq<Event>): History
    decreases |events|
  {
    if events == [] then History(f, [], [])
    else
      var (g, request) := Step(f, events[0]);
      var rest := Run(g, events[1..]);
      History(rest.feed,
              (if request.Some? then [request.value] else []) + rest.requests,
              Delivered(f, events[0]) + rest.pages)
  }

  function Flatten(pages: seq<seq<Post>>): seq<Post> {
    if pages == [] then [] else pages[0] + Flatten(pages[1..])
  }

  lemma {:induction false} FlattenAppend(a: seq<seq<Post>>, b: seq<seq<Post>>)
    ensures Flatten(a + b) == Flatten(a) + Flatten(b)
  {
    if a == [] {
      assert a + b == b;
    } else {
      assert (a + b)[1..] == a[1..] + b;
      FlattenAppend(a[1..], b);
    }
  }

  /** What every reachable state satisfies, with `delivered` the article lists received so far.
      In particular the loaded list is exactly those lists joined in arrival order: page 1 is
      only ever requested by the initial load, before anything has arrived. */
  ghost predicate Reachable(f: Feed, delivered: seq<seq<Post>>) {
    && f.currentPage >= 1
    && (f.isLoading ==> 1 <= f.pendingPage <= f.currentPage)
    && (!f.listening ==> f.isLoading && f.pendingPage == 1 && f.currentPage == 1 && delivered == [])
    && (f.listening && f.isLoading ==> f.pendingPage >= 2)
    && f.posts == Flatten(delivered)
  }

  lemma InitialReachable(visible: bool)
    ensures Reachable(InitialFeed(visible), [])
  {
  }

  lemma StepReachable(f: Feed, delivered: seq<seq<Post>>, e: Event)
    requires Reachable(f, delivered)
    ensures Reachable(Step(f, e).0, delivered + Delivered(f, e))
  {
    match e
    case LoadMoreClick =>
      assert delivered + Delivered(f, e) == delivered;
    case Response(o) =>
      if f.isLoading && o.Success? {
        FlattenAppend(delivered, [o.items]);
        assert Flatten([o.items]) == o.items + Flatten([]);
        if f.pendingPage == 1 {
          assert delivered == [] && [] + [o.items] == [o.items];
        }
      } else {
        assert delivered + Delivered(f, e) == delivered;
      }
  }

  /** The first event of a run: its request, if any, comes before those of the rest. */
  lemma RunUnfold(f: Feed, events: seq<Event>)
    requires events != []
    ensures var step := Step(f, events[0]);
            var rest := Run(step.0, events[1..]);
            && Run(f, events).feed == rest.feed
            && Run(f, events).requests
               == (if step.1.Some? then [step.1.value] else []) + rest.requests
            && Run(f, events).pages == Delivered(f, events[0]) + rest.pages
  {
  }

  /** What the rest of a run reaches after its first event is what the whole run reaches. */
  lemma RunReachableUnfold(f: Feed, delivered: seq<seq<Post>>, events: seq<Event>)
    requires events != []
    requires var g := Step(f, events[0]).0;
             var rest := Run(g, events[1..]);
             Reachable(rest.feed, delivered + Delivered(f, events[0]) + rest.pages)
    ensures Reachable(Run(f, events).feed, delivered + Run(f, events).pages)
  {
    var rest := Run(Step(f, events[0]).0, events[1..]);
    ReachableRegroup(rest.feed, delivered, Delivered(f, events[0]), rest.pages);
    RunUnfold(f, events);
  }

  lemma ReachableRegroup(f: Feed, a: seq<seq<Post>>, b: seq<seq<Post>>, c: seq<seq<Post>>)
    requires Reachable(f, a + b + c)
    ensures Reachable(f, a + (b + c))
  {
    assert a + b + c == a + (b + c);
  }

  /** Every state a run reaches is reachable, with the run's deliveries appended. */
  lemma {:induction false} RunReachable(f: Feed, delivered: seq<seq<Post>>, events: seq<Event>)
    requires Reachable(f, delivered)
    ensures Reachable(Run(f, events).feed, delivered + Run(f, events).pages)
    decreases |events|
  {
    if events == [] {
      assert delivered + [] == delivered;
    } else {
      StepReachable(f, delivered, events[0]);
      RunReachable(Step(f, events[0]).0, delivered + Delivered(f, events[0]), events[1..]);
      RunReachableUnfold(f, delivered, events);
    }
  }

  /** From start-up on, the loaded list is always the successful pages' articles joined in the
      order they arrived: nothing is lost, duplicated by a replace, or reordered. */
  lemma PostsAreDeliveredPagesInOrder(visible: bool, events: seq<Event>)
    ensures Run(InitialFeed(visible), events).feed.posts == Flatten(Run(InitialFeed(visible), events).pages)
  {
    InitialReachable(visible);
    RunReachable(InitialFeed(visible), [], events);
    assert [] + Run(InitialFeed(visible), events).pages == Run(InitialFeed(visible), events).pages;
  }

  /** One event never lowers `currentPage`, and the page it requests, if any, is the new
      `currentPage`, above the old one. */
  lemma StepRequest(f: Feed, e: Event)
    ensures f.currentPage <= Step(f, e).0.currentPage
    ensures Step(f, e).1.Some? ==>
              f.currentPage < Step(f, e).1.value == Step(f, e).0.currentPage
  {
  }

  /** Clicks never lower `currentPage`, and every page a run requests is above the starting
      `currentPage`, at most the final one, and above every page requested before it. */
  lemma {:induction false} RequestsIncrease(f: Feed, events: seq<Event>)
    ensures f.currentPage <= Run(f, events).feed.currentPage
    ensures forall k | 0 <= k < |Run(f, events).requests| ::
              f.currentPage < Run(f, events).requests[k] <= Run(f, events).feed.currentPage
    ensures forall a, b | 0 <= a < b < |Run(f, events).requests| ::
              Run(f, events).requests[a] < Run(f, events).requests[b]
    decreases |events|
  {
    if events != [] {
      var step := Step(f, events[0]);
      StepRequest(f, events[0]);
      RequestsIncrease(step.0, events[1..]);
      RunUnfold(f, events);
      var rest := Run(step.0, events[1..]);
      PrependRequest(step.1, rest.requests, f.currentPage, step.0.currentPage, rest.feed.currentPage);
    }
  }

  /** Putting a request in (lo, mid] before increasing requests in (mid, hi] keeps them
      increasing, all in (lo, hi]. */
  lemma PrependRequest(first: Option<int>, rest: seq<int>, lo: int, mid: int, hi: int)
    requires lo <= mid <= hi
    requires first.Some? ==> lo < first.value <= mid
    requires forall k | 0 <= k < |rest| :: mid < rest[k] <= hi
    requires forall a, b | 0 <= a < b < |rest| :: rest[a] < rest[b]
    ensures var all := (if first.Some? then [first.value] else []) + rest;
            && (forall k | 0 <= k < |all| :: lo < all[k] <= hi)
            && (forall a, b | 0 <= a < b < |all| :: all[a] < all[b])
  {
    var all := (if first.Some? then [first.value] else []) + rest;
    if first.Some? {
      forall k | 1 <= k < |all|
        ensures all[k] == rest[k - 1]
      {
      }
    } else {
      assert all == rest;
    }
  }

  /** A click while a page is still loading uses up the next page number without fetching it:
      no later event ever requests that page. */
  lemma ClickDuringLoadSkipsPage(f: Feed, events: seq<Event>)
    requires f.listening && f.isLoading
    ensures LoadMore(f).1 == None
    ensures f.currentPage + 1 !in Run(LoadMore(f).0, events).requests
  {
    RequestsIncrease(LoadMore(f).0, events);
  }

  /** Concretely: with the first page loaded, two quick clicks request page 2 only, and the next
      click after it arrived requests page 4; page 3 is never fetched. */
  lemma DoubleClickExample(visible: bool, full: seq<Post>)
    requires |full| == PostsPerPage
    ensures Run(InitialFeed(visible),
                [Response(Success(full)), LoadMoreClick, LoadMoreClick,
                 Response(Success(full)), LoadMoreClick]).requests == [2, 4]
  {
    var f0 := InitialFeed(visible);
    var f1 := Finish(f0, Success(full));
    assert f1.currentPage == 1 && !f1.isLoading && f1.listening;
    var f2 := LoadMore(f1).0;
    assert LoadMore(f1).1 == Some(2) && f2.isLoading && f2.currentPage == 2;
    var f3 := LoadMore(f2).0;
    assert LoadMore(f2).1 == None && f3.isLoading && f3.currentPage == 3;
    var f4 := Finish(f3, Success(full));
    assert !f4.isLoading && f4.currentPage == 3 && f4.listening;
    assert LoadMore(f4).1 == Some(4);
    var events := [Response(Success(full)), LoadMoreClick, LoadMoreClick,
                   Response(Success(full)), LoadMoreClick];
    assert Run(LoadMore(f4).0, []).requests == [];
    assert Run(f4, events[4..]).requests == [4];
    assert Run(f3, events[3..]).requests == [4];
    assert Run(f2, events[2..]).requests == [4];
    assert Run(f1, events[1..]).requests == [2, 4];
  }

  /** The preview modal's visible state: shown or hidden, its title, the "Read Full Post" link and
      its body. */
  datatype ModalBody = Blank | Spinner | ShowsPreview(view: PreviewView) | ShowsError(description: string)

  datatype Modal = Modal(open: bool, title: string, readFullUrl: string, body: ModalBody)

  /** The markup of `createBlogModal`, hidden. */
  const InitialModal: Modal := Modal(false, "Blog Post Preview", "#", Blank)

  /** Whether `posts[index]` is a post: `index` may be NaN (None), negative or too large. */
  predicate HasPostAt(posts: seq<Post>, index: Option<int>) {
    index.Some? && 0 <= index.value < |posts|
  }

  /** The description the error panel falls back to. */
  const NoDescription: string := "No description available"

  /** The body `openPostPreview` leaves in the modal: the preview, or, when building it throws,
      the error panel with the description, never the loading spinner. */
  function PreviewBody(post: Post): (b: ModalBody)
    ensures b.ShowsPreview? <==> post.tags.Some?
    ensures b.ShowsPreview? ==> b.view == PreviewFor(post).value
    ensures post.tags.None? ==> b == ShowsError(TextOr(post.description, NoDescription))
  {
    match PreviewFor(post)
    case Some(view) => ShowsPreview(view)
    case None => ShowsError(TextOr(post.description, NoDescription))
  }

  /** `openPostPreview(index)`: without a post at `index` nothing changes; otherwise the modal is
      shown with that post's title, link and preview. */
  function Opened(m: Modal, posts: seq<Post>, index: Option<int>): (r: Modal)
    ensures !HasPostAt(posts, index) ==> r == m
    ensures HasPostAt(posts, index) ==>
              && r.open
              && r.title == posts[index.value].title
              && r.readFullUrl == posts[index.value].url
              && (r.body.ShowsPreview? <==> posts[index.value].tags.Some?)
              && (r.body.ShowsPreview? ==> r.body.view.tags == posts[index.value].tags.value)
              && r.body == PreviewBody(posts[index.value])
  {
    if HasPostAt(posts, index) then
      var post := posts[index.value];
      Modal(true, post.title, post.url, PreviewBody(post))
    else m
  }

  /** `closeModal`: hidden, everything else kept. */
  function Closed(m: Modal): (r: Modal)
    ensures !r.open
    ensures r.title == m.title && r.readFullUrl == m.readFullUrl && r.body == m.body
  {
    m.(open := false)
  }

  /** Closing twice is closing once. */
  lemma CloseIdempotent(m: Modal)
    ensures Closed(Closed(m)) == Closed(m)
  {
  }

  /** A card's preview button opens the preview of the very post the card shows. */
  lemma CardOpensItsPost(m: Modal, posts: seq<Post>, k: nat, colorIndex: int)
    requires k < |posts| && !CardThrows(posts[k])
    requires 0 <= colorIndex < |PlaceholderColors|
    ensures var card := CardFor(posts[k], k, colorIndex).value;
            Opened(m, posts, Some(card.index)).title == card.title
            && Opened(m, posts, Some(card.index)).readFullUrl == card.url
  {
  }
}
