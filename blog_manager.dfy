/** `AdvancedDevToBlogManager` (script.js) as a class: the fields it updates in place, and one
    method per operation, each specified by the transition functions of module `BlogFeed`. The
    asynchronous `loadBlogPosts` is split at its `await`: `StartLoad` is the part that runs when it
    is called, `FinishLoad` the part that runs when the fetch ends. */
module BlogManager {
  import opened Wrappers
  import opened Page
  import opened BlogCards
  import opened BlogFeed

  class AdvancedDevToBlogManager {
    /** The document body, whose scroll lock the modal shares with the mobile menu. */
    const body: Body

    var posts: seq<Post>
    var currentPage: int
    const postsPerPage: int
    var isLoading: bool
    /** The `page` argument of the suspended `loadBlogPosts` call. */
    var pendingPage: int
    /** Whether `setupEventListeners` has run. */
    var listening: bool
    var grid: Grid
    var loadMoreVisible: bool

    var modalOpen: bool
    var modalTitle: string
    var modalReadFull: string
    var modalBody: ModalBody

    ghost predicate Valid()
      reads this
    {
      && postsPerPage == PostsPerPage
      && currentPage >= 1
    }

    /** The loader's fields as a `BlogFeed.Feed` value. */
    function FeedState(): Feed
      reads this
    {
      Feed(posts, currentPage, isLoading, pendingPage, listening, grid, loadMoreVisible)
    }

    /** The modal's fields as a `BlogFeed.Modal` value. */
    function ModalState(): Modal
      reads this
    {
      Modal(modalOpen, modalTitle, modalReadFull, modalBody)
    }

    /** `constructor` and the synchronous start of `init`: the modal markup is created and
        the load of page 1 is started. */
    constructor (body: Body, loadMoreVisible: bool)
      ensures Valid() && this.body == body
      ensures FeedState() == InitialFeed(loadMoreVisible)
      ensures ModalState() == InitialModal
    {
      this.body := body;
      posts := [];
      currentPage := 1;
      postsPerPage := 6;
      isLoading := false;
      pendingPage := 1;
      listening := false;
      grid := InitialMarkup;
      this.loadMoreVisible := loadMoreVisible;
      modalOpen, modalTitle, modalReadFull, modalBody := false, "Blog Post Preview", "#", Blank;
      new;
      var _ := StartLoad(1);
    }

    /** `loadBlogPosts(page)` up to its `await`: the guard, then the request. */
    method StartLoad(page: int) returns (request: Option<int>)
      requires Valid()
      modifies this
      ensures Valid()
      ensures (FeedState(), request) == Start(old(FeedState()), page)
      ensures ModalState() == old(ModalState())
    {
      if isLoading {
        return None;
      }
      isLoading := true;
      pendingPage := page;
      request := Some(page);
    }

    /** `loadBlogPosts` after its `await`, for the fetch of `pendingPage`: the `try`, `catch` and
        `finally` blocks, and, for the first load, the rest of `init`. */
    method FinishLoad(outcome: Outcome)
      requires Valid() && isLoading
      modifies this
      ensures Valid()
      ensures FeedState() == Finish(old(FeedState()), outcome)
      ensures ModalState() == old(ModalState())
    {
      match outcome {
        case Failure =>
          ShowFallbackMessage();
        case Success(items) =>
          if pendingPage == 1 {
            posts := items;
          } else {
            posts := posts + items;
          }
          var threw := RenderBlogPosts();
          if threw {
            ShowFallbackMessage();
          } else {
            UpdateLoadMoreButton(|items|);
          }
      }
      isLoading := false;
      listening := true;
    }

    /** `renderBlogPosts`: clears the grid and appends a card per post, stopping with an
        exception (`threw`) at the first post whose card throws. */
    method RenderBlogPosts() returns (threw: bool)
      modifies this
      ensures threw <==> RenderThrows(posts)
      ensures !threw && posts == [] ==> grid == Fallback
      ensures !threw && posts != [] ==> grid == Cards(posts)
      ensures posts == old(posts) && currentPage == old(currentPage) && isLoading == old(isLoading)
      ensures pendingPage == old(pendingPage) && listening == old(listening)
      ensures loadMoreVisible == old(loadMoreVisible) && ModalState() == old(ModalState())
    {
      grid := Cards([]);
      if |posts| == 0 {
        ShowFallbackMessage();
        return false;
      }
      var i := 0;
      while i < |posts|
        invariant 0 <= i <= |posts|
        invariant grid == Cards(posts[..i])
        invariant forall k | 0 <= k < i :: !CardThrows(posts[k])
        invariant posts == old(posts) && currentPage == old(currentPage) && isLoading == old(isLoading)
        invariant pendingPage == old(pendingPage) && listening == old(listening)
        invariant loadMoreVisible == old(loadMoreVisible) && ModalState() == old(ModalState())
      {
        if CardThrows(posts[i]) {
          return true;
        }
        grid := Cards(grid.shown + [posts[i]]);
        i := i + 1;
      }
      assert posts[..i] == posts;
      return false;
    }

    /** `showFallbackMessage`. */
    method ShowFallbackMessage()
      modifies this
      ensures grid == Fallback
      ensures posts == old(posts) && currentPage == old(currentPage) && isLoading == old(isLoading)
      ensures pendingPage == old(pendingPage) && listening == old(listening)
      ensures loadMoreVisible == old(loadMoreVisible) && ModalState() == old(ModalState())
    {
      grid := Fallback;
    }

    /** `updateLoadMoreButton(postsLoaded)`: hidden after a short page, shown after a full one. */
    method UpdateLoadMoreButton(postsLoaded: int)
      requires Valid()
      modifies this
      ensures loadMoreVisible <==> postsLoaded >= PostsPerPage
      ensures posts == old(posts) && currentPage == old(currentPage) && isLoading == old(isLoading)
      ensures pendingPage == old(pendingPage) && listening == old(listening)
      ensures grid == old(grid) && ModalState() == old(ModalState())
    {
      if postsLoaded < postsPerPage {
        loadMoreVisible := false;
      } else {
        loadMoreVisible := true;
      }
    }

    /** A click on the load-more button, whose listener exists once `setupEventListeners` ran:
        `currentPage++`, then `loadBlogPosts(currentPage)`. */
    method OnLoadMoreClick() returns (request: Option<int>)
      requires Valid()
      modifies this
      ensures Valid()
      ensures (FeedState(), request) == LoadMore(old(FeedState()))
      ensures ModalState() == old(ModalState())
    {
      if !listening {
        return None;
      }
      currentPage := currentPage + 1;
      request := StartLoad(currentPage);
    }

    /** `openPostPreview(index)`; `index` is `parseInt` of the button's data attribute (None for
        NaN). With a post there, the body scroll is locked as the modal opens. */
    method OpenPostPreview(index: Option<int>)
      modifies this, body
      ensures ModalState() == Opened(old(ModalState()), posts, index)
      ensures body.scrollLocked == (HasPostAt(posts, index) || old(body.scrollLocked))
      ensures FeedState() == old(FeedState())
    {
      if index.None? || !(0 <= index.value < |posts|) {
        return;
      }
      var post := posts[index.value];
      modalTitle := post.title;
      modalReadFull := post.url;
      modalBody := Spinner;
      modalOpen := true;
      body.scrollLocked := true;
      match PreviewFor(post) {
        case Some(view) =>
          modalBody := ShowsPreview(view);
        case None =>
          modalBody := ShowsError(TextOr(post.description, NoDescription));
      }
    }

    /** `closeModal`: hidden and scroll unlocked, whatever the state before. */
    method CloseModal()
      modifies this, body
      ensures ModalState() == Closed(old(ModalState()))
      ensures !body.scrollLocked
      ensures FeedState() == old(FeedState())
    {
      modalOpen := false;
      body.scrollLocked := false;
    }
  }

  /** Closing the modal twice ends as closing it once; the second call changes nothing. */
  method CloseTwice(blog: AdvancedDevToBlogManager)
    modifies blog, blog.body
    ensures !blog.modalOpen && !blog.body.scrollLocked
    ensures blog.ModalState() == Closed(old(blog.ModalState()))
  {
    blog.CloseModal();
    ghost var once := blog.ModalState();
    blog.CloseModal();
    assert blog.ModalState() == once;
  }
}
