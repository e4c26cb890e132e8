/** Infinite scroll and pull-to-refresh. Each asynchronous handler is split
    at its `await` into a start step (check the guard, take `loading`) and a
    finish step that receives what the network returned. Handlers run one at
    a time, so each step is atomic. */
module Feed {
  import opened Common
  import opened Posts
  import opened App

  /** Distance from the end of the content at which the next page is fetched. */
  const ProximityPx := 1000

  /** Pull distance a release has to exceed to refresh the feed. */
  const PullThreshold := 80

  /** The viewport's bottom edge is within 1000 pixels of the content's end. */
  function NearBottom(scrollTop: int, windowHeight: int, documentHeight: int): (near: bool)
    ensures near <==> documentHeight - (scrollTop + windowHeight) <= ProximityPx
  {
    scrollTop + windowHeight >= documentHeight - ProximityPx
  }

  /** Which handler holds the `loading` flag (bookkeeping of the model). */
  datatype Fetch = Idle | LoadingMore | Refreshing

  class FeedManager {
    var page: int
    var loading: bool
    var hasMore: bool
    /** `window.app`, the object whose item list the feed extends. */
    const app: CivicConnect
    ghost var inFlight: Fetch

    /** The page cursor never drops below 1, and `loading` is held exactly
        while one fetch (a page or a refresh) is in flight. */
    ghost predicate Valid()
      reads this, app
    {
      && page >= 1
      && (loading <==> inFlight != Idle)
      && app.Valid()
    }

    constructor (app: CivicConnect)
      requires app.Valid()
      ensures Valid() && this.app == app
      ensures page == 1 && !loading && hasMore && inFlight == Idle
    {
      this.app := app;
      page := 1;
      loading := false;
      hasMore := true;
      inFlight := Idle;
    }

    /** `shouldLoadMore`: never while a fetch is in flight or after the feed
        ran out; otherwise exactly when the viewport is near the bottom. */
    function ShouldLoadMore(scrollTop: int, windowHeight: int, documentHeight: int): (load: bool)
      reads this
      ensures loading || !hasMore ==> !load
      ensures !loading && hasMore ==> (load <==> documentHeight - (scrollTop + windowHeight) <= ProximityPx)
    {
      !loading && hasMore && NearBottom(scrollTop, windowHeight, documentHeight)
    }

    /** Start of `loadMorePosts`: does nothing while `loading` or once the
        feed is exhausted; otherwise takes `loading` and asks for page
        `page + 1`. */
    method BeginLoadMore() returns (request: Option<int>)
      requires Valid()
      modifies this
      ensures Valid() && page == old(page) && hasMore == old(hasMore)
      ensures request.Some? <==> !old(loading) && old(hasMore)
      ensures request.Some? ==> request.value == page + 1 && loading && inFlight == LoadingMore
      ensures request.None? ==> loading == old(loading) && inFlight == old(inFlight)
    {
      if loading || !hasMore {
        return None;
      }
      loading := true;
      inFlight := LoadingMore;
      request := Some(page + 1);
    }

    /** `appendPosts`: pushes the page onto the app's list one item at a time.
        Without the feed container it returns at once; with the app's list
        still undefined the first `push` throws (`ok` is false). */
    method AppendPosts(batch: seq<Post>, hasContainer: bool) returns (ok: bool)
      requires Valid() && AllWellFormed(batch)
      modifies app`posts
      ensures Valid()
      ensures ok <==> !hasContainer || old(app.posts).Some? || batch == []
      ensures app.posts ==
        if hasContainer && old(app.posts).Some? then Some(old(app.posts).value + batch) else old(app.posts)
    {
      if !hasContainer {
        return true;
      }
      if app.posts.None? {
        return batch == [];
      }
      for i := 0 to |batch|
        invariant app.posts.Some? && app.posts.value == old(app.posts).value + batch[..i]
        invariant Valid()
      {
        app.posts := Some(app.posts.value + [batch[i]]);
      }
      assert batch[..|batch|] == batch;
      return true;
    }

    /** Finish of `loadMorePosts`, given what the request for the next page
        returned. `fetchMorePosts` turns a failure into an empty page, so a
        failed request ends pagination like an empty one. An empty page
        clears `hasMore` and keeps `page`; a non-empty page is appended in
        order and advances `page` by one, unless appending threw. `loading`
        is released on every path. */
    method FinishLoadMore(response: Response<seq<RawPost>>, now: int, draw: nat -> Draw, hasContainer: bool)
      requires Valid() && inFlight == LoadingMore
      modifies this, app`posts
      ensures Valid() && !loading && inFlight == Idle
      ensures var more := FetchMorePosts(response, now, draw);
        if more == [] then
          !hasMore && page == old(page) && app.posts == old(app.posts)
        else
          && hasMore == old(hasMore)
          && (if !hasContainer then page == old(page) + 1 && app.posts == old(app.posts)
              else if old(app.posts).Some? then page == old(page) + 1 && app.posts == Some(old(app.posts).value + more)
              else page == old(page) && app.posts == old(app.posts))
    {
      var more := FetchMorePosts(response, now, draw);
      if more == [] {
        hasMore := false;
      } else {
        var ok := AppendPosts(more, hasContainer);
        if ok {
          page := page + 1;
        }
      }
      loading := false;
      inFlight := Idle;
    }

    /** Start of `refreshFeed`: a no-op while any fetch is in flight. */
    method BeginRefresh() returns (started: bool)
      requires Valid()
      modifies this
      ensures Valid() && page == old(page) && hasMore == old(hasMore)
      ensures started <==> !old(loading)
      ensures started ==> loading && inFlight == Refreshing
      ensures !started ==> loading == old(loading) && inFlight == old(inFlight)
    {
      if loading {
        return false;
      }
      loading := true;
      inFlight := Refreshing;
      started := true;
    }

    /** Finish of `refreshFeed`: reloads the app's list (`loadPosts` catches
        its own failures), then puts the cursor back to 1 and `hasMore` back
        to true, even after the feed ran out, and releases `loading`. */
    method FinishRefresh(postsResponse: Response<seq<RawPost>>, usersResponse: Response<seq<RawUser>>, now: int, draw: nat -> Draw)
      requires Valid() && inFlight == Refreshing
      modifies this, app`posts
      ensures Valid() && !loading && inFlight == Idle
      ensures page == 1 && hasMore
      ensures var loaded := LoadedPosts(postsResponse, usersResponse, now, draw);
        app.posts == if loaded.Some? then loaded else old(app.posts)
    {
      app.LoadPosts(postsResponse, usersResponse, now, draw);
      page := 1;
      hasMore := true;
      loading := false;
      inFlight := Idle;
    }

    /** The scroll handler's animation-frame callback: load more when
        `shouldLoadMore` says so. A request goes out exactly when the check
        passes, so never while another fetch is in flight. */
    method OnScrollFrame(scrollTop: int, windowHeight: int, documentHeight: int) returns (request: Option<int>)
      requires Valid()
      modifies this
      ensures Valid() && page == old(page) && hasMore == old(hasMore)
      ensures request.Some? <==> old(ShouldLoadMore(scrollTop, windowHeight, documentHeight))
      ensures request.Some? ==> request.value == page + 1 && inFlight == LoadingMore
      ensures request.None? ==> loading == old(loading) && inFlight == old(inFlight)
    {
      request := None;
      if ShouldLoadMore(scrollTop, windowHeight, documentHeight) {
        request := BeginLoadMore();
      }
    }
  }

  /** The variables the touch handlers of `setupPullToRefresh` share. */
  class PullToRefresh {
    var startY: int
    var pullDistance: int
    var isPulling: bool
    const feed: FeedManager

    /** The distance is never negative, and outside a gesture everything is
        at rest. */
    ghost predicate Valid()
      reads this
    {
      pullDistance >= 0 && (!isPulling ==> startY == 0 && pullDistance == 0)
    }

    constructor (feed: FeedManager)
      ensures Valid() && this.feed == feed
      ensures startY == 0 && pullDistance == 0 && !isPulling
    {
      this.feed := feed;
      startY := 0;
      pullDistance := 0;
      isPulling := false;
    }

    /** touchstart: a gesture begins only with the page scrolled to the top. */
    method TouchStart(scrollY: int, clientY: int)
      requires Valid()
      modifies this
      ensures Valid()
      ensures if scrollY == 0 then startY == clientY && isPulling && pullDistance == old(pullDistance)
              else unchanged(this)
    {
      if scrollY == 0 {
        startY := clientY;
        isPulling := true;
      }
    }

    /** touchmove: while pulling, the distance is how far the finger moved
        down, never negative. `showsIndicator` is whether the default scroll
        is suppressed and the indicator moved; `armed` is whether its text
        reads "Release to refresh". */
    method TouchMove(scrollY: int, clientY: int) returns (showsIndicator: bool, armed: bool)
      requires Valid()
      modifies this
      ensures Valid()
      ensures !old(isPulling) ==> unchanged(this) && !showsIndicator
      ensures old(isPulling) ==> isPulling && startY == old(startY)
      ensures old(isPulling) ==> pullDistance == if clientY - startY > 0 then clientY - startY else 0
      ensures showsIndicator <==> old(isPulling) && pullDistance > 0 && scrollY == 0
      ensures showsIndicator ==> (armed <==> pullDistance > PullThreshold)
    {
      showsIndicator, armed := false, false;
      if !isPulling {
        return;
      }
      pullDistance := if clientY - startY > 0 then clientY - startY else 0;
      if pullDistance > 0 && scrollY == 0 {
        showsIndicator := true;
        armed := pullDistance > PullThreshold;
      }
    }

    /** touchend: a release past the threshold calls `refreshFeed` (whose
        guard may still refuse to start); every touchend puts the gesture
        back at rest. */
    method TouchEnd() returns (called: bool, started: bool)
      requires Valid() && feed.Valid()
      modifies this, feed
      ensures Valid() && feed.Valid()
      ensures startY == 0 && pullDistance == 0 && !isPulling
      ensures called <==> old(isPulling) && old(pullDistance) > PullThreshold
      ensures started <==> called && !old(feed.loading)
      ensures started ==> feed.inFlight == Refreshing
      ensures !started ==> feed.loading == old(feed.loading) && feed.inFlight == old(feed.inFlight)
      ensures feed.page == old(feed.page) && feed.hasMore == old(feed.hasMore)
    {
      called, started := false, false;
      if isPulling && pullDistance > PullThreshold {
        called := true;
        started := feed.BeginRefresh();
      }
      isPulling := false;
      pullDistance := 0;
      startY := 0;
    }
  }
}
