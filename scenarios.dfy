/** Event sequences over the feed and the gesture, stated as clients that
    build fresh objects and drive them step by step. */
module Scenarios {
  import opened Common
  import opened Posts
  import opened App
  import opened Feed

  /** A signed-in app whose first load returned an empty list. */
  method LoadedApp() returns (app: CivicConnect)
    ensures fresh(app) && app.Valid() && app.posts == Some([])
  {
    app := new CivicConnect([], Author(1, "John Doe", "johndoe", false), true);
    app.LoadPosts(Received([]), Received([]), 0, _ => Draw(0, 0, 0, 0, false));
  }

  /** From page 1, a page of five records and then an empty page: after two
      triggers the feed holds the five items in order, pagination is over,
      and a later scroll to the bottom asks for nothing. */
  method FivePagesThenEnd(five: seq<RawPost>, now: int, draw: nat -> Draw)
    returns (feedItems: seq<Post>, firstRequest: Option<int>, secondRequest: Option<int>, exhausted: bool, later: Option<int>)
    requires |five| == 5
    ensures feedItems == FetchMorePosts(Received(five), now, draw) && |feedItems| == 5
    ensures firstRequest == Some(2) && secondRequest == Some(3)
    ensures exhausted && later == None
  {
    var app := LoadedApp();
    var feed := new FeedManager(app);
    firstRequest := feed.BeginLoadMore();
    feed.FinishLoadMore(Received(five), now, draw, true);
    secondRequest := feed.BeginLoadMore();
    feed.FinishLoadMore(Received([]), now, draw, true);
    feedItems := app.posts.value;
    exhausted := !feed.hasMore;
    later := feed.OnScrollFrame(5000, 800, 5000);
  }

  /** While a page is being fetched, neither a scroll to the bottom nor a
      released pull starts a second fetch. */
  method NoSecondFetch(scrollTop: int, windowHeight: int, documentHeight: int)
    returns (first: Option<int>, second: Option<int>, refreshStarted: bool)
    ensures first == Some(2) && second == None && !refreshStarted
  {
    var app := LoadedApp();
    var feed := new FeedManager(app);
    first := feed.BeginLoadMore();
    second := feed.OnScrollFrame(scrollTop, windowHeight, documentHeight);
    refreshStarted := feed.BeginRefresh();
  }

  /** A failed request for the next page ends pagination, since the error
      becomes an empty page; a refresh afterwards gives pagination back. */
  method FailureThenRefresh(now: int, draw: nat -> Draw)
    returns (exhaustedAfterFailure: bool, page: int, hasMore: bool)
    ensures exhaustedAfterFailure && page == 1 && hasMore
  {
    var app := LoadedApp();
    var feed := new FeedManager(app);
    var request := feed.BeginLoadMore();
    feed.FinishLoadMore(Failed, now, draw, true);
    exhaustedAfterFailure := !feed.hasMore;
    var started := feed.BeginRefresh();
    feed.FinishRefresh(Failed, Failed, now, draw);
    page, hasMore := feed.page, feed.hasMore;
  }

  /** A pull from the top of the page released after moving `pull` pixels
      calls for a refresh exactly when `pull` exceeds 80: 81 does, 80 does not. */
  method ReleaseAfterPull(startY: int, pull: int) returns (called: bool)
    ensures called <==> pull > PullThreshold
  {
    var app := LoadedApp();
    var feed := new FeedManager(app);
    var gesture := new PullToRefresh(feed);
    gesture.TouchStart(0, startY);
    var shows, armed := gesture.TouchMove(0, startY + pull);
    var started;
    called, started := gesture.TouchEnd();
  }

  /** A pull that begins below the top of the page is ordinary scrolling. */
  method PullWhileScrolled(scrollY: int, startY: int, pull: int) returns (called: bool)
    requires scrollY != 0
    ensures !called
  {
    var app := LoadedApp();
    var feed := new FeedManager(app);
    var gesture := new PullToRefresh(feed);
    gesture.TouchStart(scrollY, startY);
    var shows, armed := gesture.TouchMove(scrollY, startY + pull);
    var started;
    called, started := gesture.TouchEnd();
  }

  /** Two touchend events after one long pull call for one refresh. */
  method DoubleRelease() returns (first: bool, second: bool)
    ensures first && !second
  {
    var app := LoadedApp();
    var feed := new FeedManager(app);
    var gesture := new PullToRefresh(feed);
    gesture.TouchStart(0, 10);
    var shows, armed := gesture.TouchMove(0, 10 + PullThreshold + 1);
    var s1, s2;
    first, s1 := gesture.TouchEnd();
    second, s2 := gesture.TouchEnd();
  }

  /** A refresh whose reload fails keeps the list but puts the cursor back
      to 1, so the next trigger fetches page 2 again and appends the same
      items a second time: the item list holds page 2 twice, and its ids
      collide (`Posts.LikeMissesLaterCopy` says what a like then does). */
  method DuplicateIdsAfterFailedRefresh(page2: seq<RawPost>, now: int, draw: nat -> Draw)
    returns (firstRequest: Option<int>, secondRequest: Option<int>, items: seq<Post>)
    requires |page2| >= 1
    ensures firstRequest == Some(2) && secondRequest == Some(2)
    ensures var more := FetchMorePosts(Received(page2), now, draw);
      items == more + more
    ensures |items| == 2 * |page2| && items[0].id == items[|page2|].id
  {
    var more := FetchMorePosts(Received(page2), now, draw);
    var app := LoadedApp();
    var feed := new FeedManager(app);
    firstRequest := feed.BeginLoadMore();
    feed.FinishLoadMore(Received(page2), now, draw, true);
    assert [] + more == more;
    var started := feed.BeginRefresh();
    assert LoadedPosts(Failed, Failed, now, draw).None?;
    feed.FinishRefresh(Failed, Failed, now, draw);
    secondRequest := feed.BeginLoadMore();
    feed.FinishLoadMore(Received(page2), now, draw, true);
    items := app.posts.value;
  }

  /** Saving an id that is not in the feed leaves the list as it was. */
  method SaveMissingId(items: seq<Post>, id: int) returns (before: seq<Post>, after: seq<Post>)
    requires AllWellFormed(items)
    requires forall i :: 0 <= i < |items| ==> items[i].id != id
    ensures after == before == items
  {
    var app := LoadedApp();
    var feed := new FeedManager(app);
    var ok := feed.AppendPosts(items, true);
    before := app.posts.value;
    app.ToggleSave(id);
    after := app.posts.value;
  }
}
