/** Feed items and the pure rules about them: how fetched JSON becomes feed
    items, how a like or a save changes one item, where a new item goes,
    the "time ago" label and the 280-character rule of the composer. */
module Posts {
  import opened Common
  import opened Text

  /** The author summary shown on a feed item. */
  datatype Author = Author(id: int, name: string, username: string, verified: bool)

  /** One feed item. `likes`, `comments` and `shares` are the counters, `liked`
      and `saved` the viewer's flags; `timestamp` is in milliseconds. */
  datatype Post = Post(
    id: int,
    author: Author,
    content: string,
    image: Option<string>,
    likes: int,
    comments: int,
    shares: int,
    timestamp: int,
    liked: bool,
    saved: bool)

  /** A post record as the JSON placeholder service returns it. */
  datatype RawPost = RawPost(id: int, userId: int, title: string)

  /** A user record as the JSON placeholder service returns it. */
  datatype RawUser = RawUser(id: int, name: string, username: string)

  /** The random draws made while building one item: each number stands for
      `Math.floor(Math.random() * N)` and is reduced modulo its `N` where it
      is used; `verified` stands for the `Math.random() > c` comparison. */
  datatype Draw = Draw(likes: nat, comments: nat, shares: nat, age: nat, verified: bool)

  /** Offset added to the ids of paged-in items so they do not collide with
      the ids of the first load. */
  const PageIdOffset := 1000

  const DayMs := 86400000

  /** Counters are never negative, and a liked item counts the viewer's like. */
  predicate WellFormed(p: Post)
  {
    p.likes >= 0 && p.comments >= 0 && p.shares >= 0 && (p.liked ==> p.likes >= 1)
  }

  predicate AllWellFormed(posts: seq<Post>)
  {
    forall i :: 0 <= i < |posts| ==> WellFormed(posts[i])
  }

  // ---------------------------------------------------------------------------
  // Building items from fetched JSON

  /** The item `fetchMorePosts` builds from one record of a later page. */
  function PagedPost(raw: RawPost, now: int, d: Draw): (p: Post)
    ensures p.id == raw.id + PageIdOffset && p.content == raw.title && p.author.id == raw.userId
    ensures !p.liked && !p.saved
    ensures 10 <= p.likes < 210 && 1 <= p.comments < 31 && 0 <= p.shares < 10
    ensures now - DayMs * 3 < p.timestamp <= now
    ensures WellFormed(p)
  {
    var id := raw.id + PageIdOffset;
    Post(
      id,
      Author(raw.userId, "User " + IntToString(raw.userId), "user" + IntToString(raw.userId), d.verified),
      raw.title,
      Some("https://picsum.photos/600/400?random=" + IntToString(id)),
      d.likes % 200 + 10,
      d.comments % 30 + 1,
      d.shares % 10,
      now - d.age % (DayMs * 3),
      false,
      false)
  }

  /** `fetchMorePosts`: every fetched record becomes one item, in order, with
      its id moved up by 1000 and both flags clear; any failure yields the
      empty page. `draw(i)` are the random draws for the i-th record. */
  function FetchMorePosts(response: Response<seq<RawPost>>, now: int, draw: nat -> Draw): (r: seq<Post>)
    ensures response.Failed? ==> r == []
    ensures response.Received? ==> |r| == |response.value|
    ensures response.Received? ==> forall i :: 0 <= i < |r| ==>
      && r[i].id == response.value[i].id + PageIdOffset
      && r[i].content == response.value[i].title
      && r[i].author.id == response.value[i].userId
      && !r[i].liked && !r[i].saved
      && 10 <= r[i].likes < 210 && 1 <= r[i].comments < 31 && 0 <= r[i].shares < 10
      && now - DayMs * 3 < r[i].timestamp <= now
    ensures AllWellFormed(r)
  {
    match response
    case Failed => []
    case Received(raws) =>
      var r := seq(|raws|, i requires 0 <= i < |raws| => PagedPost(raws[i], now, draw(i)));
      assert forall i :: 0 <= i < |r| ==> r[i] == PagedPost(raws[i], now, draw(i));
      r
  }

  /** The id offset keeps the first paged fetch after the first load apart
      from it: if every id already in the feed is below 1000 and the
      service's ids are not negative, no fetched item shares an id with an
      item in the feed. Later fetches get no such guarantee (see
      `Scenarios.DuplicateIdsAfterFailedRefresh`). */
  lemma PagedIdsAvoidFeed(feed: seq<Post>, response: Response<seq<RawPost>>, now: int, draw: nat -> Draw)
    requires forall i :: 0 <= i < |feed| ==> feed[i].id < PageIdOffset
    requires response.Received? ==> forall i :: 0 <= i < |response.value| ==> response.value[i].id >= 0
    ensures forall i, j :: 0 <= i < |feed| && 0 <= j < |FetchMorePosts(response, now, draw)| ==>
      feed[i].id != FetchMorePosts(response, now, draw)[j].id
  {
  }

  /** Distinct records give distinct item ids: the offset is added to every
      id alike. */
  lemma PagedIdsInjective(response: Response<seq<RawPost>>, now: int, draw: nat -> Draw)
    requires response.Received?
    ensures var r := FetchMorePosts(response, now, draw);
      forall i, j :: 0 <= i < |r| && 0 <= j < |r| && response.value[i].id != response.value[j].id ==>
        r[i].id != r[j].id
  {
  }

  /** The item `loadPosts` builds from the i-th post record and the user
      record at index `i % users.length`. */
  function LoadedPost(raw: RawPost, user: RawUser, now: int, d: Draw): (p: Post)
    ensures p.id == raw.id && p.content == raw.title && p.author.id == user.id
    ensures !p.liked && !p.saved
    ensures 10 <= p.likes < 510 && 1 <= p.comments < 51 && 0 <= p.shares < 20
    ensures now - DayMs * 7 < p.timestamp <= now
    ensures WellFormed(p)
  {
    Post(
      raw.id,
      Author(user.id, user.name, Lower(user.username), d.verified),
      raw.title,
      Some("https://picsum.photos/600/400?random=" + IntToString(raw.id)),
      d.likes % 500 + 10,
      d.comments % 50 + 1,
      d.shares % 20,
      now - d.age % (DayMs * 7),
      false,
      false)
  }

  /** `loadPosts`: the new item list, or None when the list is left as it was
      (either request failed, or there are posts but no users, where
      `users[index % 0]` is undefined and reading its `id` throws). */
  function LoadedPosts(posts: Response<seq<RawPost>>, users: Response<seq<RawUser>>, now: int, draw: nat -> Draw): (r: Option<seq<Post>>)
    ensures r.None? <==> posts.Failed? || users.Failed? || (|posts.value| > 0 && |users.value| == 0)
    ensures r.Some? ==> |r.value| == |posts.value| && AllWellFormed(r.value)
    ensures r.Some? ==> forall i :: 0 <= i < |r.value| ==>
      && r.value[i].id == posts.value[i].id
      && r.value[i].content == posts.value[i].title
      && r.value[i].author.id == users.value[i % |users.value|].id
      && !r.value[i].liked && !r.value[i].saved
      && 10 <= r.value[i].likes < 510 && 1 <= r.value[i].comments < 51 && 0 <= r.value[i].shares < 20
      && now - DayMs * 7 < r.value[i].timestamp <= now
  {
    if posts.Failed? || users.Failed? then None
    else if |posts.value| > 0 && |users.value| == 0 then None
    else
      var ps, us := posts.value, users.value;
      var r := seq(|ps|, i requires 0 <= i < |ps| => LoadedPost(ps[i], us[i % |us|], now, draw(i)));
      assert forall i :: 0 <= i < |r| ==> r[i] == LoadedPost(ps[i], us[i % |us|], now, draw(i));
      Some(r)
  }

  // ---------------------------------------------------------------------------
  // Finding an item and changing it

  /** `posts.find((p) => p.id === id)`, as the index of the first match. */
  function IndexOf(posts: seq<Post>, id: int): (r: Option<nat>)
    ensures r.Some? ==> r.value < |posts| && posts[r.value].id == id
    ensures r.Some? ==> forall j :: 0 <= j < r.value ==> posts[j].id != id
    ensures r.None? <==> forall j :: 0 <= j < |posts| ==> posts[j].id != id
  {
    if posts == [] then None
    else if posts[0].id == id then Some(0)
    else match IndexOf(posts[1..], id)
      case None => None
      case Some(k) => Some(k + 1)
  }

  /** The likes the item has apart from the viewer's own. */
  function OthersLikes(p: Post): int
  {
    if p.liked then p.likes - 1 else p.likes
  }

  /** One item after `toggleLike`: the flag flips, the counter follows it so
      that the likes from others stay the same, and nothing else changes. */
  function LikeToggled(p: Post): (r: Post)
    ensures r.liked == !p.liked
    ensures OthersLikes(r) == OthersLikes(p)
    ensures r.(liked := p.liked, likes := p.likes) == p
    ensures WellFormed(p) ==> WellFormed(r)
  {
    p.(liked := !p.liked, likes := if p.liked then p.likes - 1 else p.likes + 1)
  }

  /** One item after `toggleSave`: only the flag flips. */
  function SaveToggled(p: Post): (r: Post)
    ensures r.saved == !p.saved && r.(saved := p.saved) == p
  {
    p.(saved := !p.saved)
  }

  /** The item list after `toggleLike(id)`: the first item with that id is
      toggled; with no such item the list is unchanged. */
  function WithLikeToggled(posts: seq<Post>, id: int): (r: seq<Post>)
    ensures |r| == |posts|
    ensures forall i :: 0 <= i < |posts| ==> r[i].id == posts[i].id
    ensures (forall i :: 0 <= i < |posts| ==> posts[i].id != id) ==> r == posts
    ensures forall i :: 0 <= i < |posts| && posts[i].id == id && (forall j :: 0 <= j < i ==> posts[j].id != id) ==>
      && r[i].liked == !posts[i].liked
      && OthersLikes(r[i]) == OthersLikes(posts[i])
      && r[i].(liked := posts[i].liked, likes := posts[i].likes) == posts[i]
      && (forall k :: 0 <= k < |posts| && k != i ==> r[k] == posts[k])
    ensures AllWellFormed(posts) ==> AllWellFormed(r)
  {
    match IndexOf(posts, id)
    case None => posts
    case Some(i) => posts[i := LikeToggled(posts[i])]
  }

  /** The item list after `toggleSave(id)`. */
  function WithSaveToggled(posts: seq<Post>, id: int): (r: seq<Post>)
    ensures |r| == |posts|
    ensures forall i :: 0 <= i < |posts| ==> r[i].id == posts[i].id && r[i].likes == posts[i].likes && r[i].liked == posts[i].liked
    ensures (forall i :: 0 <= i < |posts| ==> posts[i].id != id) ==> r == posts
    ensures forall i :: 0 <= i < |posts| && posts[i].id == id && (forall j :: 0 <= j < i ==> posts[j].id != id) ==>
      && r[i].saved == !posts[i].saved
      && r[i].(saved := posts[i].saved) == posts[i]
      && (forall k :: 0 <= k < |posts| && k != i ==> r[k] == posts[k])
    ensures AllWellFormed(posts) ==> AllWellFormed(r)
  {
    match IndexOf(posts, id)
    case None => posts
    case Some(i) => posts[i := SaveToggled(posts[i])]
  }

  /** Liking twice restores the item list: both the flag and the counter. */
  lemma LikeToggledTwice(posts: seq<Post>, id: int)
    ensures WithLikeToggled(WithLikeToggled(posts, id), id) == posts
  {
  }

  /** Saving twice restores the item list. */
  lemma SaveToggledTwice(posts: seq<Post>, id: int)
    ensures WithSaveToggled(WithSaveToggled(posts, id), id) == posts
  {
  }

  /** With two items sharing an id, `toggleLike` on that id reaches only the
      earlier one: the later copy can never be liked through its own button. */
  lemma LikeMissesLaterCopy(posts: seq<Post>, i: nat, j: nat)
    requires i < j < |posts| && posts[i].id == posts[j].id
    ensures WithLikeToggled(posts, posts[j].id)[j] == posts[j]
  {
    var k := IndexOf(posts, posts[j].id).value;
    assert k <= i;
  }

  /** The item `submitPost` creates: every counter zero, both flags clear. */
  function NewPost(id: int, author: Author, content: string, image: Option<string>, timestamp: int): (p: Post)
    ensures p.likes == 0 && p.comments == 0 && p.shares == 0 && !p.liked && !p.saved
    ensures WellFormed(p)
  {
    Post(id, author, content, image, 0, 0, 0, timestamp, false, false)
  }

  /** `submitPost` accepts the draft when the trimmed text is not empty or an
      image is attached. */
  function SubmitAccepts(content: string, image: Option<string>): (accepted: bool)
    ensures accepted <==> (exists i :: 0 <= i < |content| && !IsJsWhitespace(content[i])) || image.Some?
  {
    TrimEmptyIff(content);
    Trim(content) != [] || image.Some?
  }

  // ---------------------------------------------------------------------------
  // The composer's character counter

  const MaxPostLength := 280

  /** `updateCharCount`'s "remaining" figure. */
  function CharsRemaining(value: string): (n: int)
    ensures n <= MaxPostLength
    ensures n >= 0 <==> |value| <= MaxPostLength
  {
    MaxPostLength - |value|
  }

  /** `updateCharCount` enables the post button when the draft has a
      non-whitespace character and fits in 280 characters. */
  function PostButtonEnabled(value: string): (enabled: bool)
    ensures enabled <==>
      (exists i :: 0 <= i < |value| && !IsJsWhitespace(value[i])) && |value| <= MaxPostLength
  {
    !(|Trim(value)| == 0 || CharsRemaining(value) < 0)
  }

  /** What the button lets through, `submitPost` accepts. */
  lemma ButtonImpliesAccepted(value: string, image: Option<string>)
    requires PostButtonEnabled(value)
    ensures SubmitAccepts(value, image) && |value| <= MaxPostLength
  {
  }

  // ---------------------------------------------------------------------------
  // "Time ago" labels

  /** The label `getTimeAgo` renders: `${n}m`, `${n}h` or `${n}d`. */
  datatype Age = Minutes(n: int) | Hours(n: int) | Days(n: int)

  function UnitMs(a: Age): int
  {
    match a
    case Minutes(_) => 60000
    case Hours(_) => 3600000
    case Days(_) => DayMs
  }

  /** `getTimeAgo` over an integer millisecond difference `now - timestamp`:
      whole minutes below an hour, whole hours below a day, whole days after.
      `Math.floor` of a quotient by a positive constant is Dafny's `/`. */
  function TimeAgo(now: int, timestamp: int): (a: Age)
    ensures a.Minutes? <==> now - timestamp < 3600000
    ensures a.Hours? <==> 3600000 <= now - timestamp < DayMs
    ensures a.Days? <==> DayMs <= now - timestamp
    ensures a.n * UnitMs(a) <= now - timestamp < (a.n + 1) * UnitMs(a)
  {
    var diff := now - timestamp;
    var minutes := diff / 60000;
    var hours := diff / 3600000;
    var days := diff / DayMs;
    if minutes < 60 then Minutes(minutes)
    else if hours < 24 then Hours(hours)
    else Days(days)
  }

  /** A paged-in item is younger than three days, so right after the fetch its
      label reads at most "2d". */
  lemma PagedPostAge(raw: RawPost, now: int, d: Draw)
    ensures var a := TimeAgo(now, PagedPost(raw, now, d).timestamp);
      a.Days? ==> a.n <= 2
  {
  }
}
