/** The application object: the feed's item list, the local user store and
    the signed-in user, with the actions that change them in place. */
module App {
  import opened Common
  import opened Text
  import opened Posts
  import opened Accounts

  /** The author shown on items the signed-in user writes. */
  function AuthorOf(a: Account): Author
  {
    Author(a.id, a.name, a.username, false)
  }

  class CivicConnect {
    /** `this.posts`: undefined until the first successful load. */
    var posts: Option<seq<Post>>
    /** The local user store. */
    var registeredUsers: seq<Account>
    var currentUser: Author
    var isAuthenticated: bool

    ghost predicate Valid()
      reads this
    {
      posts.Some? ==> AllWellFormed(posts.value)
    }

    /** `users` is what the user store held; no item list exists yet. */
    constructor (users: seq<Account>, user: Author, authenticated: bool)
      ensures Valid()
      ensures posts == None && registeredUsers == users
      ensures currentUser == user && isAuthenticated == authenticated
    {
      posts := None;
      registeredUsers := users;
      currentUser := user;
      isAuthenticated := authenticated;
    }

    /** `loadPosts`: replaces the item list, or leaves it as it was on any
        failure (the error is caught and reported). */
    method LoadPosts(postsResponse: Response<seq<RawPost>>, usersResponse: Response<seq<RawUser>>, now: int, draw: nat -> Draw)
      requires Valid()
      modifies this`posts
      ensures Valid()
      ensures var loaded := LoadedPosts(postsResponse, usersResponse, now, draw);
        posts == if loaded.Some? then loaded else old(posts)
    {
      var loaded := LoadedPosts(postsResponse, usersResponse, now, draw);
      if loaded.Some? {
        posts := loaded;
      }
    }

    /** `toggleLike(id)`: flips the flag of the first item with that id and
        moves its counter with it. Before the first load `this.posts` is
        undefined, `find` throws and nothing changes. */
    method ToggleLike(id: int)
      requires Valid()
      modifies this`posts
      ensures Valid()
      ensures posts == if old(posts).Some? then Some(WithLikeToggled(old(posts).value, id)) else old(posts)
    {
      if posts.Some? {
        posts := Some(WithLikeToggled(posts.value, id));
      }
    }

    /** `toggleSave(id)`: flips only the saved flag of the first item with
        that id. */
    method ToggleSave(id: int)
      requires Valid()
      modifies this`posts
      ensures Valid()
      ensures posts == if old(posts).Some? then Some(WithSaveToggled(old(posts).value, id)) else old(posts)
    {
      if posts.Some? {
        posts := Some(WithSaveToggled(posts.value, id));
      }
    }

    /** `submitPost`: with trimmed text or an attached image (`image` is the
        object URL made for it), puts one new item with zero counters at the
        front and keeps the rest in order. `now` is `Date.now()`, used as the
        id and as the timestamp. */
    method SubmitPost(draft: string, image: Option<string>, now: int) returns (created: bool)
      requires Valid()
      modifies this`posts
      ensures Valid()
      ensures created <==> SubmitAccepts(draft, image) && old(posts).Some?
      ensures created ==> posts == Some([NewPost(now, currentUser, Trim(draft), image, now)] + old(posts).value)
      ensures !created ==> posts == old(posts)
    {
      var content := Trim(draft);
      created := false;
      if content != [] || image.Some? {
        if posts.Some? {
          posts := Some([NewPost(now, currentUser, content, image, now)] + posts.value);
          created := true;
        }
      }
    }

    /** `handleSignup`: runs the validation chain; an accepted form appends
        one account to the store and signs it in. The duplicate-address check
        comes before the push, so a store without duplicates keeps none. */
    method Signup(form: SignupForm, validEmail: string -> bool, now: int) returns (r: Result<Account, SignupError>)
      requires Valid()
      modifies this`registeredUsers, this`currentUser, this`isAuthenticated
      ensures Valid()
      ensures r.Failure? <==> ValidateSignup(form, old(registeredUsers), validEmail).Some?
      ensures r.Failure? ==> Some(r.error) == ValidateSignup(form, old(registeredUsers), validEmail)
      ensures r.Failure? ==> unchanged(this)
      ensures r.Success? ==> r.value == NewAccount(form, now)
      ensures r.Success? ==> registeredUsers == old(registeredUsers) + [r.value]
      ensures r.Success? ==> currentUser == AuthorOf(r.value) && isAuthenticated
      ensures DistinctEmails(old(registeredUsers)) ==> DistinctEmails(registeredUsers)
    {
      var check := ValidateSignup(form, registeredUsers, validEmail);
      if check.Some? {
        return Failure(check.value);
      }
      var account := NewAccount(form, now);
      if DistinctEmails(registeredUsers) {
        SignupKeepsEmailsDistinct(form, registeredUsers, validEmail, now);
      }
      registeredUsers := registeredUsers + [account];
      currentUser := AuthorOf(account);
      isAuthenticated := true;
      r := Success(account);
    }
  }
}
