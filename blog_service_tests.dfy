/** The unit scenarios of the blog service, each run on a fresh service whose
    three accounts exist and follow nothing. Each scenario returns what the
    corresponding test inspects and states what it asserts. */
module ServiceTests {
  import opened Sequences
  import opened Substrings
  import opened Entities
  import opened Service

  const Account1: int := 1
  const Account2: int := 2
  const Account3: int := 3
  /** An id that no account and no blog ever has. */
  const NonExistentId: int := -1

  /** The fixture: three accounts, no blogs. */
  method Fixture() returns (service: BlogService)
    ensures fresh(service) && service.Valid()
    ensures service.accounts.Keys == {Account1, Account2, Account3} && NonExistentId !in service.accounts
    ensures service.accounts[Account1].followingBlogs == [] && service.accounts[Account2].followingBlogs == []
    ensures service.accounts[Account3].followingBlogs == []
    ensures service.blogs == map[] && service.saved == [] && service.nextId == 0
  {
    service := new BlogService({Account1, Account2, Account3});
  }

  /** Saves Account1's public blog "MyBlog". */
  method SavePublic(service: BlogService) returns (blog: Blog)
    requires service.Valid() && service.blogs == map[]
    modifies service
    ensures service.Valid()
    ensures blog == Blog(old(service.nextId), "MyBlog", "AdriBlog", "This is the blog of Adri", false, Account1, [], [])
    ensures service.blogs == map[blog.blogId := blog] && service.saved == [blog.blogId]
    ensures service.accounts == old(service.accounts)
  {
    var r := service.Save("MyBlog", "AdriBlog", "This is the blog of Adri", false, Account1);
    blog := r.value;
  }

  /** Saves Account1's private blog "YourBlog" next to whatever is stored. */
  method SavePrivate(service: BlogService) returns (blog: Blog)
    requires service.Valid()
    requires forall id :: id in service.blogs ==> service.blogs[id].name == "MyBlog"
    modifies service
    ensures service.Valid()
    ensures blog == Blog(old(service.nextId), "YourBlog", "AdriBlog2", "This is the second blog of Adri", true, Account1, [], [])
    ensures blog.blogId !in old(service.blogs)
    ensures service.blogs == old(service.blogs)[blog.blogId := blog] && service.saved == old(service.saved) + [blog.blogId]
    ensures service.accounts == old(service.accounts)
  {
    var r := service.Save("YourBlog", "AdriBlog2", "This is the second blog of Adri", true, Account1);
    blog := r.value;
  }

  /** PR-UN-001: a saved blog is found under its name. */
  method SaveBlog() returns (blog: Blog, found: Option<Blog>)
    ensures blog.name == "MyBlog" && found == Some(blog)
  {
    var service := Fixture();
    blog := SavePublic(service);
    found := service.FindBlogByName(blog.name);
  }

  /** PR-UN-002: a second blog with the same name is refused, whatever its other attributes. */
  method SaveBlogWithExistingName() returns (second: Result<Blog>)
    ensures second == Err(SaveNotAvailable)
  {
    var service := Fixture();
    var first := SavePublic(service);
    second := service.Save("MyBlog", "BraisBlog", "This is the blog of Brais", false, Account1);
  }

  /** PR-UN-003: an updated blog is found under its new name, after each update. */
  method UpdateBlog() returns (updated: Result<Blog>, found: Option<Blog>, updated2: Result<Blog>, found2: Option<Blog>)
    ensures updated.Ok? && updated.value.name == "YourBlog" && updated.value.title == "BraisBlog"
    ensures found == Some(updated.value)
    ensures updated2.Ok? && updated2.value.name == "YourBlog" && updated2.value.title == "ChristianBlog"
    ensures found2 == Some(updated2.value)
  {
    var service := Fixture();
    var blog := SavePublic(service);
    updated := service.Update(blog.blogId, "YourBlog", "BraisBlog", blog.description);
    found := service.FindBlogByName("YourBlog");
    updated2 := service.Update(blog.blogId, "YourBlog", "ChristianBlog", blog.description);
    found2 := service.FindBlogByName("YourBlog");
  }

  /** A follow the state machine allows: the account exists, is not the owner and is
      unrelated to the blog. */
  method FollowAllowed(service: BlogService, accountId: int, blogId: int)
    requires service.Valid() && accountId in service.accounts && blogId in service.blogs
    requires accountId != service.blogs[blogId].owner && service.blogs[blogId].StateOf(accountId) == Unrelated
    modifies service
    ensures service.Valid() && service.saved == old(service.saved) && service.nextId == old(service.nextId)
    ensures service.blogs.Keys == old(service.blogs.Keys) && service.accounts.Keys == old(service.accounts.Keys)
    ensures forall id :: id in service.blogs && id != blogId ==> service.blogs[id] == old(service.blogs[id])
    ensures forall id :: id in service.accounts && id != accountId ==> service.accounts[id] == old(service.accounts[id])
    ensures !old(service.blogs[blogId]).isPrivate ==>
              && service.blogs[blogId] == AddFollower(old(service.blogs[blogId]), accountId)
              && service.accounts[accountId].followingBlogs == old(service.accounts[accountId]).followingBlogs + [blogId]
    ensures old(service.blogs[blogId]).isPrivate ==>
              && service.blogs[blogId] == AddRequest(old(service.blogs[blogId]), accountId)
              && service.accounts[accountId] == old(service.accounts[accountId])
  {
    var r := service.Follow(accountId, blogId);
  }

  /** Two follows of a blog without followers list both accounts, in call order;
      unfollowing the second leaves the first. */
  lemma FollowedTwice(blog: Blog)
    requires blog.followers == []
    ensures AddFollower(AddFollower(blog, Account2), Account3).followers == [Account2, Account3]
    ensures DropFollower(AddFollower(AddFollower(blog, Account2), Account3), Account3).followers == [Account2]
  {
    assert Remove([Account2, Account3], Account3) == [Account2];
  }

  /** A request on a blog without followers or requests, then accepted or denied. */
  lemma Answered(blog: Blog)
    requires blog.followers == [] && blog.followRequests == []
    ensures GrantRequest(AddRequest(blog, Account2), Account2).followers == [Account2]
    ensures GrantRequest(AddRequest(blog, Account2), Account2).followRequests == []
    ensures DropRequest(AddRequest(blog, Account2), Account2).followers == []
    ensures DropRequest(AddRequest(blog, Account2), Account2).followRequests == []
  {
  }

  /** An account's list of followed blogs after following blogId once, and after unfollowing it. */
  lemma FollowedOnce(account: Account, blogId: int)
    requires account.followingBlogs == []
    ensures account.followingBlogs + [blogId] == [blogId]
    ensures Remove(account.followingBlogs + [blogId], blogId) == []
  {
  }

  /** Account2 then Account3 follow the public blog b, which had no followers, and
      Account3 asks to follow the private blog b2, which had no requests. */
  method FollowThree(service: BlogService, b: int, b2: int)
    requires service.Valid() && b in service.blogs && b2 in service.blogs && b != b2
    requires !service.blogs[b].isPrivate && service.blogs[b].owner == Account1 && service.blogs[b].followers == []
    requires service.blogs[b2].isPrivate && service.blogs[b2].owner == Account1
    requires service.blogs[b2].followers == [] && service.blogs[b2].followRequests == []
    requires Account2 in service.accounts && service.accounts[Account2].followingBlogs == []
    requires Account3 in service.accounts && service.accounts[Account3].followingBlogs == []
    modifies service
    ensures b in service.blogs && b2 in service.blogs && Account2 in service.accounts && Account3 in service.accounts
    ensures service.blogs[b].followers == [Account2, Account3] && service.blogs[b2].followRequests == [Account3]
    ensures service.accounts[Account2].followingBlogs == [b] && service.accounts[Account3].followingBlogs == [b]
  {
    ghost var blog := service.blogs[b];
    FollowedTwice(blog);
    FollowedOnce(Account(Account2, []), b);
    FollowAllowed(service, Account2, b);
    assert service.blogs[b] == AddFollower(blog, Account2);
    FollowAllowed(service, Account3, b);
    assert service.blogs[b].followers == [Account2, Account3];
    assert service.accounts[Account3].followingBlogs == [b];
    FollowAllowed(service, Account3, b2);
  }

  /** PR-UN-004: following a public blog appends to its followers in call order and to the
      follower's blogs; following a private blog only appends a request. */
  method FollowBlogs() returns (blog: Blog, blog2: Blog, followers: seq<int>, following2: seq<int>,
                                following3: seq<int>, requests2: seq<int>)
    ensures followers == [Account2, Account3]
    ensures following2 == [blog.blogId] && following3 == [blog.blogId]
    ensures requests2 == [Account3]
  {
    var service := Fixture();
    blog := SavePublic(service);
    blog2 := SavePrivate(service);
    FollowThree(service, blog.blogId, blog2.blogId);
    followers := service.blogs[blog.blogId].followers;
    following2 := service.accounts[Account2].followingBlogs;
    following3 := service.accounts[Account3].followingBlogs;
    requests2 := service.blogs[blog2.blogId].followRequests;
  }

  /** PR-UN-005: the owner cannot follow, a follower cannot follow again, and a
      pending requester cannot ask again. */
  method FollowNotAvailable() returns (own: Outcome, again: Outcome, pending: Outcome)
    ensures own == Fail(IllegalFollow) && again == Fail(IllegalFollow) && pending == Fail(IllegalFollow)
  {
    var service := Fixture();
    var blog := SavePublic(service);
    var blog2 := SavePrivate(service);
    own := service.Follow(Account1, blog.blogId);
    var first := service.Follow(Account2, blog.blogId);
    again := service.Follow(Account2, blog.blogId);
    var request := service.Follow(Account2, blog2.blogId);
    pending := service.Follow(Account2, blog2.blogId);
  }

  /** PR-UN-006 and PR-UN-007: follow with an unknown blog or account. */
  method FollowNonExistent() returns (noBlog: Outcome, noAccount: Outcome)
    ensures noBlog == Fail(InstanceNotFound) && noAccount == Fail(InstanceNotFound)
  {
    var service := Fixture();
    noBlog := service.Follow(Account1, NonExistentId);
    service := Fixture();
    var blog := SavePublic(service);
    noAccount := service.Follow(NonExistentId, blog.blogId);
  }

  /** PR-UN-008: unfollowing removes exactly that follower, the others keep their order,
      and the blog leaves the account's list. */
  method UnfollowBlog() returns (blog: Blog, before: seq<int>, before2: seq<int>, before3: seq<int>,
                                 followers: seq<int>, following3: seq<int>)
    ensures before == [Account2, Account3]
    ensures before2 == [blog.blogId] && before3 == [blog.blogId]
    ensures followers == [Account2] && following3 == []
  {
    var service := Fixture();
    blog := SavePublic(service);
    FollowedTwice(blog);
    FollowedOnce(Account(Account3, []), blog.blogId);
    FollowAllowed(service, Account2, blog.blogId);
    assert service.blogs[blog.blogId] == AddFollower(blog, Account2);
    assert service.accounts[Account2].followingBlogs == [blog.blogId];
    FollowAllowed(service, Account3, blog.blogId);
    var followed := AddFollower(AddFollower(blog, Account2), Account3);
    assert service.blogs[blog.blogId] == followed;
    assert service.accounts[Account3].followingBlogs == [blog.blogId];
    before := service.blogs[blog.blogId].followers;
    before2 := service.accounts[Account2].followingBlogs;
    before3 := service.accounts[Account3].followingBlogs;
    var r3 := service.Unfollow(Account3, blog.blogId);
    assert r3 == Pass;
    assert service.blogs[blog.blogId] == DropFollower(followed, Account3);
    followers := service.blogs[blog.blogId].followers;
    following3 := service.accounts[Account3].followingBlogs;
  }

  /** PR-UN-009: an account that does not follow the blog cannot unfollow it. */
  method UnfollowNotAvailable() returns (r: Outcome)
    ensures r == Fail(IllegalFollow)
  {
    var service := Fixture();
    var blog := SavePublic(service);
    r := service.Unfollow(Account2, blog.blogId);
  }

  /** PR-UN-010 and PR-UN-011: unfollow with an unknown blog or account. */
  method UnfollowNonExistent() returns (noBlog: Outcome, noAccount: Outcome)
    ensures noBlog == Fail(InstanceNotFound) && noAccount == Fail(InstanceNotFound)
  {
    var service := Fixture();
    noBlog := service.Unfollow(Account1, NonExistentId);
    service := Fixture();
    var blog := SavePublic(service);
    noAccount := service.Unfollow(NonExistentId, blog.blogId);
  }

  /** PR-UN-012: accepting a pending request makes the account a follower on both
      sides and empties the requests. */
  method AcceptRequest() returns (blog2: Blog, followers: seq<int>, following2: seq<int>, requests: seq<int>)
    ensures followers == [Account2] && following2 == [blog2.blogId] && requests == []
  {
    var service := Fixture();
    blog2 := SavePrivate(service);
    Answered(blog2);
    FollowedOnce(Account(Account2, []), blog2.blogId);
    var r1 := service.Follow(Account2, blog2.blogId);
    assert r1 == Pass;
    assert service.blogs[blog2.blogId] == AddRequest(blog2, Account2);
    var r2 := service.AcceptFollowRequest(Account2, blog2.blogId);
    assert r2 == Pass;
    assert service.blogs[blog2.blogId] == GrantRequest(AddRequest(blog2, Account2), Account2);
    followers := service.blogs[blog2.blogId].followers;
    following2 := service.accounts[Account2].followingBlogs;
    requests := service.blogs[blog2.blogId].followRequests;
  }

  /** PR-UN-013: accepting fails for a follower, for the owner, and without a pending request. */
  method AcceptRequestNotAvailable() returns (follower: Outcome, owner: Outcome, none: Outcome)
    ensures follower == Fail(IllegalFollow) && owner == Fail(IllegalFollow) && none == Fail(IllegalFollow)
  {
    var service := Fixture();
    var blog2 := SavePrivate(service);
    var r1 := service.Follow(Account2, blog2.blogId);
    var r2 := service.AcceptFollowRequest(Account2, blog2.blogId);
    follower := service.AcceptFollowRequest(Account2, blog2.blogId);
    var r3 := service.Unfollow(Account2, blog2.blogId);
    assert r3 == Pass;
    owner := service.AcceptFollowRequest(Account1, blog2.blogId);
    none := service.AcceptFollowRequest(Account2, blog2.blogId);
  }

  /** PR-UN-014 and PR-UN-015: accepting with an unknown blog or account. */
  method AcceptRequestNonExistent() returns (noBlog: Outcome, noAccount: Outcome)
    ensures noBlog == Fail(InstanceNotFound) && noAccount == Fail(InstanceNotFound)
  {
    var service := Fixture();
    noBlog := service.AcceptFollowRequest(Account1, NonExistentId);
    service := Fixture();
    var blog2 := SavePrivate(service);
    noAccount := service.AcceptFollowRequest(NonExistentId, blog2.blogId);
  }

  /** PR-UN-016: denying a pending request leaves no follower, no followed blog and no request. */
  method DenyRequest() returns (followers: seq<int>, following2: seq<int>, requests: seq<int>)
    ensures followers == [] && following2 == [] && requests == []
  {
    var service := Fixture();
    var blog2 := SavePrivate(service);
    Answered(blog2);
    var r1 := service.Follow(Account2, blog2.blogId);
    assert r1 == Pass;
    assert service.blogs[blog2.blogId] == AddRequest(blog2, Account2);
    var r2 := service.DenyFollowRequest(Account2, blog2.blogId);
    assert r2 == Pass;
    assert service.blogs[blog2.blogId] == DropRequest(AddRequest(blog2, Account2), Account2);
    followers := service.blogs[blog2.blogId].followers;
    following2 := service.accounts[Account2].followingBlogs;
    requests := service.blogs[blog2.blogId].followRequests;
  }

  /** PR-UN-017: denying fails for a follower, for the owner, and without a pending request. */
  method DenyRequestNotAvailable() returns (follower: Outcome, owner: Outcome, none: Outcome)
    ensures follower == Fail(IllegalFollow) && owner == Fail(IllegalFollow) && none == Fail(IllegalFollow)
  {
    var service := Fixture();
    var blog2 := SavePrivate(service);
    var r1 := service.Follow(Account2, blog2.blogId);
    var r2 := service.AcceptFollowRequest(Account2, blog2.blogId);
    follower := service.DenyFollowRequest(Account2, blog2.blogId);
    var r3 := service.Unfollow(Account2, blog2.blogId);
    assert r3 == Pass;
    owner := service.DenyFollowRequest(Account1, blog2.blogId);
    none := service.DenyFollowRequest(Account2, blog2.blogId);
  }

  /** PR-UN-018 and PR-UN-019: denying with an unknown blog or account. */
  method DenyRequestNonExistent() returns (noBlog: Outcome, noAccount: Outcome)
    ensures noBlog == Fail(InstanceNotFound) && noAccount == Fail(InstanceNotFound)
  {
    var service := Fixture();
    noBlog := service.DenyFollowRequest(Account1, NonExistentId);
    service := Fixture();
    var blog2 := SavePrivate(service);
    noAccount := service.DenyFollowRequest(NonExistentId, blog2.blogId);
  }

  /** PR-UN-020: findBlogByName returns the saved blog. */
  method FindByName() returns (blog: Blog, found: Option<Blog>)
    ensures found == Some(blog)
  {
    var service := Fixture();
    blog := SavePublic(service);
    found := service.FindBlogByName(blog.name);
  }

  /** Saves "MyBlog" and then "YourBlog" into an empty store; every search lists
      the matching ones in that order. */
  method SaveBoth(service: BlogService) returns (blog: Blog, blog2: Blog)
    requires service.Valid() && service.blogs == map[] && service.saved == []
    modifies service
    ensures service.Valid()
    ensures blog.name == "MyBlog" && blog2.name == "YourBlog"
    ensures forall sub :: service.FindBlogs(sub)
              == (if Contains(blog.name, sub) then [blog] else []) + (if Contains(blog2.name, sub) then [blog2] else [])
  {
    var r1 := service.Save("MyBlog", "AdriBlog", "This is the blog of Adri", false, Account1);
    blog := r1.value;
    assert forall sub :: service.FindBlogs(sub) == if Contains("MyBlog", sub) then [blog] else [];
    var r2 := service.Save("YourBlog", "AdriBlog2", "This is the second blog of Adri", true, Account1);
    assert r2.Ok?;
    blog2 := r2.value;
  }

  /** One search over a store holding exactly blog and blog2, saved in that order. */
  method SearchTwo(service: BlogService, blog: Blog, blog2: Blog, keyword: string) returns (found: seq<Blog>)
    requires service.Valid()
    requires forall sub :: service.FindBlogs(sub)
              == (if Contains(blog.name, sub) then [blog] else []) + (if Contains(blog2.name, sub) then [blog2] else [])
    ensures found == (if Contains(blog.name, keyword) then [blog] else []) + (if Contains(blog2.name, keyword) then [blog2] else [])
  {
    found := service.FindBlogs(keyword);
  }

  /** No saved name contains "zzz". */
  lemma NoneMatch(name: string, name2: string)
    requires name == "MyBlog" && name2 == "YourBlog"
    ensures !Contains(name, "zzz") && !Contains(name2, "zzz")
  {
    FirstCharAbsent(name, "zzz");
    FirstCharAbsent(name2, "zzz");
  }

  /** Only the first name contains "My". */
  lemma FirstMatches(name: string, name2: string)
    requires name == "MyBlog" && name2 == "YourBlog"
    ensures Contains(name, "My") && !Contains(name2, "My")
  {
    FirstCharAbsent(name2, "My");
    assert name[..2] == "My";
  }

  /** Both names contain "Blog". */
  lemma BothMatch(name: string, name2: string)
    requires name == "MyBlog" && name2 == "YourBlog"
    ensures Contains(name, "Blog") && Contains(name2, "Blog")
  {
    ContainsOccurs(name, "Blog");
    ContainsOccurs(name2, "Blog");
    assert OccursAt("Blog", name, 2);
    assert OccursAt("Blog", name2, 4);
  }

  /** PR-UN-021: findBlogs matches substrings of the names, in save order. */
  method FindBySubstring() returns (blog: Blog, blog2: Blog, none: seq<Blog>, my: seq<Blog>, both: seq<Blog>)
    ensures blog.name == "MyBlog" && blog2.name == "YourBlog"
    ensures none == [] && my == [blog] && both == [blog, blog2]
  {
    var service := Fixture();
    blog, blog2 := SaveBoth(service);
    NoneMatch(blog.name, blog2.name);
    FirstMatches(blog.name, blog2.name);
    BothMatch(blog.name, blog2.name);
    none := SearchTwo(service, blog, blog2, "zzz");
    my := SearchTwo(service, blog, blog2, "My");
    both := SearchTwo(service, blog, blog2, "Blog");
  }

  /** PR-UN-022: after following a public blog the account is a follower. */
  method IsFollowerAfterFollow() returns (r: Result<bool>)
    ensures r == Ok(true)
  {
    var service := Fixture();
    var blog := SavePublic(service);
    var r1 := service.Follow(Account2, blog.blogId);
    assert r1 == Pass;
    assert service.blogs[blog.blogId] == AddFollower(blog, Account2);
    r := service.IsFollower(Account2, blog.blogId);
  }

  /** PR-UN-023 and PR-UN-024: isFollower with an unknown blog or account. */
  method IsFollowerNonExistent() returns (noBlog: Result<bool>, noAccount: Result<bool>)
    ensures noBlog == Err(InstanceNotFound) && noAccount == Err(InstanceNotFound)
  {
    var service := Fixture();
    noBlog := service.IsFollower(Account1, NonExistentId);
    var blog := SavePublic(service);
    noAccount := service.IsFollower(NonExistentId, blog.blogId);
  }

  /** PR-UN-025: after following a private blog the account has a pending request. */
  method IsFollowRequestAfterFollow() returns (r: Result<bool>)
    ensures r == Ok(true)
  {
    var service := Fixture();
    var blog2 := SavePrivate(service);
    var r1 := service.Follow(Account2, blog2.blogId);
    assert r1 == Pass;
    assert service.blogs[blog2.blogId] == AddRequest(blog2, Account2);
    r := service.IsFollowRequest(Account2, blog2.blogId);
  }

  /** PR-UN-026 and PR-UN-027: isFollowRequest with an unknown blog or account. */
  method IsFollowRequestNonExistent() returns (noBlog: Result<bool>, noAccount: Result<bool>)
    ensures noBlog == Err(InstanceNotFound) && noAccount == Err(InstanceNotFound)
  {
    var service := Fixture();
    noBlog := service.IsFollowRequest(Account1, NonExistentId);
    var blog2 := SavePrivate(service);
    noAccount := service.IsFollowRequest(NonExistentId, blog2.blogId);
  }
}
