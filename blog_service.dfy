/** The blog service: a blog store, the accounts it knows, and the follow
    state machine between them. */
module Service {
  import opened Sequences
  import opened Substrings
  import opened Entities

  /** The blog store: every stored id is listed once in save order, each blog is
      stored under its own id below nextId, and no two blogs share a name. */
  ghost predicate StoreOk(blogs: map<int, Blog>, saved: seq<int>, nextId: int) {
    && NoDup(saved)
    && (forall id :: id in saved ==> id in blogs)
    && (forall id :: id in blogs ==> id in saved)
    && (forall id :: id in blogs ==> blogs[id].blogId == id)
    && (forall id :: id in blogs ==> 0 <= id < nextId)
    && (forall i, j :: i in blogs && j in blogs && blogs[i].name == blogs[j].name ==> i == j)
  }

  /** Every account is kept under its own id. */
  ghost predicate AccountsOk(accounts: map<int, Account>) {
    forall a :: a in accounts ==> accounts[a].id == a
  }

  /** Blog b is well formed, refers to known accounts only, and its followers are
      exactly the accounts that list b among the blogs they follow. */
  ghost predicate BlogLinked(blog: Blog, b: int, accounts: map<int, Account>) {
    && blog.WellFormed()
    && (forall a :: a in blog.followers ==> a in accounts)
    && (forall a :: a in blog.followRequests ==> a in accounts)
    && (forall a :: a in accounts ==> (a in blog.followers <==> b in accounts[a].followingBlogs))
  }

  /** An account follows each blog at most once, and only stored blogs. */
  ghost predicate AccountLinked(account: Account, blogIds: set<int>) {
    && NoDup(account.followingBlogs)
    && (forall b :: b in account.followingBlogs ==> b in blogIds)
  }

  /** The two sides of every follow relationship agree. */
  ghost predicate FollowsOk(blogs: map<int, Blog>, accounts: map<int, Account>) {
    && (forall b :: b in blogs ==> BlogLinked(blogs[b], b, accounts))
    && (forall a :: a in accounts ==> AccountLinked(accounts[a], blogs.Keys))
  }

  /** Replacing one blog and one account keeps the two sides in agreement when the
      new blog is linked to the new accounts and the new account's other follows
      are the old ones. */
  lemma UpdatePair(blogs: map<int, Blog>, accounts: map<int, Account>, b: int, blog: Blog, a: int, account: Account,
                    blogs': map<int, Blog>, accounts': map<int, Account>)
    requires FollowsOk(blogs, accounts) && b in blogs && a in accounts
    requires blogs' == blogs[b := blog] && accounts' == accounts[a := account]
    requires BlogLinked(blog, b, accounts[a := account])
    requires AccountLinked(account, blogs.Keys)
    requires forall c :: c in blogs && c != b ==> (c in account.followingBlogs <==> c in accounts[a].followingBlogs)
    ensures FollowsOk(blogs', accounts')
  {
    forall c | c in blogs' ensures BlogLinked(blogs'[c], c, accounts') {
      if c != b {
        assert BlogLinked(blogs[c], c, accounts);
        assert forall x :: x in accounts' ==> (x in blogs[c].followers <==> c in accounts'[x].followingBlogs);
      }
    }
    forall x | x in accounts' ensures AccountLinked(accounts'[x], blogs'.Keys) {
      if x != a {
        assert AccountLinked(accounts[x], blogs.Keys);
      }
    }
  }

  /** Replacing a blog by one with the same lists keeps the two sides in agreement. */
  lemma ReplaceBlogKeepsFollows(blogs: map<int, Blog>, accounts: map<int, Account>, b: int, blog: Blog,
                                 blogs': map<int, Blog>)
    requires FollowsOk(blogs, accounts) && b in blogs && blogs' == blogs[b := blog]
    requires BlogLinked(blog, b, accounts)
    ensures FollowsOk(blogs', accounts)
  {
    forall a | a in accounts ensures AccountLinked(accounts[a], blogs'.Keys) {
      assert AccountLinked(accounts[a], blogs.Keys);
    }
  }

  /** Renaming a blog to a name no other blog has keeps the store valid. */
  lemma RenameKeepsStore(blogs: map<int, Blog>, saved: seq<int>, nextId: int, b: int, blog: Blog,
                          blogs': map<int, Blog>)
    requires StoreOk(blogs, saved, nextId) && b in blogs && blog.blogId == b && blogs' == blogs[b := blog]
    requires forall id :: id in blogs && id != b ==> blogs[id].name != blog.name
    ensures StoreOk(blogs', saved, nextId)
  {
  }

  /** Replacing an account by one with the same id keeps every account under its own id. */
  lemma ReplaceAccount(accounts: map<int, Account>, a: int, account: Account, accounts': map<int, Account>)
    requires AccountsOk(accounts) && account.id == a && accounts' == accounts[a := account]
    ensures AccountsOk(accounts')
  {
  }

  /** Changing a blog's lists keeps the store valid: its id and name stay. */
  lemma StoreKeepsName(blogs: map<int, Blog>, saved: seq<int>, nextId: int, b: int, blog: Blog,
                        blogs': map<int, Blog>)
    requires StoreOk(blogs, saved, nextId) && b in blogs && blogs' == blogs[b := blog]
    requires blog.blogId == blogs[b].blogId && blog.name == blogs[b].name
    ensures StoreOk(blogs', saved, nextId)
  {
  }

  /** Storing a blog under the next id, with a name no stored blog has, keeps the store valid. */
  lemma AddBlogKeepsStore(blogs: map<int, Blog>, saved: seq<int>, nextId: int, blog: Blog,
                          blogs': map<int, Blog>, saved': seq<int>, nextId': int)
    requires StoreOk(blogs, saved, nextId) && 0 <= nextId && blog.blogId == nextId
    requires forall id :: id in blogs ==> blogs[id].name != blog.name
    requires blogs' == blogs[nextId := blog] && saved' == saved + [nextId] && nextId' == nextId + 1
    ensures StoreOk(blogs', saved', nextId')
  {
    assert nextId !in saved;
    AppendToSet(saved, nextId);
    forall i, j | i in blogs' && j in blogs' && blogs'[i].name == blogs'[j].name ensures i == j {
      if i != nextId && j != nextId {
        assert blogs'[i] == blogs[i] && blogs'[j] == blogs[j];
      }
    }
  }

  /** Storing a new blog with no followers and no requests keeps the two sides in agreement. */
  lemma AddBlogKeepsFollows(blogs: map<int, Blog>, accounts: map<int, Account>, b: int, blog: Blog,
                            blogs': map<int, Blog>)
    requires FollowsOk(blogs, accounts) && b !in blogs && blogs' == blogs[b := blog]
    requires blog.followers == [] && blog.followRequests == []
    ensures FollowsOk(blogs', accounts)
  {
    forall a | a in accounts ensures b !in accounts[a].followingBlogs {
      assert AccountLinked(accounts[a], blogs.Keys);
    }
    forall c | c in blogs ensures BlogLinked(blogs[c], c, accounts) {
    }
    forall a | a in accounts ensures AccountLinked(accounts[a], blogs'.Keys) {
      assert AccountLinked(accounts[a], blogs.Keys);
    }
  }

  class BlogService {
    /** The blog store, keyed by blogId. */
    var blogs: map<int, Blog>
    /** The ids of the stored blogs, in the order they were saved. */
    var saved: seq<int>
    /** The id the store assigns to the next saved blog. */
    var nextId: nat
    /** The accounts, keyed by id; they are created outside this service. */
    var accounts: map<int, Account>

    /** The service invariant: the store, the accounts and the follow relationships. */
    ghost predicate Valid()
      reads this
    {
      StoreOk(blogs, saved, nextId) && AccountsOk(accounts) && FollowsOk(blogs, accounts)
    }

    /** The state of the pair (accountId, blogId). */
    ghost function State(accountId: int, blogId: int): FollowState
      reads this
      requires blogId in blogs
    {
      blogs[blogId].StateOf(accountId)
    }

    /** A fresh service over pre-existing accounts that follow nothing yet, with an empty blog store. */
    constructor (accountIds: set<int>)
      ensures Valid()
      ensures accounts == map a | a in accountIds :: Account(a, [])
      ensures blogs == map[] && saved == [] && nextId == 0
    {
      accounts := map a | a in accountIds :: Account(a, []);
      blogs := map[];
      saved := [];
      nextId := 0;
    }

    /** findBlogByName: the blog called name, if there is one. */
    function FindBlogByName(name: string): (r: Option<Blog>)
      reads this
      requires Valid()
      ensures r.Some? ==> r.value.blogId in blogs && blogs[r.value.blogId] == r.value && r.value.name == name
      ensures r.None? <==> forall id :: id in blogs ==> blogs[id].name != name
    {
      match FirstNamed(blogs, saved, name)
      case None => None
      case Some(id) => Some(blogs[id])
    }

    /** findBlogs: the blogs whose name contains sub, in the order they were saved,
        each once. */
    function FindBlogs(sub: string): (r: seq<Blog>)
      reads this
      requires Valid()
      ensures forall b :: b in r ==> b.blogId in blogs && blogs[b.blogId] == b && Contains(b.name, sub)
      ensures forall id :: id in blogs && Contains(blogs[id].name, sub) ==> blogs[id] in r
      ensures InOrderOf(saved, r)
      ensures forall i, j :: 0 <= i < j < |r| ==> r[i] != r[j]
    {
      MatchingMembers(blogs, saved, sub);
      MatchingOrdered(blogs, saved, sub);
      Matching(blogs, saved, sub)
    }

    /** isFollower: whether the account follows the blog. */
    function IsFollower(accountId: int, blogId: int): (r: Result<bool>)
      reads this
      ensures r.Err? <==> accountId !in accounts || blogId !in blogs
      ensures r.Err? ==> r.error == InstanceNotFound
      ensures r.Ok? ==> (r.value <==> blogs[blogId].StateOf(accountId) == Following)
      ensures r.Ok? && Valid() ==> (r.value <==> blogId in accounts[accountId].followingBlogs)
    {
      if accountId !in accounts || blogId !in blogs then Err(InstanceNotFound)
      else Ok(accountId in blogs[blogId].followers)
    }

    /** isFollowRequest: whether the account has a pending request on the blog. */
    function IsFollowRequest(accountId: int, blogId: int): (r: Result<bool>)
      reads this
      ensures r.Err? <==> accountId !in accounts || blogId !in blogs
      ensures r.Err? ==> r.error == InstanceNotFound
      ensures r.Ok? && Valid() ==> (r.value <==> blogs[blogId].StateOf(accountId) == Pending)
      ensures r.Ok? && r.value && Valid() ==> blogs[blogId].isPrivate && blogId !in accounts[accountId].followingBlogs
    {
      if accountId !in accounts || blogId !in blogs then Err(InstanceNotFound)
      else Ok(accountId in blogs[blogId].followRequests)
    }

    /** The owner of a blog is never related to it. */
    lemma OwnerUnrelated(blogId: int)
      requires Valid() && blogId in blogs
      ensures State(blogs[blogId].owner, blogId) == Unrelated
    {
      assert blogs[blogId].WellFormed();
    }

    /** save: stores a new blog under a fresh id unless its name is taken. */
    method Save(name: string, title: string, description: string, isPrivate: bool, owner: int)
      returns (r: Result<Blog>)
      requires Valid()
      modifies this
      ensures Valid()
      ensures old(FindBlogByName(name)).Some? ==> r == Err(SaveNotAvailable) && unchanged(this)
      ensures old(FindBlogByName(name)).None? ==>
                && r == Ok(Blog(old(nextId), name, title, description, isPrivate, owner, [], []))
                && blogs == old(blogs)[old(nextId) := r.value]
                && saved == old(saved) + [old(nextId)]
                && nextId == old(nextId) + 1
                && accounts == old(accounts)
      ensures r.Ok? ==> FindBlogByName(name) == Some(r.value)
      ensures r.Ok? ==> forall sub :: FindBlogs(sub) == old(FindBlogs(sub)) + (if Contains(name, sub) then [r.value] else [])
    {
      if FindBlogByName(name).Some? {
        return Err(SaveNotAvailable);
      }
      var blog := Blog(nextId, name, title, description, isPrivate, owner, [], []);
      ghost var blogs0, saved0, nextId0 := blogs, saved, nextId;
      assert forall id :: id in blogs ==> blogs[id].name != name;
      blogs := blogs[nextId := blog];
      saved := saved + [nextId];
      nextId := nextId + 1;
      AddBlogKeepsFollows(blogs0, accounts, nextId0, blog, blogs);
      AddBlogKeepsStore(blogs0, saved0, nextId0, blog, blogs, saved, nextId);
      r := Ok(blog);
      assert Indexes(blogs, saved);
      forall sub ensures FindBlogs(sub) == Matching(blogs0, saved0, sub) + (if Contains(name, sub) then [blog] else []) {
        MatchingAppend(blogs, saved0, blog.blogId, sub);
        MatchingFrame(blogs, blogs0, saved0, sub);
      }
      assert FirstNamed(blogs, saved, name) == Some(blog.blogId) by {
        FirstNamedAppend(blogs, saved0, blog.blogId, name);
      }
    }

    /** update: rewrites a stored blog's name, title and description unless the
        new name belongs to another blog. */
    method Update(blogId: int, name: string, title: string, description: string)
      returns (r: Result<Blog>)
      requires Valid() && blogId in blogs
      modifies this
      ensures Valid()
      ensures (exists id :: id in old(blogs) && id != blogId && old(blogs)[id].name == name) ==>
                r == Err(SaveNotAvailable) && unchanged(this)
      ensures (forall id :: id in old(blogs) && id != blogId ==> old(blogs)[id].name != name) ==>
                && r == Ok(old(blogs)[blogId].(name := name, title := title, description := description))
                && blogs == old(blogs)[blogId := r.value]
                && saved == old(saved) && nextId == old(nextId) && accounts == old(accounts)
      ensures r.Ok? ==> FindBlogByName(name) == Some(r.value)
    {
      var found := FindBlogByName(name);
      if found.Some? && found.value.blogId != blogId {
        return Err(SaveNotAvailable);
      }
      var blog := blogs[blogId].(name := name, title := title, description := description);
      assert BlogLinked(blogs[blogId], blogId, accounts);
      ghost var blogs0 := blogs;
      blogs := blogs[blogId := blog];
      ReplaceBlogKeepsFollows(blogs0, accounts, blogId, blog, blogs);
      RenameKeepsStore(blogs0, saved, nextId, blogId, blog, blogs);
      r := Ok(blog);
    }

    /** follow: an unrelated account, not the owner, follows a public blog at once
        and asks to follow a private one. */
    method Follow(accountId: int, blogId: int) returns (r: Outcome)
      requires Valid()
      modifies this
      ensures Valid()
      ensures r == Fail(InstanceNotFound) <==> accountId !in old(accounts) || blogId !in old(blogs)
      ensures accountId in old(accounts) && blogId in old(blogs) ==>
                r == if accountId == old(blogs)[blogId].owner || old(blogs)[blogId].StateOf(accountId) != Unrelated
                     then Fail(IllegalFollow) else Pass
      ensures r.Fail? ==> unchanged(this)
      ensures r.Pass? ==> saved == old(saved) && nextId == old(nextId)
      ensures r.Pass? && !old(blogs)[blogId].isPrivate ==>
                && blogs == old(blogs)[blogId := AddFollower(old(blogs)[blogId], accountId)]
                && accounts == old(accounts)[accountId := old(accounts)[accountId].(
                     followingBlogs := old(accounts)[accountId].followingBlogs + [blogId])]
      ensures r.Pass? && old(blogs)[blogId].isPrivate ==>
                && blogs == old(blogs)[blogId := AddRequest(old(blogs)[blogId], accountId)]
                && accounts == old(accounts)
    {
      if accountId !in accounts || blogId !in blogs {
        return Fail(InstanceNotFound);
      }
      var blog := blogs[blogId];
      if accountId == blog.owner || accountId in blog.followers || accountId in blog.followRequests {
        return Fail(IllegalFollow);
      }
      var account := accounts[accountId];
      assert BlogLinked(blog, blogId, accounts);
      FollowSteps(blog, accountId);
      if blog.isPrivate {
        var blog' := AddRequest(blog, accountId);
        assert accounts[accountId := account] == accounts;
        ghost var blogs0 := blogs;
        blogs := blogs[blogId := blog'];
        UpdatePair(blogs0, accounts, blogId, blog', accountId, account, blogs, accounts);
        StoreKeepsName(blogs0, saved, nextId, blogId, blog', blogs);
      } else {
        var blog' := AddFollower(blog, accountId);
        var account' := account.(followingBlogs := account.followingBlogs + [blogId]);
        assert AccountLinked(account, blogs.Keys);
        AppendToSet(account.followingBlogs, blogId);
        ghost var blogs0, accounts0 := blogs, accounts;
        blogs := blogs[blogId := blog'];
        accounts := accounts[accountId := account'];
        UpdatePair(blogs0, accounts0, blogId, blog', accountId, account', blogs, accounts);
        StoreKeepsName(blogs0, saved, nextId, blogId, blog', blogs);
        ReplaceAccount(accounts0, accountId, account', accounts);
      }
      r := Pass;
    }

    /** unfollow: a follower stops following; the other followers keep their order. */
    method Unfollow(accountId: int, blogId: int) returns (r: Outcome)
      requires Valid()
      modifies this
      ensures Valid()
      ensures r == Fail(InstanceNotFound) <==> accountId !in old(accounts) || blogId !in old(blogs)
      ensures accountId in old(accounts) && blogId in old(blogs) ==>
                r == if old(blogs)[blogId].StateOf(accountId) != Following then Fail(IllegalFollow) else Pass
      ensures r.Fail? ==> unchanged(this)
      ensures r.Pass? ==>
                && blogs == old(blogs)[blogId := DropFollower(old(blogs)[blogId], accountId)]
                && accounts == old(accounts)[accountId := old(accounts)[accountId].(
                     followingBlogs := Remove(old(accounts)[accountId].followingBlogs, blogId))]
                && saved == old(saved) && nextId == old(nextId)
    {
      if accountId !in accounts || blogId !in blogs {
        return Fail(InstanceNotFound);
      }
      var blog := blogs[blogId];
      if accountId !in blog.followers {
        return Fail(IllegalFollow);
      }
      var account := accounts[accountId];
      assert BlogLinked(blog, blogId, accounts) && AccountLinked(account, blogs.Keys);
      var blog' := DropFollower(blog, accountId);
      UnfollowSteps(blog, accountId);
      var account' := account.(followingBlogs := Remove(account.followingBlogs, blogId));
      RemoveFromSet(account.followingBlogs, blogId);
      ghost var blogs0, accounts0 := blogs, accounts;
      blogs := blogs[blogId := blog'];
      accounts := accounts[accountId := account'];
      UpdatePair(blogs0, accounts0, blogId, blog', accountId, account', blogs, accounts);
      StoreKeepsName(blogs0, saved, nextId, blogId, blog', blogs);
      ReplaceAccount(accounts0, accountId, account', accounts);
      r := Pass;
    }

    /** acceptFollowRequest: the account's pending request becomes a follow. */
    method AcceptFollowRequest(accountId: int, blogId: int) returns (r: Outcome)
      requires Valid()
      modifies this
      ensures Valid()
      ensures r == Fail(InstanceNotFound) <==> accountId !in old(accounts) || blogId !in old(blogs)
      ensures accountId in old(accounts) && blogId in old(blogs) ==>
                r == if accountId == old(blogs)[blogId].owner || old(blogs)[blogId].StateOf(accountId) != Pending
                     then Fail(IllegalFollow) else Pass
      ensures r.Fail? ==> unchanged(this)
      ensures r.Pass? ==>
                && blogs == old(blogs)[blogId := GrantRequest(old(blogs)[blogId], accountId)]
                && accounts == old(accounts)[accountId := old(accounts)[accountId].(
                     followingBlogs := old(accounts)[accountId].followingBlogs + [blogId])]
                && saved == old(saved) && nextId == old(nextId)
    {
      if accountId !in accounts || blogId !in blogs {
        return Fail(InstanceNotFound);
      }
      var blog := blogs[blogId];
      if accountId == blog.owner || accountId in blog.followers || accountId !in blog.followRequests {
        return Fail(IllegalFollow);
      }
      var account := accounts[accountId];
      assert BlogLinked(blog, blogId, accounts) && AccountLinked(account, blogs.Keys);
      var blog' := GrantRequest(blog, accountId);
      AnswerSteps(blog, accountId);
      var account' := account.(followingBlogs := account.followingBlogs + [blogId]);
      AppendToSet(account.followingBlogs, blogId);
      ghost var blogs0, accounts0 := blogs, accounts;
      blogs := blogs[blogId := blog'];
      accounts := accounts[accountId := account'];
      UpdatePair(blogs0, accounts0, blogId, blog', accountId, account', blogs, accounts);
      StoreKeepsName(blogs0, saved, nextId, blogId, blog', blogs);
      ReplaceAccount(accounts0, accountId, account', accounts);
      r := Pass;
    }

    /** denyFollowRequest: the account's pending request is dropped. */
    method DenyFollowRequest(accountId: int, blogId: int) returns (r: Outcome)
      requires Valid()
      modifies this
      ensures Valid()
      ensures r == Fail(InstanceNotFound) <==> accountId !in old(accounts) || blogId !in old(blogs)
      ensures accountId in old(accounts) && blogId in old(blogs) ==>
                r == if accountId == old(blogs)[blogId].owner || old(blogs)[blogId].StateOf(accountId) != Pending
                     then Fail(IllegalFollow) else Pass
      ensures r.Fail? ==> unchanged(this)
      ensures r.Pass? ==>
                && blogs == old(blogs)[blogId := DropRequest(old(blogs)[blogId], accountId)]
                && accounts == old(accounts) && saved == old(saved) && nextId == old(nextId)
    {
      if accountId !in accounts || blogId !in blogs {
        return Fail(InstanceNotFound);
      }
      var blog := blogs[blogId];
      if accountId == blog.owner || accountId in blog.followers || accountId !in blog.followRequests {
        return Fail(IllegalFollow);
      }
      var account := accounts[accountId];
      assert BlogLinked(blog, blogId, accounts);
      var blog' := DropRequest(blog, accountId);
      AnswerSteps(blog, accountId);
      assert accounts[accountId := account] == accounts;
      ghost var blogs0 := blogs;
      blogs := blogs[blogId := blog'];
      UpdatePair(blogs0, accounts, blogId, blog', accountId, account, blogs, accounts);
      StoreKeepsName(blogs0, saved, nextId, blogId, blog', blogs);
      r := Pass;
    }
  }
}
