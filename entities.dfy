/** The records of the blogging service and the outcomes of its operations. */
module Entities {
  import opened Sequences
  import opened Substrings

  /** The three failures the service signals: InstanceNotFoundException,
      FollowException and SaveNotAvailableException. */
  datatype Error = InstanceNotFound | IllegalFollow | SaveNotAvailable

  datatype Option<T> = None | Some(value: T)

  /** A value or the failure that took its place. */
  datatype Result<T> = Ok(value: T) | Err(error: Error)

  /** Completion of an operation that returns nothing, or its failure. */
  datatype Outcome = Pass | Fail(error: Error)

  /** An account, reduced to its identity and the blogs it follows,
      in the order the follow relationships were established. */
  datatype Account = Account(id: int, followingBlogs: seq<int>)

  /** Where an account stands with respect to one blog. */
  datatype FollowState = Unrelated | Pending | Following

  /** A blog. Accounts are referred to by id; followers and followRequests keep
      the order in which accounts were added. */
  datatype Blog = Blog(
    blogId: int,
    name: string,
    title: string,
    description: string,
    isPrivate: bool,
    owner: int,
    followers: seq<int>,
    followRequests: seq<int>)
  {
    /** The state of the pair (accountId, this blog). */
    function StateOf(accountId: int): (s: FollowState) {
      if accountId in followers then Following
      else if accountId in followRequests then Pending
      else Unrelated
    }

    /** The blog's own invariants: its lists are sets, the owner is in neither,
        an account is never both a follower and pending, and only a private
        blog has pending requests. */
    predicate WellFormed() {
      && NoDup(followers)
      && NoDup(followRequests)
      && owner !in followers
      && owner !in followRequests
      && (forall a :: a in followers ==> a !in followRequests)
      && (!isPrivate ==> followRequests == [])
    }
  }

  /** The follow state of every account other than a is the same on blog and blog'. */
  ghost predicate OthersKept(blog: Blog, blog': Blog, a: int) {
    forall x :: x != a ==> blog'.StateOf(x) == blog.StateOf(x)
  }

  /** follow on a public blog: the account becomes the last follower. */
  function AddFollower(blog: Blog, a: int): (blog': Blog) {
    blog.(followers := blog.followers + [a])
  }

  /** follow on a private blog: the account becomes the last pending request. */
  function AddRequest(blog: Blog, a: int): (blog': Blog) {
    blog.(followRequests := blog.followRequests + [a])
  }

  /** unfollow: the account leaves the followers, the others keep their order. */
  function DropFollower(blog: Blog, a: int): (blog': Blog) {
    blog.(followers := Remove(blog.followers, a))
  }

  /** acceptFollowRequest: the request leaves the requests and the account becomes the last follower. */
  function GrantRequest(blog: Blog, a: int): (blog': Blog) {
    blog.(followers := blog.followers + [a], followRequests := Remove(blog.followRequests, a))
  }

  /** denyFollowRequest: the request leaves the requests. */
  function DropRequest(blog: Blog, a: int): (blog': Blog) {
    blog.(followRequests := Remove(blog.followRequests, a))
  }

  /** Following a blog moves an unrelated account other than the owner to Following
      (public blog) or Pending (private blog), keeps the blog well formed, and leaves
      every other account where it was. */
  lemma FollowSteps(blog: Blog, a: int)
    requires blog.WellFormed() && a != blog.owner && blog.StateOf(a) == Unrelated
    ensures !blog.isPrivate ==> AddFollower(blog, a).WellFormed() && AddFollower(blog, a).StateOf(a) == Following
    ensures !blog.isPrivate ==> OthersKept(blog, AddFollower(blog, a), a)
    ensures blog.isPrivate ==> AddRequest(blog, a).WellFormed() && AddRequest(blog, a).StateOf(a) == Pending
    ensures blog.isPrivate ==> OthersKept(blog, AddRequest(blog, a), a)
  {
    AppendToSet(blog.followers, a);
    AppendToSet(blog.followRequests, a);
  }

  /** Unfollowing moves a follower to Unrelated, keeps the blog well formed, and leaves
      every other account where it was. */
  lemma UnfollowSteps(blog: Blog, a: int)
    requires blog.WellFormed() && blog.StateOf(a) == Following
    ensures DropFollower(blog, a).WellFormed() && DropFollower(blog, a).StateOf(a) == Unrelated
    ensures OthersKept(blog, DropFollower(blog, a), a)
    ensures forall x :: x in DropFollower(blog, a).followers <==> x in blog.followers && x != a
  {
    RemoveFromSet(blog.followers, a);
  }

  /** Accepting moves a pending account to Following and denying moves it to Unrelated;
      both keep the blog well formed and leave every other account where it was. */
  lemma AnswerSteps(blog: Blog, a: int)
    requires blog.WellFormed() && blog.StateOf(a) == Pending
    ensures GrantRequest(blog, a).WellFormed() && GrantRequest(blog, a).StateOf(a) == Following
    ensures OthersKept(blog, GrantRequest(blog, a), a)
    ensures DropRequest(blog, a).WellFormed() && DropRequest(blog, a).StateOf(a) == Unrelated
    ensures OthersKept(blog, DropRequest(blog, a), a)
    ensures forall x :: x in GrantRequest(blog, a).followRequests <==> x in blog.followRequests && x != a
  {
    RemoveFromSet(blog.followRequests, a);
    AppendToSet(blog.followers, a);
  }

  /** ids lists blogs of the store, each under its own id. */
  ghost predicate Indexes(blogs: map<int, Blog>, ids: seq<int>) {
    && (forall id :: id in ids ==> id in blogs)
    && (forall id :: id in ids ==> blogs[id].blogId == id)
  }

  /** findOneByName: an id along ids whose blog is called name (the store keeps names
      unique, so there is at most one). */
  function FirstNamed(blogs: map<int, Blog>, ids: seq<int>, name: string): (r: Option<int>)
    requires Indexes(blogs, ids)
    ensures r.Some? ==> r.value in ids && r.value in blogs && blogs[r.value].name == name
    ensures r.None? <==> forall id :: id in ids ==> blogs[id].name != name
  {
    if ids == [] then None
    else
      var id := ids[0];
      assert id in ids;
      if blogs[id].name == name then Some(id)
      else FirstNamed(blogs, ids[1..], name)
  }

  /** findByNameContaining: the blogs along ids whose name contains sub, in the order of ids. */
  function Matching(blogs: map<int, Blog>, ids: seq<int>, sub: string): (found: seq<Blog>)
    requires Indexes(blogs, ids)
  {
    if ids == [] then []
    else
      var id := ids[0];
      assert id in ids && ids == [id] + ids[1..];
      var b := blogs[id];
      (if Contains(b.name, sub) then [b] else []) + Matching(blogs, ids[1..], sub)
  }

  /** A search returns stored blogs whose names contain sub, and every such blog
      along ids. */
  lemma {:induction false} MatchingMembers(blogs: map<int, Blog>, ids: seq<int>, sub: string)
    requires Indexes(blogs, ids)
    ensures |Matching(blogs, ids, sub)| <= |ids|
    ensures forall b :: b in Matching(blogs, ids, sub) ==> b.blogId in ids && blogs[b.blogId] == b && Contains(b.name, sub)
    ensures forall id :: id in ids && Contains(blogs[id].name, sub) ==> blogs[id] in Matching(blogs, ids, sub)
  {
    if ids != [] {
      var id := ids[0];
      assert id in ids && ids == [id] + ids[1..];
      MatchingMembers(blogs, ids[1..], sub);
    }
  }

  /** found lists blogs of ids in the order of ids, each at most once: the id of
      every entry comes before the id of every later entry. */
  ghost predicate InOrderOf(ids: seq<int>, found: seq<Blog>) {
    forall i, j :: 0 <= i < j < |found| ==> Before(ids, found[i].blogId, found[j].blogId)
  }

  /** A list in the order of t stays in order when h, which is not in t, is put before t. */
  lemma InOrderOfCons(h: int, t: seq<int>, found: seq<Blog>)
    requires h !in t && InOrderOf(t, found)
    ensures InOrderOf([h] + t, found)
  {
    forall i, j | 0 <= i < j < |found| ensures Before([h] + t, found[i].blogId, found[j].blogId) {
      var x, y := found[i].blogId, found[j].blogId;
      assert Before(t, x, y);
      IndexOfCons(h, t, x);
      IndexOfCons(h, t, y);
    }
  }

  /** h's blog comes before every blog drawn from t along h :: t. */
  lemma HeadFirst(h: int, t: seq<int>, c: Blog)
    requires h !in t && c.blogId in t
    ensures Before([h] + t, h, c.blogId)
  {
    assert ([h] + t)[0] == h;
    IndexOfCons(h, t, c.blogId);
  }

  /** Putting h's blog in front of a list drawn from t keeps it in the order of h :: t. */
  lemma InOrderOfFront(h: int, t: seq<int>, b: Blog, found: seq<Blog>)
    requires h !in t && b.blogId == h && InOrderOf([h] + t, found)
    requires forall x :: x in found ==> x.blogId in t
    ensures InOrderOf([h] + t, [b] + found)
  {
    var found' := [b] + found;
    forall i, j | 0 <= i < j < |found'| ensures Before([h] + t, found'[i].blogId, found'[j].blogId) {
      assert found'[j] == found[j - 1];
      if i == 0 {
        assert found[j - 1] in found;
        HeadFirst(h, t, found[j - 1]);
      } else {
        assert found'[i] == found[i - 1];
      }
    }
  }

  /** A search over a list of distinct ids returns its blogs in the order of the list,
      each at most once. */
  lemma {:induction false} MatchingOrdered(blogs: map<int, Blog>, ids: seq<int>, sub: string)
    requires Indexes(blogs, ids) && NoDup(ids)
    ensures InOrderOf(ids, Matching(blogs, ids, sub))
  {
    if ids != [] {
      var h, t := ids[0], ids[1..];
      assert ids == [h] + t && h in ids;
      assert h !in t by {
        forall k | 0 <= k < |t| ensures t[k] != h { assert t[k] == ids[k + 1]; }
      }
      assert NoDup(t) by {
        forall p, q | 0 <= p < q < |t| ensures t[p] != t[q] { assert t[p] == ids[p + 1] && t[q] == ids[q + 1]; }
      }
      var rest := Matching(blogs, t, sub);
      MatchingOrdered(blogs, t, sub);
      MatchingMembers(blogs, t, sub);
      InOrderOfCons(h, t, rest);
      if Contains(blogs[h].name, sub) {
        InOrderOfFront(h, t, blogs[h], rest);
        assert Matching(blogs, ids, sub) == [blogs[h]] + rest;
      } else {
        assert Matching(blogs, ids, sub) == rest;
      }
    }
  }

  /** Storing one more blog adds it at the end of every search it matches. */
  lemma {:induction false} MatchingAppend(blogs: map<int, Blog>, ids: seq<int>, id: int, sub: string)
    requires Indexes(blogs, ids + [id])
    ensures Matching(blogs, ids + [id], sub)
         == Matching(blogs, ids, sub) + (if Contains(blogs[id].name, sub) then [blogs[id]] else [])
  {
    var last := if Contains(blogs[id].name, sub) then [blogs[id]] else [];
    if ids == [] {
      assert [id][1..] == [];
      assert Matching(blogs, [id], sub) == last + Matching(blogs, [], sub);
    } else {
      var head := ids[0];
      assert head in ids + [id];
      var first := if Contains(blogs[head].name, sub) then [blogs[head]] else [];
      assert (ids + [id])[0] == head && (ids + [id])[1..] == ids[1..] + [id];
      MatchingAppend(blogs, ids[1..], id, sub);
      calc {
        Matching(blogs, ids + [id], sub);
        first + Matching(blogs, ids[1..] + [id], sub);
        first + (Matching(blogs, ids[1..], sub) + last);
        (first + Matching(blogs, ids[1..], sub)) + last;
        Matching(blogs, ids, sub) + last;
      }
    }
  }

  /** Storing one more blog makes it the answer for its name when no earlier blog has that name. */
  lemma {:induction false} FirstNamedAppend(blogs: map<int, Blog>, ids: seq<int>, id: int, name: string)
    requires Indexes(blogs, ids + [id])
    ensures FirstNamed(blogs, ids + [id], name)
         == if FirstNamed(blogs, ids, name).Some? then FirstNamed(blogs, ids, name)
            else if blogs[id].name == name then Some(id)
            else None
  {
    if ids != [] {
      assert (ids + [id])[1..] == ids[1..] + [id];
      FirstNamedAppend(blogs, ids[1..], id, name);
    }
  }

  /** A search depends only on the blogs it visits. */
  lemma {:induction false} MatchingFrame(blogs: map<int, Blog>, blogs': map<int, Blog>, ids: seq<int>, sub: string)
    requires Indexes(blogs, ids) && Indexes(blogs', ids)
    requires forall id :: id in ids ==> blogs[id] == blogs'[id]
    ensures Matching(blogs, ids, sub) == Matching(blogs', ids, sub)
  {
    if ids != [] {
      var id := ids[0];
      assert id in ids && ids == [id] + ids[1..];
      MatchingFrame(blogs, blogs', ids[1..], sub);
    }
  }

  /** A name search depends only on the blogs it visits. */
  lemma {:induction false} FirstNamedFrame(blogs: map<int, Blog>, blogs': map<int, Blog>, ids: seq<int>, name: string)
    requires Indexes(blogs, ids) && Indexes(blogs', ids)
    requires forall id :: id in ids ==> blogs[id].name == blogs'[id].name
    ensures FirstNamed(blogs, ids, name) == FirstNamed(blogs', ids, name)
  {
    if ids != [] {
      var id := ids[0];
      assert id in ids && ids == [id] + ids[1..];
      FirstNamedFrame(blogs, blogs', ids[1..], name);
    }
  }
}
