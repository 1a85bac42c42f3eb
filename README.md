# Blog service follow state machine

This project models the blog service of a small blogging platform. The model
is written in Dafny and fixes the service's contract as the unit suite
`BlogServiceTest` states it. The service keeps two things:

- a store of blogs. Each blog has a unique name, an owner, a public/private
  flag, an ordered list of followers and an ordered list of pending follow
  requests.
- the accounts. Each account keeps the ordered list of the blogs it follows.

Every (account, blog) pair is in one of three states: unrelated, pending or
following. `follow`, `unfollow`, `acceptFollowRequest` and `denyFollowRequest`
move a pair between those states. `isFollower`, `isFollowRequest`,
`findBlogByName` and `findBlogs` read the state.

## Modules

- `Sequences` (`sequences.dfy`) handles ordered id lists used as sets. It
  defines `Remove`, which drops the first occurrence as `List.remove(Object)`
  does, and proves what removing and appending do to such a list.
- `Substrings` (`substrings.dfy`) defines `Contains`, the case-sensitive
  substring test behind `findBlogs`, and relates it to "occurs at some
  position".
- `Entities` (`entities.dfy`) defines:
  - the blog and account records, the three errors and the result types;
  - one function per state transition of a single blog, each with a lemma
    saying which state the pair moves to and that no other pair moves;
  - the two store searches, by exact name and by substring, in save order.
- `Service` (`blog_service.dfy`) defines the class `BlogService`:
  - Its fields are the blog map, the save order, the next id and the account
    map, and its methods update them in place.
  - The invariant `Valid()` keeps blog ids and names unique and each blog's
    lists duplicate-free. It also keeps both sides of every follow
    relationship in agreement: `a` is in `blog.followers` exactly when the blog
    is in `a.followingBlogs`.
  - Every method that changes state preserves `Valid()`, and one lemma per kind
    of change proves it.
- `ServiceTests` (`blog_service_tests.dfy`) covers the scenarios PR-UN-001 to
  PR-UN-027 with 21 methods. Each pair of unknown-blog and unknown-account
  scenarios for one operation shares a method: 006/007, 010/011, 014/015,
  018/019, 023/024 and 026/027. A method starts from a fresh service with three
  accounts and no blogs, makes the scenario's calls, and states the scenario's
  assertions in its `ensures`.
  - For `follow`, `unfollow`, accept and deny, the unknown-account half starts
    from a second fresh service.
  - For `isFollower` and `isFollowRequest`, the unknown-account half goes on
    with the same service, after a save. These queries do not change the
    state, so the earlier call cannot affect the result.

Ids are integers. The service gives blogs the ids 0, 1, 2, … in save order. The
never-present id is `-1`, as in the suite.

### Choices made where the suite is silent

- A failed call leaves the state unchanged (`r.Fail? ==> unchanged(this)`).
  PR-UN-013 and PR-UN-017 rely on this: after a failed accept or deny they go
  on with `unfollow` and expect it to succeed.
- Unknown ids are checked before the follow state. The result is
  `InstanceNotFound` exactly when the account or the blog is unknown.
- `update` refuses a name that another stored blog already has. The suite
  never renames onto a taken name. The check is needed to keep blog names
  unique, and the save scenarios depend on that.

## Model

| member | source | states |
|---|---|---|
| Service.BlogService.Save | src/test/java/es/udc/fi/dc/fd/blog/BlogServiceTest.java:51-65 | A taken name fails with SaveNotAvailable and changes nothing. Otherwise the blog is stored under the next id with empty lists, appended to the save order, found by its name afterwards, and appended to the end of every search it matches. |
| Service.BlogService.Update | src/test/java/es/udc/fi/dc/fd/blog/BlogServiceTest.java:68-80 | A blog gets a new name, title and description, and its id and lists are kept. It is found under the new name afterwards. A name held by another blog fails with SaveNotAvailable. |
| Service.BlogService.Follow | src/test/java/es/udc/fi/dc/fd/blog/BlogServiceTest.java:83-156 | An unknown id gives InstanceNotFound. The owner, a follower or a pending requester gets IllegalFollow. Otherwise, on a public blog the account is appended to the followers and the blog to the account's followed blogs. On a private blog only a request is appended. The invariant is kept. |
| Service.BlogService.Unfollow | src/test/java/es/udc/fi/dc/fd/blog/BlogServiceTest.java:159-210 | An unknown id gives InstanceNotFound. A non-follower gets IllegalFollow. Otherwise the follower is removed from the blog and the blog from the account's list, and everything else keeps its order. The invariant is kept. |
| Service.BlogService.AcceptFollowRequest | src/test/java/es/udc/fi/dc/fd/blog/BlogServiceTest.java:213-281 | An unknown id gives InstanceNotFound. The owner, a follower or an account without a request gets IllegalFollow. Otherwise the request is removed, the account is appended to the followers and the blog to the account's list. The invariant is kept. |
| Service.BlogService.DenyFollowRequest | src/test/java/es/udc/fi/dc/fd/blog/BlogServiceTest.java:284-348 | An unknown id gives InstanceNotFound. The owner, a follower or an account without a request gets IllegalFollow. Otherwise only the request is removed, and the followers and the account are unchanged. The invariant is kept. |
| Service.BlogService.FindBlogByName | src/test/java/es/udc/fi/dc/fd/blog/BlogServiceTest.java:351-357 | The result is a stored blog with exactly that name. It is absent exactly when no stored blog has the name. |
| Service.BlogService.FindBlogs | src/test/java/es/udc/fi/dc/fd/blog/BlogServiceTest.java:360-374 | Every result is a stored blog whose name contains the keyword. Every stored blog whose name contains it is in the result. The results come in save order, and no blog appears twice. |
| Service.BlogService.IsFollower | src/test/java/es/udc/fi/dc/fd/blog/BlogServiceTest.java:377-398 | An unknown account or blog gives InstanceNotFound. Otherwise the answer is true exactly when the pair is Following. Under the invariant, that is exactly when the blog is among the account's followed blogs. |
| Service.BlogService.IsFollowRequest | src/test/java/es/udc/fi/dc/fd/blog/BlogServiceTest.java:401-424 | An unknown account or blog gives InstanceNotFound. Otherwise the answer is true exactly when the pair is Pending. A pending pair is always on a private blog that the account does not follow. |
| Service.BlogService.OwnerUnrelated | src/test/java/es/udc/fi/dc/fd/blog/BlogServiceTest.java:113-120 | The owner of a stored blog is never its follower and never a requester. |
| Service.BlogService.constructor | src/test/java/es/udc/fi/dc/fd/blog/BlogServiceTest.java:43-48 | The fixture's service has the given accounts following nothing and an empty store, and it satisfies the invariant. |
| Service.UpdatePair | src/test/java/es/udc/fi/dc/fd/blog/BlogServiceTest.java:99-101 | Replacing one blog and one account keeps both sides of every follow relationship in agreement, when the new pair agrees. |
| Service.AddBlogKeepsStore | src/test/java/es/udc/fi/dc/fd/blog/BlogServiceTest.java:51-65 | Storing a blog under the next id with an unused name keeps ids, save order and names consistent. |
| Service.AddBlogKeepsFollows | src/test/java/es/udc/fi/dc/fd/blog/BlogServiceTest.java:51-56 | A new blog with no followers keeps both sides of the follow relationships in agreement. |
| Service.RenameKeepsStore | src/test/java/es/udc/fi/dc/fd/blog/BlogServiceTest.java:68-80 | Renaming to a name no other blog has keeps the store consistent. |
| Service.ReplaceBlogKeepsFollows | src/test/java/es/udc/fi/dc/fd/blog/BlogServiceTest.java:68-80 | Changing a blog's texts without changing its lists keeps the follow relationships in agreement. |
| Service.StoreKeepsName | src/test/java/es/udc/fi/dc/fd/blog/BlogServiceTest.java:86-102 | Changing only a blog's lists keeps the store consistent. |
| Service.ReplaceAccount | src/test/java/es/udc/fi/dc/fd/blog/BlogServiceTest.java:99-101 | Replacing an account by one with the same id keeps every account under its own id. |
| Entities.FollowSteps | src/test/java/es/udc/fi/dc/fd/blog/BlogServiceTest.java:86-102 | Following a blog moves an unrelated account that is not the owner to Following (public blog) or Pending (private blog). The blog stays well formed and no other account's state changes. |
| Entities.UnfollowSteps | src/test/java/es/udc/fi/dc/fd/blog/BlogServiceTest.java:174-178 | Unfollowing moves a follower to Unrelated and removes exactly that account from the followers. No other account's state changes. |
| Entities.AnswerSteps | src/test/java/es/udc/fi/dc/fd/blog/BlogServiceTest.java:216-226 | Accepting moves a pending account to Following and denying moves it to Unrelated. Accepting removes exactly that request. No other account's state changes. |
| Entities.FirstNamed | src/test/java/es/udc/fi/dc/fd/blog/BlogServiceTest.java:351-357 | The name lookup returns an id in the save order whose blog has the name. It returns none exactly when no listed blog has it. |
| Entities.FirstNamedAppend | src/test/java/es/udc/fi/dc/fd/blog/BlogServiceTest.java:51-56 | After a blog is appended to the save order, a name lookup returns the earlier answer if there was one, else the new blog if the name is its own. |
| Entities.FirstNamedFrame | src/test/java/es/udc/fi/dc/fd/blog/BlogServiceTest.java:68-80 | A name lookup depends only on the names of the listed blogs. |
| Entities.MatchingMembers | src/test/java/es/udc/fi/dc/fd/blog/BlogServiceTest.java:360-374 | A search returns only listed blogs that contain the keyword, and every such blog. It returns no more blogs than there are listed ids. |
| Entities.MatchingOrdered | src/test/java/es/udc/fi/dc/fd/blog/BlogServiceTest.java:367-373 | Over a duplicate-free list of ids, a search returns its blogs in the order of the list. The id of each result comes strictly before the id of every later result, so no blog appears twice. |
| Entities.MatchingAppend | src/test/java/es/udc/fi/dc/fd/blog/BlogServiceTest.java:360-374 | Saving one more blog appends it at the end of exactly the searches it matches, so results come in save order. |
| Entities.MatchingFrame | src/test/java/es/udc/fi/dc/fd/blog/BlogServiceTest.java:360-374 | A search depends only on the listed blogs. |
| Sequences.IndexOf | src/test/java/es/udc/fi/dc/fd/blog/BlogServiceTest.java:174-178 | Gives the position of the first occurrence of an id. |
| Sequences.RemoveFirst | src/test/java/es/udc/fi/dc/fd/blog/BlogServiceTest.java:174-178 | Removing an id cuts out exactly its first occurrence, and a list without it is unchanged. |
| Sequences.CutFromSet | src/test/java/es/udc/fi/dc/fd/blog/BlogServiceTest.java:174-178 | Cutting a position out of a duplicate-free list removes exactly the id stored there and keeps the list duplicate-free. |
| Sequences.RemoveFromSet | src/test/java/es/udc/fi/dc/fd/blog/BlogServiceTest.java:174-178 | In a duplicate-free list, removing an id removes that id and nothing else, and the list stays duplicate-free. |
| Sequences.AppendToSet | src/test/java/es/udc/fi/dc/fd/blog/BlogServiceTest.java:86-102 | Appending a new id keeps a list duplicate-free and adds exactly that id. |
| Substrings.ContainsOccurs | src/test/java/es/udc/fi/dc/fd/blog/BlogServiceTest.java:365-373 | The substring test holds exactly when the keyword occurs at some position of the name. |
| Substrings.FirstCharAbsent | src/test/java/es/udc/fi/dc/fd/blog/BlogServiceTest.java:365-366 | A keyword whose first character is missing from the name is not contained in it. |
| ServiceTests.SaveBlog | src/test/java/es/udc/fi/dc/fd/blog/BlogServiceTest.java:51-56 | PR-UN-001: the saved blog is found under its name. |
| ServiceTests.SaveBlogWithExistingName | src/test/java/es/udc/fi/dc/fd/blog/BlogServiceTest.java:59-65 | PR-UN-002: a second blog named "MyBlog" fails with SaveNotAvailable. |
| ServiceTests.UpdateBlog | src/test/java/es/udc/fi/dc/fd/blog/BlogServiceTest.java:68-80 | PR-UN-003: after each update the blog has the new name and title and is found under "YourBlog". |
| ServiceTests.FollowBlogs | src/test/java/es/udc/fi/dc/fd/blog/BlogServiceTest.java:83-103 | PR-UN-004: the public blog's followers are [account2, account3] and both accounts follow exactly that blog. The private blog's requests are [account3]. |
| ServiceTests.FollowNotAvailable | src/test/java/es/udc/fi/dc/fd/blog/BlogServiceTest.java:106-141 | PR-UN-005: following one's own blog, following again and requesting again each fail with IllegalFollow. |
| ServiceTests.FollowNonExistent | src/test/java/es/udc/fi/dc/fd/blog/BlogServiceTest.java:144-156 | PR-UN-006 and PR-UN-007: an unknown blog or account gives InstanceNotFound. |
| ServiceTests.UnfollowBlog | src/test/java/es/udc/fi/dc/fd/blog/BlogServiceTest.java:159-179 | PR-UN-008: before the unfollow, the followers are [account2, account3] and each of the two accounts follows exactly the blog. Afterwards the followers are [account2] and account3 follows nothing. |
| ServiceTests.UnfollowNotAvailable | src/test/java/es/udc/fi/dc/fd/blog/BlogServiceTest.java:182-195 | PR-UN-009: unfollowing a blog one does not follow fails with IllegalFollow. |
| ServiceTests.UnfollowNonExistent | src/test/java/es/udc/fi/dc/fd/blog/BlogServiceTest.java:198-210 | PR-UN-010 and PR-UN-011: an unknown blog or account gives InstanceNotFound. |
| ServiceTests.AcceptRequest | src/test/java/es/udc/fi/dc/fd/blog/BlogServiceTest.java:213-227 | PR-UN-012: after accepting, the followers are [account2], account2 follows the blog and no request is left. |
| ServiceTests.AcceptRequestNotAvailable | src/test/java/es/udc/fi/dc/fd/blog/BlogServiceTest.java:230-265 | PR-UN-013: accepting a follower, the owner or an account without a request fails with IllegalFollow. |
| ServiceTests.AcceptRequestNonExistent | src/test/java/es/udc/fi/dc/fd/blog/BlogServiceTest.java:268-281 | PR-UN-014 and PR-UN-015: an unknown blog or account gives InstanceNotFound. |
| ServiceTests.DenyRequest | src/test/java/es/udc/fi/dc/fd/blog/BlogServiceTest.java:284-294 | PR-UN-016: after denying, there are no followers, no followed blogs and no requests. |
| ServiceTests.DenyRequestNotAvailable | src/test/java/es/udc/fi/dc/fd/blog/BlogServiceTest.java:297-332 | PR-UN-017: denying a follower, the owner or an account without a request fails with IllegalFollow. |
| ServiceTests.DenyRequestNonExistent | src/test/java/es/udc/fi/dc/fd/blog/BlogServiceTest.java:335-348 | PR-UN-018 and PR-UN-019: an unknown blog or account gives InstanceNotFound. |
| ServiceTests.FindByName | src/test/java/es/udc/fi/dc/fd/blog/BlogServiceTest.java:351-357 | PR-UN-020: findBlogByName returns the saved blog. |
| ServiceTests.FindBySubstring | src/test/java/es/udc/fi/dc/fd/blog/BlogServiceTest.java:360-374 | PR-UN-021: "zzz" finds nothing, "My" finds [MyBlog] and "Blog" finds [MyBlog, YourBlog] in save order. |
| ServiceTests.IsFollowerAfterFollow | src/test/java/es/udc/fi/dc/fd/blog/BlogServiceTest.java:377-383 | PR-UN-022: after following a public blog, isFollower is true. |
| ServiceTests.IsFollowerNonExistent | src/test/java/es/udc/fi/dc/fd/blog/BlogServiceTest.java:386-398 | PR-UN-023 and PR-UN-024: an unknown blog or account gives InstanceNotFound. |
| ServiceTests.IsFollowRequestAfterFollow | src/test/java/es/udc/fi/dc/fd/blog/BlogServiceTest.java:401-408 | PR-UN-025: after following a private blog, isFollowRequest is true. |
| ServiceTests.IsFollowRequestNonExistent | src/test/java/es/udc/fi/dc/fd/blog/BlogServiceTest.java:411-424 | PR-UN-026 and PR-UN-027: an unknown blog or account gives InstanceNotFound. |
| ServiceTests.NoneMatch | src/test/java/es/udc/fi/dc/fd/blog/BlogServiceTest.java:365-366 | Neither "MyBlog" nor "YourBlog" contains "zzz". |
| ServiceTests.FirstMatches | src/test/java/es/udc/fi/dc/fd/blog/BlogServiceTest.java:367-370 | "MyBlog" contains "My" and "YourBlog" does not. |
| ServiceTests.BothMatch | src/test/java/es/udc/fi/dc/fd/blog/BlogServiceTest.java:371-373 | Both names contain "Blog". |

## Left out

- The Spring context, dependency injection and the per-test transaction
  rollback are not modelled. Each scenario starts from a fresh service instead.
- The account service and the account fields other than the id and the
  followed blogs (email, name, role, password) are not modelled. Accounts are
  ids that exist before the service is created.
- The blog repository, JPA persistence and entity equality are not modelled.
  Blogs and accounts are values kept in maps and compared by value. A scenario
  reads the changed lists back from the service's state; the Java suite reads
  them from the entity objects it holds.
- Transactions and concurrent access are not modelled.
- The two `SaveNotAvailableException` classes (blog and account) become one
  error.
- Service.BlogService.Update requires the blog to be stored. The suite only
  updates saved blogs, so an unknown blog id is left unmodelled.
- Service.BlogService.FindBlogs only tests an exact, case-sensitive
  substring. A database `LIKE` under a case-insensitive collation would match
  more, and that is not modelled.
- Service.BlogService.Follow, Service.BlogService.Unfollow,
  Service.BlogService.AcceptFollowRequest and
  Service.BlogService.DenyFollowRequest give the new state as the old state
  with the pair's blog and account replaced. Which pair states these
  replacements reach is stated by Entities.FollowSteps,
  Entities.UnfollowSteps and Entities.AnswerSteps, not in the method
  contracts.
