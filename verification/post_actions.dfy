/**
 * The post fetch actions of app/actions/posts/index.js: after a page of
 * posts arrives it is written to the local store and, when it belongs to the
 * channel on screen, announced to the redux store in one batch together with
 * the profiles and statuses of the users the posts depend on.
 *
 * Network replies are inputs (`Response`), redux actions are tagged records
 * (`Action`) and a dispatched batch is a list of them.
 */
module PostActions {
  import opened Js
  import PostWriter

  // ---------------------------------------------------------------------------
  // Dependency work-sets: profilesStatusesAndToLoadFromPosts
  // ---------------------------------------------------------------------------

  /** The `entities.users` part of the redux state: who is signed in, and the cached profiles and statuses by user id. */
  datatype Users = Users(currentUserId: Value, profiles: map<string, Value>, statuses: map<string, Value>)

  /** The users still to load, each list the contents of a `Set` in insertion order. */
  datatype WorkSets = WorkSets(usernames: seq<Value>, userIds: seq<Value>, statuses: seq<Value>)

  /** Which of the two sets a user id is tested for. */
  datatype Need = Status | Profile

  /** The lookup `cache[userId]`: the id is turned into a property name first. */
  function Cached(cache: map<string, Value>, userId: Value): Value {
    var key := ToPropertyKey(userId);
    if key in cache then cache[key] else Undefined
  }

  /**
   * A post author needs a status load when no truthy status is cached, and a
   * profile load when it is not the current user and no truthy profile is
   * cached.
   */
  predicate Needs(users: Users, need: Need, userId: Value) {
    match need
    case Status => !Truthy(Cached(users.statuses, userId))
    case Profile => userId != users.currentUserId && !Truthy(Cached(users.profiles, userId))
  }

  /** `post.user_id` of each post, none of which may be `null` or `undefined`. */
  function UserIds(posts: seq<Value>): seq<Value>
    requires forall i :: 0 <= i < |posts| ==> !Nullish(posts[i])
  {
    seq(|posts|, i requires 0 <= i < |posts| => Prop(posts[i], "user_id"))
  }

  /**
   * What a `Set` holds after `add(id)` for every id in `ids` that `need`
   * selects: each selected id once, in the order of first addition.
   */
  function Collect(ids: seq<Value>, users: Users, need: Need): seq<Value> {
    if ids == [] then []
    else
      var front := Collect(ids[..|ids| - 1], users, need);
      var id := ids[|ids| - 1];
      if Needs(users, need, id) then SetAdd(front, id) else front
  }

  /** The set holds exactly the selected ids, each once. */
  lemma {:induction false} CollectMembers(ids: seq<Value>, users: Users, need: Need)
    ensures forall u :: u in Collect(ids, users, need) <==> u in ids && Needs(users, need, u)
    ensures Distinct(Collect(ids, users, need))
    decreases |ids|
  {
    if ids != [] {
      var front, id := ids[..|ids| - 1], ids[|ids| - 1];
      CollectMembers(front, users, need);
      CollectSnoc(front, id, users, need);
      assert front + [id] == ids;
      assert forall u :: u in ids <==> u in front || u == id;
    }
  }

  /** The position where `x` first occurs in `xs`. */
  function FirstIndex(xs: seq<Value>, x: Value): (i: nat)
    requires x in xs
    ensures i < |xs| && xs[i] == x
  {
    if xs[0] == x then 0 else 1 + FirstIndex(xs[1..], x)
  }

  /** No position before the first occurrence holds the value. */
  lemma {:induction false} FirstIndexMinimal(xs: seq<Value>, x: Value)
    requires x in xs
    ensures forall j :: 0 <= j < FirstIndex(xs, x) ==> xs[j] != x
    decreases |xs|
  {
    if xs[0] != x {
      FirstIndexMinimal(xs[1..], x);
      forall j | 1 <= j < FirstIndex(xs, x) ensures xs[j] != x {
        assert xs[j] == xs[1..][j - 1];
      }
    }
  }

  /** The collected ids appear in the order in which they first occur among the posts. */
  lemma {:induction false} CollectFirstOccurrenceOrder(ids: seq<Value>, users: Users, need: Need)
    ensures var r := Collect(ids, users, need);
      forall a, b :: 0 <= a < b < |r| ==> r[a] in ids && r[b] in ids && FirstIndex(ids, r[a]) < FirstIndex(ids, r[b])
    decreases |ids|
  {
    if ids != [] {
      var n := |ids| - 1;
      var front, id := ids[..n], ids[n];
      SnocSplit(ids);
      CollectFirstOccurrenceOrder(front, users, need);
      CollectMembers(front, users, need);
      CollectSnoc(front, id, users, need);
      var c, r := Collect(front, users, need), Collect(ids, users, need);
      assert r == c || (r == c + [id] && id !in front);
      forall a, b | 0 <= a < b < |r|
        ensures r[a] in ids && r[b] in ids && FirstIndex(ids, r[a]) < FirstIndex(ids, r[b])
      {
        assert r[a] == c[a];
        if b < |c| {
          assert r[b] == c[b];
          FirstIndexKeepsOrder(ids, n, c[a], c[b]);
        } else {
          assert r[b] == id;
          FirstIndexBeforeFresh(ids, n, c[a]);
        }
      }
    }
  }

  lemma SnocSplit<T>(s: seq<T>)
    requires s != []
    ensures s[..|s| - 1] + [s[|s| - 1]] == s
  {
  }

  /** A value met in a prefix is first met at the same place in the whole sequence. */
  lemma {:induction false} FirstIndexPrefix(xs: seq<Value>, n: nat, y: Value)
    requires n <= |xs| && y in xs[..n]
    ensures y in xs && FirstIndex(xs, y) == FirstIndex(xs[..n], y)
    decreases n
  {
    if xs[0] != y {
      assert xs[..n][1..] == xs[1..][..n - 1];
      FirstIndexPrefix(xs[1..], n - 1, y);
    }
  }

  /** Two values met in a prefix keep the order of their first occurrences. */
  lemma FirstIndexKeepsOrder(xs: seq<Value>, n: nat, u: Value, v: Value)
    requires n <= |xs| && u in xs[..n] && v in xs[..n]
    requires FirstIndex(xs[..n], u) < FirstIndex(xs[..n], v)
    ensures u in xs && v in xs && FirstIndex(xs, u) < FirstIndex(xs, v)
  {
    FirstIndexPrefix(xs, n, u);
    FirstIndexPrefix(xs, n, v);
  }

  /** A value absent from a prefix is first met right after it. */
  lemma FirstIndexFresh(xs: seq<Value>, n: nat)
    requires n < |xs| && xs[n] !in xs[..n]
    ensures FirstIndex(xs, xs[n]) == n
  {
    FirstIndexMinimal(xs, xs[n]);
    assert forall j :: 0 <= j < n ==> xs[..n][j] == xs[j];
  }

  /** A value met in a prefix is first met before a value the prefix lacks. */
  lemma FirstIndexBeforeFresh(xs: seq<Value>, n: nat, u: Value)
    requires n < |xs| && u in xs[..n] && xs[n] !in xs[..n]
    ensures u in xs && FirstIndex(xs, u) < FirstIndex(xs, xs[n])
  {
    FirstIndexPrefix(xs, n, u);
    FirstIndexFresh(xs, n);
  }

  /** `set.add(x)` on a `Set` listed in insertion order: a new member goes last, an old one stays put. */
  function SetAdd(members: seq<Value>, x: Value): seq<Value> {
    if x in members then members else members + [x]
  }

  /** One more id offered to the set. */
  lemma CollectSnoc(ids: seq<Value>, id: Value, users: Users, need: Need)
    ensures var c := Collect(ids, users, need);
      Collect(ids + [id], users, need) == if Needs(users, need, id) then SetAdd(c, id) else c
  {
    assert (ids + [id])[..|ids|] == ids;
  }

  /** One more post visited. */
  lemma UserIdsSnoc(posts: seq<Value>, i: nat)
    requires i < |posts|
    requires forall j :: 0 <= j <= i ==> !Nullish(posts[j])
    ensures UserIds(posts[..i + 1]) == UserIds(posts[..i]) + [Prop(posts[i], "user_id")]
  {
    assert posts[..i + 1][..i] == posts[..i];
  }

  /**
   * `profilesStatusesAndToLoadFromPosts` as a value: the mentioned usernames
   * and the two sets, or the TypeError `post.user_id` throws on a `null`
   * or `undefined` post.
   */
  function ToLoad(posts: seq<Value>, users: Users, mentioned: seq<Value>): (r: Result<WorkSets>)
    ensures r.TypeError? <==> exists i :: 0 <= i < |posts| && Nullish(posts[i])
    ensures r.Ok? ==> r.value.usernames == mentioned
  {
    if forall i :: 0 <= i < |posts| ==> !Nullish(posts[i]) then
      var ids := UserIds(posts);
      Ok(WorkSets(mentioned, Collect(ids, users, Profile), Collect(ids, users, Status)))
    else TypeError
  }

  /**
   * `profilesStatusesAndToLoadFromPosts`: one pass over the posts adding each
   * author to the status set and, unless it is the current user, to the
   * profile set. `mentioned` is what `getNeededAtMentionedUsernames` returns.
   */
  method ProfilesStatusesAndToLoad(posts: seq<Value>, users: Users, mentioned: seq<Value>) returns (r: Result<WorkSets>)
    ensures r == ToLoad(posts, users, mentioned)
  {
    var userIdsToLoad: seq<Value> := [];
    var statusesToLoad: seq<Value> := [];
    ghost var seen: seq<Value> := [];
    for i := 0 to |posts|
      invariant forall j :: 0 <= j < i ==> !Nullish(posts[j])
      invariant seen == UserIds(posts[..i])
      invariant statusesToLoad == Collect(seen, users, Status)
      invariant userIdsToLoad == Collect(seen, users, Profile)
    {
      if Nullish(posts[i]) {
        return TypeError;
      }
      var userId := Prop(posts[i], "user_id");
      UserIdsSnoc(posts, i);
      CollectSnoc(seen, userId, users, Status);
      CollectSnoc(seen, userId, users, Profile);
      seen := seen + [userId];
      if !Truthy(Cached(users.statuses, userId)) {
        statusesToLoad := SetAdd(statusesToLoad, userId);
      }
      if userId == users.currentUserId {
        continue;
      }
      if !Truthy(Cached(users.profiles, userId)) {
        userIdsToLoad := SetAdd(userIdsToLoad, userId);
      }
    }
    assert posts[..|posts|] == posts;
    r := Ok(WorkSets(mentioned, userIdsToLoad, statusesToLoad));
  }

  /**
   * The status set holds every post author without a cached status, the
   * current user included; the profile set every author without a cached
   * profile except the current user. Both are duplicate-free, and a post
   * that is `null` or `undefined` is the only way to fail.
   */
  lemma WorkSetsContents(posts: seq<Value>, users: Users, mentioned: seq<Value>)
    ensures ToLoad(posts, users, mentioned).Ok? ==>
      var w, ids := ToLoad(posts, users, mentioned).value, UserIds(posts);
      && (forall u :: u in w.statuses <==> u in ids && !Truthy(Cached(users.statuses, u)))
      && (forall u :: u in w.userIds <==> u in ids && u != users.currentUserId && !Truthy(Cached(users.profiles, u)))
      && users.currentUserId !in w.userIds
      && Distinct(w.statuses) && Distinct(w.userIds)
  {
    if ToLoad(posts, users, mentioned).Ok? {
      CollectMembers(UserIds(posts), users, Status);
      CollectMembers(UserIds(posts), users, Profile);
    }
  }

  // ---------------------------------------------------------------------------
  // Action assembly: getPostsAdditionalDataBatch
  // ---------------------------------------------------------------------------

  /** The three dependency requests. */
  datatype Request =
    | ProfilesByIds(userIds: seq<Value>)
    | ProfilesByUsernames(usernames: seq<Value>)
    | StatusesByIds(userIds: seq<Value>)

  /** What the server answers a request with: a rejection, or a decoded body. */
  datatype Response = Failed | Resolved(body: Value)

  /** The redux actions the fetch logic dispatches, as tagged records. */
  datatype Action =
    | ReceivedPosts(data: Value)
    | ReceivedPostsInChannel(data: Value, channelId: Value, recent: bool, oldest: bool)
    | ReceivedPostsSince(data: Value, channelId: Value)
    | ReceivedPostsBefore(data: Value, channelId: Value, postId: Value, oldest: bool)
    | ReceivedPostsInThread(data: Value, rootId: Value)
    | ReceivedProfilesList(list: Value)
    | ReceivedStatuses(list: Value)

  /** The requests issued for the work-sets: one per non-empty set, ids first, then usernames, then statuses. */
  function PlannedRequests(w: WorkSets): (rs: seq<Request>)
    ensures |rs| <= 3
    ensures ProfilesByIds(w.userIds) in rs <==> |w.userIds| > 0
    ensures ProfilesByUsernames(w.usernames) in rs <==> |w.usernames| > 0
    ensures StatusesByIds(w.statuses) in rs <==> |w.statuses| > 0
    ensures forall r :: r in rs ==> r in [ProfilesByIds(w.userIds), ProfilesByUsernames(w.usernames), StatusesByIds(w.statuses)]
    ensures forall a, b :: 0 <= a < b < |rs| ==> Rank(rs[a]) < Rank(rs[b])
  {
    (if |w.userIds| > 0 then [ProfilesByIds(w.userIds)] else [])
    + (if |w.usernames| > 0 then [ProfilesByUsernames(w.usernames)] else [])
    + (if |w.statuses| > 0 then [StatusesByIds(w.statuses)] else [])
  }

  /** The position of a request kind in the fixed issue order. */
  function Rank(r: Request): nat {
    match r
    case ProfilesByIds(_) => 0
    case ProfilesByUsernames(_) => 1
    case StatusesByIds(_) => 2
  }

  predicate AllResolved(requests: seq<Request>, server: Request -> Response) {
    forall i :: 0 <= i < |requests| ==> server(requests[i]).Resolved?
  }

  /** The bodies `Promise.all` resolves to, in request order. */
  function Bodies(requests: seq<Request>, server: Request -> Response): (bodies: seq<Value>)
    requires AllResolved(requests, server)
    ensures |bodies| == |requests|
    ensures forall i :: 0 <= i < |requests| ==> bodies[i] == server(requests[i]).body
  {
    seq(|requests|, i requires 0 <= i < |requests| => server(requests[i]).body)
  }

  /**
   * `removeUserFromList(currentUserId, list)`: the list without the entries
   * whose `id` is the current user; a body that is not an array is left as
   * it is.
   */
  function WithoutUser(me: Value, list: Value): (r: Value)
    ensures list.Arr? ==> r.Arr? && forall x :: x in r.items <==> x in list.items && !IsUser(x, me)
    ensures !list.Arr? ==> r == list
  {
    if list.Arr? then Arr(Remove(list.items, me)) else list
  }

  predicate IsUser(x: Value, me: Value) {
    x.Obj? && Get(x.obj, "id") == me
  }

  function Remove(items: seq<Value>, me: Value): (r: seq<Value>)
    ensures forall x :: x in r <==> x in items && !IsUser(x, me)
  {
    if items == [] then []
    else
      assert forall x :: x in items <==> x == items[0] || x in items[1..];
      (if IsUser(items[0], me) then [] else [items[0]]) + Remove(items[1..], me)
  }

  /** Each entry that is not the current user is kept as many times as it occurs; the current user's entries never. */
  lemma {:induction false} RemoveCounts(items: seq<Value>, me: Value)
    ensures forall x :: multiset(Remove(items, me))[x] == if IsUser(x, me) then 0 else multiset(items)[x]
    decreases |items|
  {
    if items != [] {
      assert items == [items[0]] + items[1..];
      RemoveCounts(items[1..], me);
    }
  }

  /**
   * Removing the current user keeps the order of the rest: the entries kept
   * from a concatenation are those kept from each part, one part after the
   * other.
   */
  lemma {:induction false} RemoveKeepsOrder(a: seq<Value>, b: seq<Value>, me: Value)
    ensures Remove(a + b, me) == Remove(a, me) + Remove(b, me)
    decreases |a|
  {
    if a != [] {
      var head := if IsUser(a[0], me) then [] else [a[0]];
      assert Remove(a + b, me) == head + Remove(a[1..] + b, me) by {
        assert (a + b)[0] == a[0];
        assert (a + b)[1..] == a[1..] + b;
      }
      assert Remove(a, me) == head + Remove(a[1..], me);
      RemoveKeepsOrder(a[1..], b, me);
      ConcatAssoc(head, Remove(a[1..], me), Remove(b, me));
    } else {
      assert a + b == b;
    }
  }

  /** The action one non-empty body becomes: statuses unfiltered, profiles without the current user. */
  function Delivery(request: Request, body: Value, me: Value): Action {
    if request.StatusesByIds? then ReceivedStatuses(body) else ReceivedProfilesList(WithoutUser(me, body))
  }

  /** What one body that is not `null` or `undefined` adds: its action when its `length` is truthy. */
  function Step(request: Request, body: Value, me: Value): seq<Action>
    requires !Nullish(body)
  {
    if Truthy(Length(body)) then [Delivery(request, body, me)] else []
  }

  /**
   * The `forEach` over the bodies: each body with a truthy `length` becomes
   * one action; reading `length` of a `null` or `undefined` body throws,
   * which ends the loop and keeps the actions pushed so far.
   */
  function Delivered(requests: seq<Request>, bodies: seq<Value>, me: Value): seq<Action>
    requires |requests| == |bodies|
    decreases |bodies|
  {
    if bodies == [] || Nullish(bodies[0]) then []
    else
      Step(requests[0], bodies[0], me) + Delivered(requests[1..], bodies[1..], me)
  }

  /**
   * The actions `getPostsAdditionalDataBatch` returns: none for no posts, none
   * when computing the work-sets throws, none when any request fails, and
   * otherwise the deliveries of the bodies in request order.
   */
  function AdditionalData(posts: seq<Value>, users: Users, mentioned: seq<Value>, server: Request -> Response): (actions: seq<Action>)
    ensures |posts| == 0 ==> actions == []
  {
    if |posts| == 0 then []
    else match ToLoad(posts, users, mentioned)
      case TypeError => []
      case Ok(w) =>
        var requests := PlannedRequests(w);
        if AllResolved(requests, server) then Delivered(requests, Bodies(requests, server), users.currentUserId)
        else []
  }

  method AdditionalDataBatch(posts: seq<Value>, users: Users, mentioned: seq<Value>, server: Request -> Response)
    returns (actions: seq<Action>)
    ensures actions == AdditionalData(posts, users, mentioned, server)
  {
    actions := [];
    if |posts| == 0 {
      return;
    }
    var extra := ProfilesStatusesAndToLoad(posts, users, mentioned);
    if extra.TypeError? {
      return;
    }
    var requests := PlanRequests(extra.value);
    if |requests| > 0 {
      var settled := AwaitAll(requests, server);
      if settled.Fulfilled? {
        actions := DeliverAll(requests, settled.bodies, users.currentUserId);
      }
    }
  }

  /** The pushes onto `promises`: one request per non-empty work-set, in the fixed order. */
  method PlanRequests(w: WorkSets) returns (requests: seq<Request>)
    ensures requests == PlannedRequests(w)
  {
    requests := [];
    if |w.userIds| > 0 {
      requests := requests + [ProfilesByIds(w.userIds)];
    }
    ghost var ids := requests;
    if |w.usernames| > 0 {
      requests := requests + [ProfilesByUsernames(w.usernames)];
    }
    ghost var profiles := requests;
    if |w.statuses| > 0 {
      requests := requests + [StatusesByIds(w.statuses)];
    }
    assert requests == PlannedRequests(w) by {
      assert ids == if |w.userIds| > 0 then [ProfilesByIds(w.userIds)] else [];
      assert profiles == ids + if |w.usernames| > 0 then [ProfilesByUsernames(w.usernames)] else [];
      assert requests == profiles + if |w.statuses| > 0 then [StatusesByIds(w.statuses)] else [];
    }
  }

  /**
   * Each delivered action answers one request whose body has a truthy
   * `length`, at most one per request; and when the statuses request comes
   * last, so does its action.
   */
  lemma {:induction false} DeliveredActions(requests: seq<Request>, bodies: seq<Value>, me: Value)
    requires |requests| == |bodies|
    ensures var actions := Delivered(requests, bodies, me);
      && |actions| <= |requests|
      && (forall a :: a in actions ==> exists i :: 0 <= i < |requests| && Answers(a, requests[i], bodies[i], me))
      && ((forall j :: 0 <= j < |requests| - 1 ==> !requests[j].StatusesByIds?) ==>
            forall j :: 0 <= j < |actions| - 1 ==> !actions[j].ReceivedStatuses?)
    decreases |bodies|
  {
    if bodies != [] && !Nullish(bodies[0]) {
      var rest := Delivered(requests[1..], bodies[1..], me);
      DeliveredActions(requests[1..], bodies[1..], me);
      forall a | a in rest ensures exists i :: 0 <= i < |requests| && Answers(a, requests[i], bodies[i], me) {
        var i :| 0 <= i < |requests| - 1 && Answers(a, requests[1..][i], bodies[1..][i], me);
        assert Answers(a, requests[i + 1], bodies[i + 1], me);
      }
      if forall j :: 0 <= j < |requests| - 1 ==> !requests[j].StatusesByIds? {
        assert forall j :: 0 <= j < |requests| - 2 ==> !requests[1..][j].StatusesByIds?;
      }
    }
  }

  /** `p.length` of each body. */
  function Lengths(bodies: seq<Value>): (ls: seq<Value>)
    requires forall i :: 0 <= i < |bodies| ==> !Nullish(bodies[i])
    ensures |ls| == |bodies|
  {
    seq(|bodies|, i requires 0 <= i < |bodies| => Length(bodies[i]))
  }

  /** Without a nullish body the loop runs to the end: the last body adds its action after all the others. */
  lemma DeliveredSnoc(requests: seq<Request>, bodies: seq<Value>, me: Value)
    requires |requests| == |bodies| > 0
    requires forall i :: 0 <= i < |bodies| ==> !Nullish(bodies[i])
    ensures var n := |bodies| - 1;
      Delivered(requests, bodies, me) == Delivered(requests[..n], bodies[..n], me) + Step(requests[n], bodies[n], me)
  {
    var n := |bodies| - 1;
    DeliveredSnocFrom(requests, bodies, me, 0);
    assert requests[0..] == requests && bodies[0..] == bodies;
    assert requests[0..n] == requests[..n] && bodies[0..n] == bodies[..n];
  }

  /** `DeliveredSnoc` for the bodies from position `k` on. */
  lemma {:induction false} DeliveredSnocFrom(requests: seq<Request>, bodies: seq<Value>, me: Value, k: nat)
    requires |requests| == |bodies| > 0 && k < |bodies|
    requires forall i :: 0 <= i < |bodies| ==> !Nullish(bodies[i])
    ensures var n := |bodies| - 1;
      Delivered(requests[k..], bodies[k..], me) ==
        Delivered(requests[k..n], bodies[k..n], me) + Step(requests[n], bodies[n], me)
    decreases |bodies| - k
  {
    var n := |bodies| - 1;
    SliceTails(requests, k, n);
    SliceTails(bodies, k, n);
    if k < n {
      DeliveredSnocFrom(requests, bodies, me, k + 1);
      ConcatAssoc(Step(requests[k], bodies[k], me), Delivered(requests[k + 1..n], bodies[k + 1..n], me), Step(requests[n], bodies[n], me));
    }
  }

  lemma SliceTails<T>(s: seq<T>, k: nat, n: nat)
    requires k <= n < |s|
    ensures s[k..][1..] == s[k + 1..] && s[k..n] == if k == n then [] else [s[k]] + s[k + 1..n]
  {
    if k < n {
      assert s[k..n] == [s[k]] + s[k + 1..n];
    }
  }

  /**
   * When no body is `null` or `undefined`, every body with a truthy `length`
   * becomes its action, in request order, and no other action appears:
   * statuses as received, profiles without the current user.
   */
  lemma {:induction false} DeliveredComplete(requests: seq<Request>, bodies: seq<Value>, me: Value)
    requires |requests| == |bodies|
    requires forall i :: 0 <= i < |bodies| ==> !Nullish(bodies[i])
    ensures var actions, ix := Delivered(requests, bodies, me), PostWriter.TruthyIndices(Lengths(bodies));
      && |actions| == |ix|
      && forall j :: 0 <= j < |ix| ==> actions[j] == Delivery(requests[ix[j]], bodies[ix[j]], me)
    decreases |bodies|
  {
    if bodies != [] {
      var n := |bodies| - 1;
      var rf, bf := requests[..n], bodies[..n];
      DeliveredSnoc(requests, bodies, me);
      DeliveredComplete(rf, bf, me);
      LengthsSnoc(bodies);
      var af, tf := Delivered(rf, bf, me), PostWriter.TruthyIndices(Lengths(bf));
      var step := Step(requests[n], bodies[n], me);
      var stepIx := if Truthy(Length(bodies[n])) then [n] else [];
      DeliveriesExtend(requests, bodies, me, n, af, tf, step, stepIx);
    }
  }

  /** Deliveries for the positions `tf` below `n`, then possibly the one for `n`, are the deliveries for `tf + [n]`. */
  lemma DeliveriesExtend(requests: seq<Request>, bodies: seq<Value>, me: Value, n: nat,
                         af: seq<Action>, tf: seq<nat>, step: seq<Action>, stepIx: seq<nat>)
    requires n < |requests| == |bodies|
    requires |af| == |tf| && |step| == |stepIx| <= 1
    requires forall j :: 0 <= j < |tf| ==> tf[j] < n && af[j] == Delivery(requests[..n][tf[j]], bodies[..n][tf[j]], me)
    requires |step| == 1 ==> stepIx[0] == n && step[0] == Delivery(requests[n], bodies[n], me)
    ensures var actions, ix := af + step, tf + stepIx;
      && |actions| == |ix|
      && forall j :: 0 <= j < |ix| ==> ix[j] < |requests| && actions[j] == Delivery(requests[ix[j]], bodies[ix[j]], me)
  {
    var actions, ix := af + step, tf + stepIx;
    forall j | 0 <= j < |ix| ensures ix[j] < |requests| && actions[j] == Delivery(requests[ix[j]], bodies[ix[j]], me) {
      if j < |tf| {
        assert actions[j] == af[j] && ix[j] == tf[j];
        assert requests[..n][tf[j]] == requests[tf[j]] && bodies[..n][tf[j]] == bodies[tf[j]];
      }
    }
  }

  /** The non-empty bodies among all but the last, followed by the last one if it is non-empty. */
  lemma LengthsSnoc(bodies: seq<Value>)
    requires |bodies| > 0
    requires forall i :: 0 <= i < |bodies| ==> !Nullish(bodies[i])
    ensures var n := |bodies| - 1;
      PostWriter.TruthyIndices(Lengths(bodies)) ==
        PostWriter.TruthyIndices(Lengths(bodies[..n])) + if Truthy(Length(bodies[n])) then [n] else []
  {
    var n := |bodies| - 1;
    assert Lengths(bodies[..n]) == Lengths(bodies)[..n];
  }

  /**
   * `a` is what the non-empty body of `request` becomes: the statuses as
   * received, or the profiles without the current user.
   */
  predicate Answers(a: Action, request: Request, body: Value, me: Value) {
    && !Nullish(body) && Truthy(Length(body))
    && match request
       case StatusesByIds(_) => a == ReceivedStatuses(body)
       case _ => a == ReceivedProfilesList(WithoutUser(me, body))
  }

  /**
   * All or nothing: actions appear only when the work-sets were computed and
   * every planned request resolved; each then answers one of those requests,
   * a profiles list never holds the current user, and statuses come last.
   */
  lemma AdditionalDataActions(posts: seq<Value>, users: Users, mentioned: seq<Value>, server: Request -> Response)
    ensures var actions, me := AdditionalData(posts, users, mentioned, server), users.currentUserId;
      actions != [] ==>
        && ToLoad(posts, users, mentioned).Ok?
        && var requests := PlannedRequests(ToLoad(posts, users, mentioned).value);
        && AllResolved(requests, server)
        && |actions| <= |requests|
        && (forall a :: a in actions ==>
              exists i :: 0 <= i < |requests| && Answers(a, requests[i], server(requests[i]).body, me))
        && (forall a :: a in actions && a.ReceivedProfilesList? && a.list.Arr? ==>
              forall x :: x in a.list.items ==> !IsUser(x, me))
        && (forall j :: 0 <= j < |actions| - 1 ==> !actions[j].ReceivedStatuses?)
  {
    var actions, me := AdditionalData(posts, users, mentioned, server), users.currentUserId;
    if actions != [] {
      var w := ToLoad(posts, users, mentioned).value;
      var requests := PlannedRequests(w);
      assert AllResolved(requests, server);
      var bodies := Bodies(requests, server);
      DeliveredActions(requests, bodies, me);
      forall a | a in actions && a.ReceivedProfilesList? && a.list.Arr?
        ensures forall x :: x in a.list.items ==> !IsUser(x, me)
      {
        var i :| 0 <= i < |requests| && Answers(a, requests[i], bodies[i], me);
        AnswerExcludesMe(a, requests[i], bodies[i], me);
      }
    }
  }

  /**
   * Conversely, once the posts are non-empty, the work-sets are computed and
   * every request resolved with a body that is not `null` or `undefined`,
   * each body with a truthy `length` is delivered, in request order, and
   * nothing else is.
   */
  lemma AdditionalDataDelivers(posts: seq<Value>, users: Users, mentioned: seq<Value>, server: Request -> Response)
    requires |posts| > 0 && ToLoad(posts, users, mentioned).Ok?
    requires var requests := PlannedRequests(ToLoad(posts, users, mentioned).value);
      AllResolved(requests, server) && forall i :: 0 <= i < |requests| ==> !Nullish(server(requests[i]).body)
    ensures var actions, me := AdditionalData(posts, users, mentioned, server), users.currentUserId;
      var requests := PlannedRequests(ToLoad(posts, users, mentioned).value);
      var bodies := Bodies(requests, server);
      var ix := PostWriter.TruthyIndices(Lengths(bodies));
      && |actions| == |ix|
      && forall j :: 0 <= j < |ix| ==> actions[j] == Delivery(requests[ix[j]], bodies[ix[j]], me)
  {
    var requests := PlannedRequests(ToLoad(posts, users, mentioned).value);
    DeliveredComplete(requests, Bodies(requests, server), users.currentUserId);
  }

  /** A profiles list that answers a request never holds the current user. */
  lemma AnswerExcludesMe(a: Action, request: Request, body: Value, me: Value)
    requires Answers(a, request, body, me)
    ensures a.ReceivedProfilesList? && a.list.Arr? ==> forall x :: x in a.list.items ==> !IsUser(x, me)
  {
  }

  /**
   * The requests ask for no one twice, never for the current user's profile,
   * and for the current user's status whenever one of the posts is theirs and
   * no truthy status of theirs is cached.
   */
  lemma RequestedUsers(posts: seq<Value>, users: Users, mentioned: seq<Value>)
    requires ToLoad(posts, users, mentioned).Ok?
    ensures var requests, me := PlannedRequests(ToLoad(posts, users, mentioned).value), users.currentUserId;
      && (forall r :: r in requests && r.ProfilesByIds? ==> me !in r.userIds && Distinct(r.userIds))
      && (forall r :: r in requests && r.StatusesByIds? ==> Distinct(r.userIds))
      && ((exists i :: 0 <= i < |posts| && Prop(posts[i], "user_id") == me) && !Truthy(Cached(users.statuses, me)) ==>
            exists r :: r in requests && r.StatusesByIds? && me in r.userIds)
  {
    var w, me, ids := ToLoad(posts, users, mentioned).value, users.currentUserId, UserIds(posts);
    assert w.statuses == Collect(ids, users, Status) && w.userIds == Collect(ids, users, Profile);
    CollectMembers(ids, users, Status);
    CollectMembers(ids, users, Profile);
    if (exists i :: 0 <= i < |posts| && Prop(posts[i], "user_id") == me) && !Truthy(Cached(users.statuses, me)) {
      var i :| 0 <= i < |posts| && Prop(posts[i], "user_id") == me;
      assert ids[i] == me;
      assert me in w.statuses;
    }
  }

  /** What `Promise.all` settles to: the bodies, or the rejection of a request that failed. */
  datatype Awaited = Fulfilled(bodies: seq<Value>) | RequestFailed

  /** `Promise.all`: every body in request order, or a rejection as soon as one request fails. */
  method AwaitAll(requests: seq<Request>, server: Request -> Response) returns (r: Awaited)
    ensures r.Fulfilled? <==> AllResolved(requests, server)
    ensures r.Fulfilled? ==> r.bodies == Bodies(requests, server)
  {
    var bodies: seq<Value> := [];
    for i := 0 to |requests|
      invariant |bodies| == i
      invariant forall j :: 0 <= j < i ==> server(requests[j]) == Resolved(bodies[j])
    {
      var response := server(requests[i]);
      if response.Failed? {
        return RequestFailed;
      }
      bodies := bodies + [response.body];
    }
    r := Fulfilled(bodies);
  }

  /** The `forEach` over the resolved bodies, pushing one action per non-empty body. */
  method DeliverAll(requests: seq<Request>, bodies: seq<Value>, me: Value) returns (actions: seq<Action>)
    requires |requests| == |bodies|
    ensures actions == Delivered(requests, bodies, me)
  {
    actions := [];
    var i := 0;
    while i < |bodies|
      invariant 0 <= i <= |bodies|
      invariant actions + Delivered(requests[i..], bodies[i..], me) == Delivered(requests, bodies, me)
    {
      var p := bodies[i];
      if Nullish(p) {
        DeliveredStops(requests, bodies, me, i);
        break;
      }
      var step := [];
      if Truthy(Length(p)) {
        var action := Deliver(requests[i], p, me);
        step := [action];
      }
      DeliveredStep(requests, bodies, me, i, actions, step);
      actions := actions + step;
      i := i + 1;
    }
  }

  /** The action for one non-empty body: statuses as they are, profiles without the current user. */
  method Deliver(request: Request, body: Value, me: Value) returns (action: Action)
    ensures action == Delivery(request, body, me)
  {
    if request.StatusesByIds? {
      action := ReceivedStatuses(body);
    } else {
      action := ReceivedProfilesList(WithoutUser(me, body));
    }
  }

  /** `Delivered` from a nullish body on is empty. */
  lemma DeliveredStops(requests: seq<Request>, bodies: seq<Value>, me: Value, i: nat)
    requires |requests| == |bodies| && i < |bodies| && Nullish(bodies[i])
    ensures Delivered(requests[i..], bodies[i..], me) == []
  {
  }

  /** `Delivered` from position `i` is the step for body `i` followed by the rest. */
  lemma DeliveredStep(requests: seq<Request>, bodies: seq<Value>, me: Value, i: nat, done: seq<Action>, step: seq<Action>)
    requires |requests| == |bodies| && i < |bodies| && !Nullish(bodies[i])
    requires step == Step(requests[i], bodies[i], me)
    ensures done + Delivered(requests[i..], bodies[i..], me) == (done + step) + Delivered(requests[i + 1..], bodies[i + 1..], me)
  {
    assert requests[i..][1..] == requests[i + 1..];
    assert bodies[i..][1..] == bodies[i + 1..];
  }

  // ---------------------------------------------------------------------------
  // The around-merge of getPostsAround
  // ---------------------------------------------------------------------------

  /** The object literal `{posts, order, next_post_id, prev_post_id}`. */
  function PageLiteral(posts: Value, order: Value, nextPostId: Value, prevPostId: Value): Value {
    Obj(Object(["posts", "order", "next_post_id", "prev_post_id"],
               map["posts" := posts, "order" := order, "next_post_id" := nextPostId, "prev_post_id" := prevPostId]))
  }

  /** Reading the four properties back from the literal. */
  lemma PageLiteralFields(posts: Value, order: Value, nextPostId: Value, prevPostId: Value)
    ensures var data := PageLiteral(posts, order, nextPostId, prevPostId);
      && data.Obj? && data.obj.keys == ["posts", "order", "next_post_id", "prev_post_id"]
      && Get(data.obj, "posts") == posts && Get(data.obj, "order") == order
      && Get(data.obj, "next_post_id") == nextPostId && Get(data.obj, "prev_post_id") == prevPostId
  {
  }

  /** `{...after.posts, ...thread.posts, ...before.posts}`. */
  function MergedPosts(a: Value, t: Value, b: Value): Object {
    Assign(Assign(Assign(Empty, OwnEntries(a)), OwnEntries(t)), OwnEntries(b))
  }

  /**
   * The page `getPostsAround` builds inside its `try` from the replies for the
   * posts before `postId`, its thread and the posts after it, or the
   * TypeError it throws: a reply that is `null` or `undefined`, or an
   * `order` that array spread cannot iterate.
   */
  function MergeAround(postId: Value, before: Value, thread: Value, after: Value): (r: Result<Value>)
    ensures r.TypeError? <==>
      || Nullish(before) || Nullish(thread) || Nullish(after)
      || !Iterable(Prop(after, "order")) || !Iterable(Prop(before, "order"))
  {
    if Nullish(after) || Nullish(thread) || Nullish(before) then TypeError
    else
      var afterOrder, beforeOrder := Prop(after, "order"), Prop(before, "order");
      if !Iterable(afterOrder) || !Iterable(beforeOrder) then TypeError
      else
        var posts := MergedPosts(Prop(after, "posts"), Prop(thread, "posts"), Prop(before, "posts"));
        var order := Elements(afterOrder) + [postId] + Elements(beforeOrder);
        Ok(PageLiteral(Obj(posts), Arr(order), Prop(after, "next_post_id"), Prop(before, "prev_post_id")))
  }

  /**
   * The merged page: its order is the newer posts, the anchor, then the older
   * posts, and the cursors come from the outer replies.
   */
  lemma MergeAroundPage(postId: Value, before: Value, thread: Value, after: Value)
    requires MergeAround(postId, before, thread, after).Ok?
    ensures var data := MergeAround(postId, before, thread, after).value;
      && data.Obj? && data.obj.keys == ["posts", "order", "next_post_id", "prev_post_id"]
      && Get(data.obj, "posts") == Obj(MergedPosts(Prop(after, "posts"), Prop(thread, "posts"), Prop(before, "posts")))
      && Get(data.obj, "order") == Arr(Elements(Prop(after, "order")) + [postId] + Elements(Prop(before, "order")))
      && |Get(data.obj, "order").items| == |Elements(Prop(after, "order"))| + 1 + |Elements(Prop(before, "order"))|
      && Get(data.obj, "next_post_id") == Prop(after, "next_post_id")
      && Get(data.obj, "prev_post_id") == Prop(before, "prev_post_id")
  {
    var afterOrder, beforeOrder := Prop(after, "order"), Prop(before, "order");
    var order := Elements(afterOrder) + [postId] + Elements(beforeOrder);
    var posts := MergedPosts(Prop(after, "posts"), Prop(thread, "posts"), Prop(before, "posts"));
    PageLiteralFields(Obj(posts), Arr(order), Prop(after, "next_post_id"), Prop(before, "prev_post_id"));
  }

  /** A post present in several replies is taken from `before`, else from the thread, else from `after`. */
  lemma MergedPostsPrecedence(a: Value, t: Value, b: Value)
    requires Spreadable(a) && Spreadable(t) && Spreadable(b)
    ensures var posts := MergedPosts(a, t, b);
      forall k :: Get(posts, k) ==
        if k in Own(b).props then Own(b).props[k]
        else if k in Own(t).props then Own(t).props[k]
        else Get(Own(a), k)
  {
    var p1 := Assign(Empty, OwnEntries(a));
    var p2 := Assign(p1, OwnEntries(t));
    SpreadOver(Empty, a);
    SpreadOver(p1, t);
    SpreadOver(p2, b);
  }

  /** The merged posts are exactly those of the three replies, the `after` posts enumerated first. */
  lemma MergedPostsKeys(a: Value, t: Value, b: Value)
    requires Spreadable(a) && Spreadable(t) && Spreadable(b)
    ensures var posts := MergedPosts(a, t, b);
      && (forall k :: k in posts.props <==> k in Own(a).props || k in Own(t).props || k in Own(b).props)
      && Own(a).keys <= posts.keys
  {
    var p1 := Assign(Empty, OwnEntries(a));
    var p2 := Assign(p1, OwnEntries(t));
    SpreadOverKeys(Empty, a);
    SpreadOverKeys(p1, t);
    SpreadOverKeys(p2, b);
    SpreadKeys(a);
  }

  // ---------------------------------------------------------------------------
  // The five fetch thunks and the skeleton they share
  // ---------------------------------------------------------------------------

  /** What a thunk's promise settles to: `{error}`, `{data}`, or a rejection by a TypeError outside the `try`. */
  datatype Outcome = Error | Data(data: Value) | Rejected

  /** The thunk that fetched the page, with the arguments its actions mention. */
  datatype Strategy =
    | Latest(channelId: Value, page: Value)
    | Since(channelId: Value)
    | Before(channelId: Value, postId: Value, page: Value)
    | Around(channelId: Value, postId: Value)
    | Thread(rootId: Value)

  /**
   * The actions a page is announced with, ahead of the dependency actions.
   * `getPostsAround` tests `after.next_post_id` and `before.prev_post_id`,
   * which the merged page carries as its own cursors.
   */
  function Announced(s: Strategy, data: Value): seq<Action>
    requires !Nullish(data)
  {
    match s
    case Latest(channelId, page) =>
      [ReceivedPosts(data), ReceivedPostsInChannel(data, channelId, page == Num(0), Prop(data, "prev_post_id") == Str(""))]
    case Since(channelId) =>
      [ReceivedPosts(data), ReceivedPostsSince(data, channelId)]
    case Before(channelId, postId, _) =>
      [ReceivedPosts(data), ReceivedPostsBefore(data, channelId, postId, Prop(data, "prev_post_id") == Str(""))]
    case Around(channelId, _) =>
      [ReceivedPosts(data), ReceivedPostsInChannel(data, channelId,
        Prop(data, "next_post_id") == Str(""), Prop(data, "prev_post_id") == Str(""))]
    case Thread(rootId) =>
      [ReceivedPosts(data), ReceivedPostsInThread(data, rootId)]
  }

  /** The default parameter `page = 0`: an omitted page is the first one. */
  function DefaultPage(page: Value): Value {
    if page.Undefined? then Num(0) else page
  }

  /**
   * `getPosts` announces its page as the most recent one exactly when the
   * page was omitted or is 0.
   */
  lemma LatestPageRecent(channelId: Value, page: Value, data: Value)
    requires !Nullish(data)
    ensures var actions := Announced(Latest(channelId, DefaultPage(page)), data);
      && |actions| == 2 && actions[1].ReceivedPostsInChannel?
      && (actions[1].recent <==> page.Undefined? || page == Num(0))
  {
  }

  /** `Object.values(data.posts)`, or the TypeError of reading `posts` of nothing or taking the values of nothing. */
  function PagePosts(data: Value): Result<seq<Value>> {
    if Nullish(data) || Nullish(Prop(data, "posts")) then TypeError
    else Ok(ValuesOf(Prop(data, "posts")))
  }

  /** The channel a non-empty page is announced for: the requested one, or for a thread the first post's. */
  function PageChannel(s: Strategy, posts: seq<Value>): Result<Value>
    requires |posts| > 0
  {
    match s
    case Thread(_) => if Nullish(posts[0]) then TypeError else Ok(Prop(posts[0], "channel_id"))
    case _ => Ok(s.channelId)
  }

  /**
   * What a thunk returns and which batches it dispatches once the page is
   * written: nothing for an empty page, a rejection when the thread's first
   * post is missing, and one batch only when the page's channel is on screen.
   */
  function Dispatch(s: Strategy, data: Value, posts: seq<Value>, current: Value, users: Users,
                    mentions: seq<Value> -> seq<Value>, server: Request -> Response): (r: (Outcome, seq<seq<Action>>))
    requires !Nullish(data)
    ensures r.0 != Error
    ensures |r.1| <= 1
  {
    if |posts| == 0 then (Data(data), [])
    else match PageChannel(s, posts)
      case TypeError => (Rejected, [])
      case Ok(channelId) =>
        (Data(data), if channelId == current
                     then [Announced(s, data) + AdditionalData(posts, users, mentions(posts), server)]
                     else [])
  }

  /**
   * Every fetch thunk that got a page returns `{data}` unless the thread's
   * first post is missing, and dispatches at most one batch: only for a
   * non-empty page whose channel is the one on screen, opening with the
   * page's own actions and closing with the dependency actions.
   */
  lemma DispatchRules(s: Strategy, data: Value, posts: seq<Value>, current: Value, users: Users,
                      mentions: seq<Value> -> seq<Value>, server: Request -> Response)
    requires !Nullish(data)
    ensures var (outcome, dispatched) := Dispatch(s, data, posts, current, users, mentions, server);
      && (outcome == Rejected <==> |posts| > 0 && s.Thread? && Nullish(posts[0]))
      && (outcome != Rejected ==> outcome == Data(data))
      && (dispatched != [] <==> |posts| > 0 && PageChannel(s, posts) == Ok(current))
      && (!s.Thread? && |posts| > 0 ==> (dispatched != [] <==> s.channelId == current))
      && (dispatched != [] ==>
            dispatched[0] == Announced(s, data) + AdditionalData(posts, users, mentions(posts), server))
  {
  }

  /**
   * The redux side of the app as the fetch thunks see it: the local post
   * store, the channel on screen, the cached users, and the batches
   * dispatched so far, oldest first.
   */
  class PostsSession {
    const store: PostWriter.PostStore
    /** `getNeededAtMentionedUsernames(state, posts)`: the usernames mentioned in the posts whose profiles are missing. */
    const NeededMentions: seq<Value> -> seq<Value>
    var currentChannelId: Value
    var users: Users
    var batches: seq<seq<Action>>

    constructor (store: PostWriter.PostStore, neededMentions: seq<Value> -> seq<Value>, currentChannelId: Value, users: Users)
      ensures this.store == store && NeededMentions == neededMentions
      ensures this.currentChannelId == currentChannelId && this.users == users && batches == []
    {
      this.store := store;
      NeededMentions := neededMentions;
      this.currentChannelId := currentChannelId;
      this.users := users;
      batches := [];
    }

    /**
     * How a thunk ends once its `try` produced `data`: a page whose posts
     * cannot be read rejects with nothing done; a non-empty page is written
     * to the store, and announced in one batch, with the dependency actions,
     * only when its channel is the one on screen; the data is returned.
     */
    twostate predicate Settled(s: Strategy, data: Value, server: Request -> Response, r: Outcome)
      reads this, store
    {
      match PagePosts(data)
      case TypeError => r == Rejected && unchanged(store) && batches == old(batches)
      case Ok(posts) =>
        && store.rows == PostWriter.UpsertAll(old(store.rows), PostWriter.Normalized(posts), store.Rejects)
        && store.transactions == old(store.transactions) + |PostWriter.Normalized(posts)|
        && var (outcome, dispatched) := Dispatch(s, data, posts, currentChannelId, users, NeededMentions, server);
           r == outcome && batches == old(batches) + dispatched
    }

    /** Nothing written, nothing dispatched. */
    twostate predicate Untouched()
      reads this, store
    {
      unchanged(store) && batches == old(batches)
    }

    /** The shared part of the five thunks after their `try`. */
    method Settle(s: Strategy, data: Value, server: Request -> Response) returns (r: Outcome)
      modifies this`batches, store`rows, store`transactions
      ensures Settled(s, data, server, r)
    {
      if Nullish(data) || Nullish(Prop(data, "posts")) {
        return Rejected;
      }
      var posts := ValuesOf(Prop(data, "posts"));
      assert PagePosts(data) == Ok(posts);
      if |posts| > 0 {
        var written := store.WritePosts(posts);
      }
      r := Announce(s, data, posts, server);
    }

    /** The part after the write: pick the channel, compare it with the one on screen, dispatch. */
    method Announce(s: Strategy, data: Value, posts: seq<Value>, server: Request -> Response) returns (r: Outcome)
      requires !Nullish(data)
      modifies this`batches
      ensures r == Dispatch(s, data, posts, currentChannelId, users, NeededMentions, server).0
      ensures batches == old(batches) + Dispatch(s, data, posts, currentChannelId, users, NeededMentions, server).1
    {
      if |posts| > 0 {
        var channelId;
        if s.Thread? {
          if Nullish(posts[0]) {
            return Rejected;
          }
          channelId := Prop(posts[0], "channel_id");
        } else {
          channelId := s.channelId;
        }
        if channelId == currentChannelId {
          var additional := AdditionalDataBatch(posts, users, NeededMentions(posts), server);
          batches := batches + [Announced(s, data) + additional];
        }
      }
      r := Data(data);
    }

    /** `getPosts(channelId, page = 0, perPage)`: the page size only shapes the request. */
    method GetPosts(channelId: Value, page: Value, response: Response, server: Request -> Response) returns (r: Outcome)
      modifies this`batches, store`rows, store`transactions
      ensures response.Failed? ==> r == Error && Untouched()
      ensures response.Resolved? ==> Settled(Latest(channelId, DefaultPage(page)), response.body, server, r)
    {
      if response.Failed? {
        return Error;
      }
      r := Settle(Latest(channelId, DefaultPage(page)), response.body, server);
    }

    /** `getPostsSince(channelId, since)`: the timestamp only shapes the request. */
    method GetPostsSince(channelId: Value, response: Response, server: Request -> Response) returns (r: Outcome)
      modifies this`batches, store`rows, store`transactions
      ensures response.Failed? ==> r == Error && Untouched()
      ensures response.Resolved? ==> Settled(Since(channelId), response.body, server, r)
    {
      if response.Failed? {
        return Error;
      }
      r := Settle(Since(channelId), response.body, server);
    }

    /** `getPostsBefore(channelId, postId, page = 0, perPage)`. */
    method GetPostsBefore(channelId: Value, postId: Value, page: Value, response: Response, server: Request -> Response)
      returns (r: Outcome)
      modifies this`batches, store`rows, store`transactions
      ensures response.Failed? ==> r == Error && Untouched()
      ensures response.Resolved? ==> Settled(Before(channelId, postId, DefaultPage(page)), response.body, server, r)
    {
      if response.Failed? {
        return Error;
      }
      r := Settle(Before(channelId, postId, DefaultPage(page)), response.body, server);
    }

    /**
     * `getPostsAround(channelId, postId, perPage)`: the three requests are
     * awaited together and merged inside the `try`, so a failed request and
     * a merge that throws both end in `{error}`.
     */
    method GetPostsAround(channelId: Value, postId: Value, before: Response, thread: Response, after: Response,
                          server: Request -> Response)
      returns (r: Outcome)
      modifies this`batches, store`rows, store`transactions
      ensures before.Failed? || thread.Failed? || after.Failed? ==> r == Error && Untouched()
      ensures before.Resolved? && thread.Resolved? && after.Resolved? ==>
        match MergeAround(postId, before.body, thread.body, after.body)
        case TypeError => r == Error && Untouched()
        case Ok(data) => Settled(Around(channelId, postId), data, server, r)
    {
      if before.Failed? || thread.Failed? || after.Failed? {
        return Error;
      }
      var data := MergeAround(postId, before.body, thread.body, after.body);
      if data.TypeError? {
        return Error;
      }
      r := Settle(Around(channelId, postId), data.value, server);
    }

    /** `getPostThread(rootId)`: announced for the channel of the first post of the thread. */
    method GetPostThread(rootId: Value, response: Response, server: Request -> Response) returns (r: Outcome)
      modifies this`batches, store`rows, store`transactions
      ensures response.Failed? ==> r == Error && Untouched()
      ensures response.Resolved? ==> Settled(Thread(rootId), response.body, server, r)
    {
      if response.Failed? {
        return Error;
      }
      r := Settle(Thread(rootId), response.body, server);
    }
  }
}
