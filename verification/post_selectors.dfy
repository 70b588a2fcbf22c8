/**
 * The result function of the `getPostIdsInCurrentChannel` selector: the ids
 * of the posts in the store, provided the first of them belongs to the
 * channel on screen. Only the first post's channel is compared.
 */
module PostSelectors {
  import opened Js

  /**
   * `postsArray.map((post) => post.id)`: the `id` of each post in order; a
   * `null` or `undefined` post makes the read throw.
   */
  function PostIds(postsArray: seq<Value>): (r: Result<seq<Value>>)
    ensures r.Ok? <==> forall i :: 0 <= i < |postsArray| ==> !Nullish(postsArray[i])
    ensures r.Ok? ==> |r.value| == |postsArray|
    ensures r.Ok? ==> forall i :: 0 <= i < |postsArray| ==> r.value[i] == Prop(postsArray[i], "id")
  {
    if postsArray == [] then Ok([])
    else if Nullish(postsArray[0]) then TypeError
    else match PostIds(postsArray[1..])
      case TypeError => TypeError
      case Ok(rest) => Ok([Prop(postsArray[0], "id")] + rest)
  }

  /**
   * The selector's result for the current channel id and the `posts` slice
   * of the store; reading `Object.values` of a nullish slice or the
   * `channel_id` of a nullish first post throws.
   */
  function PostIdsInCurrentChannel(currentChannelId: Value, posts: Value): (r: Result<seq<Value>>)
    ensures r.TypeError? ==> Nullish(posts) || exists i :: 0 <= i < |ValuesOf(posts)| && Nullish(ValuesOf(posts)[i])
    ensures r.Ok? && r.value != [] ==> |r.value| == |ValuesOf(posts)|
  {
    if Nullish(posts) then TypeError
    else
      var postsArray := ValuesOf(posts);
      if |postsArray| == 0 then Ok([])
      else if Nullish(postsArray[0]) then TypeError
      else if Prop(postsArray[0], "channel_id") != currentChannelId then Ok([])
      else PostIds(postsArray)
  }

  /** No posts, no ids. */
  lemma NoPostsNoIds(currentChannelId: Value, posts: Value)
    requires !Nullish(posts) && OwnEntries(posts) == []
    ensures PostIdsInCurrentChannel(currentChannelId, posts) == Ok([])
  {
  }

  /** A first post from another channel gives no ids, whatever the other posts are. */
  lemma OtherChannelNoIds(currentChannelId: Value, posts: Value)
    requires !Nullish(posts)
    requires var postsArray := ValuesOf(posts);
      |postsArray| > 0 && !Nullish(postsArray[0]) && Prop(postsArray[0], "channel_id") != currentChannelId
    ensures PostIdsInCurrentChannel(currentChannelId, posts) == Ok([])
  {
  }

  /**
   * When the first post is in the current channel the result holds the id
   * of every post, in value order, one per post: posts of other channels
   * after the first are not filtered out.
   */
  lemma MatchingChannelAllIds(currentChannelId: Value, posts: Object)
    requires WellFormed(posts)
    requires forall k :: k in posts.props ==> !Nullish(posts.props[k])
    requires |posts.keys| > 0 && Prop(Get(posts, posts.keys[0]), "channel_id") == currentChannelId
    ensures var r := PostIdsInCurrentChannel(currentChannelId, Obj(posts));
      && r.Ok?
      && |r.value| == |posts.keys|
      && forall i :: 0 <= i < |posts.keys| ==> r.value[i] == Prop(Get(posts, posts.keys[i]), "id")
  {
    var postsArray := ValuesOf(Obj(posts));
    forall i | 0 <= i < |postsArray| ensures !Nullish(postsArray[i]) {
      assert posts.keys[i] in posts.props;
      assert postsArray[i] == Get(posts, posts.keys[i]);
    }
  }

  /**
   * A non-empty result means the first post is in the current channel, and
   * then every post's id is in the result, whichever channel the post is in.
   */
  lemma IdsOnlyOnFirstMatch(currentChannelId: Value, posts: Value)
    requires PostIdsInCurrentChannel(currentChannelId, posts).Ok?
    requires PostIdsInCurrentChannel(currentChannelId, posts).value != []
    ensures var postsArray := ValuesOf(posts);
      && !Nullish(posts) && |postsArray| > 0 && !Nullish(postsArray[0])
      && Prop(postsArray[0], "channel_id") == currentChannelId
      && forall post :: post in postsArray ==> Prop(post, "id") in PostIdsInCurrentChannel(currentChannelId, posts).value
  {
    var postsArray := ValuesOf(posts);
    var ids := PostIdsInCurrentChannel(currentChannelId, posts).value;
    forall post | post in postsArray ensures Prop(post, "id") in ids {
      var i :| 0 <= i < |postsArray| && postsArray[i] == post;
      assert ids[i] == Prop(post, "id");
    }
  }
}
