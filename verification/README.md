# Mattermost mobile post pipeline, modelled in Dafny

This project models three pieces of the Mattermost mobile app that fetch
posts and store them.

- **The post normaliser and store writer** (`app/realm/writers/posts.js`).
  Wire metadata may arrive as keyed maps or as arrays. The writer turns
  `images`, `embeds` and `reactions` into arrays and drops empty `props`.
  It then upserts each post by `id` into the local Realm database, with one
  write transaction per post.
- **The post fetch actions** (`app/actions/posts/index.js`). Five thunks
  fetch a page of posts: latest, since, before, around and thread. Each thunk
  writes the page to the local store. When the page belongs to the channel
  on screen, the thunk dispatches one batch of redux actions. The batch
  carries the page and the profiles and statuses of the users the posts
  depend on. This piece includes:
  - the dependency work-sets (`profilesStatusesAndToLoadFromPosts`);
  - the action assembly (`getPostsAdditionalDataBatch`);
  - the around-merge of three replies.
- **The current-channel post-id selector** (`app/selectors/posts.js`).

JavaScript values are a datatype, `Js.Value`. An object keeps the list of
its own keys in enumeration order beside a map from key to value. Object
spread, `Object.keys`, `Object.values`, property reads and `length` are
functions on it. A JavaScript throw is the `TypeError` case of `Js.Result`;
a rejected `Promise.all` is the `RequestFailed` case of `PostActions.Awaited`.
Examples are `Object.keys(undefined)` and a property read on `null`.

Each piece takes the form of its source:
- Pure expressions are functions. Examples: `parseMetadataImages`,
  `parseMetadataReactions`, the around-merge and the selector.
- Loops are methods with `while`/`for` loops. Each is proved against a
  specification function. Examples: the embeds loop, the `writePosts` loop,
  the work-set loop and the delivery `forEach`.
- The Realm store is a class, `PostWriter.PostStore`. It has a `rows` map and
  a `transactions` counter, and its methods update them in place.
- The redux side of the app is a class, `PostActions.PostsSession`. It holds:
  - the store;
  - the channel on screen;
  - the cached users;
  - the list of dispatched batches.

Network replies are inputs. A reply is `Failed` or `Resolved(body)`, and
the dependency requests go through a function from request to reply. Redux
actions are tagged records.

The code behaves as follows, and the model follows it:
- There is one write transaction per post, not one per batch.
- A `metadata` with no keys is stored as it is, not removed.
- An embed whose `data.images` is already an array gets `images: undefined`.
- A keyed-map `data.images` becomes its `Object.values`, without the `url`
  merge that metadata `images` get.
- A `null` or absent `metadata` or `props` makes `createPost` throw before
  the write, outside the `try`. The exception rejects the unawaited
  `writePosts` promise and stops its `forEach`. Only a failing
  `realm.create` is caught and skipped.
- A cached status or profile is tested for truthiness, not for presence.
- The reply to the usernames request is delivered as a profiles list with
  the current user removed. There is no separate usernames action.

## Model

| member | source | states |
|---|---|---|
| PostWriter.ParseMetadataImages | app/realm/writers/posts.js:40-49 | An absent `images` gives `[]`. An array is returned unchanged. `null` throws, and nothing else does. Any other value gives an array with one entry per own key. |
| PostWriter.ImagesFromMap | app/realm/writers/posts.js:40-46 | A keyed map of image objects gives one entry per key, in key order. Each entry is that key's `url` overlaid with the value's fields. |
| PostWriter.ImageEntryOverlaid | app/realm/writers/posts.js:42-45 | An entry `{url, ...value}` is enumerated with `url` first and holds exactly `url` and the value's keys. A `url` field of the value overrides the key. Every other field has the value's value. |
| PostWriter.ParseMetadataReactions | app/realm/writers/posts.js:81-87 | An absent `reactions` gives `[]`. An array or `null` passes through. An object gives its values in key order, one per key. |
| PostWriter.EmbedDataImages | app/realm/writers/posts.js:58-63 | A falsy `data.images` gives `[]`. An array gives `undefined`. An object gives its values in key order. |
| PostWriter.ParsedEmbed | app/realm/writers/posts.js:55-72 | A parsed embed is an object. Every field other than `data` has the value it has in the copy `{...embed}`. |
| PostWriter.NormalEmbeds | app/realm/writers/posts.js:51-53 | Normalising embeds throws exactly when `embeds` is `null`. |
| PostWriter.ParseMetadataEmbeds | app/realm/writers/posts.js:51-79 | The index loop returns `NormalEmbeds` of its input: the parsed truthy embeds, in order. |
| PostWriter.ParsedEmbedsKeepTruthy | app/realm/writers/posts.js:51-78 | The loop's output has one element per truthy embed. Element `j` is the parsed `j`-th truthy embed, so the original relative order is kept. |
| PostWriter.EmbedWithoutData | app/realm/writers/posts.js:55-57 | An embed without a truthy `data` is copied unchanged. |
| PostWriter.EmbedWithData | app/realm/writers/posts.js:57-72 | An embed with a `data` object keeps its keys and its other fields. Inside `data`, all fields except `images` are kept and the key order is unchanged; `images` is appended when it was absent. `images` becomes `EmbedDataImages` of the old value. |
| PostWriter.NormalizedPost | app/realm/writers/posts.js:12-29 | `createPost`'s properties are computed only when the post's `metadata` and `props` are both present and not `null`. |
| PostWriter.WithNormalMetadata | app/realm/writers/posts.js:14-25 | Rewriting `metadata` changes no other field of the properties. |
| PostWriter.WithoutEmptyProps | app/realm/writers/posts.js:27-29 | Dropping `props` changes no other field. A `props` that is still present has at least one key. |
| PostWriter.CreatePostThrows | app/realm/writers/posts.js:12-29 | `createPost` throws before any write exactly in these cases: `metadata` is nullish; `metadata` is non-empty and its `images` or `embeds` is `null`; or `props` is nullish. |
| PostWriter.MetadataNormalized | app/realm/writers/posts.js:14-25 | A non-empty `metadata` gets its `images`, `embeds` and `reactions` replaced by their normal forms. Every other key keeps its value, the old keys keep their order, and no other key is added. |
| PostWriter.EmptyMetadataKept | app/realm/writers/posts.js:14 | A `metadata` with no own keys is stored as it is. |
| PostWriter.PropsAndOtherFields | app/realm/writers/posts.js:13-29 | `props` with no keys is removed and the remaining keys keep their order. Non-empty `props` are kept. Every field other than `metadata` and `props` is stored as received. |
| PostWriter.NormalizedUpToFirstThrow | app/realm/writers/posts.js:6-10 | `writePosts` reaches the store with the normalised posts in order. It stops at the first post whose normalisation throws. |
| PostWriter.UpsertAll | app/realm/writers/posts.js:6-10 | Writing a batch never removes a stored id. |
| PostWriter.UpsertAllKeys | app/realm/writers/posts.js:31-37 | The stored ids grow by exactly the ids of the accepted rows. A row that `realm.create` rejects is skipped. |
| PostWriter.UpsertAllUntouched | app/realm/writers/posts.js:31-37 | Rows whose id no accepted post carries are unchanged. |
| PostWriter.UpsertAllLastWins | app/realm/writers/posts.js:33 | The last accepted post for an id is the stored row, in full. This holds because the modelled upsert replaces the row (see "Left out"). |
| PostWriter.UpsertAllOverwrites | app/realm/writers/posts.js:33 | On an id that the batch writes, the stored row does not depend on what was stored before. This too describes the replacing upsert of the model. |
| PostWriter.UpsertAllIdempotent | app/realm/writers/posts.js:6-10 | Writing the same batch twice leaves the same store as writing it once, with one row per id. |
| PostWriter.PostStore.Create | app/realm/writers/posts.js:32-36 | `realm.create(..., true)` upserts the row when the store accepts it, and otherwise leaves the rows as they were. It reports which case happened. |
| PostWriter.PostStore.CreatePost | app/realm/writers/posts.js:12-38 | A post whose normalisation throws leaves the rows and the transaction count unchanged. Any other post adds one transaction and upserts its normalised properties. |
| PostWriter.PostStore.WritePosts | app/realm/writers/posts.js:6-10 | The new rows are the old rows upserted with every post before the first throw. There is one transaction per such post. The call fails exactly when some post threw. |
| PostActions.CollectMembers | app/actions/posts/index.js:297-314 | A work-set holds exactly the post authors that need loading, each once. |
| PostActions.CollectFirstOccurrenceOrder | app/actions/posts/index.js:297-320 | The ids in a work-set appear in the order of their first occurrence among the posts. |
| PostActions.ProfilesStatusesAndToLoad | app/actions/posts/index.js:288-322 | The `forEach` with its early `return` for the current user computes `ToLoad`: the mentioned usernames and the two sets. It throws on a nullish post. |
| PostActions.ToLoad | app/actions/posts/index.js:288-322 | Computing the work-sets fails exactly when some post is nullish. Otherwise the usernames are the mentioned ones as given. |
| PostActions.WorkSetsContents | app/actions/posts/index.js:288-322 | The statuses set holds every author without a truthy cached status, the current user included. The ids set holds every author without a truthy cached profile, except the current user. Both sets are duplicate-free. |
| PostActions.PlannedRequests | app/actions/posts/index.js:239-252 | There is one request per non-empty work-set and none for an empty one. The order is ids, usernames, statuses. |
| PostActions.PlanRequests | app/actions/posts/index.js:235-252 | The pushes onto `promises` build exactly `PlannedRequests`. |
| PostActions.RequestedUsers | app/actions/posts/index.js:237-252 | No request names a user twice. The profile request never names the current user. The status request names the current user when one of the posts is theirs and no truthy status is cached. |
| PostActions.WithoutUser | app/actions/posts/index.js:269 | The profiles list keeps exactly the entries whose `id` is not the current user. A body that is not an array is left unchanged. |
| PostActions.RemoveCounts | app/actions/posts/index.js:269 | Each entry that is not the current user is kept as many times as it occurs. The current user's entries are all removed. |
| PostActions.RemoveKeepsOrder | app/actions/posts/index.js:269 | Removing the current user commutes with concatenation, so the kept entries stay in their original order. |
| PostActions.AdditionalData | app/actions/posts/index.js:225-227 | No posts give no actions. |
| PostActions.AwaitAll | app/actions/posts/index.js:254-255 | `Promise.all` is fulfilled exactly when every request resolves, with the bodies in request order. Otherwise it is the rejection `RequestFailed`. |
| PostActions.DeliverAll | app/actions/posts/index.js:256-278 | The `forEach` over the bodies computes `Delivered`. |
| PostActions.Deliver | app/actions/posts/index.js:258-275 | A statuses body becomes `RECEIVED_STATUSES` as is. Any other body becomes `RECEIVED_PROFILES_LIST` without the current user. |
| PostActions.DeliveredActions | app/actions/posts/index.js:256-278 | Each action answers one request whose body has a truthy `length`. There are at most as many actions as requests. When the statuses request is last, its action is last. |
| PostActions.DeliveredComplete | app/actions/posts/index.js:256-278 | When no body is nullish, the actions are exactly the deliveries of the bodies with a truthy `length`, one each, in request order. |
| PostActions.AdditionalDataBatch | app/actions/posts/index.js:221-286 | `getPostsAdditionalDataBatch` returns `AdditionalData`: no actions when there are no posts, when the work-sets throw or when any request fails. Otherwise it returns the deliveries in request order. |
| PostActions.AdditionalDataActions | app/actions/posts/index.js:233-284 | All or nothing: actions appear only when every planned request resolved. Each action answers one of those requests. A profiles list never holds the current user, and the statuses action comes last. |
| PostActions.AdditionalDataDelivers | app/actions/posts/index.js:233-284 | The converse: when there are posts, the work-sets are computed and every request resolves with a non-nullish body, the actions are exactly the deliveries of the bodies with a truthy `length`, in request order. Statuses are delivered unfiltered. |
| PostActions.MergeAround | app/actions/posts/index.js:128-151 | The merge throws, and so ends in `{error}`, exactly when a reply is nullish or an outer `order` cannot be spread. |
| PostActions.MergeAroundPage | app/actions/posts/index.js:135-148 | The merged page has `order` = `after.order` ++ [`postId`] ++ `before.order`, with the summed length. It has the merged `posts`, `next_post_id` from `after` and `prev_post_id` from `before`. |
| PostActions.MergedPostsPrecedence | app/actions/posts/index.js:136-140 | A post present in several replies comes from `before`, else from the thread, else from `after`. |
| PostActions.MergedPostsKeys | app/actions/posts/index.js:136-140 | The merged posts are exactly the union of the three replies' posts, with the `after` posts enumerated first. |
| PostActions.Dispatch | app/actions/posts/index.js:26-48 | After the write, a thunk never ends in `{error}`, and it dispatches at most one batch. |
| PostActions.LatestPageRecent | app/actions/posts/index.js:17-36 | `getPosts` marks its page as the most recent one exactly when `page` was omitted or is 0. |
| PostActions.DispatchRules | app/actions/posts/index.js:188-211 | A fetched page always returns `{data}`, except a thread whose first post is nullish, which rejects. A thunk dispatches a batch only for a non-empty page whose channel equals the channel on screen. For a thread that channel is `posts[0].channel_id`. The batch is the page's actions followed by the dependency actions. |
| PostActions.PostsSession.Settle | app/actions/posts/index.js:26-48 | After a successful fetch the rows are the old rows upserted with the page's posts. The batches and the outcome are those of `Dispatch`. A nullish `data.posts` rejects with nothing written. |
| PostActions.PostsSession.Announce | app/actions/posts/index.js:30-45 | Picks the channel, compares it with the channel on screen and dispatches as `Dispatch` says. |
| PostActions.PostsSession.GetPosts | app/actions/posts/index.js:17-50 | A failed fetch returns `{error}` with no write and no dispatch. Otherwise it settles with the page's actions `receivedPosts` and `receivedPostsInChannel(data, channelId, page === 0, data.prev_post_id === '')`. An omitted `page` is 0. |
| PostActions.PostsSession.GetPostsSince | app/actions/posts/index.js:52-85 | A failed fetch returns `{error}` untouched. Otherwise it settles with `receivedPostsSince`. |
| PostActions.PostsSession.GetPostsBefore | app/actions/posts/index.js:87-120 | A failed fetch returns `{error}` untouched. Otherwise it settles with `receivedPostsBefore(..., data.prev_post_id === '')`. An omitted `page` is 0. |
| PostActions.PostsSession.GetPostsAround | app/actions/posts/index.js:122-177 | A failed reply or a throwing merge returns `{error}` untouched. Otherwise the merged page settles. |
| PostActions.PostsSession.GetPostThread | app/actions/posts/index.js:179-213 | A failed fetch returns `{error}` untouched. Otherwise it settles, with the channel taken from the first post. |
| PostSelectors.PostIds | app/selectors/posts.js:18 | The map over the posts succeeds exactly when no post is nullish. It then gives each post's `id`, in order, one per post. |
| PostSelectors.PostIdsInCurrentChannel | app/selectors/posts.js:13-22 | The selector throws only when the posts slice or one of its posts is nullish. A non-empty result has one id per post. |
| PostSelectors.NoPostsNoIds | app/selectors/posts.js:14-17 | With no posts the result is empty. |
| PostSelectors.OtherChannelNoIds | app/selectors/posts.js:17 | If the first post's `channel_id` differs from the current channel, the result is empty. |
| PostSelectors.MatchingChannelAllIds | app/selectors/posts.js:16-18 | If the first post's channel matches, the result is the id of every post in value order, one per post. Posts of other channels are not filtered out. |
| PostSelectors.IdsOnlyOnFirstMatch | app/selectors/posts.js:16-18 | A non-empty result means the first post is in the current channel. Every post's id is then in the result, whichever channel the post is in. |

## Left out

- The Realm setup in `app/realm/index.js` is not part of this model: opening the database, the `Date.now()` path and schema registration.
- Realm's schema validation is a parameter of the store, `Rejects`. A row is accepted when its `id` is a string and `Rejects` does not refuse it.
- Network calls through `Client4` are inputs. `Promise.all` fan-out and completion order are not modelled; a reply is a given `Failed` or `Resolved(body)`.
- Redux `dispatch`, `getState` and `batchActions` are not modelled. The action creators of the redux library are tagged `Action` records, and a dispatched batch is a list of them.
- Asynchrony and timing are not modelled. `writePosts` is not awaited by the thunks, and its rejection is ignored. The model writes before it reads the channel on screen. Channel changes while a request is in flight are not modelled; only the comparison at dispatch time is.
- `getEmojisInPosts` is not part of this model. It is fired and forgotten, and changes nothing the model tracks.
- `getNeededAtMentionedUsernames` is not part of this model. It is an input function of the session, `NeededMentions`.
- PostActions.WithoutUser: `removeUserFromList` is not part of this model. It is taken to remove every entry whose `id` is the current user and keep the rest in order.
- `console.log` in the catch around `realm.create` is not modelled.
- The `reselect` memoisation of the selector is not modelled; only its result function is.
- The page size (`perPage`, `POST_CHUNK_SIZE`) and the `since` timestamp only shape the request, which is an input here.
- Numbers are integers: NaN and fractions are not modelled.
- Property reads see own properties only. Prototype properties are not modelled, except `length` of arrays and strings.
- Object keys are enumerated in insertion order. JavaScript's rule that puts integer-like keys first is not modelled.
- `===` between objects is value equality here, not identity. This matters only if a channel id or user id is an object.
- A `Set` of user ids uses value equality in the same way.
- PostActions.DeliveredActions: a reply body that is `null` or `undefined` stops the delivery loop but keeps the actions pushed before it. The all-or-nothing property covers failed requests, not such bodies.
- PostWriter.PostStore.Create: `realm.create('Post', properties, true)` runs in Realm's update mode, which rewrites only the properties passed and keeps stored properties that `properties` lacks, such as a `props` deleted before the write. The model replaces the whole row instead. `UpsertAllLastWins` and `UpsertAllOverwrites` describe this replacing upsert, not Realm's merge.
- Js.Elements: a `length` that is not a number is taken as no elements. JavaScript would coerce a numeric string or a boolean in `i < length`.
- Js.OwnEntries: strings are sequences of code points here. JavaScript indexes strings by UTF-16 code units, so `Object.keys`, `length` and `s[i]` differ on characters outside the Basic Multilingual Plane.
