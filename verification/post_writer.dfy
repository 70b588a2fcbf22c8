/**
 * The post normaliser and store writer of app/realm/writers/posts.js:
 * wire metadata whose `images`, `embeds` and `reactions` may arrive either as
 * keyed maps or as arrays is rewritten into arrays, empty `props` are dropped,
 * and each post is upserted by `id` into the local store, one write
 * transaction per post.
 */
module PostWriter {
  import opened Js

  // ---------------------------------------------------------------------------
  // Metadata images and reactions (pure)
  // ---------------------------------------------------------------------------

  /**
   * `parseMetadataImages`: an absent value defaults to `[]`, an array is kept,
   * anything else becomes one `{url, ...value}` entry per key, in key order.
   * `Object.keys(null)` throws.
   */
  function ParseMetadataImages(images: Value): (r: Result<Value>)
    ensures images.Undefined? ==> r == Ok(Arr([]))
    ensures images.Arr? ==> r == Ok(images)
    ensures r.TypeError? <==> images.Null?
    ensures r.Ok? ==> r.value.Arr?
    ensures !Nullish(images) && !images.Arr? ==> |r.value.items| == |OwnEntries(images)|
  {
    match images
    case Undefined => Ok(Arr([]))
    case Null => TypeError
    case Arr(_) => Ok(images)
    case _ =>
      var entries := OwnEntries(images);
      Ok(Arr(seq(|entries|, i requires 0 <= i < |entries| => ImageEntry(entries[i].0, entries[i].1))))
  }

  /** The object literal `{url, ...value}`. */
  function ImageEntry(url: string, value: Value): Value {
    Obj(Assign(Put(Empty, "url", Str(url)), OwnEntries(value)))
  }

  /**
   * `entry` is the key `url` overlaid with the fields of `value`: `url` is
   * enumerated first, every field of `value` is present with its value, and
   * a `url` field of `value` overrides the key.
   */
  ghost predicate OverlaidOnUrl(entry: Value, url: string, value: Object) {
    && entry.Obj?
    && |entry.obj.keys| > 0 && entry.obj.keys[0] == "url"
    && (forall k :: k in entry.obj.props <==> k == "url" || k in value.props)
    && Get(entry.obj, "url") == (if "url" in value.props then value.props["url"] else Str(url))
    && (forall k :: k != "url" ==> Get(entry.obj, k) == Get(value, k))
  }

  /** A keyed map of images becomes one overlaid entry per key, in key order. */
  lemma ImagesFromMap(images: Object)
    requires WellFormed(images)
    requires forall k :: k in images.props ==> images.props[k].Obj? && WellFormed(images.props[k].obj)
    ensures ParseMetadataImages(Obj(images)).Ok?
    ensures var parsed := ParseMetadataImages(Obj(images)).value.items;
      && |parsed| == |images.keys|
      && forall i :: 0 <= i < |images.keys| ==>
           OverlaidOnUrl(parsed[i], images.keys[i], images.props[images.keys[i]].obj)
  {
    var parsed := ParseMetadataImages(Obj(images)).value.items;
    var entries := Entries(images);
    forall i | 0 <= i < |images.keys|
      ensures OverlaidOnUrl(parsed[i], images.keys[i], images.props[images.keys[i]].obj)
    {
      var url := images.keys[i];
      assert entries[i] == (url, images.props[url]);
      assert parsed[i] == ImageEntry(url, images.props[url]);
      ImageEntryOverlaid(url, images.props[url].obj);
    }
  }

  /** One entry of a keyed map of images. */
  lemma ImageEntryOverlaid(url: string, value: Object)
    requires WellFormed(value)
    ensures OverlaidOnUrl(ImageEntry(url, Obj(value)), url, value)
  {
    ImageEntryUrlFirst(url, value);
    ImageEntryFields(url, value);
    ImageEntryValues(url, value);
  }

  lemma ImageEntryUrlFirst(url: string, value: Object)
    ensures var e := ImageEntry(url, Obj(value)); e.Obj? && |e.obj.keys| > 0 && e.obj.keys[0] == "url"
  {
    var base := Put(Empty, "url", Str(url));
    var r := Assign(base, Entries(value));
    assert base.keys == ["url"] && base.keys <= r.keys;
  }

  lemma ImageEntryFields(url: string, value: Object)
    requires WellFormed(value)
    ensures var e := ImageEntry(url, Obj(value));
      e.Obj? && forall k :: k in e.obj.props <==> k == "url" || k in value.props
  {
    assert FieldKeys(Entries(value)) == value.keys;
  }

  lemma ImageEntryValues(url: string, value: Object)
    requires WellFormed(value)
    ensures var e := ImageEntry(url, Obj(value));
      && e.Obj?
      && Get(e.obj, "url") == (if "url" in value.props then value.props["url"] else Str(url))
      && forall k :: k != "url" ==> Get(e.obj, k) == Get(value, k)
  {
    AssignObject(Put(Empty, "url", Str(url)), value);
  }

  /**
   * `parseMetadataReactions`: an absent value defaults to `[]`; a truthy
   * non-array becomes `Object.values` of it; an array and every falsy value
   * (`null` included) pass through.
   */
  function ParseMetadataReactions(reactions: Value): (r: Value)
    ensures reactions.Undefined? ==> r == Arr([])
    ensures reactions.Arr? || reactions.Null? ==> r == reactions
    ensures reactions.Obj? ==> r.Arr? && |r.items| == |reactions.obj.keys|
    ensures reactions.Obj? ==> forall i :: 0 <= i < |r.items| ==>
              r.items[i] == Get(reactions.obj, reactions.obj.keys[i])
  {
    if reactions.Undefined? then Arr([])
    else if Truthy(reactions) && !reactions.Arr? then Arr(ValuesOf(reactions))
    else reactions
  }

  // ---------------------------------------------------------------------------
  // Metadata embeds (an index loop in the source)
  // ---------------------------------------------------------------------------

  /**
   * The `images` an embed's `data` is given: `[]` when `data.images` is
   * falsy, `undefined` when it is already an array (the variable is declared
   * and never assigned on that path), and `Object.values` of it otherwise.
   */
  function EmbedDataImages(images: Value): (r: Value)
    ensures !Truthy(images) ==> r == Arr([])
    ensures images.Arr? ==> r == Undefined
    ensures images.Obj? ==> r.Arr? && |r.items| == |images.obj.keys|
    ensures images.Obj? ==> forall i :: 0 <= i < |r.items| ==>
              r.items[i] == Get(images.obj, images.obj.keys[i])
  {
    if !Truthy(images) then Arr([])
    else if images.Arr? then Undefined
    else Arr(ValuesOf(images))
  }

  /** One truthy embed as the loop body leaves it: a copy, with `data.images` rewritten when there is a `data`. */
  function ParsedEmbed(embed: Value): (r: Value)
    ensures r.Obj?
    ensures forall k :: k != "data" ==> Get(r.obj, k) == Get(Spread(embed), k)
  {
    var copy := Spread(embed);
    var data := Get(copy, "data");
    if !Truthy(data) then Obj(copy)
    else
      var images := EmbedDataImages(Prop(data, "images"));
      Obj(Put(copy, "data", Obj(Put(Spread(data), "images", images))))
  }

  /** What the loop has pushed after visiting `embeds`: the parsed truthy embeds, in order. */
  function ParsedEmbeds(embeds: seq<Value>): seq<Value> {
    if embeds == [] then []
    else
      var last := embeds[|embeds| - 1];
      ParsedEmbeds(embeds[..|embeds| - 1]) + if Truthy(last) then [ParsedEmbed(last)] else []
  }

  /** The positions of the truthy elements, in increasing order. */
  function TruthyIndices(embeds: seq<Value>): (ix: seq<nat>)
    ensures forall j :: 0 <= j < |ix| ==> ix[j] < |embeds| && Truthy(embeds[ix[j]])
    ensures forall i :: 0 <= i < |embeds| && Truthy(embeds[i]) ==> i in ix
    ensures forall a, b :: 0 <= a < b < |ix| ==> ix[a] < ix[b]
  {
    if embeds == [] then []
    else
      var n := |embeds| - 1;
      var front := embeds[..n];
      assert forall i :: 0 <= i < n ==> front[i] == embeds[i];
      TruthyIndices(front) + if Truthy(embeds[n]) then [n] else []
  }

  /**
   * The loop keeps exactly the truthy embeds, in their original relative
   * order, each parsed on its own.
   */
  lemma {:induction false} ParsedEmbedsKeepTruthy(embeds: seq<Value>)
    ensures |ParsedEmbeds(embeds)| == |TruthyIndices(embeds)|
    ensures forall j :: 0 <= j < |ParsedEmbeds(embeds)| ==>
              ParsedEmbeds(embeds)[j] == ParsedEmbed(embeds[TruthyIndices(embeds)[j]])
  {
    if embeds != [] {
      var n := |embeds| - 1;
      var front := embeds[..n];
      ParsedEmbedsKeepTruthy(front);
      var parsed, ix := ParsedEmbeds(embeds), TruthyIndices(embeds);
      var pf, tf := ParsedEmbeds(front), TruthyIndices(front);
      assert parsed == pf + if Truthy(embeds[n]) then [ParsedEmbed(embeds[n])] else [];
      assert ix == tf + if Truthy(embeds[n]) then [n] else [];
      forall j | 0 <= j < |parsed| ensures parsed[j] == ParsedEmbed(embeds[ix[j]]) {
        if j < |pf| {
          assert parsed[j] == pf[j] && ix[j] == tf[j];
          assert front[tf[j]] == embeds[tf[j]];
        }
      }
    }
  }

  /** `parseMetadataEmbeds` as a value: `undefined` defaults to `[]`, `null.length` throws. */
  function NormalEmbeds(embeds: Value): (r: Result<Value>)
    ensures r.TypeError? <==> embeds.Null?
  {
    match embeds
    case Undefined => Ok(Arr([]))
    case Null => TypeError
    case _ => Ok(Arr(ParsedEmbeds(Elements(embeds))))
  }

  method ParseMetadataEmbeds(embeds: Value) returns (r: Result<Value>)
    ensures r == NormalEmbeds(embeds)
  {
    if embeds.Null? {
      return TypeError;
    }
    var elements := Elements(embeds);
    var parsedEmbeds: seq<Value> := [];
    for i := 0 to |elements|
      invariant parsedEmbeds == ParsedEmbeds(elements[..i])
    {
      assert elements[..i + 1][..i] == elements[..i];
      if Truthy(elements[i]) {
        var embed := Spread(elements[i]);
        var data := Get(embed, "data");
        if Truthy(data) {
          var dataImages := Prop(data, "images");
          var images;
          if !Truthy(dataImages) {
            images := Arr([]);
          } else if !dataImages.Arr? {
            images := Arr(ValuesOf(dataImages));
          } else {
            images := Undefined;
          }
          embed := Put(embed, "data", Obj(Put(Spread(data), "images", images)));
        }
        parsedEmbeds := parsedEmbeds + [Obj(embed)];
      }
    }
    assert elements[..|elements|] == elements;
    r := Ok(Arr(parsedEmbeds));
  }

  /** An embed without a truthy `data` is copied unchanged. */
  lemma EmbedWithoutData(embed: Object)
    requires WellFormed(embed)
    requires !Truthy(Get(embed, "data"))
    ensures ParsedEmbed(Obj(embed)) == Obj(embed)
  {
  }

  /**
   * An embed with a `data` object keeps all its other fields and its key
   * order; in `data`, every field but `images` is kept in place and `images`
   * is rewritten by `EmbedDataImages`, appended when `data` had none.
   */
  lemma EmbedWithData(embed: Object, data: Object)
    requires WellFormed(embed) && WellFormed(data)
    requires Get(embed, "data") == Obj(data)
    ensures var r := ParsedEmbed(Obj(embed));
      && r.Obj?
      && r.obj.keys == embed.keys
      && (forall k :: k != "data" ==> Get(r.obj, k) == Get(embed, k))
      && var d := Get(r.obj, "data");
      && d.Obj?
      && d.obj.keys == (if "images" in data.props then data.keys else data.keys + ["images"])
      && (forall k :: k != "images" ==> Get(d.obj, k) == Get(data, k))
      && Get(d.obj, "images") == EmbedDataImages(Get(data, "images"))
  {
    assert "data" in embed.props;
  }


  // ---------------------------------------------------------------------------
  // createPost: the stored properties of one post
  // ---------------------------------------------------------------------------

  /** `{...metadata, images, embeds, reactions}` with the three parsed in that order. */
  function NormalizedMetadata(metadata: Value): (r: Result<Value>)
    requires !Nullish(metadata)
  {
    var images := ParseMetadataImages(Prop(metadata, "images"));
    var embeds := NormalEmbeds(Prop(metadata, "embeds"));
    if images.TypeError? || embeds.TypeError? then TypeError
    else
      var reactions := ParseMetadataReactions(Prop(metadata, "reactions"));
      Ok(Obj(Put(Put(Put(Spread(metadata), "images", images.value), "embeds", embeds.value), "reactions", reactions)))
  }

  /**
   * The properties `createPost` hands to the store, or the TypeError it
   * throws before the write: `Object.keys` of a `null` or absent
   * `metadata` or `props`, or a `null` `images` or `embeds` inside a
   * non-empty `metadata`.
   */
  function NormalizedPost(post: Value): (r: Result<Object>)
    ensures r.Ok? ==> !Nullish(Get(Spread(post), "metadata")) && !Nullish(Get(Spread(post), "props"))
  {
    match WithNormalMetadata(Spread(post))
    case TypeError => TypeError
    case Ok(properties) => WithoutEmptyProps(properties)
  }

  /** The first step of `createPost`: rewrite a non-empty `metadata`; `Object.keys` throws on a nullish one. */
  function WithNormalMetadata(properties: Object): (r: Result<Object>)
    ensures r.Ok? ==> forall k :: k != "metadata" ==> Get(r.value, k) == Get(properties, k)
  {
    var metadata := Get(properties, "metadata");
    if Nullish(metadata) then TypeError
    else if |OwnEntries(metadata)| == 0 then Ok(properties)
    else match NormalizedMetadata(metadata)
      case TypeError => TypeError
      case Ok(m) => Ok(Put(properties, "metadata", m))
  }

  /** The second step of `createPost`: drop `props` without keys; `Object.keys` throws on nullish `props`. */
  function WithoutEmptyProps(properties: Object): (r: Result<Object>)
    ensures r.Ok? ==> forall k :: k != "props" ==> Get(r.value, k) == Get(properties, k)
    ensures r.Ok? && "props" in r.value.props ==> |OwnEntries(Get(r.value, "props"))| > 0
  {
    var props := Get(properties, "props");
    if Nullish(props) then TypeError
    else if |OwnEntries(props)| == 0 then Ok(Delete(properties, "props"))
    else Ok(properties)
  }

  /** The post is rejected before any write exactly when one of the four reads above throws. */
  lemma CreatePostThrows(post: Object)
    requires WellFormed(post)
    ensures var metadata, props := Get(post, "metadata"), Get(post, "props");
      NormalizedPost(Obj(post)).TypeError? <==>
        || Nullish(metadata)
        || (|OwnEntries(metadata)| > 0 &&
            (Prop(metadata, "images").Null? || Prop(metadata, "embeds").Null?))
        || Nullish(props)
  {
    var metadata := Get(post, "metadata");
    if !Nullish(metadata) && |OwnEntries(metadata)| > 0 && NormalizedMetadata(metadata).Ok? {
      assert Get(Put(post, "metadata", NormalizedMetadata(metadata).value), "props") == Get(post, "props");
    }
  }

  /**
   * A non-empty `metadata` object has `images`, `embeds` and `reactions`
   * replaced by their normal forms; every other metadata key keeps its value,
   * and the metadata keys keep their order, the three normalised keys being
   * appended when absent.
   */
  lemma MetadataNormalized(post: Object, metadata: Object)
    requires WellFormed(post) && WellFormed(metadata)
    requires Get(post, "metadata") == Obj(metadata) && |metadata.keys| > 0
    requires NormalizedPost(Obj(post)).Ok?
    ensures var m := Get(NormalizedPost(Obj(post)).value, "metadata");
      && m.Obj?
      && ParseMetadataImages(Get(metadata, "images")) == Ok(Get(m.obj, "images"))
      && NormalEmbeds(Get(metadata, "embeds")) == Ok(Get(m.obj, "embeds"))
      && Get(m.obj, "reactions") == ParseMetadataReactions(Get(metadata, "reactions"))
      && (forall k :: k !in ["images", "embeds", "reactions"] ==> Get(m.obj, k) == Get(metadata, k))
      && metadata.keys <= m.obj.keys
      && (forall k :: k in m.obj.props <==> k in metadata.props || k in ["images", "embeds", "reactions"])
  {
    var images := ParseMetadataImages(Get(metadata, "images"));
    var embeds := NormalEmbeds(Get(metadata, "embeds"));
    var reactions := ParseMetadataReactions(Get(metadata, "reactions"));
    assert |OwnEntries(Obj(metadata))| > 0;
    assert images.Ok? && embeds.Ok?;
    var m := Put(Put(Put(metadata, "images", images.value), "embeds", embeds.value), "reactions", reactions);
    assert Get(NormalizedPost(Obj(post)).value, "metadata") == Obj(m) by {
      assert WithNormalMetadata(post) == Ok(Put(post, "metadata", Obj(m)));
    }
    OverwriteThree(metadata, images.value, embeds.value, reactions);
  }

  /** Three assignments in a row: each named key takes its value, the other keys keep theirs and their order. */
  lemma OverwriteThree(o: Object, images: Value, embeds: Value, reactions: Value)
    ensures var m := Put(Put(Put(o, "images", images), "embeds", embeds), "reactions", reactions);
      && Get(m, "images") == images && Get(m, "embeds") == embeds && Get(m, "reactions") == reactions
      && (forall k :: k !in ["images", "embeds", "reactions"] ==> Get(m, k) == Get(o, k))
      && o.keys <= m.keys
      && (forall k :: k in m.props <==> k in o.props || k in ["images", "embeds", "reactions"])
  {
  }

  /** A `metadata` without keys (`{}`, but also `[]` or a number) is stored as it is, not removed. */
  lemma EmptyMetadataKept(post: Object)
    requires WellFormed(post)
    requires !Nullish(Get(post, "metadata")) && |OwnEntries(Get(post, "metadata"))| == 0
    requires !Nullish(Get(post, "props"))
    ensures NormalizedPost(Obj(post)).Ok?
    ensures Get(NormalizedPost(Obj(post)).value, "metadata") == Get(post, "metadata")
  {
  }

  /**
   * `props` with no keys is removed; non-empty `props` are kept; every field
   * other than `metadata` and `props` is stored as received, and the stored
   * keys keep the post's order.
   */
  lemma PropsAndOtherFields(post: Object)
    requires WellFormed(post)
    requires NormalizedPost(Obj(post)).Ok?
    ensures var stored, props := NormalizedPost(Obj(post)).value, Get(post, "props");
      && WellFormed(stored)
      && (|OwnEntries(props)| == 0 ==> "props" !in stored.props && stored.keys == Without(post.keys, "props"))
      && (|OwnEntries(props)| > 0 ==> Get(stored, "props") == props && stored.keys == post.keys)
      && (forall k :: k != "metadata" && k != "props" ==> Get(stored, k) == Get(post, k))
  {
  }

  // ---------------------------------------------------------------------------
  // The store: realm.create('Post', properties, true) per post
  // ---------------------------------------------------------------------------

  /** Realm stores the row: it has a string primary key `id` and the schema does not reject it. */
  predicate Accepts(properties: Object, rejects: Value -> bool) {
    Get(properties, "id").Str? && !rejects(Obj(properties))
  }

  /** One upsert as modelled: create the row, or replace the row with the same `id` as a whole. */
  function Upserted(rows: map<string, Value>, properties: Object, rejects: Value -> bool): map<string, Value> {
    if Accepts(properties, rejects) then rows[Get(properties, "id").s := Obj(properties)] else rows
  }

  function UpsertAll(rows: map<string, Value>, batch: seq<Object>, rejects: Value -> bool): (r: map<string, Value>)
    ensures rows.Keys <= r.Keys
    decreases |batch|
  {
    if batch == [] then rows else UpsertAll(Upserted(rows, batch[0], rejects), batch[1..], rejects)
  }

  /** The ids the store accepts rows for. */
  function TouchedIds(batch: seq<Object>, rejects: Value -> bool): (ids: set<string>)
    ensures forall k :: k in ids <==>
      exists j :: 0 <= j < |batch| && Accepts(batch[j], rejects) && Get(batch[j], "id") == Str(k)
    decreases |batch|
  {
    if batch == [] then {}
    else
      var rest := TouchedIds(batch[1..], rejects);
      assert forall j :: 0 < j < |batch| ==> batch[j] == batch[1..][j - 1];
      (if Accepts(batch[0], rejects) then {Get(batch[0], "id").s} else {}) + rest
  }

  /**
   * The properties `writePosts` reaches the store with: posts are handled in
   * order, and the first one whose normalisation throws ends the loop.
   */
  function Normalized(posts: seq<Value>): (batch: seq<Object>)
    ensures |batch| <= |posts|
  {
    if posts == [] then []
    else match NormalizedPost(posts[0])
      case TypeError => []
      case Ok(p) =>
        [p] + Normalized(posts[1..])
  }

  /**
   * The batch is the normalised posts up to, and not including, the first
   * post whose normalisation throws.
   */
  lemma {:induction false} NormalizedUpToFirstThrow(posts: seq<Value>)
    ensures var batch := Normalized(posts);
      && (forall i :: 0 <= i < |batch| ==> NormalizedPost(posts[i]) == Ok(batch[i]))
      && (|batch| < |posts| ==> NormalizedPost(posts[|batch|]).TypeError?)
  {
    if posts != [] && NormalizedPost(posts[0]).Ok? {
      NormalizedUpToFirstThrow(posts[1..]);
      var batch := Normalized(posts);
      assert batch == [NormalizedPost(posts[0]).value] + Normalized(posts[1..]);
      forall i | 0 < i < |batch| ensures NormalizedPost(posts[i]) == Ok(batch[i]) {
        assert posts[i] == posts[1..][i - 1];
      }
      if |batch| < |posts| {
        assert posts[|batch|] == posts[1..][|batch| - 1];
      }
    }
  }

  /** The batch from post `i` on: that post's properties first, unless it throws. */
  lemma NormalizedFrom(posts: seq<Value>, i: nat)
    requires i < |posts|
    ensures Normalized(posts[i..]) ==
      match NormalizedPost(posts[i])
      case TypeError => []
      case Ok(p) => [p] + Normalized(posts[i + 1..])
  {
    assert posts[i..][0] == posts[i];
    assert posts[i..][1..] == posts[i + 1..];
  }

  /** The stored ids grow by exactly the ids of the accepted rows; a rejected row adds nothing. */
  lemma {:induction false} UpsertAllKeys(rows: map<string, Value>, batch: seq<Object>, rejects: Value -> bool)
    ensures UpsertAll(rows, batch, rejects).Keys == rows.Keys + TouchedIds(batch, rejects)
    decreases |batch|
  {
    if batch != [] {
      UpsertAllKeys(Upserted(rows, batch[0], rejects), batch[1..], rejects);
    }
  }

  /** Rows whose id no accepted post carries are untouched. */
  lemma {:induction false} UpsertAllUntouched(rows: map<string, Value>, batch: seq<Object>, rejects: Value -> bool, k: string)
    requires k !in TouchedIds(batch, rejects)
    ensures k in UpsertAll(rows, batch, rejects) <==> k in rows
    ensures k in rows ==> UpsertAll(rows, batch, rejects)[k] == rows[k]
    decreases |batch|
  {
    if batch != [] {
      UpsertAllUntouched(Upserted(rows, batch[0], rejects), batch[1..], rejects, k);
    }
  }

  /** The last accepted row for an id is the one stored: a full overwrite, not a merge. */
  lemma {:induction false} UpsertAllLastWins(rows: map<string, Value>, batch: seq<Object>, rejects: Value -> bool, j: nat)
    requires j < |batch| && Accepts(batch[j], rejects)
    requires Get(batch[j], "id").s !in TouchedIds(batch[j + 1..], rejects)
    ensures Get(batch[j], "id").s in UpsertAll(rows, batch, rejects)
    ensures UpsertAll(rows, batch, rejects)[Get(batch[j], "id").s] == Obj(batch[j])
    decreases |batch|
  {
    var k := Get(batch[j], "id").s;
    if j == 0 {
      UpsertAllUntouched(Upserted(rows, batch[0], rejects), batch[1..], rejects, k);
    } else {
      assert batch[1..][j - 1..] == batch[j..];
      assert batch[1..][j - 1 + 1..] == batch[j + 1..];
      UpsertAllLastWins(Upserted(rows, batch[0], rejects), batch[1..], rejects, j - 1);
    }
  }

  /** On an id the batch touches, the stored row does not depend on what was stored before. */
  lemma {:induction false} UpsertAllOverwrites(r1: map<string, Value>, r2: map<string, Value>, batch: seq<Object>, rejects: Value -> bool, k: string)
    requires k in TouchedIds(batch, rejects)
    ensures k in UpsertAll(r1, batch, rejects) && k in UpsertAll(r2, batch, rejects)
    ensures UpsertAll(r1, batch, rejects)[k] == UpsertAll(r2, batch, rejects)[k]
    decreases |batch|
  {
    var s1, s2 := Upserted(r1, batch[0], rejects), Upserted(r2, batch[0], rejects);
    if k in TouchedIds(batch[1..], rejects) {
      UpsertAllOverwrites(s1, s2, batch[1..], rejects, k);
    } else {
      assert Accepts(batch[0], rejects) && Get(batch[0], "id") == Str(k);
      UpsertAllUntouched(s1, batch[1..], rejects, k);
      UpsertAllUntouched(s2, batch[1..], rejects, k);
    }
  }

  /** Writing the same batch twice leaves the store as writing it once: one row per id. */
  lemma UpsertAllIdempotent(rows: map<string, Value>, batch: seq<Object>, rejects: Value -> bool)
    ensures UpsertAll(UpsertAll(rows, batch, rejects), batch, rejects) == UpsertAll(rows, batch, rejects)
  {
    var once := UpsertAll(rows, batch, rejects);
    var twice := UpsertAll(once, batch, rejects);
    UpsertAllKeys(rows, batch, rejects);
    UpsertAllKeys(once, batch, rejects);
    forall k | k in twice ensures twice[k] == once[k] {
      if k in TouchedIds(batch, rejects) {
        UpsertAllOverwrites(once, rows, batch, rejects, k);
      } else {
        UpsertAllUntouched(once, batch, rejects, k);
      }
    }
  }

  /**
   * The Realm database as the writer sees it: `Post` rows keyed by `id`, and
   * the number of write transactions committed.
   */
  class PostStore {
    /** Realm's schema check: true when `realm.create` throws for these properties. */
    const Rejects: Value -> bool
    var rows: map<string, Value>
    var transactions: nat

    constructor (rejects: Value -> bool)
      ensures Rejects == rejects && rows == map[] && transactions == 0
    {
      Rejects := rejects;
      rows := map[];
      transactions := 0;
    }

    /** `realm.create('Post', properties, true)` inside its try/catch; a throw is swallowed. */
    method Create(properties: Object) returns (created: bool)
      modifies this`rows
      ensures created == Accepts(properties, Rejects)
      ensures rows == Upserted(old(rows), properties, Rejects)
    {
      created := Accepts(properties, Rejects);
      if created {
        rows := rows[Get(properties, "id").s := Obj(properties)];
      }
    }

    /**
     * `createPost`: normalise, then one write transaction around the create.
     * A throw before the transaction leaves the store untouched.
     */
    method CreatePost(post: Value) returns (r: Result<bool>)
      modifies this`rows, this`transactions
      ensures NormalizedPost(post).TypeError? ==>
                r == TypeError && rows == old(rows) && transactions == old(transactions)
      ensures NormalizedPost(post).Ok? ==>
                && r == Ok(Accepts(NormalizedPost(post).value, Rejects))
                && rows == Upserted(old(rows), NormalizedPost(post).value, Rejects)
                && transactions == old(transactions) + 1
    {
      var properties := Spread(post);
      var metadata := Get(properties, "metadata");
      if Nullish(metadata) {
        return TypeError;
      }
      ghost var expected := WithNormalMetadata(properties);
      if |OwnEntries(metadata)| > 0 {
        var images := ParseMetadataImages(Prop(metadata, "images"));
        if images.TypeError? {
          return TypeError;
        }
        var embeds := ParseMetadataEmbeds(Prop(metadata, "embeds"));
        if embeds.TypeError? {
          return TypeError;
        }
        var reactions := ParseMetadataReactions(Prop(metadata, "reactions"));
        var normal := Put(Put(Put(Spread(metadata), "images", images.value), "embeds", embeds.value), "reactions", reactions);
        assert NormalizedMetadata(metadata) == Ok(Obj(normal));
        properties := Put(properties, "metadata", Obj(normal));
      }
      assert expected == Ok(properties);
      var props := Get(properties, "props");
      if Nullish(props) {
        return TypeError;
      }
      if |OwnEntries(props)| == 0 {
        properties := Delete(properties, "props");
      }
      assert NormalizedPost(post) == Ok(properties);
      transactions := transactions + 1;
      var created := Create(properties);
      r := Ok(created);
    }

    /**
     * `writePosts`: `createPost` for each post in order. A throw ends the loop
     * and rejects the returned promise; posts already handled stay written.
     */
    method WritePosts(posts: seq<Value>) returns (r: Result<()>)
      modifies this`rows, this`transactions
      ensures rows == UpsertAll(old(rows), Normalized(posts), Rejects)
      ensures transactions == old(transactions) + |Normalized(posts)|
      ensures r.TypeError? <==> |Normalized(posts)| < |posts|
    {
      var i := 0;
      while i < |posts|
        invariant 0 <= i <= |Normalized(posts)|
        invariant Normalized(posts[i..]) == Normalized(posts)[i..]
        invariant UpsertAll(rows, Normalized(posts)[i..], Rejects) == UpsertAll(old(rows), Normalized(posts), Rejects)
        invariant transactions == old(transactions) + i
      {
        NormalizedFrom(posts, i);
        var created := CreatePost(posts[i]);
        if created.TypeError? {
          return TypeError;
        }
        i := i + 1;
      }
      r := Ok(());
    }
  }
}
