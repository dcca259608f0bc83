/**
 * The Facebook adapter: page-id resolution and raw-post fetching through the
 * cache, and normalisation of the raw posts into `{url, content, media}`.
 */
module Facebook {
  import opened Outcomes
  import opened Builtins
  import opened Feed
  import opened Store

  /**
   * The scraping provider, as an oracle. `pageId(key, url)` answers
   * `GET /page/page_id?url=<url>` sent with API key `key`; `pagePosts(key, id)`
   * answers `GET /page/posts?page_id=<id>`. `Found` stands for a 2xx response
   * whose body has the expected field; anything else raises in the source.
   */
  datatype FacebookApi = FacebookApi(
    pageId: (string, string) -> Reply<string>,
    pagePosts: (string, string) -> Reply<seq<RawPost>>)

  /** One request sent to the provider, with the API key chosen for it. */
  datatype FacebookRequest =
    | PageIdRequest(apiKey: string, pageUrl: string)
    | PostsRequest(apiKey: string, pageId: string)

  /** Python truthiness of an optional JSON object: present and not empty. */
  predicate Given(o: Option<JsonObject>) {
    o.Some? && (!o.value.link.Absent? || o.value.otherKeys > 0)
  }

  /** The album entries that are looked at: the list when it is non-empty, otherwise none. */
  function AlbumItems(post: RawPost): seq<JsonObject> {
    if post.albumPreview.Some? then post.albumPreview.value else []
  }

  /**
   * `[item['image_file_uri'] for item in album]`: `None` stands for the KeyError
   * raised when some item lacks the key; an item holding null lists null.
   */
  function AlbumUris(album: seq<JsonObject>): (r: Option<seq<Option<string>>>)
    ensures r.Some? <==> forall j | 0 <= j < |album| :: !album[j].link.Absent?
    ensures r.Some? ==> |r.value| == |album|
    ensures r.Some? ==> forall j | 0 <= j < |album| :: r.value[j] == album[j].link.Get(None)
  {
    if album == [] then Some([])
    else
      var init := album[..|album| - 1];
      var last := album[|album| - 1];
      match AlbumUris(init)
      case None => None
      case Some(uris) =>
        if !last.link.Absent? then Some(uris + [last.link.Get(None)]) else None
  }

  /** The image part of a post's media: `[image.get('uri')]` when the image is given. */
  function ImageLinks(post: RawPost): seq<Option<string>> {
    if Given(post.image) then [post.image.value.link.Get(None)] else []
  }

  /** The video part of a post's media: `[video_files.get('video_hd_file')]` when the video is given. */
  function VideoLinks(post: RawPost): seq<Option<string>> {
    if Given(post.videoFiles) then [post.videoFiles.value.link.Get(None)] else []
  }

  /**
   * The `media` list of one post: the image part, the video part, then every
   * album image when the album is non-empty. Raises when an album item has no
   * `image_file_uri`.
   */
  function MediaOf(post: RawPost): (r: Outcome<seq<Option<string>>>)
    ensures r.Returned? ==> |r.value| == |ImageLinks(post)| + |VideoLinks(post)| + |AlbumItems(post)|
  {
    if AlbumItems(post) == [] then Returned(ImageLinks(post) + VideoLinks(post))
    else if AlbumUris(AlbumItems(post)).None? then Raised
    else Returned(ImageLinks(post) + VideoLinks(post) + AlbumUris(AlbumItems(post)).value)
  }

  /** The media list is built exactly when every album item has its `image_file_uri` key. */
  lemma MediaRaisesOnlyOnAlbum(post: RawPost)
    ensures MediaOf(post).Returned? <==> forall j | 0 <= j < |AlbumItems(post)| :: !AlbumItems(post)[j].link.Absent?
  {
  }

  /** The album links, one per album item, in album order. */
  function AlbumLinks(post: RawPost): seq<Option<string>> {
    var album := AlbumItems(post);
    seq(|album|, j requires 0 <= j < |album| => album[j].link.Get(None))
  }

  /**
   * The three media checks are independent and their entries come in a fixed
   * order: the image link first (when the image is given), the video link next
   * (when the video is given), then one link per album item in album order.
   */
  lemma MediaLayout(post: RawPost)
    requires MediaOf(post).Returned?
    ensures MediaOf(post).value == ImageLinks(post) + VideoLinks(post) + AlbumLinks(post)
  {
    var album := AlbumItems(post);
    if album != [] {
      assert AlbumUris(album).value == AlbumLinks(post);
    }
  }

  /**
   * A post with an image and an album but no video lists the image link first
   * and then the album links in the post's order.
   */
  lemma ImageThenAlbum(post: RawPost)
    requires Given(post.image) && post.videoFiles.None?
    requires post.albumPreview.Some? && post.albumPreview.value != []
    requires forall j | 0 <= j < |post.albumPreview.value| :: !post.albumPreview.value[j].link.Absent?
    ensures MediaOf(post).Returned?
    ensures var m := MediaOf(post).value; var album := post.albumPreview.value;
      && |m| == 1 + |album| && m[0] == post.image.value.link.Get(None)
      && forall j | 0 <= j < |album| :: m[1 + j] == album[j].link.Get(None)
  {
    MediaRaisesOnlyOnAlbum(post);
    MediaLayout(post);
  }

  /**
   * Null links are kept as null: an image object whose `uri` is null is still
   * a non-empty object, and an album item whose `image_file_uri` is null does
   * not raise; both contribute a null media entry.
   */
  lemma NullLinksKept(post: RawPost)
    requires post.image == Some(JsonObject(Null, 0)) && post.videoFiles.None?
    requires post.albumPreview == Some([JsonObject(Null, 0)])
    ensures NormalizePost(post).Returned? && NormalizePost(post).value.media == [None, None]
  {
    var album := [JsonObject(Null, 0)];
    assert album[..0] == [];
    assert Null.Get(None) == None;
    var uris: seq<Option<string>> := [None];
    assert AlbumUris(album) == Some([] + uris);
  }

  /**
   * The dict built for one post: `{url, content, media}`, raising exactly when
   * its media list raises.
   */
  function NormalizePost(post: RawPost): (r: Outcome<NormalizedPost>)
    ensures r.Returned? <==> MediaOf(post).Returned?
    ensures r.Returned? ==> r.value.media == MediaOf(post).value
  {
    match MediaOf(post)
    case Raised => Raised
    case Returned(media) => Returned(NormalizedPost(post.url.Get(Some("")), post.message.Get(Some("")), media))
  }

  /**
   * A post normalises exactly when every album item has its link key; its
   * `url` and `content` are the provider's fields: the empty string when the
   * key is absent, null when it holds null.
   */
  lemma NormalizedFields(post: RawPost)
    ensures NormalizePost(post).Returned? <==> forall j | 0 <= j < |AlbumItems(post)| :: !AlbumItems(post)[j].link.Absent?
    ensures NormalizePost(post).Returned? ==>
      var n := NormalizePost(post).value;
      && (post.url.Absent? ==> n.url == Some(""))
      && (post.url.Null? ==> n.url == None)
      && (post.url.Text? ==> n.url == Some(post.url.text))
      && (post.message.Absent? ==> n.content == Some(""))
      && (post.message.Null? ==> n.content == None)
      && (post.message.Text? ==> n.content == Some(post.message.text))
  {
    MediaRaisesOnlyOnAlbum(post);
  }

  /**
   * Normalising a list of posts: one normalised post per raw post, in order,
   * unless some post is malformed, in which case the whole list raises.
   */
  function NormalizeAll(posts: seq<RawPost>): (r: Outcome<seq<NormalizedPost>>)
    ensures r.Returned? ==> |r.value| == |posts|
  {
    MapAll(NormalizePost, posts)
  }

  /**
   * The media list of one post built as `get_page_posts` builds it: append the
   * image link, append the video link, extend by the album links.
   */
  method BuildMedia(post: RawPost) returns (r: Outcome<seq<Option<string>>>)
    ensures r == MediaOf(post)
  {
    var media: seq<Option<string>> := [];
    if Given(post.image) {
      media := media + [post.image.value.link.Get(None)];
    }
    assert media == ImageLinks(post);
    if Given(post.videoFiles) {
      media := media + [post.videoFiles.value.link.Get(None)];
    }
    assert media == ImageLinks(post) + VideoLinks(post);
    if AlbumItems(post) != [] {
      var uris := AlbumUris(AlbumItems(post));
      if uris.None? {
        return Raised;
      }
      media := media + uris.value;
    }
    r := Returned(media);
  }

  /**
   * The loop of `get_page_posts` over `posts[:post_count]`: normalises each
   * post and appends it; a malformed post raises.
   */
  method NormalizePosts(posts: seq<RawPost>, postCount: int) returns (r: Outcome<seq<NormalizedPost>>)
    ensures r == NormalizeAll(SliceTo(posts, postCount))
  {
    var batch := SliceTo(posts, postCount);
    var results: seq<NormalizedPost> := [];
    var i := 0;
    while i < |batch|
      invariant 0 <= i <= |batch|
      invariant NormalizeAll(batch[..i]) == Returned(results)
    {
      var post := batch[i];
      var media := BuildMedia(post);
      if media.Raised? {
        MalformedPostRaises(batch, i);
        return Raised;
      }
      var obj := NormalizedPost(post.url.Get(Some("")), post.message.Get(Some("")), media.value);
      assert NormalizePost(post) == Returned(obj);
      NormalizeAllExtend(batch, i);
      results := results + [obj];
      i := i + 1;
    }
    assert batch[..i] == batch;
    r := Returned(results);
  }

  /** One more well-formed post appends its normalised form. */
  lemma NormalizeAllExtend(posts: seq<RawPost>, i: nat)
    requires i < |posts| && NormalizeAll(posts[..i]).Returned? && NormalizePost(posts[i]).Returned?
    ensures NormalizeAll(posts[..i + 1]) == Returned(NormalizeAll(posts[..i]).value + [NormalizePost(posts[i]).value])
  {
    assert posts[..i + 1][..i] == posts[..i];
  }

  /** A malformed post anywhere in the list makes the whole normalisation raise. */
  lemma MalformedPostRaises(posts: seq<RawPost>, i: nat)
    requires i < |posts| && NormalizePost(posts[i]).Raised?
    ensures NormalizeAll(posts) == Raised
  {
    MapAllPointwise(NormalizePost, posts);
  }

  /**
   * The page id cached for a page URL, as `get_page_id` sees it: a hit needs a
   * stored page id that is truthy (non-empty).
   */
  function CachedPageId(entries: map<string, CacheEntry>, pageUrl: string): (r: Option<string>)
    ensures r.Some? <==>
      (PageIdKey(pageUrl) in entries && entries[PageIdKey(pageUrl)].value.PageId? && Truthy(entries[PageIdKey(pageUrl)].value))
    ensures r.Some? ==> r.value != "" && entries[PageIdKey(pageUrl)].value == PageId(r.value)
  {
    var key := PageIdKey(pageUrl);
    if key in entries && entries[key].value.PageId? && entries[key].value.id != "" then Some(entries[key].value.id)
    else None
  }

  /** The raw posts cached for a page id. */
  function CachedRawPosts(entries: map<string, CacheEntry>, pageId: string): Option<seq<RawPost>> {
    var key := PostsKey(pageId);
    if key in entries && entries[key].value.RawPosts? then Some(entries[key].value.posts) else None
  }

  /** The raw posts stored for whatever page id is stored for the page URL, truthy or not. */
  function StoredPosts(entries: map<string, CacheEntry>, pageUrl: string): Option<seq<RawPost>> {
    var key := PageIdKey(pageUrl);
    if key in entries && entries[key].value.PageId? then CachedRawPosts(entries, entries[key].value.id) else None
  }

  /** The raw posts `get_page_posts` would take from the cache without any request. */
  function CachedPosts(entries: map<string, CacheEntry>, pageUrl: string): Option<seq<RawPost>> {
    if CachedPageId(entries, pageUrl).Some? then StoredPosts(entries, pageUrl) else None
  }

  /**
   * What one call of `get_page_id` may do, from the cache `before` and the
   * request log `sent` it starts with: a truthy cached id is returned with no
   * request and no write; on a miss an empty key pool raises; otherwise one
   * request goes out with some key of the pool, and the provider's answer
   * decides: a found id is stored without expiry and returned, anything else
   * raises and writes nothing.
   */
  ghost predicate PageIdFetch(
    api: FacebookApi, apiKeys: seq<string>, before: map<string, CacheEntry>, sent: seq<FacebookRequest>,
    pageUrl: string, r: Outcome<string>, after: map<string, CacheEntry>, sentAfter: seq<FacebookRequest>)
  {
    match CachedPageId(before, pageUrl)
    case Some(id) => r == Returned(id) && after == before && sentAfter == sent
    case None =>
      if apiKeys == [] then r == Raised && after == before && sentAfter == sent
      else exists key | key in apiKeys ::
        && sentAfter == sent + [PageIdRequest(key, pageUrl)]
        && match api.pageId(key, pageUrl)
           case Found(id) => r == Returned(id) && after == before[PageIdKey(pageUrl) := CacheEntry(PageId(id), None)]
           case _ => r == Raised && after == before
  }

  /**
   * What one call of `_get_posts_by_page_id` may do: cached raw posts are
   * returned with no request and no write; on a miss an empty key pool
   * raises; otherwise one request goes out with some key of the pool, and
   * posts found are stored with TTL `CACHE_TTL` and returned, anything else
   * raises and writes nothing.
   */
  ghost predicate PostsFetch(
    api: FacebookApi, apiKeys: seq<string>, before: map<string, CacheEntry>, sent: seq<FacebookRequest>,
    pageId: string, r: Outcome<seq<RawPost>>, after: map<string, CacheEntry>, sentAfter: seq<FacebookRequest>)
  {
    match CachedRawPosts(before, pageId)
    case Some(posts) => r == Returned(posts) && after == before && sentAfter == sent
    case None =>
      if apiKeys == [] then r == Raised && after == before && sentAfter == sent
      else exists key | key in apiKeys ::
        && sentAfter == sent + [PostsRequest(key, pageId)]
        && match api.pagePosts(key, pageId)
           case Found(posts) =>
             r == Returned(posts) && after == before[PostsKey(pageId) := CacheEntry(RawPosts(posts), Some(CACHE_TTL))]
           case _ => r == Raised && after == before
  }

  /**
   * What one call of `get_page_posts` may do: `get_page_id` runs first; when
   * it raises, the posts are `[]` and nothing further happens. Otherwise
   * `_get_posts_by_page_id` runs on the id it returned, and the posts are the
   * normalisation of the first `postCount` raw posts, or `[]` when fetching
   * or normalising raises.
   */
  ghost predicate PagePostsFetch(
    api: FacebookApi, apiKeys: seq<string>, before: map<string, CacheEntry>, sent: seq<FacebookRequest>,
    pageUrl: string, postCount: int, posts: seq<NormalizedPost>, after: map<string, CacheEntry>, sentAfter: seq<FacebookRequest>)
  {
    exists id: Outcome<string>, mid: map<string, CacheEntry>, sentMid: seq<FacebookRequest> ::
      && PageIdFetch(api, apiKeys, before, sent, pageUrl, id, mid, sentMid)
      && match id
         case Raised => posts == [] && after == mid && sentAfter == sentMid
         case Returned(pageId) =>
           exists raw: Outcome<seq<RawPost>> ::
             && PostsFetch(api, apiKeys, mid, sentMid, pageId, raw, after, sentAfter)
             && posts == (if raw.Raised? then [] else NormalizeAll(SliceTo(raw.value, postCount)).GetOr([]))
  }

  /** The Facebook scraper: a pool of API keys, the provider and the shared cache. */
  class FacebookScraper {
    const apiKeys: seq<string>
    const api: FacebookApi
    const cache: Cache
    /** Every request sent to the provider so far, oldest first. */
    ghost var requests: seq<FacebookRequest>

    constructor (apiKeys: seq<string>, api: FacebookApi, cache: Cache)
      ensures this.apiKeys == apiKeys && this.api == api && this.cache == cache
      ensures requests == []
    {
      this.apiKeys := apiKeys;
      this.api := api;
      this.cache := cache;
      requests := [];
    }

    /**
     * `get_page_id`: a truthy cached id is returned with no request; otherwise
     * a key is picked from the pool (an empty pool raises), the provider is
     * asked, and a found id is stored under `fb_page_id:<url>` without expiry.
     */
    method GetPageId(pageUrl: string) returns (r: Outcome<string>)
      requires cache.Valid()
      modifies this, cache
      ensures cache.Valid()
      ensures PageIdFetch(api, apiKeys, old(cache.entries), old(requests), pageUrl, r, cache.entries, requests)
      ensures r.Returned? ==> PageIdKey(pageUrl) in cache.entries && cache.entries[PageIdKey(pageUrl)].value == PageId(r.value)
      ensures cache.entries - {PageIdKey(pageUrl)} == old(cache.entries) - {PageIdKey(pageUrl)}
    {
      var cacheKey := PageIdKey(pageUrl);
      var cached := cache.Get(cacheKey);
      if cached.Some? && cached.value.PageId? && cached.value.id != "" {
        return Returned(cached.value.id);
      }
      if apiKeys == [] {
        return Raised;
      }
      assert apiKeys[0] in apiKeys;
      var key :| key in apiKeys;
      requests := requests + [PageIdRequest(key, pageUrl)];
      match api.pageId(key, pageUrl)
      case Found(id) =>
        KeyFamilies(pageUrl);
        cache.Set(cacheKey, PageId(id));
        r := Returned(id);
      case _ =>
        r := Raised;
    }

    /**
     * `_get_posts_by_page_id`: cached raw posts are returned with no request;
     * otherwise a key is picked from the pool (an empty pool raises), the
     * provider is asked, and the posts found are stored under
     * `fb_posts:<id>` for `CACHE_TTL` seconds.
     */
    method GetPostsByPageId(pageId: string) returns (r: Outcome<seq<RawPost>>)
      requires cache.Valid()
      modifies this, cache
      ensures cache.Valid()
      ensures PostsFetch(api, apiKeys, old(cache.entries), old(requests), pageId, r, cache.entries, requests)
      ensures r.Returned? ==> CachedRawPosts(cache.entries, pageId) == Some(r.value)
      ensures cache.entries - {PostsKey(pageId)} == old(cache.entries) - {PostsKey(pageId)}
    {
      var cacheKey := PostsKey(pageId);
      var cached := cache.Get(cacheKey);
      if cached.Some? && cached.value.RawPosts? {
        return Returned(cached.value.posts);
      }
      if apiKeys == [] {
        return Raised;
      }
      assert apiKeys[0] in apiKeys;
      var key :| key in apiKeys;
      requests := requests + [PostsRequest(key, pageId)];
      match api.pagePosts(key, pageId)
      case Found(posts) =>
        KeyFamilies(pageId);
        cache.SetEx(cacheKey, CACHE_TTL, RawPosts(posts));
        r := Returned(posts);
      case _ =>
        r := Raised;
    }

    /**
     * `get_page_posts`: resolves the page id, fetches the raw posts and
     * normalises the first `postCount` of them. Every failure on the way is
     * absorbed into `{url: pageUrl, posts: []}`: an empty key pool, a
     * provider that does not answer, a malformed post.
     */
    method GetPagePosts(pageUrl: string, postCount: int) returns (r: SourceResult)
      requires cache.Valid()
      modifies this, cache
      ensures cache.Valid()
      ensures r.url == pageUrl
      ensures 0 <= postCount ==> |r.posts| <= postCount
      ensures PagePostsFetch(api, apiKeys, old(cache.entries), old(requests), pageUrl, postCount, r.posts, cache.entries, requests)
      ensures r.posts == [] ||
        (StoredPosts(cache.entries, pageUrl).Some? &&
         NormalizeAll(SliceTo(StoredPosts(cache.entries, pageUrl).value, postCount)) == Returned(r.posts))
      ensures CachedPosts(cache.entries, pageUrl).Some? ==>
        r.posts == NormalizeAll(SliceTo(CachedPosts(cache.entries, pageUrl).value, postCount)).GetOr([])
      ensures CachedPosts(old(cache.entries), pageUrl).Some? ==>
        cache.entries == old(cache.entries) && requests == old(requests)
      ensures |old(requests)| <= |requests| <= |old(requests)| + 2 && requests[..|old(requests)|] == old(requests)
    {
      ghost var before := cache.entries;
      ghost var sent := requests;
      var id := GetPageId(pageUrl);
      ghost var afterId := cache.entries;
      ghost var requestsAfterId := requests;
      if id.Raised? {
        assert PagePostsFetch(api, apiKeys, before, sent, pageUrl, postCount, [], cache.entries, requests) by {
          assert PageIdFetch(api, apiKeys, before, sent, pageUrl, id, afterId, requestsAfterId);
        }
        return SourceResult(pageUrl, []);
      }
      var raw := GetPostsByPageId(id.value);
      KeysDistinct(pageUrl, id.value);
      KeyFamilies(id.value);
      assert cache.entries[PageIdKey(pageUrl)] == afterId[PageIdKey(pageUrl)];
      var posts: seq<NormalizedPost> := [];
      if raw.Returned? {
        assert StoredPosts(cache.entries, pageUrl) == Some(raw.value);
        var normalized := NormalizePosts(raw.value, postCount);
        posts := normalized.GetOr([]);
      }
      assert PagePostsFetch(api, apiKeys, before, sent, pageUrl, postCount, posts, cache.entries, requests) by {
        assert PageIdFetch(api, apiKeys, before, sent, pageUrl, id, afterId, requestsAfterId);
        assert PostsFetch(api, apiKeys, afterId, requestsAfterId, id.value, raw, cache.entries, requests);
      }
      r := SourceResult(pageUrl, posts);
    }
  }

  /**
   * Two calls in a row for a page whose id is not cached yet, when every key
   * of the pool resolves the page to the same non-empty id and the provider
   * has posts for it: the first call leaves the id and the raw posts in the
   * cache, and the second sends no request, writes nothing and returns the
   * same result.
   */
  method FetchPageTwice(scraper: FacebookScraper, pageUrl: string, postCount: int, pageId: string)
    returns (first: SourceResult, second: SourceResult,
      ghost afterFirst: map<string, CacheEntry>, ghost requestsAfterFirst: seq<FacebookRequest>)
    requires scraper.cache.Valid() && CachedPageId(scraper.cache.entries, pageUrl).None?
    requires scraper.apiKeys != [] && pageId != ""
    requires forall key | key in scraper.apiKeys ::
      scraper.api.pageId(key, pageUrl) == Found(pageId) && scraper.api.pagePosts(key, pageId).Found?
    modifies scraper, scraper.cache
    ensures scraper.cache.Valid()
    ensures PagePostsFetch(scraper.api, scraper.apiKeys, old(scraper.cache.entries), old(scraper.requests),
      pageUrl, postCount, first.posts, afterFirst, requestsAfterFirst)
    ensures CachedPageId(afterFirst, pageUrl) == Some(pageId) && CachedPosts(afterFirst, pageUrl).Some?
    ensures second == first && scraper.cache.entries == afterFirst && scraper.requests == requestsAfterFirst
  {
    ghost var before := scraper.cache.entries;
    ghost var sent := scraper.requests;
    first := scraper.GetPagePosts(pageUrl, postCount);
    afterFirst := scraper.cache.entries;
    requestsAfterFirst := scraper.requests;
    FirstCallFillsCache(scraper.api, scraper.apiKeys, before, sent, pageUrl, postCount, pageId,
      first.posts, afterFirst, requestsAfterFirst);
    second := scraper.GetPagePosts(pageUrl, postCount);
  }

  /**
   * TTL expiry forces a fetch: once the raw posts cached for a page id with a
   * TTL have expired, the next `_get_posts_by_page_id` misses and, with a
   * non-empty key pool, sends exactly one request and returns what the
   * provider found.
   */
  method PostsExpireThenRefetch(scraper: FacebookScraper, pageId: string) returns (r: Outcome<seq<RawPost>>)
    requires scraper.cache.Valid() && scraper.apiKeys != []
    requires PostsKey(pageId) in scraper.cache.entries && scraper.cache.entries[PostsKey(pageId)].ttl.Some?
    modifies scraper, scraper.cache
    ensures scraper.cache.Valid()
    ensures exists key | key in scraper.apiKeys ::
      && scraper.requests == old(scraper.requests) + [PostsRequest(key, pageId)]
      && (r.Returned? <==> scraper.api.pagePosts(key, pageId).Found?)
      && (r.Returned? ==> r.value == scraper.api.pagePosts(key, pageId).value)
  {
    scraper.cache.Expire(PostsKey(pageId));
    assert CachedRawPosts(scraper.cache.entries, pageId).None?;
    r := scraper.GetPostsByPageId(pageId);
  }

  /** On a miss, when every key resolves the page to `pageId`, `get_page_id` returns it and stores it. */
  lemma PageIdResolved(
    api: FacebookApi, apiKeys: seq<string>, before: map<string, CacheEntry>, sent: seq<FacebookRequest>,
    pageUrl: string, pageId: string, id: Outcome<string>, mid: map<string, CacheEntry>, sentMid: seq<FacebookRequest>)
    requires CachedPageId(before, pageUrl).None? && apiKeys != []
    requires forall key | key in apiKeys :: api.pageId(key, pageUrl) == Found(pageId)
    requires PageIdFetch(api, apiKeys, before, sent, pageUrl, id, mid, sentMid)
    ensures id == Returned(pageId) && mid == before[PageIdKey(pageUrl) := CacheEntry(PageId(pageId), None)]
  {
    var key :| key in apiKeys && sentMid == sent + [PageIdRequest(key, pageUrl)]
      && match api.pageId(key, pageUrl)
         case Found(found) => id == Returned(found) && mid == before[PageIdKey(pageUrl) := CacheEntry(PageId(found), None)]
         case _ => id == Raised && mid == before;
  }

  /**
   * When every key finds posts for `pageId`, `_get_posts_by_page_id` leaves
   * raw posts for it in the cache and changes no other entry.
   */
  lemma PostsStored(
    api: FacebookApi, apiKeys: seq<string>, mid: map<string, CacheEntry>, sentMid: seq<FacebookRequest>,
    pageId: string, raw: Outcome<seq<RawPost>>, after: map<string, CacheEntry>, sentAfter: seq<FacebookRequest>)
    requires apiKeys != [] && forall key | key in apiKeys :: api.pagePosts(key, pageId).Found?
    requires PostsFetch(api, apiKeys, mid, sentMid, pageId, raw, after, sentAfter)
    ensures CachedRawPosts(after, pageId).Some?
    ensures after == mid[PostsKey(pageId) := after[PostsKey(pageId)]]
  {
    if CachedRawPosts(mid, pageId).None? {
      var key :| key in apiKeys && sentAfter == sentMid + [PostsRequest(key, pageId)]
        && match api.pagePosts(key, pageId)
           case Found(posts) =>
             raw == Returned(posts) && after == mid[PostsKey(pageId) := CacheEntry(RawPosts(posts), Some(CACHE_TTL))]
           case _ => raw == Raised && after == mid;
    }
  }

  /**
   * A call of `get_page_posts` on a page whose id is not cached, when every
   * key resolves the page to the same non-empty id and the provider has posts
   * for it, leaves that id and raw posts for it in the cache.
   */
  lemma FirstCallFillsCache(
    api: FacebookApi, apiKeys: seq<string>, before: map<string, CacheEntry>, sent: seq<FacebookRequest>,
    pageUrl: string, postCount: int, pageId: string,
    posts: seq<NormalizedPost>, after: map<string, CacheEntry>, sentAfter: seq<FacebookRequest>)
    requires CachedPageId(before, pageUrl).None? && apiKeys != [] && pageId != ""
    requires forall key | key in apiKeys :: api.pageId(key, pageUrl) == Found(pageId) && api.pagePosts(key, pageId).Found?
    requires PagePostsFetch(api, apiKeys, before, sent, pageUrl, postCount, posts, after, sentAfter)
    ensures CachedPageId(after, pageUrl) == Some(pageId) && CachedPosts(after, pageUrl).Some?
  {
    var id, mid, sentMid :| PageIdFetch(api, apiKeys, before, sent, pageUrl, id, mid, sentMid)
      && match id
         case Raised => posts == [] && after == mid && sentAfter == sentMid
         case Returned(pageId) =>
           exists raw: Outcome<seq<RawPost>> ::
             && PostsFetch(api, apiKeys, mid, sentMid, pageId, raw, after, sentAfter)
             && posts == (if raw.Raised? then [] else NormalizeAll(SliceTo(raw.value, postCount)).GetOr([]));
    PageIdResolved(api, apiKeys, before, sent, pageUrl, pageId, id, mid, sentMid);
    var raw :| PostsFetch(api, apiKeys, mid, sentMid, pageId, raw, after, sentAfter);
    PostsStored(api, apiKeys, mid, sentMid, pageId, raw, after, sentAfter);
    KeysDistinct(pageUrl, pageId);
  }
}
