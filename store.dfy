/**
 * The Redis store shared by both scrapers: the three key formats, the values
 * stored under them (as structured values; their JSON text is not modelled),
 * and the store itself as a class over a map.
 */
module Store {
  import opened Outcomes
  import opened Builtins
  import opened Feed

  /** Lifetime, in seconds, of cached post lists and Twitter results. */
  const CACHE_TTL: nat := 300

  const PAGE_ID_PREFIX := "fb_page_id:"
  const POSTS_PREFIX := "fb_posts:"
  const TWITTER_PREFIX := "twitter:"

  /** Key of the resolved Facebook page id of a page URL. */
  function PageIdKey(pageUrl: string): string { PAGE_ID_PREFIX + pageUrl }

  /** Key of the raw Facebook posts of a page id. */
  function PostsKey(pageId: string): string { POSTS_PREFIX + pageId }

  /** Key of the finished result for a Twitter username. */
  function TwitterKey(username: string): string { TWITTER_PREFIX + username }

  /** What is stored under a key. */
  datatype CacheValue =
    | PageId(id: string)
    | RawPosts(posts: seq<RawPost>)
    | TwitterResult(result: SourceResult)

  /** A stored value with its expiry tag: `None` for a key that never expires. */
  datatype CacheEntry = CacheEntry(value: CacheValue, ttl: Option<nat>)

  /**
   * Python truthiness of the text Redis hands back for a stored value. A page
   * id is stored as itself, so the empty id is falsy; the other values are
   * JSON documents, whose text is never empty.
   */
  predicate Truthy(v: CacheValue) {
    match v
    case PageId(id) => id != ""
    case _ => true
  }

  /**
   * What the scrapers store under each key family: page ids without expiry,
   * raw posts and Twitter results with `CACHE_TTL`, and a Twitter result that
   * belongs to the username in its key and holds at most three posts. Keys of
   * other families are unconstrained.
   */
  predicate WellFormed(key: string, e: CacheEntry) {
    if StartsWith(key, PAGE_ID_PREFIX) then
      e.value.PageId? && e.ttl == None
    else if StartsWith(key, POSTS_PREFIX) then
      e.value.RawPosts? && e.ttl == Some(CACHE_TTL)
    else if StartsWith(key, TWITTER_PREFIX) then
      && e.value.TwitterResult? && e.ttl == Some(CACHE_TTL)
      && e.value.result.url == XProfileUrl(key[|TWITTER_PREFIX|..])
      && |e.value.result.posts| <= 3
    else true
  }

  /** Each key format falls in its own family and in no other. */
  lemma KeyFamilies(x: string)
    ensures StartsWith(PageIdKey(x), PAGE_ID_PREFIX)
    ensures !StartsWith(PostsKey(x), PAGE_ID_PREFIX) && StartsWith(PostsKey(x), POSTS_PREFIX)
    ensures !StartsWith(TwitterKey(x), PAGE_ID_PREFIX) && !StartsWith(TwitterKey(x), POSTS_PREFIX)
    ensures StartsWith(TwitterKey(x), TWITTER_PREFIX) && TwitterKey(x)[|TWITTER_PREFIX|..] == x
  {
    assert PostsKey(x)[4] == 'o';
    assert TwitterKey(x)[0] == 't';
    assert PostsKey(x)[..|POSTS_PREFIX|] == POSTS_PREFIX;
    assert PageIdKey(x)[..|PAGE_ID_PREFIX|] == PAGE_ID_PREFIX;
    assert TwitterKey(x)[..|TWITTER_PREFIX|] == TWITTER_PREFIX;
  }

  /** The three key formats never collide, and each one determines its argument. */
  lemma KeysDistinct(a: string, b: string)
    ensures PageIdKey(a) != PostsKey(b) && PageIdKey(a) != TwitterKey(b) && PostsKey(a) != TwitterKey(b)
    ensures PageIdKey(a) == PageIdKey(b) ==> a == b
    ensures PostsKey(a) == PostsKey(b) ==> a == b
    ensures TwitterKey(a) == TwitterKey(b) ==> a == b
  {
    KeyFamilies(a);
    KeyFamilies(b);
    if PageIdKey(a) == PageIdKey(b) {
      assert a == PageIdKey(a)[|PAGE_ID_PREFIX|..];
    }
    if PostsKey(a) == PostsKey(b) {
      assert a == PostsKey(a)[|POSTS_PREFIX|..];
    }
  }

  /** The key-value store (the process-wide `redis_client`). */
  class Cache {
    var entries: map<string, CacheEntry>

    /** Every entry the scrapers can read back has the shape they wrote. */
    ghost predicate Valid()
      reads this
    {
      forall key | key in entries :: WellFormed(key, entries[key])
    }

    constructor ()
      ensures entries == map[] && Valid()
    {
      entries := map[];
    }

    /** `GET key`: the stored value, or nothing on a miss. */
    method Get(key: string) returns (v: Option<CacheValue>)
      ensures key in entries <==> v.Some?
      ensures v.Some? ==> v.value == entries[key].value
    {
      v := if key in entries then Some(entries[key].value) else None;
    }

    /** `SET key value`: stores the value and clears any expiry. */
    method Set(key: string, value: CacheValue)
      requires Valid() && WellFormed(key, CacheEntry(value, None))
      modifies this
      ensures Valid()
      ensures entries == old(entries)[key := CacheEntry(value, None)]
    {
      entries := entries[key := CacheEntry(value, None)];
    }

    /** `SETEX key ttl value`: stores the value to expire after `ttl` seconds. */
    method SetEx(key: string, ttl: nat, value: CacheValue)
      requires Valid() && WellFormed(key, CacheEntry(value, Some(ttl)))
      modifies this
      ensures Valid()
      ensures entries == old(entries)[key := CacheEntry(value, Some(ttl))]
    {
      entries := entries[key := CacheEntry(value, Some(ttl))];
    }

    /**
     * Expiry of one key: an entry written with a TTL may disappear once its
     * time is up; one written without a TTL stays.
     */
    method Expire(key: string)
      requires Valid()
      modifies this
      ensures Valid()
      ensures key in old(entries) && old(entries)[key].ttl.Some? ==> entries == old(entries) - {key}
      ensures !(key in old(entries) && old(entries)[key].ttl.Some?) ==> entries == old(entries)
    {
      if key in entries && entries[key].ttl.Some? {
        entries := entries - {key};
      }
    }
  }
}
