/**
 * The Twitter/X adapter: tweet formatting and the cached lookup of a user's
 * recent tweets through a session-based client.
 */
module Twitter {
  import opened Outcomes
  import opened Builtins
  import opened Feed
  import opened Store

  /** A media item attached to a tweet. */
  datatype Media = Media(mediaUrl: string)

  /** A tweet as the client library returns it. */
  datatype Tweet = Tweet(
    id: string,
    fullText: string,
    retweetedTweet: Option<Tweet>,
    quote: Option<Tweet>,
    media: seq<Media>)

  /** A user found by screen name. */
  datatype User = User(id: string)

  /**
   * The Twitter client library, as an oracle: whether the cookie file loads,
   * the user found for a screen name, and the recent tweets of a user for a
   * requested count.
   */
  datatype TwitterClient = TwitterClient(
    cookiesLoad: bool,
    userByScreenName: string -> Reply<User>,
    tweets: (User, int) -> Reply<seq<Tweet>>)

  /** One call made on the client. */
  datatype TwitterRequest =
    | LoadCookies
    | LookUpUser(username: string)
    | FetchTweets(user: User, count: int)

  /** How many tweets are formatted, whatever count was requested. */
  const TWEETS_SHOWN := 3

  const QUOTE_HEADER := "\n----- QUOTED_TWEET -----\n"
  const QUOTE_FOOTER := "\n-----"

  /** The text a tweet shows: the retweeted tweet's text for a retweet, else its own. */
  function BaseText(t: Tweet): string {
    if t.retweetedTweet.Some? then t.retweetedTweet.value.fullText else t.fullText
  }

  /**
   * `format_content`: the base text, followed by a delimited block when the
   * tweet quotes another; the block adds the quote's text and the two
   * delimiters, and nothing else.
   */
  function FormatContent(t: Tweet): (content: string)
    ensures |BaseText(t)| <= |content| && content[..|BaseText(t)|] == BaseText(t)
    ensures |content| == |BaseText(t)| + if t.quote.Some? then |QUOTE_HEADER| + |t.quote.value.fullText| + |QUOTE_FOOTER| else 0
  {
    if t.quote.Some? then BaseText(t) + QUOTE_HEADER + t.quote.value.fullText + QUOTE_FOOTER
    else BaseText(t)
  }

  /**
   * Reads a formatted content back, given the base text it starts with: the
   * quoted text when a quoted block follows the base, otherwise nothing.
   */
  function QuotedText(content: string, base: string): Option<string> {
    var start := |base| + |QUOTE_HEADER|;
    if |content| >= start + |QUOTE_FOOTER|
      && content[..|base|] == base
      && content[|base|..start] == QUOTE_HEADER
      && content[|content| - |QUOTE_FOOTER|..] == QUOTE_FOOTER
    then Some(content[start..|content| - |QUOTE_FOOTER|])
    else None
  }

  /**
   * The formatted content starts with the base text, and the quoted block can
   * be read back from it: it is there exactly when the tweet has a quote, and
   * it holds the quote's full text.
   */
  lemma FormatContentRoundTrip(t: Tweet)
    ensures |BaseText(t)| <= |FormatContent(t)| && FormatContent(t)[..|BaseText(t)|] == BaseText(t)
    ensures QuotedText(FormatContent(t), BaseText(t)) == if t.quote.Some? then Some(t.quote.value.fullText) else None
  {
    var base := BaseText(t);
    var content := FormatContent(t);
    if t.quote.Some? {
      var q := t.quote.value.fullText;
      var start := |base| + |QUOTE_HEADER|;
      assert content == base + QUOTE_HEADER + q + QUOTE_FOOTER;
      assert content[..|base|] == base;
      assert content[|base|..start] == QUOTE_HEADER;
      assert content[|content| - |QUOTE_FOOTER|..] == QUOTE_FOOTER;
      assert content[start..|content| - |QUOTE_FOOTER|] == q;
    } else {
      assert content == base;
    }
  }

  /** A tweet "hello" quoting a tweet "world" is formatted with the quoted block after it. */
  lemma QuotedTweetExample(id: string, quotedId: string)
    ensures var quoted := Tweet(quotedId, "world", None, None, []);
      FormatContent(Tweet(id, "hello", None, Some(quoted), [])) == "hello" + "\n----- QUOTED_TWEET -----\n" + "world" + "\n-----"
  {
  }

  /** A retweet shows the original's text, not its own. */
  lemma RetweetShowsOriginal(t: Tweet)
    requires t.retweetedTweet.Some? && t.quote.None?
    ensures FormatContent(t) == t.retweetedTweet.value.fullText
  {
  }

  /** The status URL of a tweet of `username`. */
  function StatusUrl(username: string, id: string): string {
    XProfileUrl(username) + "/status/" + id
  }

  /** `[media.media_url for media in tweet.media]`. */
  function MediaUrls(media: seq<Media>): seq<Option<string>> {
    seq(|media|, i requires 0 <= i < |media| => Some(media[i].mediaUrl))
  }

  /** The dict built for one tweet. */
  function TweetPost(username: string, t: Tweet): NormalizedPost {
    NormalizedPost(Some(StatusUrl(username, t.id)), Some(FormatContent(t)), MediaUrls(t.media))
  }

  /** The posts made of the first `TWEETS_SHOWN` tweets, in order. */
  function TweetPosts(username: string, tweets: seq<Tweet>): (posts: seq<NormalizedPost>)
    ensures |posts| == if |tweets| < TWEETS_SHOWN then |tweets| else TWEETS_SHOWN
    ensures forall i | 0 <= i < |posts| :: posts[i] == TweetPost(username, tweets[i])
  {
    var shown := SliceTo(tweets, TWEETS_SHOWN);
    seq(|shown|, i requires 0 <= i < |shown| => TweetPost(username, shown[i]))
  }

  /** The loop of `get_user_posts` over `tweets[:3]`, appending one post per tweet. */
  method FormatTweets(username: string, tweets: seq<Tweet>) returns (posts: seq<NormalizedPost>)
    ensures posts == TweetPosts(username, tweets)
  {
    var shown := SliceTo(tweets, TWEETS_SHOWN);
    posts := [];
    var i := 0;
    while i < |shown|
      invariant 0 <= i <= |shown|
      invariant |posts| == i
      invariant forall k | 0 <= k < i :: posts[k] == TweetPost(username, tweets[k])
    {
      posts := posts + [TweetPost(username, shown[i])];
      i := i + 1;
    }
  }

  /** The result reported when nothing could be fetched for a username. */
  function EmptyResult(username: string): SourceResult {
    SourceResult(XProfileUrl(username), [])
  }

  /** The result cached for a username, if any (a stored JSON document is always truthy). */
  function CachedResult(entries: map<string, CacheEntry>, username: string): Option<SourceResult> {
    var key := TwitterKey(username);
    if key in entries && entries[key].value.TwitterResult? then Some(entries[key].value.result) else None
  }

  /**
   * What one call of `get_user_posts` may do, from the cache `before` and the
   * call log `calls` it starts with: a cached result is returned with no call
   * at all. On a miss the session is set up first, and a setup failure
   * raises with nothing written. Then the user is looked up and, when found,
   * their tweets are fetched; when both are found, the result made of the
   * first three tweets is stored under `twitter:<username>` with TTL
   * `CACHE_TTL` and returned. A user not found or a failure after the setup
   * gives the empty result and writes nothing.
   */
  ghost predicate UserPostsFetch(
    client: TwitterClient, before: map<string, CacheEntry>, calls: seq<TwitterRequest>,
    username: string, postCount: int, r: Outcome<SourceResult>, after: map<string, CacheEntry>, callsAfter: seq<TwitterRequest>)
  {
    match CachedResult(before, username)
    case Some(cached) => r == Returned(cached) && after == before && callsAfter == calls
    case None =>
      if !client.cookiesLoad then r == Raised && after == before && callsAfter == calls + [LoadCookies]
      else
        match client.userByScreenName(username)
        case Found(user) =>
          && callsAfter == calls + [LoadCookies, LookUpUser(username), FetchTweets(user, postCount)]
          && (match client.tweets(user, postCount)
              case Found(tweets) =>
                && r == Returned(SourceResult(XProfileUrl(username), TweetPosts(username, tweets)))
                && after == before[TwitterKey(username) := CacheEntry(TwitterResult(r.value), Some(CACHE_TTL))]
              case _ => r == Returned(EmptyResult(username)) && after == before)
        case _ =>
          && r == Returned(EmptyResult(username)) && after == before
          && callsAfter == calls + [LoadCookies, LookUpUser(username)]
  }

  /** The Twitter scraper: the client and the shared cache. */
  class TwitterScraper {
    const client: TwitterClient
    const cache: Cache
    /** Every call made on the client so far, oldest first. */
    ghost var requests: seq<TwitterRequest>

    constructor (client: TwitterClient, cache: Cache)
      ensures this.client == client && this.cache == cache && requests == []
    {
      this.client := client;
      this.cache := cache;
      requests := [];
    }

    /** `setup`: loads the session cookies; it fails when the cookie file cannot be loaded. */
    method Setup() returns (ok: bool)
      modifies this
      ensures ok == client.cookiesLoad
      ensures requests == old(requests) + [LoadCookies]
    {
      requests := requests + [LoadCookies];
      ok := client.cookiesLoad;
    }

    /**
     * `get_user_posts`: a cached result is returned at once, without the
     * session setup or any call. On a miss the session is set up (a failure
     * there propagates), the user is looked up and their tweets fetched; the
     * first three tweets become the result, which is cached for `CACHE_TTL`
     * seconds. A user not found, or any failure after the setup, gives the
     * empty result and writes nothing.
     */
    method GetUserPosts(username: string, postCount: int) returns (r: Outcome<SourceResult>)
      requires cache.Valid()
      modifies this, cache
      ensures cache.Valid()
      ensures r.Returned? ==> r.value.url == XProfileUrl(username) && |r.value.posts| <= TWEETS_SHOWN
      ensures r.Raised? <==> CachedResult(old(cache.entries), username).None? && !client.cookiesLoad
      ensures UserPostsFetch(client, old(cache.entries), old(requests), username, postCount, r, cache.entries, requests)
    {
      var cacheKey := TwitterKey(username);
      var cached := cache.Get(cacheKey);
      KeyFamilies(username);
      if cached.Some? && cached.value.TwitterResult? {
        return Returned(cached.value.result);
      }
      var ok := Setup();
      if !ok {
        return Raised;
      }
      requests := requests + [LookUpUser(username)];
      var user := client.userByScreenName(username);
      if !user.Found? {
        return Returned(EmptyResult(username));
      }
      requests := requests + [FetchTweets(user.value, postCount)];
      var tweets := client.tweets(user.value, postCount);
      if !tweets.Found? {
        return Returned(EmptyResult(username));
      }
      var posts := FormatTweets(username, tweets.value);
      var result := SourceResult(XProfileUrl(username), posts);
      cache.SetEx(cacheKey, CACHE_TTL, TwitterResult(result));
      r := Returned(result);
    }
  }

  /**
   * Two calls in a row for the same username. After a successful fetch the
   * second call is served from the cache: same result, no call on the client.
   * A user that is not found is never cached, so the second call sets up the
   * session and looks the user up again.
   */
  method FetchUserTwice(scraper: TwitterScraper, username: string, postCount: int)
    returns (first: Outcome<SourceResult>, second: Outcome<SourceResult>)
    requires scraper.cache.Valid() && CachedResult(scraper.cache.entries, username).None?
    requires scraper.client.cookiesLoad
    modifies scraper, scraper.cache
    ensures scraper.cache.Valid()
    ensures var user := scraper.client.userByScreenName(username);
      (user.Found? && scraper.client.tweets(user.value, postCount).Found?) ==>
        && second == first
        && scraper.requests == old(scraper.requests) + [LoadCookies, LookUpUser(username), FetchTweets(user.value, postCount)]
    ensures scraper.client.userByScreenName(username).NotFound? ==>
      && first == second == Returned(EmptyResult(username))
      && scraper.requests == old(scraper.requests) + [LoadCookies, LookUpUser(username), LoadCookies, LookUpUser(username)]
  {
    first := scraper.GetUserPosts(username, postCount);
    second := scraper.GetUserPosts(username, postCount);
  }
}
