# feed-fetcher: a Dafny model of the fetch–cache–normalise pipeline

feed-fetcher is a small web service. A client posts a text body with one
profile URL per line. The service routes each X/Twitter line to a
Twitter scraper and each Facebook page line to a Facebook scraper. It
answers with one `{url, posts}` result per recognised line, in input
order. Both scrapers sit behind a shared Redis cache (cache-aside):
- **Facebook:** resolves a page URL to a page id, cached without expiry
  under `fb_page_id:<url>`. It fetches the page's raw posts, cached for
  `CACHE_TTL` = 300 seconds under `fb_posts:<id>`. It then normalises the
  first `post_count` posts into `{url, content, media}`.
- **Twitter:** looks a user up through a session-based client and formats
  the first three tweets. It caches the finished result for 300 seconds
  under `twitter:<username>`, and only when the fetch succeeds.

The model is organised by the program's parts:

- `outcomes.dfy` (`Outcomes`): `Option`, `Outcome` (returned or raised)
  and `Reply` (found, not found or failed, as a remote service answers).
  It also has `MapAll`, a loop that collects values and aborts at the
  first raise.
- `comprehensions.dfy` (`Comprehensions`): `Kept`, the filtering
  comprehension `[f(x) for x in xs if keep(f(x))]`, and `Positions`, the
  positions such a filter keeps.
- `builtins.dfy` (`Builtins`): the Python string and list built-ins the
  pipeline relies on: `str.strip`, `str.split`, `str.startswith`,
  `parts[-1]` and `xs[:n]`. Their properties are proved here. `Join`
  (`sep.join(parts)`) is not called by the pipeline. It is there only to
  state the round trip of `Split` (`JoinSplit`, `SplitJoin`).
- `feed.dfy` (`Feed`): raw provider posts, normalised posts and source
  results.
- `store.dfy` (`Store`): the three key formats and the typed cache values
  with their expiry tags. The store itself is the class `Cache` over a
  `map`, with `GET`, `SET`, `SETEX` and expiry of one key. `Cache.Valid`
  says each key family holds the kind of value its writer stores there.
- `facebook.dfy` (`Facebook`): media-list construction, post
  normalisation and the class `FacebookScraper`. Its three methods read
  and write the shared cache and call the provider.
- `twitter.dfy` (`Twitter`): `format_content`, tweet formatting and the
  class `TwitterScraper`.
- `dispatch.dfy` (`Dispatch`): line splitting, prefix routing and the
  `receive_payload` loop.

The remote services are oracles: function-valued fields of `FacebookApi`
and `TwitterClient`. Each scraper keeps a ghost log of the calls it has
made on its upstream. That log is how the contracts say that a cache hit
makes no call and which calls a miss makes. `random.choice` over the API
keys is a nondeterministic pick (`:|`), so every contract about it holds
for whichever key is picked. Cache hits are tested by truthiness, as the
code does. A stored empty page id therefore counts as a miss. Stored JSON
documents are never empty, so they always hit.

Not every failure is absorbed per URL. In `get_user_posts`, the cache
read and the session setup (main.py:152-159) sit outside the `try` that
starts at main.py:161. A session setup that fails (the cookie file cannot
be loaded) propagates through `receive_payload` and aborts the whole
batch. `TwitterScraper.GetUserPosts` and `ReceivePayload` therefore return
an `Outcome`, and their contracts say exactly when it is `Raised`. Every
other failure the model covers is absorbed into `{url, posts: []}`. A
Redis error on the cache read at main.py:153, a `json.loads` failure on a
cached value at main.py:156 and a body that is not valid UTF-8 at
main.py:205 would also escape, but none of them is modelled.

Two behaviours of the source are modelled exactly as written, though they
may surprise a reader:
- `TwitterScraper.GetUserPosts` formats at most three tweets whatever
  `post_count` is. `post_count` only reaches the client's fetch.
- `TrailingSlashUsername`: a URL that ends in `/` routes to Twitter with
  the empty username.

Facebook post fields distinguish a key that is absent from a key that
holds JSON null (`Field = Absent | Null | Text`). `post.get('url', '')`
gives `""` for an absent key and null for a null one, and
`item['image_file_uri']` raises only for an absent key.

## Model

| member | source | states |
|---|---|---|
| Outcomes.MapAll | main.py:104-119 | a loop that collects one value per element returns a list as long as its input |
| Outcomes.MapAllPointwise | main.py:104-119 | the loop returns exactly when no element's call raises, and then its j-th value is the j-th call's value |
| Comprehensions.Positions | main.py:207 | the positions a filter keeps are in range and increasing, each holds an element that passes, and every passing element's position is among them |
| Comprehensions.Kept | main.py:207 | a filtering comprehension is no longer than its input, and every value it keeps passes the filter |
| Comprehensions.KeptFollowsInput | main.py:207 | the comprehension holds one value per element whose image passes, and its j-th value is the image of the j-th such element |
| Comprehensions.KeptAll | main.py:207 | when every element passes and is its own image, the comprehension gives back its input |
| Builtins.TrimStart | main.py:206-207 | `lstrip` returns a suffix of its input that does not start with whitespace |
| Builtins.TrimStartDropsSpace | main.py:206-207 | what `lstrip` drops is all whitespace |
| Builtins.TrimEnd | main.py:206-207 | `rstrip` returns a prefix of its input that does not end with whitespace |
| Builtins.TrimEndDropsSpace | main.py:206-207 | what `rstrip` drops is all whitespace |
| Builtins.Strip | main.py:206-207 | `strip` returns a string with no whitespace at either end |
| Builtins.StripSlice | main.py:206-207 | the stripped string is a contiguous slice of the input, starting where the leading whitespace ends |
| Builtins.StripRemovesSpace | main.py:206-207 | only whitespace lies before and after that slice |
| Builtins.StripTrimmed | main.py:206-207 | stripping a string with no whitespace at its ends changes nothing |
| Builtins.StripIdempotent | main.py:206-207 | stripping twice is stripping once |
| Builtins.Split | main.py:206 | `split` on a one-character separator always gives at least one piece |
| Builtins.SplitPiecesFree | main.py:206 | no piece of a split contains the separator |
| Builtins.JoinSplit | main.py:206 | joining the pieces of a split with the separator gives back the original string |
| Builtins.SplitAppendPlain | main.py:206 | appending separator-free text extends only the last piece of a split |
| Builtins.SplitJoin | main.py:206 | splitting separator-free pieces joined with the separator gives back the pieces |
| Builtins.LastPieceIsSuffix | main.py:214 | `s.split(sep)[-1]` is the suffix of `s` after its last separator: it holds no separator, a separator stands just before it, and it is all of `s` only when `s` has no separator |
| Builtins.SliceTo | main.py:105 | `xs[:n]` is a prefix of `xs`; its length is `min(n, len(xs))` for `n >= 0`, and for negative `n` it drops `-n` elements from the end |
| Store.KeyFamilies | main.py:40-152 | `fb_page_id:`, `fb_posts:` and `twitter:` keys each fall in their own family only, and a Twitter key gives its username back |
| Store.KeysDistinct | main.py:40-152 | the three key formats never collide, and each determines its argument |
| Store.Cache.constructor | main.py:18 | the store starts empty and valid |
| Store.Cache.Get | main.py:41 | `GET` returns the stored value exactly when the key is present |
| Store.Cache.Set | main.py:63 | `SET` stores the value with no expiry, changes no other key and keeps the store valid |
| Store.Cache.SetEx | main.py:91 | `SETEX` stores the value tagged with its TTL, changes no other key and keeps the store valid |
| Store.Cache.Expire | main.py:19 | an entry written with a TTL may disappear, and one written without a TTL (a page id) stays |
| Facebook.AlbumUris | main.py:111-112 | the album comprehension succeeds exactly when every item has the `image_file_uri` key (null counts as present), and then lists each item's value in album order, null kept as null |
| Facebook.MediaOf | main.py:106-112 | a built media list holds one entry per given image, given video and album item |
| Facebook.MediaRaisesOnlyOnAlbum | main.py:106-112 | a media list is built exactly when every album item has the `image_file_uri` key |
| Facebook.MediaLayout | main.py:106-112 | a built media list is the image link (if the image is truthy), then the video link (if the video is truthy), then every album link in order; the three checks are independent |
| Facebook.ImageThenAlbum | main.py:106-112 | a post with an image and an album but no video lists the image link first, then the album links in the post's order |
| Facebook.NullLinksKept | main.py:107-112 | an image object whose `uri` is null and an album item whose `image_file_uri` is null do not raise; each gives a null media entry |
| Facebook.NormalizePost | main.py:113-117 | the post's dict is built exactly when its media list is, and its `media` is that list |
| Facebook.NormalizedFields | main.py:113-117 | a post normalises exactly when every album item has its link key; `url` and `content` are `""` for an absent key, null for a null value and the text otherwise |
| Facebook.NormalizeAll | main.py:104-119 | a normalised list has one entry per raw post |
| Facebook.BuildMedia | main.py:106-112 | the appending code builds exactly the media list, or raises exactly when it raises |
| Facebook.NormalizePosts | main.py:104-118 | the loop over `posts[:post_count]` gives the normalisation of that slice: one entry per post in order, or a raise on a malformed post |
| Facebook.MalformedPostRaises | main.py:104-119 | one malformed post anywhere makes the whole normalisation raise |
| Facebook.CachedPageId | main.py:40-44 | the cache serves a page id exactly when a page id is stored under `fb_page_id:<url>` and is truthy, and then it is that stored, non-empty id |
| Facebook.FacebookScraper.constructor | main.py:32-35 | the scraper holds its key pool, provider and cache, with no request made yet |
| Facebook.FacebookScraper.GetPageId | main.py:37-64 | see below (1) |
| Facebook.FacebookScraper.GetPostsByPageId | main.py:66-92 | see below (2) |
| Facebook.FacebookScraper.GetPagePosts | main.py:94-122 | see below (3) |
| Facebook.FetchPageTwice | main.py:37-122 | for a page whose id is not cached, when every key resolves it to the same non-empty id and the provider has posts for that id: the first call behaves as (3) and leaves the id and the raw posts in the cache; the second sends no request, writes nothing and returns the same result |
| Facebook.PostsExpireThenRefetch | main.py:71-92 | once raw posts cached with a TTL expire, the next `_get_posts_by_page_id` sends exactly one request, with a key from the pool, and returns exactly what the provider found for that key |
| Facebook.PageIdResolved | main.py:40-64 | on a miss, when every key resolves the page to one id, `get_page_id` returns that id and stores it without expiry |
| Facebook.PostsStored | main.py:71-92 | when every key finds posts for a page id, `_get_posts_by_page_id` leaves raw posts for it in the cache and changes no other entry |
| Facebook.FirstCallFillsCache | main.py:37-102 | under the same conditions, any run of `get_page_posts` allowed by (3) leaves the page id and its raw posts in the cache |
| Twitter.FormatContent | main.py:135-146 | the content starts with the retweeted text (else the tweet's own), and is longer than that by exactly the header, the quote's text and the footer when the tweet quotes another, and by nothing otherwise |
| Twitter.FormatContentRoundTrip | main.py:135-146 | the formatted content starts with the retweeted text (else the tweet's own); the delimited quoted block can be read back, is there exactly when the tweet quotes another, and holds the quote's full text |
| Twitter.QuotedTweetExample | main.py:141-145 | "hello" quoting "world" formats as `hello`, the `----- QUOTED_TWEET -----` header line, `world`, and the closing `-----` line |
| Twitter.RetweetShowsOriginal | main.py:136-140 | a retweet without a quote shows exactly the original's text |
| Twitter.TweetPosts | main.py:171-179 | at most three posts, one per leading tweet, with status URL `https://x.com/<username>/status/<id>`, formatted content and media URLs |
| Twitter.FormatTweets | main.py:171-179 | the appending loop over `tweets[:3]` builds exactly those posts |
| Twitter.TwitterScraper.constructor | main.py:126-128 | the scraper holds its client and the cache, with no call made yet |
| Twitter.TwitterScraper.Setup | main.py:130-133 | setup loads the cookies, and succeeds exactly when the cookie file loads |
| Twitter.TwitterScraper.GetUserPosts | main.py:148-189 | see below (4) |
| Twitter.FetchUserTwice | main.py:152-186 | after a successful fetch, a second call returns the same result with no call on the client; a user that is not found is looked up again on the second call |
| Dispatch.CleanLines | main.py:207 | the lines are the non-blank pieces, stripped, in their order: one per non-blank piece, the j-th being the j-th non-blank piece stripped; each is non-empty and trimmed |
| Dispatch.Lines | main.py:206-207 | every line of a body is non-empty, trimmed and free of line breaks |
| Dispatch.CleanLinesKeepNoBreak | main.py:206-207 | pieces without a line break give lines without one |
| Dispatch.CleanLinesKeepsClean | main.py:207 | cleaning lines that are already non-empty and trimmed keeps them all, in order |
| Dispatch.LinesOfJoined | main.py:206-207 | clean URL lines joined with line breaks parse back into the same lines, in order |
| Dispatch.Classify | main.py:212-224 | a line goes to the Twitter scraper exactly when it starts with `https://x.com/` or `https://twitter.com/`, with a username free of `/`; it goes to the Facebook scraper only when it starts with `https://www.facebook.com/`, and then whole; a skipped line does not start with that prefix |
| Dispatch.TwitterUsername | main.py:212-214 | the username sent on for an X or Twitter line is the suffix after its last `/`, free of `/` |
| Dispatch.XProfileRoute | main.py:212-215 | an X profile URL is sent to the Twitter scraper with the profile name as the username |
| Dispatch.TrailingSlashUsername | main.py:214 | a profile URL ending in `/` is sent on with the empty username |
| Dispatch.FacebookRoute | main.py:218-222 | a Facebook page URL is sent to the Facebook scraper whole |
| Dispatch.Plan | main.py:211-226 | the routes of a batch never include a skipped line |
| Dispatch.Recognised | main.py:211-226 | the positions of the recognised lines are increasing and in range, and include every recognised line |
| Dispatch.PlanStep | main.py:211-226 | one more line appends its route to the plan unless it is skipped |
| Dispatch.PlanFollowsInput | main.py:211-226 | there is exactly one route per recognised line, and the j-th route is the route of the j-th recognised line |
| Dispatch.RecognisedStep | main.py:211-226 | one more line appends its position unless it is skipped |
| Dispatch.MixedBatch | main.py:211-226 | a Facebook line, an unrecognised line and an X line give two routes, Facebook first; the middle line contributes nothing |
| Dispatch.FetchLine | main.py:211-226 | see below (5) |
| Dispatch.ProcessedExtend | main.py:211-226 | processing one more line, from where the others ended, with its route's effect, extends the record of processed lines |
| Dispatch.CollectedExtend | main.py:211-226 | a returned line adds its scraper's answer to the results exactly when it is recognised |
| Dispatch.CollectedFollowsPlan | main.py:209-228 | results collected from every line follow the plan: one per route, each with its route's URL and at most three posts |
| Dispatch.FetchAll | main.py:209-228 | see below (6) |
| Dispatch.ReceivePayload | main.py:202-228 | (6) for the lines of the request body; with a loadable session it always returns |
| Dispatch.MixedBatchPayload | main.py:202-228 | a body of a Facebook line, an unrecognised line and an X line returns whenever the session loads, and then gives two results, the page's URL first and then `https://x.com/<name>` |

(1) `GetPageId`: a truthy cached id is returned with no request and no
write. On a miss with an empty key pool it raises and changes nothing.
On a miss with keys, exactly one request is sent, with some key from the
pool. A found id is stored under `fb_page_id:<url>` with no expiry and
returned; a provider failure raises and writes nothing. No other key
changes.

(2) `GetPostsByPageId`: the same shape for `fb_posts:<id>`. Cached posts
are returned with no request. Posts found on a miss are stored with TTL
`CACHE_TTL`.

(3) `GetPagePosts`:
- The result's `url` is always the page URL. For a non-negative
  `post_count`, it holds at most `post_count` posts.
- The run is one that `get_page_posts` can make, stated from the
  provider's answers. `get_page_id` runs as in (1). When it raises, the
  posts are `[]`. Otherwise `_get_posts_by_page_id` runs as in (2) on the
  id it returned, and the posts are the normalisation of `posts[:post_count]`
  of the raw posts, or `[]` when fetching or normalising raises.
- Non-empty posts are the normalisation of `posts[:post_count]` of the
  raw posts now stored for the page.
- A full cache hit sends no request and writes nothing.
- At most two requests are sent, appended to the log.

(4) `GetUserPosts`:
- A cached result is returned with no call, not even the session setup.
- On a miss, a failed setup raises and writes nothing.
- Otherwise the user is looked up and, when found, the tweets are fetched.
  When both are found, `{url: https://x.com/<username>, posts}` is stored
  under `twitter:<username>` with TTL `CACHE_TTL` and returned.
- A user who is not found, and any failure after the setup, give
  `{url: https://x.com/<username>, posts: []}` and write nothing.
- Each path's exact sequence of client calls is stated.
- It raises exactly when there is no cached result and the cookies do not
  load. A returned result has the profile URL and at most three posts.

(5) `FetchLine`, one turn of the loop, by the line's route:
- A skipped line gives nothing and changes nothing.
- A Twitter line runs `get_user_posts(username)` as in (4) and keeps its
  result, or raises with it. The Facebook log is untouched.
- A Facebook line runs `get_page_posts(url)` as in (3) and keeps its
  result, which carries the line as its URL. The Twitter log is untouched.
- A result is kept exactly for a recognised line. It carries the route's
  URL and at most three posts. Only a failed Twitter setup raises.

(6) `FetchAll`, the loop over the lines:
- A ghost record holds one step per processed line, in input order. Each
  step has the state before, the outcome and the state after. The steps
  chain from the loop's start state to its end state, and each has the
  effect (5) gives its line.
- On return every line was processed. The j-th result is exactly the
  outcome of the step of the j-th recognised line, so it is the scraper's
  answer for that line.
- There is one result per route of the plan, in order, with that route's
  URL and at most three posts.
- It raises only at a line whose step raised, and stops there: that step
  is the last one, and every step before it returned. Some line is then
  a Twitter line and the cookies do not load.

## Left out

- HTTP through `httpx`: the request, the status check and the JSON body
  parsing (main.py:57-62, main.py:86-90). Each provider answer is an
  oracle `Reply`. A non-2xx status, a network error or a missing
  `page_id`/`results` field are all `Failed`.
- The Redis connection and its own failures (main.py:18). Redis errors
  are not modelled: every `GET`/`SET` succeeds.
- TTL timing. Entries carry their TTL tag but there is no clock. Expiry is
  `Cache.Expire`, which may remove any entry written with a TTL.
- `json.dumps`/`json.loads` of cached values (main.py:75, main.py:91,
  main.py:156, main.py:184). Structured values are stored directly; the
  round trip is taken to be exact.
- `random.choice` as a random process. The choice is nondeterministic, so
  no distribution is modelled.
- Loading `rapid_api_keys.json` (main.py:34-35) and the cookie file
  (main.py:133). The key pool is a constructor argument; whether the
  cookie file loads is a boolean of the client oracle.
- The twikit client internals (`get_user_by_screen_name`, `get_tweets`,
  main.py:163 and main.py:168). These are oracles. A falsy user is
  `NotFound`.
- Decoding the request body as UTF-8 (main.py:205). The body is modelled
  as already-decoded text.
- The FastAPI app, CORS, the root endpoint and uvicorn (main.py:15,
  main.py:22-28, main.py:197-199, main.py:231-234).
- `async`/`await` and the `print` logging. The code runs sequentially.
- Facebook.NormalizedFields: a `url` or `message` value that is a JSON
  number, boolean, list or object is not modelled. Fields are absent,
  null or text.
- Facebook.MediaLayout: an `image` or `video_files` value that is truthy
  but not a JSON object is not modelled. The source raises on its `.get`.
  A nested object is represented by its one read field and a count of its
  other keys.
- Facebook.FacebookScraper.GetPagePosts: raw `results` that are not a
  list of objects are not modelled. Such a value is cached as it is and
  then raises at normalisation.
