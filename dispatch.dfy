/**
 * The batch dispatcher behind `POST /api/fetch`: splits the body into URL
 * lines, routes each line by prefix to the Twitter or the Facebook scraper,
 * and collects one result per recognised line, in input order.
 */
module Dispatch {
  import opened Outcomes
  import opened Comprehensions
  import opened Builtins
  import opened Feed
  import opened Store
  import opened Facebook
  import opened Twitter

  const X_PREFIX := "https://x.com/"
  const TWITTER_COM_PREFIX := "https://twitter.com/"
  const FACEBOOK_PREFIX := "https://www.facebook.com/"

  /** The post count both scrapers are called with (their parameters' default). */
  const DEFAULT_POST_COUNT := 3

  /** A string with at least one character: Python's truthiness of a `str`. */
  predicate NonEmpty(s: string) {
    s != []
  }

  /** A piece is kept when something is left of it once stripped. */
  predicate NotBlank(piece: string) {
    NonEmpty(Strip(piece))
  }

  /**
   * `[url.strip() for url in pieces if url.strip()]`: the non-blank pieces,
   * stripped, in their order. The j-th line is the j-th non-blank piece with
   * its whitespace removed, so every line is non-empty and trimmed.
   */
  function CleanLines(pieces: seq<string>): (urls: seq<string>)
    ensures |urls| == |Positions(NotBlank, pieces)| <= |pieces|
    ensures forall j | 0 <= j < |urls| :: urls[j] == Strip(pieces[Positions(NotBlank, pieces)[j]])
    ensures forall j | 0 <= j < |urls| :: urls[j] != [] && Trimmed(urls[j])
  {
    KeptFollowsInput(Strip, NonEmpty, NotBlank, pieces);
    Kept(Strip, NonEmpty, pieces)
  }

  /**
   * The URL lines of a request body: `body.strip().split("\n")`, each stripped,
   * empty ones dropped. Every line is non-empty, has no whitespace at either
   * end and holds no line break.
   */
  function Lines(body: string): (lines: seq<string>)
    ensures forall j | 0 <= j < |lines| :: lines[j] != [] && Trimmed(lines[j]) && '\n' !in lines[j]
  {
    var pieces := Split(Strip(body), '\n');
    SplitPiecesFree(Strip(body), '\n');
    CleanLinesKeepNoBreak(pieces);
    CleanLines(pieces)
  }

  /** Pieces without a line break give lines without one. */
  lemma CleanLinesKeepNoBreak(pieces: seq<string>)
    requires forall j | 0 <= j < |pieces| :: '\n' !in pieces[j]
    ensures forall j | 0 <= j < |CleanLines(pieces)| :: '\n' !in CleanLines(pieces)[j]
  {
    var idx := Positions(NotBlank, pieces);
    forall j | 0 <= j < |CleanLines(pieces)| ensures '\n' !in CleanLines(pieces)[j] {
      StripKeepsOut(pieces[idx[j]], '\n');
    }
  }

  /** A string without `c` stays without it once stripped. */
  lemma StripKeepsOut(s: string, c: char)
    requires c !in s
    ensures c !in Strip(s)
  {
    var t := TrimStart(s);
    assert t == s[|s| - |t|..];
    assert Strip(s) == TrimEnd(t) == t[..|Strip(s)|];
  }

  /** Cleaning lines that are already non-empty and trimmed keeps them all. */
  lemma CleanLinesKeepsClean(urls: seq<string>)
    requires forall j | 0 <= j < |urls| :: urls[j] != [] && Trimmed(urls[j])
    ensures CleanLines(urls) == urls
  {
    forall j | 0 <= j < |urls| ensures NonEmpty(Strip(urls[j])) && Strip(urls[j]) == urls[j] {
      StripTrimmed(urls[j]);
    }
    KeptAll(Strip, NonEmpty, urls);
  }

  /** A joined string starts with its first part and ends with its last. */
  lemma {:induction false} JoinEnds(parts: seq<string>, sep: char)
    requires |parts| >= 1
    ensures |parts[0]| <= |Join(parts, sep)| && Join(parts, sep)[..|parts[0]|] == parts[0]
    ensures var s := Join(parts, sep); var last := parts[|parts| - 1];
      |last| <= |s| && s[|s| - |last|..] == last
  {
    if |parts| > 1 {
      var init := parts[..|parts| - 1];
      JoinEnds(init, sep);
      assert init[0] == parts[0];
    }
  }

  /** Parts without whitespace at their ends join into a string without whitespace at its ends. */
  lemma JoinTrimmed(parts: seq<string>, sep: char)
    requires |parts| >= 1
    requires forall j | 0 <= j < |parts| :: parts[j] != [] && Trimmed(parts[j])
    ensures Trimmed(Join(parts, sep))
  {
    var s := Join(parts, sep);
    JoinEnds(parts, sep);
    var first, last := parts[0], parts[|parts| - 1];
    assert s[0] == s[..|first|][0] == first[0];
    assert s[|s| - 1] == s[|s| - |last|..][|last| - 1] == last[|last| - 1];
  }

  /**
   * Parsing a body made of URL lines joined by line breaks gives those lines
   * back, in order: the line splitting inverts the way a client builds the body.
   */
  lemma LinesOfJoined(urls: seq<string>)
    requires urls != []
    requires forall j | 0 <= j < |urls| :: urls[j] != [] && Trimmed(urls[j]) && '\n' !in urls[j]
    ensures Lines(Join(urls, '\n')) == urls
  {
    JoinTrimmed(urls, '\n');
    StripTrimmed(Join(urls, '\n'));
    SplitJoin(urls, '\n');
    CleanLinesKeepsClean(urls);
  }

  /** Where a URL line is sent. */
  datatype Route = ToTwitter(username: string) | ToFacebook(pageUrl: string) | Skip

  /**
   * The prefix test of `receive_payload`: the two profile prefixes win over
   * the Facebook prefix, a Facebook line is sent on whole, and the Twitter
   * username is the text after the last `/`, which holds no `/`.
   */
  function Classify(url: string): (route: Route)
    ensures route.ToTwitter? <==> StartsWith(url, X_PREFIX) || StartsWith(url, TWITTER_COM_PREFIX)
    ensures route.ToFacebook? ==> route.pageUrl == url && StartsWith(url, FACEBOOK_PREFIX)
    ensures route.Skip? ==> !StartsWith(url, FACEBOOK_PREFIX)
    ensures route.ToTwitter? ==> '/' !in route.username
  {
    if StartsWith(url, X_PREFIX) || StartsWith(url, TWITTER_COM_PREFIX) then
      LastPieceIsSuffix(url, '/');
      ToTwitter(LastPiece(url, '/'))
    else if StartsWith(url, FACEBOOK_PREFIX) then ToFacebook(url)
    else Skip
  }

  /**
   * A Twitter line is sent on with the text after its last `/`: a suffix of
   * the line, free of `/`, with a `/` just before it.
   */
  lemma TwitterUsername(url: string)
    requires Classify(url).ToTwitter?
    ensures var u := Classify(url).username;
      && '/' !in u && |u| < |url| && u == url[|url| - |u|..] && url[|url| - |u| - 1] == '/'
  {
    LastPieceIsSuffix(url, '/');
    if StartsWith(url, X_PREFIX) {
      assert url[13] == '/';
    } else {
      assert url[19] == '/';
    }
  }

  /** An X profile URL is sent on with the profile name as the username. */
  lemma XProfileRoute(name: string)
    requires '/' !in name
    ensures Classify(X_PREFIX + name) == ToTwitter(name)
  {
    var url := X_PREFIX + name;
    assert StartsWith(url, X_PREFIX);
    LastPieceIsSuffix(url, '/');
    var u := LastPiece(url, '/');
    assert url[13] == '/';
    assert url[14..] == name;
  }

  /** A profile URL with a trailing slash is sent on with an empty username. */
  lemma TrailingSlashUsername(name: string)
    ensures Classify(X_PREFIX + name + "/") == ToTwitter("")
  {
    var url := X_PREFIX + name + "/";
    assert StartsWith(url, X_PREFIX);
    assert url[|url| - 1] == '/';
    LastPieceIsSuffix(url, '/');
  }

  /** A Facebook URL is sent on whole. */
  lemma FacebookRoute(path: string)
    ensures Classify(FACEBOOK_PREFIX + path) == ToFacebook(FACEBOOK_PREFIX + path)
  {
    var url := FACEBOOK_PREFIX + path;
    assert url[..|X_PREFIX|][8] != X_PREFIX[8];
    assert url[..|TWITTER_COM_PREFIX|][8] != TWITTER_COM_PREFIX[8];
    assert StartsWith(url, FACEBOOK_PREFIX);
  }

  /** A route that sends the line on to a scraper. */
  predicate Forwarded(route: Route) {
    !route.Skip?
  }

  /** The routes of the recognised lines, in input order; other lines contribute nothing. */
  function Plan(urls: seq<string>): (routes: seq<Route>)
    ensures forall j | 0 <= j < |routes| :: !routes[j].Skip?
  {
    Kept(Classify, Forwarded, urls)
  }

  /** The plan of one more line: that line's route is appended unless it is skipped. */
  lemma PlanStep(urls: seq<string>, i: nat)
    requires i < |urls|
    ensures Plan(urls[..i + 1]) ==
      if Classify(urls[i]).Skip? then Plan(urls[..i]) else Plan(urls[..i]) + [Classify(urls[i])]
  {
    KeptStep(Classify, Forwarded, urls, i);
  }

  /** A line is recognised when its prefix routes it to a scraper. */
  predicate Routed(url: string) {
    Forwarded(Classify(url))
  }

  /** The positions of the recognised lines: increasing, in range, and every recognised position. */
  function Recognised(urls: seq<string>): (idx: seq<nat>)
    ensures forall j | 0 <= j < |idx| :: idx[j] < |urls| && !Classify(urls[idx[j]]).Skip?
    ensures forall j, k | 0 <= j < k < |idx| :: idx[j] < idx[k]
    ensures forall i | 0 <= i < |urls| && !Classify(urls[i]).Skip? :: i in idx
  {
    var idx := Positions(Routed, urls);
    assert forall i | 0 <= i < |urls| && !Classify(urls[i]).Skip? :: Routed(urls[i]);
    idx
  }

  /**
   * The plan has exactly one route per recognised line, and its j-th route is
   * the route of the j-th recognised line.
   */
  lemma PlanFollowsInput(urls: seq<string>)
    ensures |Plan(urls)| == |Recognised(urls)|
    ensures forall j | 0 <= j < |Plan(urls)| :: Plan(urls)[j] == Classify(urls[Recognised(urls)[j]])
  {
    KeptFollowsInput(Classify, Forwarded, Routed, urls);
  }

  /** The url a result for the route reports. */
  function RouteUrl(route: Route): string {
    match route
    case ToTwitter(username) => XProfileUrl(username)
    case ToFacebook(pageUrl) => pageUrl
    case Skip => ""
  }

  /**
   * A Facebook line, a line with no recognised prefix and an X profile line
   * give two routes, in that order: the middle line contributes nothing.
   */
  lemma MixedBatch(path: string, other: string, name: string)
    requires Classify(other).Skip? && '/' !in name
    ensures Plan([FACEBOOK_PREFIX + path, other, X_PREFIX + name])
      == [ToFacebook(FACEBOOK_PREFIX + path), ToTwitter(name)]
  {
    var urls := [FACEBOOK_PREFIX + path, other, X_PREFIX + name];
    FacebookRoute(path);
    XProfileRoute(name);
    assert urls[..0] == [];
    PlanStep(urls, 0);
    PlanStep(urls, 1);
    PlanStep(urls, 2);
    assert urls[..3] == urls;
  }

  /** The positions of one more line: its own is appended unless it is skipped. */
  lemma RecognisedStep(urls: seq<string>, i: nat)
    requires i < |urls|
    ensures Recognised(urls[..i + 1]) ==
      if Classify(urls[i]).Skip? then Recognised(urls[..i]) else Recognised(urls[..i]) + [i]
  {
    PositionsStep(Routed, urls, i);
  }

  /** The state processing a line can change: the shared cache and both scrapers' logs. */
  datatype Snapshot = Snapshot(
    entries: map<string, CacheEntry>,
    facebookRequests: seq<FacebookRequest>,
    twitterRequests: seq<TwitterRequest>)

  /** The current state of the two scrapers and their shared cache. */
  ghost function StateOf(facebook: FacebookScraper, twitter: TwitterScraper): Snapshot
    reads facebook, twitter, facebook.cache
  {
    Snapshot(facebook.cache.entries, facebook.requests, twitter.requests)
  }

  /**
   * What processing one URL line may do, by its route: a skipped line gives
   * nothing and changes nothing; a Twitter line does exactly what
   * `get_user_posts(username)` does and keeps its result (or raises with it);
   * a Facebook line does exactly what `get_page_posts(url)` does and keeps its
   * result. Either scraper leaves the other's log alone.
   */
  ghost predicate LineEffect(
    facebook: FacebookScraper, twitter: TwitterScraper, url: string,
    before: Snapshot, r: Outcome<Option<SourceResult>>, after: Snapshot)
  {
    match Classify(url)
    case Skip => r == Returned(None) && after == before
    case ToTwitter(username) =>
      && after.facebookRequests == before.facebookRequests
      && (r.Raised? || r.value.Some?)
      && UserPostsFetch(twitter.client, before.entries, before.twitterRequests, username, DEFAULT_POST_COUNT,
           if r.Raised? then Raised else Returned(r.value.value), after.entries, after.twitterRequests)
    case ToFacebook(pageUrl) =>
      && after.twitterRequests == before.twitterRequests
      && r.Returned? && r.value.Some? && r.value.value.url == pageUrl
      && PagePostsFetch(facebook.api, facebook.apiKeys, before.entries, before.facebookRequests, pageUrl,
           DEFAULT_POST_COUNT, r.value.value.posts, after.entries, after.facebookRequests)
  }

  /** One processed line: the line, the state before, what it gave and the state after. */
  datatype Step = Step(url: string, before: Snapshot, result: Outcome<Option<SourceResult>>, after: Snapshot)

  /** The steps follow one another from `start` to `end`: each starts where the previous one ended. */
  ghost predicate Chained(start: Snapshot, steps: seq<Step>, end: Snapshot) {
    && (forall k | 0 < k < |steps| :: steps[k].before == steps[k - 1].after)
    && (if steps == [] then end == start else steps[0].before == start && steps[|steps| - 1].after == end)
  }

  /**
   * The first `|steps|` lines of `urls` were processed in order, from state
   * `start` to state `end`, each with the effect its route calls for.
   */
  ghost predicate Processed(
    facebook: FacebookScraper, twitter: TwitterScraper, urls: seq<string>,
    start: Snapshot, steps: seq<Step>, end: Snapshot)
  {
    && |steps| <= |urls|
    && (forall k | 0 <= k < |steps| ::
         steps[k].url == urls[k] && LineEffect(facebook, twitter, urls[k], steps[k].before, steps[k].result, steps[k].after))
    && Chained(start, steps, end)
  }

  /** Processing one more line, starting where the others ended, extends the record. */
  lemma ProcessedExtend(
    facebook: FacebookScraper, twitter: TwitterScraper, urls: seq<string>,
    start: Snapshot, steps: seq<Step>, step: Step)
    requires Processed(facebook, twitter, urls, start, steps, step.before) && |steps| < |urls|
    requires step.url == urls[|steps|] && LineEffect(facebook, twitter, urls[|steps|], step.before, step.result, step.after)
    ensures Processed(facebook, twitter, urls, start, steps + [step], step.after)
  {
    var next := steps + [step];
    forall k | 0 <= k < |next|
      ensures next[k].url == urls[k] && LineEffect(facebook, twitter, urls[k], next[k].before, next[k].result, next[k].after)
    {
      if k < |steps| {
        assert next[k] == steps[k];
      }
    }
  }

  /**
   * The results collected from the processed steps: the j-th is what the
   * step of the j-th recognised line among them gave, and it reports the url
   * of that line's route with at most the default number of posts.
   */
  ghost predicate Collected(urls: seq<string>, steps: seq<Step>, results: seq<SourceResult>)
    requires |steps| <= |urls|
  {
    var idx := Recognised(urls[..|steps|]);
    && |results| == |idx|
    && forall j | 0 <= j < |results| ::
      && steps[idx[j]].result == Returned(Some(results[j]))
      && results[j].url == RouteUrl(Classify(urls[idx[j]])) && |results[j].posts| <= DEFAULT_POST_COUNT
  }

  /** A returned step keeps its result exactly when its line is recognised. */
  lemma CollectedExtend(urls: seq<string>, steps: seq<Step>, results: seq<SourceResult>, step: Step)
    requires |steps| < |urls| && Collected(urls, steps, results)
    requires step.result.Returned? && (step.result.value.Some? <==> !Classify(urls[|steps|]).Skip?)
    requires step.result.value.Some? ==>
      step.result.value.value.url == RouteUrl(Classify(urls[|steps|]))
      && |step.result.value.value.posts| <= DEFAULT_POST_COUNT
    ensures Collected(urls, steps + [step], if step.result.value.Some? then results + [step.result.value.value] else results)
  {
    var i := |steps|;
    RecognisedStep(urls, i);
    var idx := Recognised(urls[..i]);
    var next := steps + [step];
    var nextIdx := Recognised(urls[..i + 1]);
    var nextResults := if step.result.value.Some? then results + [step.result.value.value] else results;
    assert |nextResults| == |nextIdx|;
    forall j | 0 <= j < |nextResults|
      ensures next[nextIdx[j]].result == Returned(Some(nextResults[j]))
      ensures nextResults[j].url == RouteUrl(Classify(urls[nextIdx[j]]))
      ensures |nextResults[j].posts| <= DEFAULT_POST_COUNT
    {
      if j < |idx| {
        assert nextIdx[j] == idx[j] && nextResults[j] == results[j];
        assert idx[j] < i;
        assert next[idx[j]] == steps[idx[j]];
      } else {
        assert nextIdx[j] == i && next[i] == step;
      }
    }
  }

  /** Results collected from every line follow the plan: one per route, each reporting its route's url. */
  lemma CollectedFollowsPlan(urls: seq<string>, steps: seq<Step>, results: seq<SourceResult>)
    requires |steps| == |urls| && Collected(urls, steps, results)
    ensures |results| == |Plan(urls)|
    ensures forall j | 0 <= j < |results| ::
      results[j].url == RouteUrl(Plan(urls)[j]) && |results[j].posts| <= DEFAULT_POST_COUNT
  {
    assert urls[..|steps|] == urls;
    PlanFollowsInput(urls);
  }

  /**
   * One turn of the loop of `receive_payload`: the scraper the prefix of
   * `url` selects is called with the default post count and its result
   * kept; a line with no recognised prefix gives nothing. Only a failed
   * Twitter session setup escapes.
   */
  method FetchLine(facebook: FacebookScraper, twitter: TwitterScraper, url: string)
    returns (r: Outcome<Option<SourceResult>>)
    requires facebook.cache == twitter.cache && facebook.cache.Valid()
    modifies facebook, twitter, facebook.cache
    ensures facebook.cache.Valid()
    ensures LineEffect(facebook, twitter, url, old(StateOf(facebook, twitter)), r, StateOf(facebook, twitter))
    ensures r.Returned? ==> (r.value.Some? <==> !Classify(url).Skip?)
    ensures r.Returned? && r.value.Some? ==>
      r.value.value.url == RouteUrl(Classify(url)) && |r.value.value.posts| <= DEFAULT_POST_COUNT
    ensures r.Raised? ==> Classify(url).ToTwitter? && !twitter.client.cookiesLoad
    ensures twitter.client.cookiesLoad ==> r.Returned?
  {
    if StartsWith(url, X_PREFIX) || StartsWith(url, TWITTER_COM_PREFIX) {
      var username := LastPiece(url, '/');
      var result := twitter.GetUserPosts(username, DEFAULT_POST_COUNT);
      if result.Raised? {
        return Raised;
      }
      r := Returned(Some(result.value));
    } else if StartsWith(url, FACEBOOK_PREFIX) {
      var result := facebook.GetPagePosts(url, DEFAULT_POST_COUNT);
      r := Returned(Some(result));
    } else {
      r := Returned(None);
    }
  }

  /**
   * The loop of `receive_payload` over the URL lines. The ghost `steps`
   * records each line processed, in order, from the state the loop starts
   * in to the state it ends in. The j-th result is the scraper's answer for
   * the j-th recognised line. A failed Twitter session setup aborts the
   * whole batch at that line.
   */
  method FetchAll(facebook: FacebookScraper, twitter: TwitterScraper, urls: seq<string>)
    returns (r: Outcome<seq<SourceResult>>, ghost steps: seq<Step>)
    requires facebook.cache == twitter.cache && facebook.cache.Valid()
    modifies facebook, twitter, facebook.cache
    ensures facebook.cache.Valid()
    ensures Processed(facebook, twitter, urls, old(StateOf(facebook, twitter)), steps, StateOf(facebook, twitter))
    ensures r.Returned? ==> |steps| == |urls| && |r.value| == |Recognised(urls)|
    ensures r.Returned? ==> forall j | 0 <= j < |r.value| :: steps[Recognised(urls)[j]].result == Returned(Some(r.value[j]))
    ensures r.Raised? ==> steps != [] && steps[|steps| - 1].result.Raised?
    ensures r.Raised? ==> forall k | 0 <= k < |steps| - 1 :: steps[k].result.Returned?
    ensures r.Returned? ==> |r.value| == |Plan(urls)|
    ensures r.Returned? ==> forall j | 0 <= j < |r.value| ::
      r.value[j].url == RouteUrl(Plan(urls)[j]) && |r.value[j].posts| <= DEFAULT_POST_COUNT
    ensures r.Raised? ==> !twitter.client.cookiesLoad && exists url | url in urls :: Classify(url).ToTwitter?
    ensures twitter.client.cookiesLoad ==> r.Returned?
  {
    ghost var start := StateOf(facebook, twitter);
    var results: seq<SourceResult> := [];
    steps := [];
    for i := 0 to |urls|
      invariant facebook.cache.Valid()
      invariant |steps| == i
      invariant Processed(facebook, twitter, urls, start, steps, StateOf(facebook, twitter))
      invariant Collected(urls, steps, results)
      invariant forall k | 0 <= k < |steps| :: steps[k].result.Returned?
    {
      ghost var before := StateOf(facebook, twitter);
      var result := FetchLine(facebook, twitter, urls[i]);
      ghost var step := Step(urls[i], before, result, StateOf(facebook, twitter));
      ProcessedExtend(facebook, twitter, urls, start, steps, step);
      if result.Raised? {
        assert urls[i] in urls;
        return Raised, steps + [step];
      }
      CollectedExtend(urls, steps, results, step);
      steps := steps + [step];
      if result.value.Some? {
        results := results + [result.value.value];
      }
    }
    assert urls[..|urls|] == urls;
    CollectedFollowsPlan(urls, steps, results);
    r := Returned(results);
  }

  /**
   * `receive_payload`: the body's URL lines are fetched in order, giving one
   * result per recognised line, each the scraper's answer for that line. Only
   * a failed Twitter session setup escapes a scraper; it aborts the whole
   * batch.
   */
  method ReceivePayload(facebook: FacebookScraper, twitter: TwitterScraper, body: string)
    returns (r: Outcome<seq<SourceResult>>, ghost urls: seq<string>, ghost steps: seq<Step>)
    requires facebook.cache == twitter.cache && facebook.cache.Valid()
    modifies facebook, twitter, facebook.cache
    ensures urls == Lines(body)
    ensures facebook.cache.Valid()
    ensures Processed(facebook, twitter, urls, old(StateOf(facebook, twitter)), steps, StateOf(facebook, twitter))
    ensures r.Returned? ==> |steps| == |urls| && |r.value| == |Recognised(urls)|
    ensures r.Returned? ==> forall j | 0 <= j < |r.value| :: steps[Recognised(urls)[j]].result == Returned(Some(r.value[j]))
    ensures r.Raised? ==> steps != [] && steps[|steps| - 1].result.Raised?
    ensures r.Raised? ==> forall k | 0 <= k < |steps| - 1 :: steps[k].result.Returned?
    ensures r.Returned? ==> |r.value| == |Plan(urls)|
    ensures r.Returned? ==> forall j | 0 <= j < |r.value| ::
      r.value[j].url == RouteUrl(Plan(urls)[j]) && |r.value[j].posts| <= DEFAULT_POST_COUNT
    ensures r.Raised? ==> !twitter.client.cookiesLoad && exists url | url in urls :: Classify(url).ToTwitter?
    ensures twitter.client.cookiesLoad ==> r.Returned?
  {
    var lines := Lines(body);
    urls := lines;
    r, steps := FetchAll(facebook, twitter, lines);
  }

  /**
   * A body made of a Facebook line, a line with no recognised prefix and an X
   * profile line gives two results, the Facebook page first, each reporting
   * its own line's URL.
   */
  method MixedBatchPayload(facebook: FacebookScraper, twitter: TwitterScraper, path: string, other: string, name: string)
    returns (r: Outcome<seq<SourceResult>>)
    requires facebook.cache == twitter.cache && facebook.cache.Valid()
    requires Classify(other).Skip? && '/' !in name
    requires var lines := [FACEBOOK_PREFIX + path, other, X_PREFIX + name];
      forall j | 0 <= j < |lines| :: lines[j] != [] && Trimmed(lines[j]) && '\n' !in lines[j]
    modifies facebook, twitter, facebook.cache
    ensures r.Returned? ==>
      |r.value| == 2 && r.value[0].url == FACEBOOK_PREFIX + path && r.value[1].url == XProfileUrl(name)
    ensures twitter.client.cookiesLoad ==> r.Returned?
  {
    var lines := [FACEBOOK_PREFIX + path, other, X_PREFIX + name];
    LinesOfJoined(lines);
    MixedBatch(path, other, name);
    ghost var urls, steps;
    r, urls, steps := ReceivePayload(facebook, twitter, Join(lines, '\n'));
    assert urls == lines;
    if r.Returned? {
      var routes := Plan(lines);
      assert routes == [ToFacebook(FACEBOOK_PREFIX + path), ToTwitter(name)];
      assert r.value[0].url == RouteUrl(routes[0]) && r.value[1].url == RouteUrl(routes[1]);
    }
  }
}
