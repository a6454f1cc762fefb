/** A tracked feed and the registry of feeds. A feed remembers when it was
    last checked, the date of the newest post seen (the watermark) and the
    validators of its last download, and uses them to fetch only what is new.
    The HTTP exchange, the RSS and Atom parsers and the MD5 digest are oracle
    inputs; the current time is a parameter. */
module Feeds {
  import opened Wrappers
  import opened Text
  import opened Http
  import opened Config
  import opened Posts
  import opened Chronology
  import YouTube

  /** The validators kept from the last download of a feed. */
  datatype CacheMetadata = CacheMetadata(etag: Option<string>, lastModified: Option<string>,
                                         lastContentHash: Option<string>)

  const DefaultCacheMetadata: CacheMetadata := CacheMetadata(None, None, None)

  /** The mutable part of a feed. */
  datatype FeedState = FeedState(lastChecked: Option<int>, lastPostDate: Option<int>, cache: CacheMetadata)

  datatype Header = Header(name: string, value: string)

  /** What the parsers make of a downloaded body: an RSS channel if the RSS
      parser accepts it, else a feed if the general (Atom) parser accepts it,
      else nothing. */
  datatype ParsedBody = RssChannel(items: seq<RssItem>) | AtomFeed(entries: seq<FeedEntry>) | Unparsable

  /** Reading the body: an error, or its MD5 digest in hex and its parse. */
  datatype Body = BodyError(msg: string) | Body(hash: string, parsed: ParsedBody)

  /** The reply to a feed request: a transport error, or a status with the
      `ETag` and `Last-Modified` headers (present and readable as text) and
      the body. */
  datatype HttpReply = TransportError(msg: string)
                     | Reply(status: int, etag: Option<string>, lastModified: Option<string>, body: Body)

  /** Everything one fetch attempt observes: the clock reading that stamps
      the check, the feed server's reply, the YouTube Data API, and
      `itemNow(i)`, the clock reading the conversion of item `i` takes when
      the item has no usable date (each conversion reads the clock anew). */
  datatype AttemptInput = AttemptInput(now: int, rss: HttpReply, youtubeApi: YouTube.Api, itemNow: nat -> int)

  /** The outcome of an operation on a feed: its result and the new state. */
  datatype Step = Step(result: Result<seq<Post>>, state: FeedState)

  const UserAgent: string := "Populatrs RSS Reader 1.0"

  /** The headers of a feed request: the user agent, then `If-None-Match`
      with the stored entity tag and `If-Modified-Since` with the stored
      modification date when there are (sections 13.1.2 and 13.1.3 of
      RFC 9110). */
  function RequestHeaders(cache: CacheMetadata): (hs: seq<Header>)
    ensures |hs| == 1 + (if cache.etag.Some? then 1 else 0) + (if cache.lastModified.Some? then 1 else 0)
    ensures hs[0] == Header("User-Agent", UserAgent)
    ensures cache.etag.Some? ==> hs[1] == Header("If-None-Match", cache.etag.value)
    ensures cache.lastModified.Some? ==> hs[|hs| - 1] == Header("If-Modified-Since", cache.lastModified.value)
    ensures forall i | 0 <= i < |hs| && hs[i].name == "If-None-Match" :: cache.etag == Some(hs[i].value)
    ensures forall i | 0 <= i < |hs| && hs[i].name == "If-Modified-Since" :: cache.lastModified == Some(hs[i].value)
  {
    [Header("User-Agent", UserAgent)]
    + (if cache.etag.Some? then [Header("If-None-Match", cache.etag.value)] else [])
    + (if cache.lastModified.Some? then [Header("If-Modified-Since", cache.lastModified.value)] else [])
  }

  /** The posts made from an RSS channel's items, in item order (items that
      `from_rss_item` rejects are left out). */
  function RssCandidates(items: seq<RssItem>, feedId: string, itemNow: nat -> int): (ps: seq<Post>)
    ensures |ps| <= |items|
    ensures forall i | 0 <= i < |ps| :: ps[i].feedId == feedId && ps[i].guid != "" && ps[i].title != "" && ps[i].link != ""
  {
    if items == [] then []
    else
      var init := RssCandidates(items[..|items| - 1], feedId, itemNow);
      match FromRssItem(items[|items| - 1], feedId, itemNow(|items| - 1))
      case Some(p) => init + [p]
      case None => init
  }

  /** The posts made from a feed's entries, in entry order. */
  function AtomCandidates(entries: seq<FeedEntry>, feedId: string, itemNow: nat -> int): (ps: seq<Post>)
    ensures |ps| <= |entries|
    ensures forall i | 0 <= i < |ps| :: ps[i].feedId == feedId && ps[i].guid != "" && ps[i].title != "" && ps[i].link != ""
  {
    if entries == [] then []
    else
      var init := AtomCandidates(entries[..|entries| - 1], feedId, itemNow);
      match FromFeedItem(entries[|entries| - 1], feedId, itemNow(|entries| - 1))
      case Some(p) => init + [p]
      case None => init
  }

  /** The post an optional conversion contributes. */
  function Maybe(p: Option<Post>): seq<Post> {
    if p.Some? then [p.value] else []
  }

  lemma RssCandidatesSnoc(items: seq<RssItem>, i: nat, feedId: string, itemNow: nat -> int)
    requires i < |items|
    ensures RssCandidates(items[..i + 1], feedId, itemNow) == RssCandidates(items[..i], feedId, itemNow) + Maybe(FromRssItem(items[i], feedId, itemNow(i)))
  {
    assert items[..i + 1][..i] == items[..i];
  }

  lemma AtomCandidatesSnoc(entries: seq<FeedEntry>, i: nat, feedId: string, itemNow: nat -> int)
    requires i < |entries|
    ensures AtomCandidates(entries[..i + 1], feedId, itemNow) == AtomCandidates(entries[..i], feedId, itemNow) + Maybe(FromFeedItem(entries[i], feedId, itemNow(i)))
  {
    assert entries[..i + 1][..i] == entries[..i];
  }

  /** When every item converts, the candidates are the conversions in item
      order, item `i` dated by its own clock reading `itemNow(i)` when it has
      no usable date. */
  lemma {:induction false} RssCandidatesAllValid(items: seq<RssItem>, feedId: string, itemNow: nat -> int)
    requires forall i | 0 <= i < |items| :: FromRssItem(items[i], feedId, itemNow(i)).Some?
    ensures |RssCandidates(items, feedId, itemNow)| == |items|
    ensures forall i | 0 <= i < |items| ::
      RssCandidates(items, feedId, itemNow)[i] == FromRssItem(items[i], feedId, itemNow(i)).value
  {
    if items != [] {
      var init := items[..|items| - 1];
      assert forall i | 0 <= i < |init| :: init[i] == items[i];
      RssCandidatesAllValid(init, feedId, itemNow);
    }
  }

  /** The same for Atom entries. */
  lemma {:induction false} AtomCandidatesAllValid(entries: seq<FeedEntry>, feedId: string, itemNow: nat -> int)
    requires forall i | 0 <= i < |entries| :: FromFeedItem(entries[i], feedId, itemNow(i)).Some?
    ensures |AtomCandidates(entries, feedId, itemNow)| == |entries|
    ensures forall i | 0 <= i < |entries| ::
      AtomCandidates(entries, feedId, itemNow)[i] == FromFeedItem(entries[i], feedId, itemNow(i)).value
  {
    if entries != [] {
      var init := entries[..|entries| - 1];
      assert forall i | 0 <= i < |init| :: init[i] == entries[i];
      AtomCandidatesAllValid(init, feedId, itemNow);
    }
  }

  /** Whether a post is newer than the watermark (any post is, without one). */
  predicate IsNewer(p: Post, watermark: Option<int>) {
    watermark.None? || p.published > watermark.value
  }

  /** The posts newer than the watermark, in order. */
  function Newer(posts: seq<Post>, watermark: Option<int>): seq<Post> {
    if posts == [] then []
    else
      var init := Newer(posts[..|posts| - 1], watermark);
      var last := posts[|posts| - 1];
      if IsNewer(last, watermark) then init + [last] else init
  }

  /** `Newer` keeps exactly the posts newer than the watermark. */
  lemma {:induction false} NewerProps(posts: seq<Post>, watermark: Option<int>)
    ensures var r := Newer(posts, watermark);
      && |r| <= |posts|
      && (forall i | 0 <= i < |r| :: IsNewer(r[i], watermark) && r[i] in posts)
      && (forall q | q in posts && IsNewer(q, watermark) :: q in r)
  {
    if posts != [] {
      NewerProps(posts[..|posts| - 1], watermark);
      assert posts == posts[..|posts| - 1] + [posts[|posts| - 1]];
    }
  }

  /** The date of the newest post, if any: the first post strictly newer than
      all before it wins, as in the parsers' loops. */
  function Latest(posts: seq<Post>): Option<int> {
    if posts == [] then None
    else
      var init := Latest(posts[..|posts| - 1]);
      var last := posts[|posts| - 1];
      if init.None? || last.published > init.value then Some(last.published) else init
  }

  /** `Latest` is the maximum date, and there is one exactly when there are
      posts. */
  lemma {:induction false} LatestProps(posts: seq<Post>)
    ensures var r := Latest(posts);
      && (r.None? <==> posts == [])
      && (r.Some? ==> (exists i | 0 <= i < |posts| :: posts[i].published == r.value)
                      && forall i | 0 <= i < |posts| :: posts[i].published <= r.value)
  {
    if posts != [] {
      var init := posts[..|posts| - 1];
      LatestProps(init);
      assert forall i | 0 <= i < |posts| - 1 :: init[i] == posts[i];
      var r := Latest(posts);
      if Latest(init).Some? && r == Latest(init) {
        var k :| 0 <= k < |init| && init[k].published == r.value;
        assert posts[k].published == r.value;
      }
    }
  }

  lemma NewerSnoc(posts: seq<Post>, extra: seq<Post>, watermark: Option<int>)
    requires |extra| <= 1
    ensures Newer(posts + extra, watermark)
            == Newer(posts, watermark) + (if extra != [] && IsNewer(extra[0], watermark) then extra else [])
  {
    if extra != [] {
      assert (posts + extra)[..|posts + extra| - 1] == posts;
    } else {
      assert posts + extra == posts;
    }
  }

  lemma LatestSnoc(posts: seq<Post>, extra: seq<Post>)
    requires |extra| <= 1
    ensures Latest(posts + extra)
            == if extra != [] && (Latest(posts).None? || extra[0].published > Latest(posts).value)
               then Some(extra[0].published) else Latest(posts)
  {
    if extra != [] {
      assert (posts + extra)[..|posts + extra| - 1] == posts;
    } else {
      assert posts + extra == posts;
    }
  }

  /** The posts a parser returns: the 2 newest of those newer than the
      watermark, newest first. */
  function SelectNew(posts: seq<Post>, watermark: Option<int>): seq<Post> {
    Take(SortBy(NewestFirst, Newer(posts, watermark)), 2)
  }

  /** The watermark after parsing: the newest date among all valid posts,
      filtered out or not; unchanged when there is none. */
  function NextWatermark(posts: seq<Post>, watermark: Option<int>): Option<int> {
    if Latest(posts).Some? then Latest(posts) else watermark
  }

  /** The selection is a newest-first prefix of the posts newer than the
      watermark. */
  lemma SelectNewPrefix(posts: seq<Post>, watermark: Option<int>)
    ensures var newer := Newer(posts, watermark);
      var r := SelectNew(posts, watermark);
      && |r| == (if |newer| < 2 then |newer| else 2)
      && Sorted(NewestFirst, r)
      && multiset(r) <= multiset(newer)
  {
    var newer := Newer(posts, watermark);
    var sorted := SortBy(NewestFirst, newer);
    var r := Take(sorted, 2);
    TakeNewest(newer, 2);
    forall i, j | 0 <= i < j < |r| ensures Precedes(NewestFirst, r[i], r[j]) {
      assert r[i] == sorted[i] && r[j] == sorted[j];
    }
  }

  /** Every selected post is one of the posts and newer than the watermark. */
  lemma SelectNewMembers(posts: seq<Post>, watermark: Option<int>)
    ensures var r := SelectNew(posts, watermark);
      forall i | 0 <= i < |r| :: r[i] in posts && IsNewer(r[i], watermark)
  {
    var newer := Newer(posts, watermark);
    var r := SelectNew(posts, watermark);
    SelectNewPrefix(posts, watermark);
    NewerProps(posts, watermark);
    forall i | 0 <= i < |r| ensures r[i] in posts && IsNewer(r[i], watermark) {
      assert r[i] in multiset(r);
      assert r[i] in multiset(newer);
      var k :| 0 <= k < |newer| && newer[k] == r[i];
    }
  }

  /** No post newer than the watermark is left out in favour of an older one. */
  lemma SelectNewNewest(posts: seq<Post>, watermark: Option<int>)
    ensures var r := SelectNew(posts, watermark);
      forall q | q in posts && IsNewer(q, watermark) && q !in r ::
        forall i | 0 <= i < |r| :: q.published <= r[i].published
  {
    var newer := Newer(posts, watermark);
    TakeNewest(newer, 2);
    NewerProps(posts, watermark);
  }

  /** At most 2 posts, all newer than the watermark, newest first, and no
      newer post is left out in favour of an older one. */
  lemma SelectNewProps(posts: seq<Post>, watermark: Option<int>)
    ensures var r := SelectNew(posts, watermark);
      && |r| <= 2
      && |r| == (if |Newer(posts, watermark)| < 2 then |Newer(posts, watermark)| else 2)
      && Sorted(NewestFirst, r)
      && (forall i | 0 <= i < |r| :: r[i] in posts && IsNewer(r[i], watermark))
      && (forall q | q in posts && IsNewer(q, watermark) && q !in r ::
            forall i | 0 <= i < |r| :: q.published <= r[i].published)
  {
    SelectNewPrefix(posts, watermark);
    SelectNewMembers(posts, watermark);
    SelectNewNewest(posts, watermark);
  }

  /** The watermark is the newest valid date after parsing, so it moves
      backwards when every valid post is older than it. */
  lemma WatermarkCanMoveBack(p: Post)
    requires p.published == 5
    ensures NextWatermark([p], Some(10)) == Some(5)
    ensures SelectNew([p], Some(10)) == []
  {
    assert [p][..0] == [];
    assert Latest([p]) == Some(5);
    assert Newer([p], Some(10)) == [];
  }

  /** The posts parsed from a body and the new watermark. */
  function ParseStep(s: FeedState, feedId: string, parsed: ParsedBody, itemNow: nat -> int): Step {
    match parsed
    case RssChannel(items) =>
      var candidates := RssCandidates(items, feedId, itemNow);
      Step(Ok(SelectNew(candidates, s.lastPostDate)), s.(lastPostDate := NextWatermark(candidates, s.lastPostDate)))
    case AtomFeed(entries) =>
      var candidates := AtomCandidates(entries, feedId, itemNow);
      Step(Ok(SelectNew(candidates, s.lastPostDate)), s.(lastPostDate := NextWatermark(candidates, s.lastPostDate)))
    case Unparsable => Step(Err("Unable to parse feed"), s)
  }

  /** `fetch_rss_posts` as a function of the feed's state and the reply: a
      transport error or a non-success status other than 304 changes
      nothing; a 304 only records the check; a success takes the validators
      from the reply's headers, and then a body whose digest equals the
      stored one only records the check, while a new body stores its digest,
      records the check and is parsed. The check is recorded at `now`; item
      `i` of the body, when it has no usable date, is dated `itemNow(i)`. */
  function RssFetch(s: FeedState, feedId: string, url: string, reply: HttpReply, now: int, itemNow: nat -> int): (step: Step)
    ensures reply.TransportError? ==> step == Step(Err(reply.msg), s)
    ensures reply.Reply? && reply.status == NotModified ==>
      step == Step(Ok([]), s.(lastChecked := Some(now)))
    ensures reply.Reply? && reply.status != NotModified && !IsSuccess(reply.status) ==>
      step.result.Err? && step.state == s
    ensures reply.Reply? && IsSuccess(reply.status) ==>
      && step.state.cache.etag == (if reply.etag.Some? then reply.etag else s.cache.etag)
      && step.state.cache.lastModified == (if reply.lastModified.Some? then reply.lastModified else s.cache.lastModified)
    ensures reply.Reply? && IsSuccess(reply.status) && reply.body.BodyError? ==>
      && step.result == Err(reply.body.msg)
      && step.state.lastChecked == s.lastChecked && step.state.lastPostDate == s.lastPostDate
      && step.state.cache.lastContentHash == s.cache.lastContentHash
    ensures reply.Reply? && IsSuccess(reply.status) && reply.body.Body? && s.cache.lastContentHash == Some(reply.body.hash) ==>
      && step.result == Ok([])
      && step.state.lastChecked == Some(now) && step.state.lastPostDate == s.lastPostDate
      && step.state.cache.lastContentHash == s.cache.lastContentHash
    ensures reply.Reply? && IsSuccess(reply.status) && reply.body.Body? && s.cache.lastContentHash != Some(reply.body.hash) ==>
      && step.state.lastChecked == Some(now)
      && step.state.cache.lastContentHash == Some(reply.body.hash)
      && step == ParseStep(step.state.(lastPostDate := s.lastPostDate), feedId, reply.body.parsed, itemNow)
  {
    match reply
    case TransportError(msg) => Step(Err(msg), s)
    case Reply(status, etag, lastModified, body) =>
      if status == NotModified then Step(Ok([]), s.(lastChecked := Some(now)))
      else if !IsSuccess(status) then Step(Err("Failed to fetch feed " + url + ": HTTP " + StatusText(status)), s)
      else
        var validated := s.cache.(etag := if etag.Some? then etag else s.cache.etag,
                                  lastModified := if lastModified.Some? then lastModified else s.cache.lastModified);
        match body
        case BodyError(msg) => Step(Err(msg), s.(cache := validated))
        case Body(hash, parsed) =>
          if s.cache.lastContentHash == Some(hash) then
            Step(Ok([]), s.(cache := validated, lastChecked := Some(now)))
          else
            ParseStep(s.(cache := validated.(lastContentHash := Some(hash)), lastChecked := Some(now)),
                      feedId, parsed, itemNow)
  }

  /** `process_youtube_posts`: the 2 newest videos, oldest first. */
  function YoutubeSelection(posts: seq<Post>): seq<Post> {
    SortBy(OldestFirst, Take(SortBy(NewestFirst, posts), 2))
  }

  /** `process_youtube_posts` on the feed state: an empty list changes
      nothing; otherwise the watermark becomes the newest date. There is no
      watermark filtering. */
  function YoutubeStep(s: FeedState, posts: seq<Post>): Step {
    if posts == [] then Step(Ok([]), s)
    else Step(Ok(YoutubeSelection(posts)), s.(lastPostDate := Some(SortBy(NewestFirst, posts)[0].published)))
  }

  /** The videos selected are the 2 newest (fewer if there are fewer), in
      ascending date order. */
  lemma YoutubeSelectionKeepsNewest(posts: seq<Post>)
    ensures var r := YoutubeSelection(posts);
      && |r| == (if |posts| < 2 then |posts| else 2)
      && Sorted(OldestFirst, r)
      && multiset(r) <= multiset(posts)
      && (forall q | q in posts && q !in r :: forall i | 0 <= i < |r| :: q.published <= r[i].published)
  {
    var top := Take(SortBy(NewestFirst, posts), 2);
    var r := SortBy(OldestFirst, top);
    TakeNewest(posts, 2);
    forall q | q in posts && q !in r ensures forall i | 0 <= i < |r| :: q.published <= r[i].published {
      SameMembers(r, top, q);
      forall i | 0 <= i < |r| ensures q.published <= r[i].published {
        SameMembers(r, top, r[i]);
      }
    }
  }

  /** Sequences with the same multiset have the same members. */
  lemma SameMembers(a: seq<Post>, b: seq<Post>, x: Post)
    requires multiset(a) == multiset(b)
    ensures x in a <==> x in b
  {
    assert x in a <==> x in multiset(a);
    assert x in b <==> x in multiset(b);
  }

  /** The date the YouTube watermark takes is that of a video, and no video
      is newer. */
  lemma YoutubeWatermarkIsNewest(posts: seq<Post>)
    requires posts != []
    ensures var newest := SortBy(NewestFirst, posts)[0].published;
      (exists i | 0 <= i < |posts| :: posts[i].published == newest)
      && forall i | 0 <= i < |posts| :: posts[i].published <= newest
  {
    NewestFirstHead(posts);
    var sorted := SortBy(NewestFirst, posts);
    var k :| 0 <= k < |posts| && posts[k] == sorted[0];
    forall i | 0 <= i < |posts| ensures posts[i].published <= sorted[0].published {
      assert posts[i] in posts;
    }
  }

  /** YouTube: the configured maximum, else the global default, else 10. */
  function EffectiveMaxResults(own: Option<U64>, global: YouTubeGlobalConfig): (n: U64)
    ensures own.Some? ==> n == own.value
    ensures own.None? && global.defaultMaxResults.Some? ==> n == global.defaultMaxResults.value
    ensures own.None? && global.defaultMaxResults.None? ==> n == 10
  {
    if own.Some? then own.value else global.defaultMaxResults.GetOr(10)
  }

  /** `fetch_posts_attempt` as a function: the feed type picks the reader,
      and its configuration must be of the same kind. */
  function AttemptStep(s: FeedState, config: FeedConfig, youtube: Option<YouTubeGlobalConfig>,
                       input: AttemptInput): (step: Step)
    ensures config.feedType != "Rss" && config.feedType != "Youtube" ==>
      step == Step(Err("Unknown feed type: " + config.feedType), s)
    ensures config.feedType == "Rss" && !config.config.Rss? ==>
      step == Step(Err("Invalid RSS feed configuration"), s)
    ensures config.feedType == "Youtube" && !config.config.Youtube? ==>
      step == Step(Err("Invalid YouTube feed configuration"), s)
    ensures config.feedType == "Youtube" && config.config.Youtube? && youtube.None? ==>
      step == Step(Err("YouTube global configuration not found"), s)
    ensures config.feedType == "Youtube" ==> step.state.lastChecked == s.lastChecked && step.state.cache == s.cache
  {
    if config.feedType == "Rss" then
      if config.config.Rss? then RssFetch(s, config.id, config.config.url, input.rss, input.now, input.itemNow)
      else Step(Err("Invalid RSS feed configuration"), s)
    else if config.feedType == "Youtube" then
      if !config.config.Youtube? then Step(Err("Invalid YouTube feed configuration"), s)
      else if youtube.None? then Step(Err("YouTube global configuration not found"), s)
      else
        var c := config.config;
        var yc := YouTube.YouTubeConfig(youtube.value.apiKey, c.channelId, c.playlistId, c.username,
                                        Some(EffectiveMaxResults(c.maxResults, youtube.value)));
        match YouTube.ChannelVideosResult(yc, input.youtubeApi)
        case Err(msg) => Step(Err(msg), s)
        case Ok(posts) => YoutubeStep(s, posts)
    else Step(Err("Unknown feed type: " + config.feedType), s)
  }

  function MaxRetries(config: FeedConfig): U32 { config.maxRetries.GetOr(3) }

  function BaseDelay(config: FeedConfig): U64 { config.retryDelaySeconds.GetOr(2) }

  /** The error every attempt returns, whatever it observes, when the feed's
      type or configuration cannot be fetched; `None` when it can. */
  function ConfigError(config: FeedConfig, youtube: Option<YouTubeGlobalConfig>): (e: Option<string>)
    ensures e.Some? ==> forall s, input :: AttemptStep(s, config, youtube, input) == Step(Err(e.value), s)
    ensures e.None? <==> (config.feedType == "Rss" && config.config.Rss?)
                         || (config.feedType == "Youtube" && config.config.Youtube? && youtube.Some?)
  {
    if config.feedType == "Rss" then
      if config.config.Rss? then None else Some("Invalid RSS feed configuration")
    else if config.feedType == "Youtube" then
      if !config.config.Youtube? then Some("Invalid YouTube feed configuration")
      else if youtube.None? then Some("YouTube global configuration not found")
      else None
    else Some("Unknown feed type: " + config.feedType)
  }

  /** `fetch_posts` as a function, from attempt `k` on: the run starts with
      attempt `k` (see `RunAttempt`). The recursion is split in two so that
      one unfolding of a run leaves its first attempt folded. */
  function FetchRun(s: FeedState, config: FeedConfig, youtube: Option<YouTubeGlobalConfig>,
                    attempts: seq<AttemptInput>, k: nat): Step
    requires k <= MaxRetries(config) < |attempts|
    decreases MaxRetries(config) - k, 1
  {
    RunAttempt(s, config, youtube, attempts, k)
  }

  /** Attempt `k` of a run: stop at a success or after attempt
      `max_retries`, else go on with the next attempt from the state this one
      left. */
  function RunAttempt(s: FeedState, config: FeedConfig, youtube: Option<YouTubeGlobalConfig>,
                      attempts: seq<AttemptInput>, k: nat): Step
    requires k <= MaxRetries(config) < |attempts|
    decreases MaxRetries(config) - k, 0
  {
    var step := AttemptStep(s, config, youtube, attempts[k]);
    if step.result.Ok? || k == MaxRetries(config) then step
    else FetchRun(step.state, config, youtube, attempts, k + 1)
  }

  /** The result of every attempt of a run from attempt `k` on, in order. */
  function FetchOutcomes(s: FeedState, config: FeedConfig, youtube: Option<YouTubeGlobalConfig>,
                         attempts: seq<AttemptInput>, k: nat): seq<Result<seq<Post>>>
    requires k <= MaxRetries(config) < |attempts|
    decreases MaxRetries(config) - k
  {
    var step := AttemptStep(s, config, youtube, attempts[k]);
    if step.result.Ok? || k == MaxRetries(config) then [step.result]
    else [step.result] + FetchOutcomes(step.state, config, youtube, attempts, k + 1)
  }

  /** `outcomes[k]` and `states[k + 1]` are what attempt `k`, observing
      `attempts[k]`, makes of `states[k]`. */
  ghost predicate IsTrace(config: FeedConfig, youtube: Option<YouTubeGlobalConfig>, attempts: seq<AttemptInput>,
                          states: seq<FeedState>, outcomes: seq<Result<seq<Post>>>)
  {
    && |states| == |outcomes| + 1 && |outcomes| <= |attempts|
    && forall k {:trigger AttemptStep(states[k], config, youtube, attempts[k])} | 0 <= k < |outcomes| ::
         Step(outcomes[k], states[k + 1]) == AttemptStep(states[k], config, youtube, attempts[k])
  }

  /** One more attempt extends a trace. */
  lemma IsTraceSnoc(config: FeedConfig, youtube: Option<YouTubeGlobalConfig>, attempts: seq<AttemptInput>,
                    states: seq<FeedState>, outcomes: seq<Result<seq<Post>>>, step: Step)
    requires IsTrace(config, youtube, attempts, states, outcomes) && |outcomes| < |attempts|
    requires step == AttemptStep(states[|outcomes|], config, youtube, attempts[|outcomes|])
    ensures IsTrace(config, youtube, attempts, states + [step.state], outcomes + [step.result])
  {
    var states', outcomes' := states + [step.state], outcomes + [step.result];
    forall k | 0 <= k < |outcomes'|
      ensures Step(outcomes'[k], states'[k + 1]) == AttemptStep(states'[k], config, youtube, attempts[k])
    {
      if k < |outcomes| {
        assert states'[k] == states[k] && states'[k + 1] == states[k + 1];
        assert Step(outcomes[k], states[k + 1]) == AttemptStep(states[k], config, youtube, attempts[k]);
      }
    }
  }

  /** A complete trace of `fetch_posts`: every attempt but the last failed,
      and the last one succeeded or was attempt `max_retries`. */
  ghost predicate IsRun(config: FeedConfig, youtube: Option<YouTubeGlobalConfig>, attempts: seq<AttemptInput>,
                        states: seq<FeedState>, outcomes: seq<Result<seq<Post>>>)
  {
    && IsTrace(config, youtube, attempts, states, outcomes)
    && 1 <= |outcomes| <= MaxRetries(config) + 1
    && (forall k | 0 <= k < |outcomes| - 1 :: outcomes[k].Err?)
    && (outcomes[|outcomes| - 1].Ok? || |outcomes| == MaxRetries(config) + 1)
  }

  /** A complete trace is the run `FetchRun` describes: its last outcome and
      state are the run's, and its outcomes are `FetchOutcomes`. */
  lemma IsRunIsFetchRun(config: FeedConfig, youtube: Option<YouTubeGlobalConfig>, attempts: seq<AttemptInput>,
                        states: seq<FeedState>, outcomes: seq<Result<seq<Post>>>)
    requires MaxRetries(config) < |attempts|
    requires IsRun(config, youtube, attempts, states, outcomes)
    ensures Step(outcomes[|outcomes| - 1], states[|outcomes|]) == FetchRun(states[0], config, youtube, attempts, 0)
    ensures outcomes == FetchOutcomes(states[0], config, youtube, attempts, 0)
  {
    RunSuffix(config, youtube, attempts, states, outcomes, 0);
    assert outcomes[0..] == outcomes;
  }

  lemma {:induction false} RunSuffix(config: FeedConfig, youtube: Option<YouTubeGlobalConfig>, attempts: seq<AttemptInput>,
                                     states: seq<FeedState>, outcomes: seq<Result<seq<Post>>>, j: nat)
    requires MaxRetries(config) < |attempts|
    requires IsRun(config, youtube, attempts, states, outcomes)
    requires j < |outcomes|
    ensures Step(outcomes[|outcomes| - 1], states[|outcomes|]) == FetchRun(states[j], config, youtube, attempts, j)
    ensures outcomes[j..] == FetchOutcomes(states[j], config, youtube, attempts, j)
    decreases |outcomes| - j
  {
    var step := AttemptStep(states[j], config, youtube, attempts[j]);
    assert step == Step(outcomes[j], states[j + 1]);
    if j < |outcomes| - 1 {
      RunSuffix(config, youtube, attempts, states, outcomes, j + 1);
      FetchRunNext(states[j], config, youtube, attempts, j, step);
      assert outcomes[j..] == [outcomes[j]] + outcomes[j + 1..];
    } else {
      FetchRunStops(states[j], config, youtube, attempts, j, step);
    }
  }

  /** After a failed attempt that is not the last, the run goes on from the
      state that attempt left. */
  lemma FetchRunNext(s: FeedState, config: FeedConfig, youtube: Option<YouTubeGlobalConfig>,
                     attempts: seq<AttemptInput>, k: nat, step: Step)
    requires k < MaxRetries(config) < |attempts|
    requires step == AttemptStep(s, config, youtube, attempts[k]) && step.result.Err?
    ensures FetchRun(s, config, youtube, attempts, k) == FetchRun(step.state, config, youtube, attempts, k + 1)
    ensures FetchOutcomes(s, config, youtube, attempts, k) == [step.result] + FetchOutcomes(step.state, config, youtube, attempts, k + 1)
  {
  }

  /** A successful attempt, or the last one, ends the run. */
  lemma FetchRunStops(s: FeedState, config: FeedConfig, youtube: Option<YouTubeGlobalConfig>,
                      attempts: seq<AttemptInput>, k: nat, step: Step)
    requires k <= MaxRetries(config) < |attempts|
    requires step == AttemptStep(s, config, youtube, attempts[k])
    requires step.result.Ok? || k == MaxRetries(config)
    ensures FetchRun(s, config, youtube, attempts, k) == step
    ensures FetchOutcomes(s, config, youtube, attempts, k) == [step.result]
  {
  }

  /** A run from attempt `k` makes at most `max_retries + 1 - k` attempts; all
      but the last fail, the last one's result is the run's, and a failed run
      has made every attempt. */
  lemma {:induction false} FetchOutcomesShape(s: FeedState, config: FeedConfig, youtube: Option<YouTubeGlobalConfig>,
                                              attempts: seq<AttemptInput>, k: nat)
    requires k <= MaxRetries(config) < |attempts|
    ensures var os, run := FetchOutcomes(s, config, youtube, attempts, k), FetchRun(s, config, youtube, attempts, k);
      && 1 <= |os| <= MaxRetries(config) + 1 - k
      && os[|os| - 1] == run.result
      && (forall j | 0 <= j < |os| - 1 :: os[j].Err?)
      && (run.result.Err? ==> |os| == MaxRetries(config) + 1 - k)
    decreases MaxRetries(config) - k
  {
    var step := AttemptStep(s, config, youtube, attempts[k]);
    if step.result.Err? && k < MaxRetries(config) {
      FetchOutcomesShape(step.state, config, youtube, attempts, k + 1);
      var rest := FetchOutcomes(step.state, config, youtube, attempts, k + 1);
      assert FetchOutcomes(s, config, youtube, attempts, k) == [step.result] + rest;
      assert forall j | 1 <= j < 1 + |rest| :: ([step.result] + rest)[j] == rest[j - 1];
    }
  }

  /** A run succeeds exactly when one of its attempts does: an error comes
      back only after attempt `max_retries` has failed too, and then it is
      that attempt's error. */
  lemma {:induction false} FetchRunEndsAtLast(s: FeedState, config: FeedConfig, youtube: Option<YouTubeGlobalConfig>,
                                              attempts: seq<AttemptInput>, k: nat)
    requires k <= MaxRetries(config) < |attempts|
    ensures var run := FetchRun(s, config, youtube, attempts, k);
      run.result.Err? ==>
        exists s' :: run == AttemptStep(s', config, youtube, attempts[MaxRetries(config)])
    decreases MaxRetries(config) - k
  {
    var step := AttemptStep(s, config, youtube, attempts[k]);
    if step.result.Err? && k < MaxRetries(config) {
      FetchRunEndsAtLast(step.state, config, youtube, attempts, k + 1);
    }
  }

  /** A configuration error (an unknown type, a mismatched configuration or
      a missing YouTube configuration) fails every attempt alike: the run
      returns that error and leaves the feed as it was. */
  lemma {:induction false} FetchRunConfigError(s: FeedState, config: FeedConfig, youtube: Option<YouTubeGlobalConfig>,
                                               attempts: seq<AttemptInput>, k: nat)
    requires k <= MaxRetries(config) < |attempts|
    requires ConfigError(config, youtube).Some?
    ensures FetchRun(s, config, youtube, attempts, k) == Step(Err(ConfigError(config, youtube).value), s)
    decreases MaxRetries(config) - k
  {
    if k < MaxRetries(config) {
      FetchRunConfigError(s, config, youtube, attempts, k + 1);
    }
  }

  /** Fetching a YouTube feed, however many attempts it takes, never touches
      its check time or its validators. */
  lemma {:induction false} FetchRunYoutubeKeepsCache(s: FeedState, config: FeedConfig, youtube: Option<YouTubeGlobalConfig>,
                                                     attempts: seq<AttemptInput>, k: nat)
    requires k <= MaxRetries(config) < |attempts|
    requires config.feedType == "Youtube"
    ensures var run := FetchRun(s, config, youtube, attempts, k);
      run.state.lastChecked == s.lastChecked && run.state.cache == s.cache
    decreases MaxRetries(config) - k
  {
    var step := AttemptStep(s, config, youtube, attempts[k]);
    if step.result.Err? && k < MaxRetries(config) {
      FetchRunYoutubeKeepsCache(step.state, config, youtube, attempts, k + 1);
    }
  }

  function Pow2(k: nat): (p: nat)
    ensures p >= 1
  {
    if k == 0 then 1 else 2 * Pow2(k - 1)
  }

  /** The waits between `n + 1` failed attempts: `base * 2^k` after attempt `k`. */
  function Delays(base: nat, n: nat): seq<nat> {
    if n == 0 then [] else Delays(base, n - 1) + [base * Pow2(n - 1)]
  }

  /** There is one wait per failed attempt, and the wait after attempt `k`
      is `base * 2^k`. */
  lemma {:induction false} DelaysAt(base: nat, n: nat)
    ensures |Delays(base, n)| == n
    ensures forall k | 0 <= k < n :: Delays(base, n)[k] == base * Pow2(k)
  {
    if n > 0 {
      DelaysAt(base, n - 1);
    }
  }

  /** The sum of the first `n` backoff delays. */
  function TotalDelay(base: nat, n: nat): nat {
    if n == 0 then 0 else TotalDelay(base, n - 1) + base * Pow2(n - 1)
  }

  /** Doubling delays add up to `base * (2^n - 1)`: a feed that fails every
      attempt waits `base * (2^max_retries - 1)` seconds in all. */
  lemma {:induction false} TotalDelayClosedForm(base: nat, n: nat)
    ensures TotalDelay(base, n) == base * (Pow2(n) - 1)
  {
    if n > 0 {
      TotalDelayClosedForm(base, n - 1);
      var p := Pow2(n - 1);
      assert Pow2(n) == 2 * p;
      assert base * (p - 1) + base * p == base * (2 * p - 1);
    }
  }

  /** `should_check` on a feed's configuration and state. */
  function Due(config: FeedConfig, s: FeedState, now: int, defaultIntervalMinutes: U64): (due: bool)
    ensures !config.enabled ==> !due
    ensures config.enabled && s.lastChecked.None? ==> due
    ensures config.enabled && s.lastChecked.Some? ==>
      (due <==> WholeMinutes(now - s.lastChecked.value) >= AsI64(config.checkIntervalMinutes.GetOr(defaultIntervalMinutes)))
  {
    if !config.enabled then false
    else
      var interval := config.checkIntervalMinutes.GetOr(defaultIntervalMinutes);
      match s.lastChecked
      case None => true
      case Some(t) => WholeMinutes(now - t) >= AsI64(interval)
  }

  /** One converted entry in the parsers' loop: a valid post newer than the
      watermark is kept, and the running maximum date takes it in. */
  method Absorb(converted: Option<Post>, watermark: Option<int>, kept: seq<Post>, latest: Option<int>,
                ghost candidates: seq<Post>)
    returns (kept': seq<Post>, latest': Option<int>)
    requires kept == Newer(candidates, watermark) && latest == Latest(candidates)
    ensures kept' == Newer(candidates + Maybe(converted), watermark)
    ensures latest' == Latest(candidates + Maybe(converted))
  {
    NewerSnoc(candidates, Maybe(converted), watermark);
    LatestSnoc(candidates, Maybe(converted));
    kept', latest' := kept, latest;
    if converted.Some? {
      var post := converted.value;
      if latest.None? || post.published > latest.value {
        latest' := Some(post.published);
      }
      if watermark.None? || post.published > watermark.value {
        kept' := kept + [post];
      }
    }
  }

  /** The loop over an RSS channel's items: every valid post newer than the watermark
      is kept in order, and the newest date among the valid posts is found. */
  method CollectRss(items: seq<RssItem>, feedId: string, itemNow: nat -> int, watermark: Option<int>)
    returns (kept: seq<Post>, latest: Option<int>)
    ensures kept == Newer(RssCandidates(items, feedId, itemNow), watermark)
    ensures latest == Latest(RssCandidates(items, feedId, itemNow))
  {
    kept, latest := [], None;
    for i := 0 to |items|
      invariant kept == Newer(RssCandidates(items[..i], feedId, itemNow), watermark)
      invariant latest == Latest(RssCandidates(items[..i], feedId, itemNow))
    {
      var converted := FromRssItem(items[i], feedId, itemNow(i));
      RssCandidatesSnoc(items, i, feedId, itemNow);
      kept, latest := Absorb(converted, watermark, kept, latest, RssCandidates(items[..i], feedId, itemNow));
    }
    assert items[..|items|] == items;
  }

  /** The loop over an Atom feed's entries: every valid post newer than the watermark
      is kept in order, and the newest date among the valid posts is found. */
  method CollectAtom(entries: seq<FeedEntry>, feedId: string, itemNow: nat -> int, watermark: Option<int>)
    returns (kept: seq<Post>, latest: Option<int>)
    ensures kept == Newer(AtomCandidates(entries, feedId, itemNow), watermark)
    ensures latest == Latest(AtomCandidates(entries, feedId, itemNow))
  {
    kept, latest := [], None;
    for i := 0 to |entries|
      invariant kept == Newer(AtomCandidates(entries[..i], feedId, itemNow), watermark)
      invariant latest == Latest(AtomCandidates(entries[..i], feedId, itemNow))
    {
      var converted := FromFeedItem(entries[i], feedId, itemNow(i));
      AtomCandidatesSnoc(entries, i, feedId, itemNow);
      kept, latest := Absorb(converted, watermark, kept, latest, AtomCandidates(entries[..i], feedId, itemNow));
    }
    assert entries[..|entries|] == entries;
  }

  /** A feed being tracked. */
  class Feed {
    const config: FeedConfig
    const youtubeConfig: Option<YouTubeGlobalConfig>
    var lastChecked: Option<int>
    var lastPostDate: Option<int>
    var cacheMetadata: CacheMetadata

    /** `Feed::new`: nothing checked, no watermark, no validators. */
    constructor (config: FeedConfig, youtubeConfig: Option<YouTubeGlobalConfig>)
      ensures this.config == config && this.youtubeConfig == youtubeConfig
      ensures State() == FeedState(None, None, DefaultCacheMetadata)
    {
      this.config := config;
      this.youtubeConfig := youtubeConfig;
      lastChecked := None;
      lastPostDate := None;
      cacheMetadata := DefaultCacheMetadata;
    }

    /** `Feed::new_with_cache`: as `new`, with stored validators. */
    constructor WithCache(config: FeedConfig, cacheMetadata: CacheMetadata, youtubeConfig: Option<YouTubeGlobalConfig>)
      ensures this.config == config && this.youtubeConfig == youtubeConfig
      ensures State() == FeedState(None, None, cacheMetadata)
    {
      this.config := config;
      this.youtubeConfig := youtubeConfig;
      lastChecked := None;
      lastPostDate := None;
      this.cacheMetadata := cacheMetadata;
    }

    function State(): FeedState
      reads this
    {
      FeedState(lastChecked, lastPostDate, cacheMetadata)
    }

    /** `should_check`: a disabled feed is never due, a never-checked feed
        always is, and otherwise a feed is due when the whole minutes since
        its last check (truncated toward zero) reach its interval, or the
        default interval. The interval is cast from `u64` to `i64`. */
    function ShouldCheck(now: int, defaultIntervalMinutes: U64): (due: bool)
      reads this
      ensures !config.enabled ==> !due
      ensures config.enabled && lastChecked.None? ==> due
      ensures config.enabled && lastChecked.Some? ==>
        (due <==> WholeMinutes(now - lastChecked.value) >= AsI64(config.checkIntervalMinutes.GetOr(defaultIntervalMinutes)))
    {
      Due(config, State(), now, defaultIntervalMinutes)
    }

    /** The parsers' loop for an RSS channel. */
    method ParseRssPosts(items: seq<RssItem>, itemNow: nat -> int) returns (posts: seq<Post>)
      modifies this
      ensures posts == SelectNew(RssCandidates(items, config.id, itemNow), old(lastPostDate))
      ensures lastPostDate == NextWatermark(RssCandidates(items, config.id, itemNow), old(lastPostDate))
      ensures lastChecked == old(lastChecked) && cacheMetadata == old(cacheMetadata)
    {
      var kept, latest := CollectRss(items, config.id, itemNow, lastPostDate);
      if latest.Some? {
        lastPostDate := latest;
      }
      posts := Take(SortBy(NewestFirst, kept), 2);
    }

    /** The parsers' loop for an Atom (or other) feed. */
    method ParseFeedRsPosts(entries: seq<FeedEntry>, itemNow: nat -> int) returns (posts: seq<Post>)
      modifies this
      ensures posts == SelectNew(AtomCandidates(entries, config.id, itemNow), old(lastPostDate))
      ensures lastPostDate == NextWatermark(AtomCandidates(entries, config.id, itemNow), old(lastPostDate))
      ensures lastChecked == old(lastChecked) && cacheMetadata == old(cacheMetadata)
    {
      var kept, latest := CollectAtom(entries, config.id, itemNow, lastPostDate);
      if latest.Some? {
        lastPostDate := latest;
      }
      posts := Take(SortBy(NewestFirst, kept), 2);
    }

    /** `fetch_rss_posts`: the conditional request and what its reply does
        to the feed. */
    method FetchRssPosts(url: string, reply: HttpReply, now: int, itemNow: nat -> int) returns (r: Result<seq<Post>>, sent: seq<Header>)
      modifies this
      ensures sent == RequestHeaders(old(cacheMetadata))
      ensures Step(r, State()) == RssFetch(old(State()), config.id, url, reply, now, itemNow)
    {
      sent := RequestHeaders(cacheMetadata);
      if reply.TransportError? {
        r := Err(reply.msg);
        return;
      }
      if reply.status == NotModified {
        lastChecked := Some(now);
        r := Ok([]);
        return;
      }
      if !IsSuccess(reply.status) {
        r := Err("Failed to fetch feed " + url + ": HTTP " + StatusText(reply.status));
        return;
      }
      if reply.etag.Some? {
        cacheMetadata := cacheMetadata.(etag := reply.etag);
      }
      if reply.lastModified.Some? {
        cacheMetadata := cacheMetadata.(lastModified := reply.lastModified);
      }
      if reply.body.BodyError? {
        r := Err(reply.body.msg);
        return;
      }
      var hash := reply.body.hash;
      if cacheMetadata.lastContentHash == Some(hash) {
        lastChecked := Some(now);
        r := Ok([]);
        return;
      }
      cacheMetadata := cacheMetadata.(lastContentHash := Some(hash));
      lastChecked := Some(now);
      match reply.body.parsed {
        case RssChannel(items) =>
          var posts := ParseRssPosts(items, itemNow);
          r := Ok(posts);
        case AtomFeed(entries) =>
          var posts := ParseFeedRsPosts(entries, itemNow);
          r := Ok(posts);
        case Unparsable =>
          r := Err("Unable to parse feed");
      }
    }

    /** `process_youtube_posts`. */
    method ProcessYoutubePosts(posts: seq<Post>) returns (r: seq<Post>)
      modifies this
      ensures Step(Ok(r), State()) == YoutubeStep(old(State()), posts)
    {
      if posts == [] {
        r := posts;
        return;
      }
      var sorted := SortBy(NewestFirst, posts);
      lastPostDate := Some(sorted[0].published);
      var filtered := Take(sorted, 2);
      r := SortBy(OldestFirst, filtered);
    }

    /** `fetch_posts_attempt`. */
    method FetchPostsAttempt(input: AttemptInput) returns (r: Result<seq<Post>>)
      modifies this
      ensures Step(r, State()) == AttemptStep(old(State()), config, youtubeConfig, input)
    {
      if config.feedType == "Rss" {
        if config.config.Rss? {
          var url := config.config.url;
          var sent;
          r, sent := FetchRssPosts(url, input.rss, input.now, input.itemNow);
        } else {
          r := Err("Invalid RSS feed configuration");
        }
      } else if config.feedType == "Youtube" {
        if !config.config.Youtube? {
          r := Err("Invalid YouTube feed configuration");
          return;
        }
        if youtubeConfig.None? {
          r := Err("YouTube global configuration not found");
          return;
        }
        var c := config.config;
        var global := youtubeConfig.value;
        var yc := YouTube.YouTubeConfig(global.apiKey, c.channelId, c.playlistId, c.username,
                                        Some(EffectiveMaxResults(c.maxResults, global)));
        var videos, requests := YouTube.FetchChannelVideos(yc, input.youtubeApi);
        if videos.Err? {
          r := Err(videos.msg);
          return;
        }
        var selected := ProcessYoutubePosts(videos.value);
        r := Ok(selected);
      } else {
        r := Err("Unknown feed type: " + config.feedType);
      }
    }

    /** One attempt of `fetch_posts`, extending the trace of the attempts
        before it. */
    method TracedAttempt(attempts: seq<AttemptInput>, k: nat, ghost states: seq<FeedState>, ghost outcomes: seq<Result<seq<Post>>>)
      returns (r: Result<seq<Post>>, ghost states': seq<FeedState>)
      requires IsTrace(config, youtubeConfig, attempts, states, outcomes) && k == |outcomes| < |attempts|
      requires states[k] == State()
      modifies this
      ensures states' == states + [State()]
      ensures IsTrace(config, youtubeConfig, attempts, states', outcomes + [r])
    {
      r := FetchPostsAttempt(attempts[k]);
      IsTraceSnoc(config, youtubeConfig, attempts, states, outcomes, Step(r, State()));
      states' := states + [State()];
    }

    /** `fetch_posts`: up to `max_retries + 1` attempts (default 3 retries),
        returning the first success; after failed attempt `k` (from 0) that
        is not the last it waits `base * 2^k` seconds (default base 2); when
        every attempt fails, the last error is returned. Attempt `k` observes
        `attempts[k]` and starts from the state `states[k]` that attempt
        `k - 1` left; `IsRun` turns this trace into `FetchRun`. */
    method FetchPosts(attempts: seq<AttemptInput>)
      returns (r: Result<seq<Post>>, outcomes: seq<Result<seq<Post>>>, delays: seq<nat>, ghost states: seq<FeedState>)
      requires |attempts| > MaxRetries(config)
      modifies this
      ensures IsRun(config, youtubeConfig, attempts, states, outcomes)
      ensures states[0] == old(State()) && states[|outcomes|] == State() && r == outcomes[|outcomes| - 1]
      ensures delays == Delays(BaseDelay(config), |outcomes| - 1)
    {
      var maxRetries := MaxRetries(config);
      var baseDelay := BaseDelay(config);
      outcomes := [];
      delays := [];
      states := [State()];
      var attempt: nat := 0;
      while true
        invariant attempt <= maxRetries
        invariant |outcomes| == attempt && |states| == attempt + 1 && delays == Delays(baseDelay, attempt)
        invariant states[0] == old(State()) && states[attempt] == State()
        invariant IsTrace(config, youtubeConfig, attempts, states, outcomes)
        invariant forall k | 0 <= k < attempt :: outcomes[k].Err?
        decreases maxRetries - attempt
      {
        var result;
        result, states := TracedAttempt(attempts, attempt, states, outcomes);
        outcomes := outcomes + [result];
        if result.Ok? || attempt == maxRetries {
          r := result;
          return;
        }
        delays := delays + [baseDelay * Pow2(attempt)];
        attempt := attempt + 1;
      }
    }
  }

  /** `TimeDelta::num_minutes`: whole minutes, truncated toward zero. */
  function WholeMinutes(seconds: int): (m: int)
    ensures seconds >= 0 ==> m * 60 <= seconds < m * 60 + 60
    ensures seconds < 0 ==> m * 60 - 60 < seconds <= m * 60
  {
    if seconds >= 0 then seconds / 60 else -((-seconds) / 60)
  }

  /** `u64 as i64`: values from 2^63 on wrap around to negative numbers. */
  function AsI64(n: U64): (v: int)
    ensures I64Min <= v <= I64Max
    ensures n <= I64Max ==> v == n
  {
    if n <= I64Max then n else n - 0x1_0000_0000_0000_0000
  }

  /** For a positive interval the truncation does not matter: a checked
      feed is due exactly when `interval` minutes have elapsed. Being due is
      also kept as time goes on. */
  lemma DueAfterInterval(elapsed: int, interval: U64, later: int)
    requires 0 < interval <= I64Max
    requires later >= elapsed
    ensures WholeMinutes(elapsed) >= AsI64(interval) <==> elapsed >= 60 * interval
    ensures WholeMinutes(elapsed) >= AsI64(interval) ==> WholeMinutes(later) >= AsI64(interval)
  {
  }

  /** The registry of tracked feeds, in configuration order. */
  class FeedManager {
    var feeds: seq<Feed>

    /** No feed object is listed twice. */
    ghost predicate Valid()
      reads this
    {
      forall i, j | 0 <= i < j < |feeds| :: feeds[i] != feeds[j]
    }

    constructor ()
      ensures feeds == [] && Valid()
    {
      feeds := [];
    }

    /** `load_feeds`: one fresh feed per configuration, in order. */
    method LoadFeeds(configs: seq<FeedConfig>, youtubeConfig: Option<YouTubeGlobalConfig>)
      modifies this
      ensures Valid() && |feeds| == |configs|
      ensures forall i | 0 <= i < |feeds| :: (fresh(feeds[i])
        && feeds[i].config == configs[i] && feeds[i].youtubeConfig == youtubeConfig
        && feeds[i].State() == FeedState(None, None, DefaultCacheMetadata))
    {
      feeds := [];
      for i := 0 to |configs|
        invariant |feeds| == i
        invariant forall k | 0 <= k < i :: (fresh(feeds[k])
          && feeds[k].config == configs[k] && feeds[k].youtubeConfig == youtubeConfig
          && feeds[k].State() == FeedState(None, None, DefaultCacheMetadata))
        invariant Valid()
      {
        var feed := new Feed(configs[i], youtubeConfig);
        feeds := feeds + [feed];
      }
    }

    /** `load_feeds_with_cache`: as `load_feeds`, each feed starting from the
        stored validators of its id, or none. */
    method LoadFeedsWithCache(configs: seq<FeedConfig>, youtubeConfig: Option<YouTubeGlobalConfig>,
                              cache: map<string, CacheMetadata>)
      modifies this
      ensures Valid() && |feeds| == |configs|
      ensures forall i | 0 <= i < |feeds| :: (fresh(feeds[i])
        && feeds[i].config == configs[i] && feeds[i].youtubeConfig == youtubeConfig
        && feeds[i].State() == FeedState(None, None, StoredCache(cache, configs[i].id)))
    {
      feeds := [];
      for i := 0 to |configs|
        invariant |feeds| == i
        invariant forall k | 0 <= k < i :: (fresh(feeds[k])
          && feeds[k].config == configs[k] && feeds[k].youtubeConfig == youtubeConfig
          && feeds[k].State() == FeedState(None, None, StoredCache(cache, configs[k].id)))
        invariant Valid()
      {
        var metadata := if configs[i].id in cache then cache[configs[i].id] else DefaultCacheMetadata;
        var feed := new Feed.WithCache(configs[i], metadata, youtubeConfig);
        feeds := feeds + [feed];
      }
    }

    /** `get_cache_metadata`: every feed id mapped to its validators (for a
        repeated id, those of its last feed). */
    method GetCacheMetadata() returns (cache: map<string, CacheMetadata>)
      ensures cache == CacheOf(feeds)
    {
      cache := map[];
      for i := 0 to |feeds|
        invariant cache == CacheOf(feeds[..i])
      {
        assert feeds[..i + 1][..i] == feeds[..i];
        cache := cache[feeds[i].config.id := feeds[i].cacheMetadata];
      }
      assert feeds[..|feeds|] == feeds;
    }

    /** `check_all_feeds`: fetch every due feed, in order, and pair each
        result with the feed's id. Feeds that are not due are left alone.
        Feed `i` observes the attempt inputs `inputs[i]`, and `should_check`
        reads the clock anew for it: `clock[i]`, taken after the earlier
        feeds' fetches and retry waits. */
    method CheckAllFeeds(defaultIntervalMinutes: U64, clock: seq<int>, inputs: seq<seq<AttemptInput>>)
      returns (results: seq<(string, Result<seq<Post>>)>, checked: seq<nat>)
      requires Valid()
      requires |inputs| == |feeds| && |clock| == |feeds|
      requires forall i | 0 <= i < |feeds| :: |inputs[i]| > MaxRetries(feeds[i].config)
      modifies feeds
      ensures Checks(results, checked, States(feeds))
        == CheckAll(feeds, old(States(feeds)), Runs(feeds, old(States(feeds)), inputs, |feeds|), |feeds|, clock, defaultIntervalMinutes)
    {
      results := [];
      checked := [];
      var fs := feeds;
      ghost var before := States(fs);
      ghost var runs := Runs(fs, before, inputs, |fs|);
      ghost var after: seq<FeedState> := [];
      for i := 0 to |fs|
        invariant |after| == i
        invariant Checks(results, checked, after) == CheckAll(fs, before, runs, i, clock, defaultIntervalMinutes)
        invariant forall j | 0 <= j < i :: fs[j].State() == after[j]
        invariant forall j | i <= j < |fs| :: fs[j].State() == before[j]
      {
        results, checked, after := SweepStep(fs, i, before, runs, inputs, defaultIntervalMinutes, clock,
                                             results, checked, after);
      }
      assert States(fs) == after;
    }

    /** `get_feed`: the first feed with the id, if any. */
    function GetFeed(id: string): (r: Option<Feed>)
      reads this
      ensures r.None? <==> forall i | 0 <= i < |feeds| :: feeds[i].config.id != id
      ensures r.Some? ==> exists i | 0 <= i < |feeds| :: feeds[i] == r.value && r.value.config.id == id
                            && forall j | 0 <= j < i :: feeds[j].config.id != id
    {
      FindFeed(feeds, id)
    }
  }

  /** One feed of the sweep: fetch it if it is due, else leave it alone. */
  method CheckFeed(feed: Feed, defaultIntervalMinutes: U64, now: int, attempts: seq<AttemptInput>)
    returns (due: bool, result: Result<seq<Post>>)
    requires |attempts| > MaxRetries(feed.config)
    modifies feed
    ensures due == Due(feed.config, old(feed.State()), now, defaultIntervalMinutes)
    ensures !due ==> unchanged(feed)
    ensures due ==> Step(result, feed.State()) == FetchRun(old(feed.State()), feed.config, feed.youtubeConfig, attempts, 0)
  {
    due := feed.ShouldCheck(now, defaultIntervalMinutes);
    result := Ok([]);
    if due {
      var outcomes, delays; ghost var states;
      result, outcomes, delays, states := feed.FetchPosts(attempts);
      IsRunIsFetchRun(feed.config, feed.youtubeConfig, attempts, states, outcomes);
    }
  }

  /** The body of the sweep: check feed `i` and extend what the sweep has
      yielded so far. */
  method SweepStep(fs: seq<Feed>, i: nat, ghost before: seq<FeedState>, ghost runs: seq<Step>,
                   inputs: seq<seq<AttemptInput>>, defaultIntervalMinutes: U64, clock: seq<int>,
                   results: seq<(string, Result<seq<Post>>)>, checked: seq<nat>, ghost after: seq<FeedState>)
    returns (results': seq<(string, Result<seq<Post>>)>, checked': seq<nat>, ghost after': seq<FeedState>)
    requires SweepInputs(fs, before, inputs) && i < |fs| && runs == Runs(fs, before, inputs, |fs|)
    requires |clock| == |fs|
    requires forall j, l | 0 <= j < l < |fs| :: fs[j] != fs[l]
    requires |after| == i
    requires Checks(results, checked, after) == CheckAll(fs, before, runs, i, clock, defaultIntervalMinutes)
    requires forall j | 0 <= j < i :: fs[j].State() == after[j]
    requires forall j | i <= j < |fs| :: fs[j].State() == before[j]
    modifies fs[i]
    ensures |after'| == i + 1
    ensures Checks(results', checked', after') == CheckAll(fs, before, runs, i + 1, clock, defaultIntervalMinutes)
    ensures forall j | 0 <= j < i + 1 :: fs[j].State() == after'[j]
    ensures forall j | i + 1 <= j < |fs| :: fs[j].State() == before[j]
  {
    assert forall j | 0 <= j < |fs| && j != i :: fs[j] != fs[i];
    var due, result := CheckFeed(fs[i], defaultIntervalMinutes, clock[i], inputs[i]);
    RunsAt(fs, before, inputs, |fs|, i);
    results', checked' := results, checked;
    if due {
      results' := results + [(fs[i].config.id, result)];
      checked' := checked + [i];
    }
    after' := after + [fs[i].State()];
  }

  /** The states of a list of feeds. */
  function States(fs: seq<Feed>): (ss: seq<FeedState>)
    reads fs
    ensures |ss| == |fs| && forall i | 0 <= i < |fs| :: ss[i] == fs[i].State()
  {
    if fs == [] then []
    else
      var init := States(fs[..|fs| - 1]);
      assert forall i | 0 <= i < |fs| - 1 :: fs[..|fs| - 1][i] == fs[i];
      init + [fs[|fs| - 1].State()]
  }

  /** Feeds none of whose fields changed keep their states. */
  twostate lemma StatesUnchanged(fs: seq<Feed>)
    requires forall i | 0 <= i < |fs| :: unchanged(fs[i])
    ensures States(fs) == old(States(fs))
  {
  }

  /** What a sweep over the feeds yields: the `(id, result)` pairs, the
      indices of the feeds fetched, and every feed's new state. */
  datatype Checks = Checks(results: seq<(string, Result<seq<Post>>)>, checked: seq<nat>, states: seq<FeedState>)

  /** The inputs of a sweep fit the feeds: one state and one list of attempt
      inputs per feed, with an input for every attempt. */
  predicate SweepInputs(fs: seq<Feed>, before: seq<FeedState>, inputs: seq<seq<AttemptInput>>) {
    && |before| == |fs| && |inputs| == |fs|
    && forall i | 0 <= i < |fs| :: |inputs[i]| > MaxRetries(fs[i].config)
  }

  /** The runs the first `n` feeds make if they are due: each one's
      `FetchRun` from its state before the sweep on its own attempt inputs
      (see `RunsAt`). */
  function Runs(fs: seq<Feed>, before: seq<FeedState>, inputs: seq<seq<AttemptInput>>, n: nat): (runs: seq<Step>)
    requires SweepInputs(fs, before, inputs) && n <= |fs|
    ensures |runs| == n
  {
    if n == 0 then []
    else Runs(fs, before, inputs, n - 1) + [FetchRun(before[n - 1], fs[n - 1].config, fs[n - 1].youtubeConfig, inputs[n - 1], 0)]
  }

  /** Feed `i`'s entry of `Runs` is its `FetchRun`. */
  lemma {:induction false} RunsAt(fs: seq<Feed>, before: seq<FeedState>, inputs: seq<seq<AttemptInput>>, n: nat, i: nat)
    requires SweepInputs(fs, before, inputs) && i < n <= |fs|
    ensures Runs(fs, before, inputs, n)[i] == FetchRun(before[i], fs[i].config, fs[i].youtubeConfig, inputs[i], 0)
  {
    if i < n - 1 {
      RunsAt(fs, before, inputs, n - 1, i);
    }
  }

  /** `check_all_feeds` over the first `n` feeds, as a function of the
      feeds' configurations, their states `before` the sweep, the clock
      reading `clock[i]` each one's due check takes, and the `runs` they make
      when due: a due feed yields its run's result and state, any
      other is skipped and keeps its state. */
  function CheckAll(fs: seq<Feed>, before: seq<FeedState>, runs: seq<Step>, n: nat, clock: seq<int>,
                    defaultIntervalMinutes: U64): Checks
    requires |before| == |fs| && |runs| == |fs| && |clock| == |fs| && n <= |fs|
  {
    if n == 0 then Checks([], [], [])
    else
      var init := CheckAll(fs, before, runs, n - 1, clock, defaultIntervalMinutes);
      var i := n - 1;
      if Due(fs[i].config, before[i], clock[i], defaultIntervalMinutes) then
        Checks(init.results + [(fs[i].config.id, runs[i].result)], init.checked + [i], init.states + [runs[i].state])
      else Checks(init.results, init.checked, init.states + [before[i]])
  }

  /** A sweep yields one result per fetched feed, paired with that feed's
      id, fetched in feed order, and one state per feed. */
  lemma {:induction false} CheckAllShape(fs: seq<Feed>, before: seq<FeedState>, runs: seq<Step>, n: nat,
                                         clock: seq<int>, defaultIntervalMinutes: U64)
    requires |before| == |fs| && |runs| == |fs| && |clock| == |fs| && n <= |fs|
    ensures var c := CheckAll(fs, before, runs, n, clock, defaultIntervalMinutes);
      && |c.results| == |c.checked| && |c.states| == n
      && (forall k | 0 <= k < |c.checked| :: c.checked[k] < n && c.results[k].0 == fs[c.checked[k]].config.id)
      && (forall k, l | 0 <= k < l < |c.checked| :: c.checked[k] < c.checked[l])
  {
    if n > 0 {
      CheckAllShape(fs, before, runs, n - 1, clock, defaultIntervalMinutes);
    }
  }

  /** A sweep fetches exactly the feeds due at their own clock readings. */
  lemma {:induction false} CheckAllDue(fs: seq<Feed>, before: seq<FeedState>, runs: seq<Step>, n: nat,
                                       clock: seq<int>, defaultIntervalMinutes: U64)
    requires |before| == |fs| && |runs| == |fs| && |clock| == |fs| && n <= |fs|
    ensures var c := CheckAll(fs, before, runs, n, clock, defaultIntervalMinutes);
      forall i | 0 <= i < n :: i in c.checked <==> Due(fs[i].config, before[i], clock[i], defaultIntervalMinutes)
  {
    if n > 0 {
      CheckAllDue(fs, before, runs, n - 1, clock, defaultIntervalMinutes);
      CheckAllShape(fs, before, runs, n - 1, clock, defaultIntervalMinutes);
    }
  }

  /** A feed the sweep skips keeps its state. */
  lemma {:induction false} CheckAllKeeps(fs: seq<Feed>, before: seq<FeedState>, runs: seq<Step>, n: nat,
                                         clock: seq<int>, defaultIntervalMinutes: U64)
    requires |before| == |fs| && |runs| == |fs| && |clock| == |fs| && n <= |fs|
    ensures var c := CheckAll(fs, before, runs, n, clock, defaultIntervalMinutes);
      |c.states| == n && forall i | 0 <= i < n && i !in c.checked :: c.states[i] == before[i]
  {
    if n > 0 {
      CheckAllKeeps(fs, before, runs, n - 1, clock, defaultIntervalMinutes);
    }
  }

  /** Each fetched feed's result and new state are those of its run. */
  lemma {:induction false} CheckAllFetched(fs: seq<Feed>, before: seq<FeedState>, runs: seq<Step>, n: nat,
                                           clock: seq<int>, defaultIntervalMinutes: U64)
    requires |before| == |fs| && |runs| == |fs| && |clock| == |fs| && n <= |fs|
    ensures var c := CheckAll(fs, before, runs, n, clock, defaultIntervalMinutes);
      && |c.results| == |c.checked| && |c.states| == n
      && forall k | 0 <= k < |c.checked| :: c.checked[k] < n && Step(c.results[k].1, c.states[c.checked[k]]) == runs[c.checked[k]]
  {
    if n > 0 {
      CheckAllFetched(fs, before, runs, n - 1, clock, defaultIntervalMinutes);
    }
  }

  /** The validators stored for an id, or none. */
  function StoredCache(cache: map<string, CacheMetadata>, id: string): CacheMetadata {
    if id in cache then cache[id] else DefaultCacheMetadata
  }

  /** The validators of each feed id; the last feed of an id wins. */
  function CacheOf(feeds: seq<Feed>): (m: map<string, CacheMetadata>)
    reads feeds
    ensures forall id :: id in m <==> exists i | 0 <= i < |feeds| :: feeds[i].config.id == id
    ensures forall i | 0 <= i < |feeds| && (forall j | i < j < |feeds| :: feeds[j].config.id != feeds[i].config.id) ::
      m[feeds[i].config.id] == feeds[i].cacheMetadata
  {
    if feeds == [] then map[]
    else
      var init := CacheOf(feeds[..|feeds| - 1]);
      var last := feeds[|feeds| - 1];
      assert forall i | 0 <= i < |feeds| - 1 :: feeds[..|feeds| - 1][i] == feeds[i];
      init[last.config.id := last.cacheMetadata]
  }

  function FindFeed(feeds: seq<Feed>, id: string): (r: Option<Feed>)
    ensures r.None? <==> forall i | 0 <= i < |feeds| :: feeds[i].config.id != id
    ensures r.Some? ==> exists i | 0 <= i < |feeds| :: feeds[i] == r.value && r.value.config.id == id
                          && forall j | 0 <= j < i :: feeds[j].config.id != id
  {
    if feeds == [] then None
    else if feeds[0].config.id == id then Some(feeds[0])
    else
      var r := FindFeed(feeds[1..], id);
      assert forall i | 1 <= i < |feeds| :: feeds[i] == feeds[1..][i - 1];
      r
  }
}
