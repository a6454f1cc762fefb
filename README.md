# populatrs in Dafny

populatrs reads RSS, Atom and YouTube feeds on a schedule and republishes each
new post to a set of publishers: Telegram, X, LinkedIn, Bluesky, Threads,
Mastodon, Matrix and OpenObserve. This project models the pipeline's core and
proves what it promises:

- **Feeds** (`feed.dfy`). A `Feed` class holds the feed's last check time, its
  date watermark and the validators of its last download. Its methods cover
  the retry loop with doubling delays, the conditional fetch (`ETag`,
  `Last-Modified`, 304, body digest), the watermark filter and the YouTube
  selection. The `FeedManager` class is the registry of feeds and runs the
  sweep over the feeds that are due.
- **Posts and the ledger** (`post.dfy`). Feed items are converted to posts.
  `PublishedPostsStorage` is the append-only record of the posts already sent.
- **Ordering** (`chronology.dfy`). The stable sort by date and `truncate`.
- **Template filters** (`template.dfy`, `text.dfy`). `truncate`, `word_limit`
  and `strip_html`, the default template of each publisher type, and the
  `str` primitives they use (UTF-8 byte length, Unicode whitespace, `trim`,
  `split`, `replace`, `split_whitespace`, `parse::<i64>`).
- **Publisher registry** (`publishers.dfy`). Publisher creation with template
  defaulting, and the fan-out `publish_to_all`.
- **Publishers**. The shared OAuth token cells and the 401
  refresh-and-retry (`oauth.dfy`); X (`x.dfy`); LinkedIn (`linkedin.dfy`);
  Bluesky with its link facets (`bluesky.dfy`); Threads (`threads.dfy`);
  Telegram (`telegram.dfy`).
- **YouTube** (`youtube.dfy`). Which playlist is read, and how its items
  become posts.
- **The application** (`app.dfy`). `validate_config` and the feed-check
  cycle `run_feed_check`.

The network is an oracle everywhere. A feed fetch gets its reply as a value.
A publisher's k-th request is answered by `net(k, request)`. The YouTube Data
API is a function from request to reply. What each publisher's `publish`
returns inside the fan-out is `outcome(k, post, id)`, where k counts the
publish calls. The current time is a parameter (seconds since the Unix epoch).
Sleeps become delays the model computes and returns, or `Wait` actions in a
trace. Methods that change state are proved against specification functions:
`RssFetch` (the conditional download), `AttemptStep` (one fetch attempt),
`FetchRun` (the retry loop, through the trace predicate `IsRun`), `CheckAll`
(the sweep over the feeds), `Dispatch` (the fan-out), `Refresh`, `GetValid`
and `PostWithRetry` (the OAuth cells), and `PostStep` and `Sweep` (the
processing of a cycle's results). The properties are proved about those
functions.

## Model

| member | source | states |
|---|---|---|
| Feeds.RequestHeaders | src/models/feed.rs:153-168 | The request sends the user agent first. It adds `If-None-Match` exactly when an entity tag is stored, and `If-Modified-Since` exactly when a modification date is stored, each carrying the stored value. |
| Feeds.RssCandidates | src/models/feed.rs:300-316 | Only posts that `from_rss_item` accepts are candidates: at most one per item, each tagged with the feed id and with a non-empty guid, title and link. Item `i` is converted with its own clock reading `itemNow(i)`. |
| Feeds.AtomCandidates | src/models/feed.rs:339-355 | The same for Atom entries through `from_feed_item`. |
| Feeds.RssCandidatesAllValid | src/models/post.rs:42-48 | When every item converts, the candidates are exactly the conversions in item order, and an item with a missing or unparsable date is dated by its own clock reading `itemNow(i)`, not by a reading shared with other items. |
| Feeds.AtomCandidatesAllValid | src/models/post.rs:85 | The same for Atom entries: an entry with neither a published nor an updated date is dated by its own reading `itemNow(i)`. |
| Feeds.NewerProps | src/models/feed.rs:307-312 | The filter keeps exactly the posts strictly newer than the watermark (all of them when there is none), and only posts of the input. |
| Feeds.LatestProps | src/models/feed.rs:302-305 | The running latest date exists exactly when some post exists, is the date of one of them, and no post is newer. |
| Feeds.SelectNewPrefix | src/models/feed.rs:323-326 | The result is newest first, is drawn from the filtered posts, and has min(2, count) of them. |
| Feeds.SelectNewMembers | src/models/feed.rs:307-314 | Every returned post is a candidate and strictly newer than the previous watermark. |
| Feeds.SelectNewNewest | src/models/feed.rs:323-326 | No post newer than the watermark is left out while an older one is returned. |
| Feeds.SelectNewProps | src/models/feed.rs:296-333 | The parser's result: at most 2 posts, all newer than the watermark, newest first, and the newest ones. |
| Feeds.WatermarkCanMoveBack | src/models/feed.rs:319-321 | The watermark is set unconditionally to the newest valid date. A single post dated 5 against a watermark of 10 moves the watermark back to 5 and returns nothing. |
| Feeds.RssFetch | src/models/feed.rs:151-240 | A transport error or a non-success status other than 304 changes nothing. A 304 returns no posts and only sets the check time. On success the validators come from the headers. A body digest equal to the stored one returns no posts, keeps the digest and sets the check time. A new digest is stored, sets the check time, and the body is parsed against the old watermark. The check time is the attempt's reading `now`, and each undated item is dated by its own reading `itemNow(i)`. |
| Feeds.YoutubeSelectionKeepsNewest | src/models/feed.rs:249-276 | The videos returned are min(2, count) of the input, in ascending date order, and no video left out is newer than one returned. |
| Feeds.YoutubeWatermarkIsNewest | src/models/feed.rs:250-255 | The watermark a YouTube fetch sets is the date of one of the videos, and no video is newer. |
| Feeds.EffectiveMaxResults | src/models/feed.rs:126-128 | The feed's own maximum wins, then the global default, then 10. |
| Feeds.AttemptStep | src/models/feed.rs:101-149 | An unknown feed type, a type whose configuration has another kind, and a YouTube feed without the global configuration each fail and leave the feed unchanged. A YouTube fetch never touches the check time or the validators. |
| Feeds.TotalDelayClosedForm | src/models/feed.rs:81-82 | Delays that double from `base` add up to `base * (2^n - 1)` after n failures. |
| Feeds.Feed.constructor | src/models/feed.rs:27-36 | A new feed has no check time, no watermark and no validators. |
| Feeds.Feed.WithCache | src/models/feed.rs:38-51 | As `new`, but starting from the stored validators. |
| Feeds.Feed.ShouldCheck | src/models/feed.rs:376-394 | A disabled feed is never due and a never-checked feed always is. Otherwise a feed is due iff the whole minutes elapsed, truncated toward zero, reach its own interval or the default one, cast from u64 to i64. |
| Feeds.DueAfterInterval | src/models/feed.rs:388-391 | For an interval in the i64 range, a checked feed is due exactly when 60 times the interval in seconds has elapsed, and it stays due as time goes on. |
| Feeds.AsI64 | src/models/feed.rs:391 | The `as i64` cast keeps values up to 2^63 - 1 and wraps larger ones into the i64 range. |
| Feeds.WholeMinutes | src/models/feed.rs:390-391 | `num_minutes` gives the whole minutes elapsed, truncated toward zero for both signs. |
| Feeds.Feed.ParseRssPosts | src/models/feed.rs:296-333 | The loop returns `SelectNew` of the candidates against the old watermark, item `i` converted with its own reading `itemNow(i)`. It sets the watermark to `NextWatermark` and changes nothing else. |
| Feeds.Feed.ParseFeedRsPosts | src/models/feed.rs:335-374 | The same for Atom entries. |
| Feeds.CollectRss | src/models/feed.rs:300-321 | The loop over the items keeps exactly the valid posts newer than the watermark, in item order, and finds the newest date among all valid posts, item `i` converted with its own reading `itemNow(i)`. |
| Feeds.CollectAtom | src/models/feed.rs:339-360 | The same for Atom entries. |
| Feeds.Feed.FetchRssPosts | src/models/feed.rs:151-240 | Sends `RequestHeaders` of the stored validators. The result and the new feed state are those of `RssFetch`, with `now` for the check time and `itemNow(i)` for each undated item. |
| Feeds.Feed.ProcessYoutubePosts | src/models/feed.rs:242-294 | An empty list returns nothing and changes nothing. Otherwise the result is the YouTube selection and the watermark becomes the newest date. |
| Feeds.Feed.FetchPostsAttempt | src/models/feed.rs:101-149 | The result and the new state are those of `AttemptStep`. |
| Feeds.Feed.FetchPosts | src/models/feed.rs:53-99 | The attempts form a complete run (`IsRun`): attempt k observes its own inputs and starts from the state attempt k - 1 left, every attempt but the last failed, and the last one succeeded or was attempt `max_retries` (default 3). The result is the last attempt's and the feed ends in the state it left. Failed attempt k waits `base * 2^k` seconds (default base 2), except the last. |
| Feeds.IsRunIsFetchRun | src/models/feed.rs:57-98 | A complete run of the retry loop is the run `FetchRun` defines: the same result and final state, and the outcomes `FetchOutcomes`. |
| Feeds.FetchOutcomesShape | src/models/feed.rs:57-98 | A run makes at most `max_retries + 1` attempts. Every attempt but the last failed, the run's result is the last attempt's, and a failed run has made every attempt. |
| Feeds.FetchRunEndsAtLast | src/models/feed.rs:88-98 | A run returns an error only as the result of attempt `max_retries`. |
| Feeds.ConfigError | src/models/feed.rs:101-149 | There is a configuration error iff the feed is neither an RSS feed with an RSS configuration nor a YouTube feed with a YouTube configuration and the global YouTube settings. Then every attempt returns it and leaves the feed unchanged. |
| Feeds.FetchRunConfigError | src/models/feed.rs:53-149 | With a configuration error, the whole run returns that error and leaves the feed as it was, however many attempts it makes. |
| Feeds.FetchRunYoutubeKeepsCache | src/models/feed.rs:53-149 | A YouTube feed's run, over all its attempts, never touches the check time or the validators. |
| Feeds.DelaysAt | src/models/feed.rs:81-82 | There is one wait per failed attempt that is not the last, and the wait after attempt k is `base * 2^k`. |
| Feeds.FeedManager.constructor | src/models/feed.rs:406-408 | The registry starts empty. |
| Feeds.FeedManager.LoadFeeds | src/models/feed.rs:415-424 | Builds one fresh feed per configuration, in order, each in its initial state. |
| Feeds.FeedManager.LoadFeedsWithCache | src/models/feed.rs:426-438 | As `LoadFeeds`, each feed starting from the validators stored under its id, or none. |
| Feeds.FeedManager.GetCacheMetadata | src/models/feed.rs:440-448 | The map is `CacheOf` of the feeds. |
| Feeds.CacheOf | src/models/feed.rs:440-448 | The keys are exactly the feed ids. Each id maps to the validators of its last feed. |
| Feeds.FeedManager.CheckAllFeeds | src/models/feed.rs:450-467 | The `(id, result)` pairs, the feeds fetched and every feed's new state are `CheckAll` of the states before the sweep, where feed i's due check reads the clock as `clock[i]` and each due feed's result and state are its own `FetchRun` on its own inputs. |
| Feeds.CheckFeed | src/models/feed.rs:456-463 | A feed is fetched iff `should_check` says it is due. A feed that is not due is unchanged. A due feed's result and new state are its `FetchRun` from its state before. |
| Feeds.RunsAt | src/models/feed.rs:455-463 | Feed i's run in the sweep is its `FetchRun` from its state before the sweep, on its own attempt inputs. |
| Feeds.CheckAllShape | src/models/feed.rs:450-467 | The sweep yields one result per fetched feed, paired with that feed's id, fetched in increasing feed order, and one state per feed. |
| Feeds.CheckAllDue | src/models/feed.rs:456-458 | The sweep fetches exactly the feeds that are due at their own clock readings, each `should_check` reading the clock anew. |
| Feeds.CheckAllKeeps | src/models/feed.rs:456-463 | A feed the sweep does not fetch keeps its state. |
| Feeds.CheckAllFetched | src/models/feed.rs:458-461 | Each fetched feed's result and new state are those of its run. |
| Feeds.FeedManager.GetFeed | src/models/feed.rs:469-471 | Returns the first feed with the id, or none iff no feed has it. |
| Feeds.FindFeed | src/models/feed.rs:469-471 | The same lookup over a sequence of feeds. |
| Posts.ExtractRssDescription | src/models/post.rs:64-75 | The item's description is kept iff it is present and not empty. |
| Posts.FromRssItem | src/models/post.rs:33-62 | The title defaults to "Untitled", the link to "" and the guid to the link. The item is rejected iff the guid, title or link ends up empty. The date is the RFC 2822 date when one parses, and `now` otherwise. |
| Posts.ExtractDescription | src/models/post.rs:101-123 | The result is the content body when that is present and not empty, else the summary when that is not empty, else nothing. It is never empty. |
| Posts.FromFeedItem | src/models/post.rs:77-99 | An entry is rejected iff it has no title or no link, or its id, title or first link is empty. The date is the published date, else the updated date, else `now`. |
| Posts.AnyRecords | src/models/post.rs:173-177 | True iff some record has the post's guid and feed id. |
| Posts.CountFeed | src/models/post.rs:189-191 | At most the number of records, and zero iff no record is of the feed. |
| Posts.CountFeedAppend | src/models/post.rs:189-191 | The per-feed count adds up over concatenated ledgers. |
| Posts.Retained | src/models/post.rs:193-196 | Keeps exactly the records published strictly after the cutoff, taken from the ledger. |
| Posts.RecordOf | src/models/post.rs:143-150 | The record of a post carries the post's guid and feed id. |
| Posts.MarkPublishedKeepsNoDuplicates | src/models/post.rs:179-187 | Recording a post that is not yet recorded keeps the ledger free of duplicates, and the post is then recorded. |
| Posts.RetainedKeepsNoDuplicates | src/models/post.rs:193-196 | A cleanup never creates a duplicate and never makes a post recorded. |
| Posts.PublishedPostsStorage.constructor | src/models/post.rs:169-171 | The ledger starts empty. |
| Posts.PublishedPostsStorage.IsPublished | src/models/post.rs:173-177 | True iff some record has the post's guid and feed id. |
| Posts.PublishedPostsStorage.MarkPublished | src/models/post.rs:179-187 | Appends exactly one record for the post, with one result per entry in the given order. Earlier records are untouched and nothing is deduplicated. |
| Posts.PublishedPostsStorage.PublishedCount | src/models/post.rs:189-191 | Zero iff no record is of the feed, and never more than the ledger's size. |
| Posts.PublishedPostsStorage.CleanupOldPosts | src/models/post.rs:193-196 | The ledger becomes exactly its records published strictly after `now` minus the days to keep, in their order. |
| Posts.MarkPublishedCount | src/models/post.rs:179-191 | Marking a post adds one to its feed's count and leaves every other feed's count unchanged. |
| Posts.RetainedIdempotent | src/models/post.rs:193-196 | Cleaning up twice with the same cutoff is the same as once. |
| Chronology.Insert | src/models/feed.rs:324 | Inserting adds exactly the one post to the multiset. |
| Chronology.InsertSorted | src/models/feed.rs:324 | Inserting into a sorted sequence keeps it sorted. |
| Chronology.SortBy | src/models/feed.rs:324 | The result is sorted in the requested order and is a permutation of the input. |
| Chronology.InsertOfDate | src/models/feed.rs:324 | Inserting a post puts it ahead of every post of its own date and keeps the order of the posts of each date. |
| Chronology.SortByStable | src/models/feed.rs:324 | The sort is stable, as `sort_by` is: for every date, the posts of that date come out in their input order. |
| Chronology.Take | src/models/feed.rs:326 | `truncate(n)` keeps the first min(n, length) posts. |
| Chronology.TakeNewest | src/models/feed.rs:324-326 | Keeping the first n posts of a newest-first sort keeps the newest: every post left out is no newer than any post kept. |
| Chronology.NewestFirstHead | src/models/feed.rs:250-254 | The head of a newest-first sort is one of the posts, and no post is newer. |
| Template.ArgAsUsize | src/models/template.rs:76-77 | A non-integer argument gives the default, a non-negative one is itself, and a negative one wraps around modulo 2^64. |
| Template.TruncateCut | src/models/template.rs:75-96 | A value whose byte length fits is returned unchanged. Otherwise the result is the text's first k characters and "...", where k follows the three rules of `ShortenRule` on the first min(`length`, size) characters. |
| Template.ShortenCut | src/models/template.rs:83-93 | The cut follows `ShortenRule`: a prefix ending in a space loses exactly its trailing whitespace; otherwise one holding a space is cut at its last ' '; otherwise it is kept whole. |
| Template.TruncateAsciiBound | src/models/template.rs:166-178 | On ASCII text the result is at most `length` + 3 bytes, and a text that did not fit contains "...". This covers the filter's own test (40 characters truncated to 20: at most 24 bytes, with "..."). |
| Template.WordLimitKeepsFirstWords | src/models/template.rs:99-111 | A text of at most `limit` words (default 10) is unchanged. A longer one yields exactly its first `limit` words, with "..." on the last one, or just "..." when the limit is 0. |
| Template.JoinedWordsMarked | src/models/template.rs:104-108 | The first n words joined with spaces and followed by "..." split back into those words, the last carrying the "...". |
| Template.JoinSingleSpaced | src/models/template.rs:108 | Words joined by " " are single spaced and have no whitespace at either end. |
| Template.WordLimitSingleSpaces | src/models/template.rs:99-111 | When the limit cuts, the result is single spaced: its only whitespace is a ' ' with a non-whitespace character on each side. |
| Template.BreaksToNewlines | src/models/template.rs:121-125 | After the first stage no `<br>`, `<br/>`, `<br />`, `<p>` or `</p>` is left. |
| Template.ReplaceByNewlineKeepsAbsent | src/models/template.rs:121-125 | Replacing a tag by a line break never creates an occurrence of a text without line breaks, so a later replacement cannot bring back an earlier tag. |
| Template.StripTagsLeavesNoTag | src/models/template.rs:128-134 | The tag loop leaves no '<' followed later by a '>', and never grows the text. |
| Template.StripTagsStep | src/models/template.rs:128-134 | One round removes the span from the first '<' to the next '>', and the loop stops when no '>' follows. |
| Template.RemoveTags | src/models/template.rs:128-134 | The `while let` loop computes `StripTags`. |
| Template.CleanLinesAreClean | src/models/template.rs:137-142 | Every line kept is non-empty, trimmed and free of line breaks. |
| Template.StripHtml | src/models/template.rs:114-145 | The filter's output is the kept trimmed lines of the tag-stripped text, joined by "\n". |
| Template.StripHtmlOutput | src/models/template.rs:114-145 | The filter's output has no break tag, and is empty or splits at "\n" into exactly its non-empty trimmed lines. |
| Template.StripHtmlNoBreak | src/models/template.rs:128-142 | No break tag survives tag stripping, line splitting, trimming and joining. |
| Template.NoTagSlice | src/models/template.rs:137-139 | A slice of a text with no '<' before a '>' has none either. |
| Template.SplitNoTag | src/models/template.rs:137 | Every line of a text with no '<' before a '>' has none either. |
| Template.CleanLinesNoTag | src/models/template.rs:137-141 | The same for every trimmed line kept. |
| Template.JoinLinesContains | src/models/template.rs:142 | A text without line breaks occurs in lines joined by "\n" only if it occurs in one of the lines. |
| Template.NoTagNoBracketed | src/models/template.rs:128-134 | A text with no '<' before a '>' contains nothing that opens with '<' and closes with '>'. |
| Template.DefaultTemplateGenericIffUnknown | src/models/template.rs:52-65 | The generic title/description/url template is returned exactly for the publisher types that are not known. |
| Template.KnownTemplateIsSpecific | src/models/template.rs:53-63 | Each known type's template differs from the generic one. |
| Text.ByteTruncateAsWritten | src/models/publishers/x.rs:326-330 | The slice-and-ellipsis code as written returns a text that fits unchanged. It panics iff the text is too long and byte `limit - 3` is not a character boundary, and otherwise returns the prefix of exactly `limit - 3` bytes followed by "...". |
| Text.ByteTruncate | src/models/publishers/x.rs:326-330 | The corrected truncation never exceeds `limit` bytes and leaves a fitting text unchanged. Otherwise it is the longest prefix within `limit - 3` bytes followed by "...". |
| Text.ByteTruncateAgrees | src/models/publishers/x.rs:326-330 | Wherever the code as written does not panic, it gives the same text as `ByteTruncate`. |
| Text.ByteTruncatePanicsX | src/models/publishers/x.rs:326-330 | 276 ASCII letters, then "é", then 10 more letters: 288 bytes, and the X truncation as written panics on it. |
| Text.FitPrefix | src/models/publishers/x.rs:327 | The longest prefix that fits in the byte budget. |
| Text.ParseI64OfDecimal | src/models/publishers/telegram.rs:71 | Every value up to 2^63 - 1 written in decimal parses back to itself. |
| Text.WordsOfJoin | src/models/template.rs:104-108 | Joining words with single spaces and splitting at whitespace gives the words back. |
| Text.SplitJoin | src/models/template.rs:137-142 | Splitting a join at its separator gives back the pieces. |
| Text.ReplaceByNewlineRemoves | src/models/template.rs:121-125 | Replacing a pattern free of line breaks by "\n" leaves no occurrence of the pattern. |
| Text.FindProps | src/models/template.rs:128-131 | `find` gives the first index holding the character, or nothing when it does not occur. |
| Text.LastIndexOf | src/models/template.rs:88-90 | `rfind` gives the last index holding the character, or nothing iff it does not occur. |
| Text.Trim | src/models/template.rs:139 | The trimmed text has no whitespace at either end. |
| Text.TrimIsSlice | src/models/template.rs:139 | The trimmed text is the slice of the input between its leading and its trailing whitespace. |
| Http.StatusText | src/models/feed.rs:184 | A status code appears in an error message as its decimal digits, which read back as the code. |
| Publishers.Planned | src/models/publishers/manager.rs:13-168 | A created publisher uses the configured template when there is one, else the default template of its type. Only X and LinkedIn are given the configuration path. |
| Publishers.CreatePublisher | src/models/publishers/manager.rs:13-168 | Builds a publisher of the configured type whose profile is `Planned` and whose fields are the configured ones. The OAuth publishers start with the configured tokens and nothing sent. |
| Publishers.Registered | src/models/publishers/manager.rs:204-207 | The publishers called are the requested ids that are registered, in order, with repeats kept. |
| Publishers.Dispatch | src/models/publishers/manager.rs:197-214 | One result per requested id, and the ids called are exactly the registered ones. |
| Publishers.DispatchSlot | src/models/publishers/manager.rs:205-210 | An unregistered id gets "Publisher not found" and calls nothing. A registered one gets the outcome of the next call, whose number counts only the registered ids before it. |
| Publishers.DispatchPrefix | src/models/publishers/manager.rs:204-211 | Sequential, in order: the results for a prefix of the ids are the prefix of the results. |
| Publishers.DispatchSnoc | src/models/publishers/manager.rs:204-211 | One more id adds one more result, and one more call iff it is registered. |
| Publishers.MissingDoesNotAffectOthers | src/models/publishers/manager.rs:205-210 | Dropping an unregistered id from the request drops its slot and leaves every other result unchanged. |
| Publishers.DropMissing | src/models/publishers/manager.rs:205-210 | Dropping an unregistered id drops its slot and calls the same publishers. |
| Publishers.PublisherManager.constructor | src/models/publishers/manager.rs:176-188 | The registry starts empty, with the configuration path given (`new` passes none). |
| Publishers.PublisherManager.AddPublisher | src/models/publishers/manager.rs:190-195 | Registers the created publisher under the id, replacing any earlier one, and leaves every other entry as it was. |
| Publishers.PublisherManager.PublishToAll | src/models/publishers/manager.rs:197-214 | The results are `Dispatch` of the registered ids. The calls made are the registered requested ids in order, and the registry is unchanged. |
| OAuth.Granted | src/models/publishers/linkedin.rs:173-185 | A refresh reply grants tokens iff it is a success carrying an `access_token`. The refresh token is the new one, or the one held when the reply has none. |
| OAuth.Refresh | src/models/publishers/linkedin.rs:145-209 | Without a refresh token it fails before any request. Otherwise it sends one grant. Only a granted reply changes the cells, to the granted pair, and a failure leaves both cells as they were. |
| OAuth.Send | src/models/publishers/linkedin.rs:374-380 | A request is appended to the requests sent, nothing else changes, and its reply is the network's answer to that request at its position. |
| OAuth.GetValid | src/models/publishers/linkedin.rs:212-232 | A held access token is returned with no request. Otherwise the result is the refresh's. A granted pair is saved when the configuration file is known, and a save never fails the call. |
| OAuth.GetValidSendsGrant | src/models/publishers/x.rs:262-282 | Getting a valid token sends at most one request, a refresh grant. |
| OAuth.PostWithRetryShape | src/models/publishers/linkedin.rs:374-466 | The post is sent first. A refresh follows iff the reply was a 401 and a refresh token is held. A retry with the new access token follows iff that refresh was granted. Any other outcome leaves the cells and saves unchanged. |
| OAuth.PostWithRetryResult | src/models/publishers/linkedin.rs:374-466 | A transport error, or a failure other than a 401, is returned as an error after the one post. A success is published with no refresh. A 401 whose refresh fails ends in an error. Any success is the reply to a post among the requests this attempt sent. |
| OAuth.PostWithRetryPosts | src/models/publishers/x.rs:353-424 | A publish attempt only appends requests, at most three, and every post among them carries the same payload. |
| XPublishing.TweetText | src/models/publishers/x.rs:325-330 | The tweet is at most 280 bytes, and a text that fits is unchanged. A longer one becomes its longest prefix within 277 bytes followed by "...". |
| XPublishing.PublishSendsTruncated | src/models/publishers/x.rs:316-446 | Every tweet a publish sends is the truncated text, at most 280 bytes. A publish sends at most four requests. |
| XPublishing.AuthRequestPairsVerifier | src/models/publishers/x.rs:55-72 | Under the "plain" PKCE method the returned verifier is the challenge the request carries, and a given state is passed on. |
| XPublishing.LookupFirst | src/models/publishers/x.rs:62-69 | A query parameter lookup finds the first pair with the key. |
| XPublishing.XPublisher.constructor | src/models/publishers/x.rs:28-52 | The redirect URI defaults to `https://127.0.0.1`. The token cells hold the configured tokens. |
| XPublishing.XPublisher.GenerateAuthUrl | src/models/publishers/x.rs:55-72 | The verifier returned is accepted by the challenge in the request. |
| XPublishing.XPublisher.RefreshAccessToken | src/models/publishers/x.rs:192-259 | The result and the new cells are those of `Refresh`. |
| XPublishing.XPublisher.SaveTokensToConfig | src/models/publishers/x.rs:285-312 | A token pair is recorded as written iff the configuration file is known. |
| XPublishing.XPublisher.GetValidAccessToken | src/models/publishers/x.rs:262-282 | The result and the new state are those of `GetValid`. |
| XPublishing.XPublisher.PostWithRetry | src/models/publishers/x.rs:347-445 | The result and the new state are those of the shared 401 refresh-and-retry. |
| XPublishing.XPublisher.Publish | src/models/publishers/x.rs:316-446 | The result and the new state are those of `PublishRun`: truncate, get a token, then post with the retry. |
| LinkedIn.AuthorUrn | src/models/publishers/linkedin.rs:325-331 | An id made only of ASCII digits, the empty id included, is an organization. Any other id is a member. |
| LinkedIn.Author | src/models/publishers/linkedin.rs:325-341 | A configured id gives its URN with no request. Without one, a single profile lookup is sent. It succeeds iff the reply is a 2xx whose body decodes with an `id`, and then the author is the member URN of that id. |
| LinkedIn.PublishWithHeldToken | src/models/publishers/linkedin.rs:302-466 | A rendering failure sends nothing. With a held token and a configured id, a publish is exactly one post attempt, with its possible refresh and retry, authored per `AuthorUrn`. |
| LinkedIn.LinkedInPublisher.constructor | src/models/publishers/linkedin.rs:28-54 | The redirect URI defaults to `https://127.0.0.1`. The token cells hold the configured tokens. |
| LinkedIn.LinkedInPublisher.RefreshAccessToken | src/models/publishers/linkedin.rs:145-209 | The result and the new cells are those of `Refresh`. |
| LinkedIn.LinkedInPublisher.SaveTokensToConfig | src/models/publishers/linkedin.rs:235-259 | A token pair is recorded as written iff the configuration file is known. |
| LinkedIn.LinkedInPublisher.GetValidAccessToken | src/models/publishers/linkedin.rs:212-232 | The result and the new state are those of `GetValid`. |
| LinkedIn.LinkedInPublisher.FindAuthor | src/models/publishers/linkedin.rs:485-512 | The result and the new state are those of `Author`. |
| LinkedIn.LinkedInPublisher.PostWithRetry | src/models/publishers/linkedin.rs:374-466 | The result and the new state are those of the shared 401 refresh-and-retry. |
| LinkedIn.LinkedInPublisher.Publish | src/models/publishers/linkedin.rs:302-468 | The result and the new state are those of `PublishRun`. |
| Bluesky.NewPublisher | src/models/publishers/bluesky.rs:20-36 | The PDS URL defaults to `https://bsky.social`. |
| Bluesky.LinkEnd | src/models/publishers/bluesky.rs:39 | A match starts with `http://` or `https://` and runs to the end of the text or to the next whitespace. |
| Bluesky.Spans | src/models/publishers/bluesky.rs:42 | The links are found leftmost first, each one a match, and they do not overlap. |
| Bluesky.SpansCover | src/models/publishers/bluesky.rs:42 | No link is missed: every position where the pattern matches lies inside a link found. |
| Bluesky.FacetsFromSpans | src/models/publishers/bluesky.rs:42-57 | The facets built during the search are the facets of the links found. |
| Bluesky.FacetIsLink | src/models/publishers/bluesky.rs:43-54 | A facet's `uri` starts with a scheme and has no whitespace, and `byteEnd - byteStart` is its UTF-8 length. |
| Bluesky.FacetsAreLinks | src/models/publishers/bluesky.rs:38-59 | Every facet is a link measured in bytes, and the facets follow one another without overlapping. |
| Bluesky.LinkIsUrl | src/models/publishers/bluesky.rs:39 | The matched text is a scheme followed by non-whitespace only. |
| Bluesky.ExtractUrlFacets | src/models/publishers/bluesky.rs:38-60 | The loop gives one facet per link, in order. |
| Bluesky.Authenticated | src/models/publishers/bluesky.rs:62-92 | A session is opened iff the reply is a success carrying both `accessJwt` and `did`. |
| Bluesky.PostText | src/models/publishers/bluesky.rs:111-116 | The post text is at most 300 bytes, and a text that fits is unchanged. A longer one becomes its longest prefix within 297 bytes followed by "...". |
| Bluesky.MakeRecord | src/models/publishers/bluesky.rs:121-132 | The facets are computed on the truncated text and attached iff there is at least one. |
| Bluesky.BuildRecord | src/models/publishers/bluesky.rs:123-132 | Building the record and then setting the facets gives `MakeRecord`. |
| Bluesky.Publish | src/models/publishers/bluesky.rs:97-163 | Authentication is sent first. The record is sent iff the session opened and the rendering succeeded, in the session's DID repository, with the session's token and the truncated text. Otherwise the publish fails. Once the record is sent, the publish succeeds iff the reply is a 2xx whose body decodes, and then it confirms "Published to Bluesky: " and the record's `uri`, or "unknown". |
| ThreadsPublishing.ThreadText | src/models/publishers/threads.rs:47-52 | The container text is at most 500 bytes, and a text that fits is unchanged. A longer one becomes its longest prefix within 497 bytes followed by "...". |
| ThreadsPublishing.PublishStepShape | src/models/publishers/threads.rs:101-157 | The publish request is sent once. It is sent a second time, after 3 s, iff the first failed with a body saying the container is missing. The step succeeds iff the last reply is a 2xx whose body decodes, and then it confirms the id ("unknown" when absent), after "Published to Threads: ", or after "Published to Threads (retry): " on the second send. Every other ending is an error. |
| ThreadsPublishing.PublishShape | src/models/publishers/threads.rs:33-158 | The container is created first with the truncated text. Only a created container with an id is published, 2 s later, for that id. A failure before that ends the publish. The publish is sent at most twice, the second time only after a "missing container" failure. A failed or id-less container creation is an error. Past it, the publish succeeds iff its last reply is a 2xx whose body decodes, with the first-send or retry confirmation of the published id. |
| TelegramPublishing.ThreadId | src/models/publishers/telegram.rs:70-80 | A topic is selected iff the configured value parses as an i64 greater than 0. Any other value is ignored. |
| TelegramPublishing.ThreadIdOfDecimal | src/models/publishers/telegram.rs:70-75 | Every positive i64 topic id written in decimal is selected. |
| TelegramPublishing.BuildPayload | src/models/publishers/telegram.rs:62-80 | The payload has the base fields with link previews enabled, plus the topic exactly when `ThreadId` selects one. |
| TelegramPublishing.Request | src/models/publishers/telegram.rs:55-67 | A message over 4096 bytes is refused. Otherwise the request carries the message and the selected topic. |
| TelegramPublishing.Publish | src/models/publishers/telegram.rs:43-99 | A rendering failure or a message over 4096 bytes sends nothing. The publish succeeds iff the reply is a success whose `message_id` decodes, and the confirmation names that id. |
| YouTube.FirstUploads | src/models/youtube.rs:140-159 | A lookup yields the first item's uploads playlist, and fails with the lookup's own message when the item list is empty. |
| YouTube.ResolvePlaylistId | src/models/youtube.rs:114-126 | The direct playlist id wins. Then the channel id's uploads playlist. With only a username, the username lookup's uploads-playlist id is passed as the channel id of a second lookup, and that lookup's uploads playlist (or its error) is the result. With none of them it fails with "Must specify channel_id, playlist_id, or username". |
| YouTube.LookupRequests | src/models/youtube.rs:114-126 | At most two lookups precede the playlist read, and none when the playlist id is given. |
| YouTube.FetchCount | src/models/youtube.rs:168 | The count requested is max(max_results, 50). |
| YouTube.VideoIdOf | src/models/youtube.rs:193-197 | The video id is the resource id when present, else the item id in either form. |
| YouTube.PlaylistPostsProps | src/models/youtube.rs:191-247 | Every post is built from a kept item. The list fails exactly when some kept item's date is not RFC 3339. |
| YouTube.PlaylistPostsCount | src/models/youtube.rs:207-246 | The kept items and the posts correspond one to one, in order, with the same id and title. |
| YouTube.KeptVideos | src/models/youtube.rs:208-228 | No private, deleted, untitled or id-less video is kept. |
| YouTube.PlaylistResultSorted | src/models/youtube.rs:249-250 | A successful playlist read is sorted newest first, and every post is a video post. |
| YouTube.FetchPlaylistVideos | src/models/youtube.rs:162-259 | Requests max(max_results, 50) items of the playlist. The result is the kept videos as posts, newest first. |
| YouTube.FetchChannelVideos | src/models/youtube.rs:110-130 | The lookups, then the playlist read with max_results defaulting to 10. The result is sorted newest first and made of video posts. |
| App.FirstUnknown | src/main.rs:414-421 | The first publisher id of a feed that is not configured, or none iff all are. |
| App.FirstBadReferenceProps | src/main.rs:413-423 | A bad reference is reported iff some feed names an unknown publisher. The one reported is the first such feed with its first unknown id. |
| App.ValidateConfig | src/main.rs:403-427 | Succeeds iff there is a feed, there is a publisher, and every publisher a feed names is configured. The errors come in that order, with the source's messages. |
| App.Successes | src/main.rs:336-349 | The success count is positive iff some publisher succeeded. |
| App.Entries | src/main.rs:333-349 | One ledger entry per publisher id. |
| App.EntriesProps | src/main.rs:333-349 | Entry i carries publisher i's id, whether it succeeded, and its message or its error. The entries hold a success iff some publisher succeeded. |
| App.RecordSucceeded | src/main.rs:351-365 | A post's record shows a success iff its entries count one. |
| App.FeedStepDispatching | src/main.rs:278-305 | A fetched feed with posts, known and with publishers, has its posts processed after they are counted. |
| App.FeedStepNotDispatching | src/main.rs:278-303 | Any other feed result only adds its posts to `total_new_posts`. |
| App.SweepCountsNewPosts | src/main.rs:286 | `total_new_posts` counts every post every fetched feed returned, including posts already recorded and posts of skipped feeds. |
| App.PostStepExtends | src/main.rs:305-365 | A post already in the ledger, or any post in a dry run, changes nothing. Any other post gains exactly one record, with one entry per publisher id in order. It counts as published iff some publisher succeeded. |
| App.SweepExtends | src/main.rs:278-375 | Over a cycle the ledger only grows at its end. `total_published` grows by exactly the number of new records with a success, and a post whose every publisher failed is recorded all the same. |
| App.SweepNoDuplicates | src/main.rs:307-315 | A post already in the ledger is neither sent nor recorded again, so a ledger without duplicates stays so. |
| App.DryRunChangesNothing | src/main.rs:319-326 | In a dry run nothing is sent, recorded or counted as published. Only `total_new_posts` moves. |
| App.SweepIgnoresCount | src/main.rs:286 | What a cycle sends and records does not depend on `total_new_posts`. |
| App.SweepAppend | src/main.rs:278-375 | Processing two lists of feed results in a row is processing their concatenation. |
| App.SkippedFeedAffectsNoOther | src/main.rs:278-303 | A failed fetch, an empty result, an unknown feed or a feed without publishers does not affect the others. Without it the cycle sends, records and counts as published exactly the same. |
| App.Tabulate | src/main.rs:333-349 | The loop builds `Entries` and counts `Successes`. |
| App.ProcessPost | src/main.rs:305-369 | The counters, the ledger and the calls after one post are those of `PostStep`. |
| App.ProcessPosts | src/main.rs:305-369 | The same for a feed's posts, as `PostsStep`. |
| App.Recipients | src/main.rs:279-303 | A feed result goes to publishers exactly when the fetch succeeded with new posts and the feed is known and has publishers, and then to that feed's own publisher list. |
| App.ProcessFeed | src/main.rs:279-374 | The same for one feed result, as `FeedStep`. |
| App.RunFeedCheck | src/main.rs:259-401 | The results, the feeds fetched and the feeds' new states are those of `CheckAllFeeds`, each feed's due check reading the clock anew and each due feed running its own `FetchRun`. The ledger, the calls and both counters are those of `Sweep` over those results, each record stamped with its own clock reading. The ledger is saved unless in a dry run, and the cache of the new feed states is saved every cycle. |
| App.ProcessResults | src/main.rs:278-375 | The loop over the feed results leaves the counters, the ledger and the calls as `Sweep` does, and changes no feed. |
| App.ProcessAndSave | src/main.rs:278-401 | Processing the results and saving: `Sweep`'s ledger, calls and counters, the ledger saved unless in a dry run, and the feed cache saved. |

## Left out

- HTTP, JSON decoding, the RSS and Atom parsers, the MD5 digest, RFC 2822 and RFC 3339 date parsing, and URL query encoding. Each is an input: a reply value or an oracle function. The same goes for UUID generation in `generate_auth_url`.
- Template rendering (`TemplateRenderer::render`): every publisher receives the rendered text, or the rendering error, as an input. The filters themselves are modelled.
- The clock: every reading is an input, in whole seconds since the epoch. Sub-second precision is dropped. Each feed's `should_check` in a sweep gets its own reading (`clock[i]` of `Feeds.FeedManager.CheckAllFeeds`, `Feeds.CheckAll` and `App.RunFeedCheck`), each fetch attempt its own for the check time (`now` of `Feeds.AttemptInput`), each converted item without a usable date its own (`itemNow(i)` of `Feeds.AttemptInput`), and each ledger record its own (`stamp` of `App.Context`). No order is imposed on the readings, so a wall clock that steps back is covered too.
- Posts.RecordOf: `PublishedPost::add_result` reads the clock again for each publisher result. The model stamps every result of a record with the record's own reading.
- `tokio::time::sleep`: the retry delays are returned as values, and the Threads waits are `Wait` actions. Nothing waits. The 2 s pause between posts in `run_feed_check` is not represented.
- `Arc<Mutex<...>>` and async/await: a cycle is sequential, so the token cells, the ledger and the feed registry are plain fields.
- Logging, the CLI, the cron scheduler and the Ctrl-C handling in src/main.rs, and the interactive OAuth setup (`oauth_setup`, `exchange_code_for_tokens`). src/storage.rs (file I/O) is not part of this model. Saving is recorded as an event: the `saves` field of an OAuth publisher, and the report of `RunFeedCheck`.
- Mastodon, Matrix and OpenObserve publishing are plain HTTP wrappers: their created publisher keeps its configuration and template, and the fan-out takes their result from the `Outcomes` oracle, as it does for every publisher.
- Publishers.CreatePublisher: requires a non-Discord configuration, because `create_publisher_with_config_path` has no arm for the Discord variant, and no Discord behaviour is invented. No arm returns an error either, so the "creation error leaves the map unchanged" path of `add_publisher` has no counterpart.
- Publishers.PublisherManager.AddPublisher: the same Discord restriction.
- Feeds.Feed.FetchPosts: the delays are unbounded integers. `base * 2^attempt` in `u64` would overflow (a panic in debug builds) for large retry counts or bases.
- Posts.PublishedPostsStorage.CleanupOldPosts: `Utc::now() - Duration::days(n)` panics once the cutoff leaves chrono's date range, which lies about 9.6×10^7 days (some 262 000 years) before today. The model has no such range: for every day count up to what `chrono::Duration::days` accepts (at most 106751991167, the `KeepDays` type) it computes the cutoff and retains by it. The panic, and the wrap-around of the `u64 as i64` cast for larger counts, are not modelled.
- XPublishing.PublishSendsTruncated: bounds the requests of a publish by four and pins the tweet text. The exact order of grant, save and retry is stated once, in `OAuth.PostWithRetryShape`, and is not repeated here.
- The publishers use `Text.ByteTruncate`, the corrected truncation (see Findings). The panic of the code as written is modelled separately in `Text.ByteTruncateAsWritten`.
- Telegram reports `result.message_id` as the JSON text of whatever value is there (`null` when absent). The model takes that text from the reply.
- Http.StatusText: error messages carry only the numeric status code. The `Display` of a status code adds its canonical reason phrase ("404 Not Found"); that table is not part of this model, so every message built from a status lacks that phrase.
- Text.Trim: its own contract states only the two ends. That it is the input's slice between its outer whitespace is stated by `Text.TrimIsSlice`.
- App.Entries: its own contract gives only the number of entries. The content of each entry is stated by `App.EntriesProps`.
- YouTube's published dates: the RFC 3339 parser is an oracle that yields the instant or the text of its parse error, and that text is passed through as the error message.
- YouTube's `sort_by` and the feeds' sorts are a stable insertion sort on sequences, not an in-place sort of a vector. Stability is proved (`Chronology.SortByStable`).

## Findings

| source | as written | input that shows it | evidently intended | confidence | as-written member | corrected member |
|---|---|---|---|---|---|---|
| src/models/publishers/x.rs:326-330 | A text over 280 bytes is cut with `&text[..277]`, a byte slice that panics when byte 277 is not a character boundary. Bluesky (`bluesky.rs:112-116`, 297 bytes) and Threads (`threads.rs:48-52`, 497 bytes) do the same. | 276 ASCII letters, then "é", then 10 letters (288 bytes): byte 277 falls inside the "é". | Keep the longest prefix within 277 (297, 497) bytes and append "...": never split a character, and stay within the limit. | not executed | Text.ByteTruncatePanicsX | Text.ByteTruncate |
