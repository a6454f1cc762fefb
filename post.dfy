/** Posts taken from feed entries, and the ledger of posts already sent to
    the publishers. Times are seconds since the Unix epoch; the current time
    is always a parameter. */
module Posts {
  import opened Wrappers

  datatype Post = Post(
    guid: string,
    title: string,
    description: Option<string>,
    link: string,
    published: int,
    feedId: string)

  /** A date field of a feed entry: its text and, when that text is a valid
      date of section 3.3 of RFC 2822, the instant it denotes. Parsing the
      date is done by the date library and is given here. */
  datatype RawDate = RawDate(text: string, rfc2822: Option<int>)

  /** An item of an RSS channel, as the RSS parser delivers it. */
  datatype RssItem = RssItem(
    title: Option<string>,
    link: Option<string>,
    guid: Option<string>,
    description: Option<string>,
    pubDate: Option<RawDate>)

  /** The content element of an Atom/feed entry, with its optional body. */
  datatype Content = Content(body: Option<string>)

  /** An entry of a feed as the general feed parser delivers it: title text,
      the hrefs of its links in order, id, content, summary text and dates. */
  datatype FeedEntry = FeedEntry(
    title: Option<string>,
    links: seq<string>,
    id: string,
    content: Option<Content>,
    summary: Option<string>,
    published: Option<int>,
    updated: Option<int>)

  /** `Post::extract_rss_description`: the item's description when it is not
      empty. */
  function ExtractRssDescription(item: RssItem): (r: Option<string>)
    ensures r.Some? <==> item.description.Some? && item.description.value != ""
    ensures r.Some? ==> r == item.description
  {
    match item.description
    case Some(desc) => if desc != "" then Some(desc) else None
    case None => None
  }

  /** `Post::from_rss_item`: title defaults to "Untitled", link to "" and
      guid to the link; a missing or unparsable date becomes `now`. The item
      is rejected when its guid, title or link ends up empty. */
  function FromRssItem(item: RssItem, feedId: string, now: int): (r: Option<Post>)
    ensures var title := item.title.GetOr("Untitled");
      var link := item.link.GetOr("");
      var guid := item.guid.GetOr(link);
      && (r.None? <==> guid == "" || title == "" || link == "")
      && (r.Some? ==> r.value.guid == guid && r.value.title == title && r.value.link == link
                      && r.value.feedId == feedId
                      && r.value.description == ExtractRssDescription(item))
    ensures r.Some? && (item.pubDate.None? || item.pubDate.value.rfc2822.None?) ==> r.value.published == now
    ensures r.Some? && item.pubDate.Some? && item.pubDate.value.rfc2822.Some? ==>
      r.value.published == item.pubDate.value.rfc2822.value
  {
    var title := item.title.GetOr("Untitled");
    var link := item.link.GetOr("");
    var guid := item.guid.GetOr(link);
    var description := ExtractRssDescription(item);
    var published :=
      match item.pubDate
      case Some(d) => d.rfc2822.GetOr(now)
      case None => now;
    if guid != "" && title != "" && link != "" then
      Some(Post(guid, title, description, link, published, feedId))
    else
      None
  }

  /** `Post::extract_description`: the content body when present and not
      empty, else the summary when not empty, else nothing. */
  function ExtractDescription(entry: FeedEntry): (r: Option<string>)
    ensures r.Some? ==> r.value != ""
    ensures entry.content.Some? && entry.content.value.body.Some? && entry.content.value.body.value != "" ==>
      r == entry.content.value.body
    ensures r.None? <==>
      (entry.content.None? || entry.content.value.body.None? || entry.content.value.body.value == "")
      && (entry.summary.None? || entry.summary.value == "")
    ensures r.Some? && r != entry.content.GetOr(Content(None)).body ==> r == entry.summary
  {
    if entry.content.Some? && entry.content.value.body.Some? && entry.content.value.body.value != "" then
      entry.content.value.body
    else if entry.summary.Some? && entry.summary.value != "" then
      entry.summary
    else
      None
  }

  /** `Post::from_feed_item`: rejected when it has no title or no link, or
      when its id, title or first link is empty; the date is the published
      date, else the updated date, else `now`. */
  function FromFeedItem(entry: FeedEntry, feedId: string, now: int): (r: Option<Post>)
    ensures r.None? <==>
      entry.title.None? || entry.links == [] || entry.id == "" || entry.title.value == "" || entry.links[0] == ""
    ensures r.Some? ==>
      && r.value.guid == entry.id && r.value.title == entry.title.value && r.value.link == entry.links[0]
      && r.value.feedId == feedId && r.value.description == ExtractDescription(entry)
      && r.value.published == (if entry.published.Some? then entry.published.value
                               else entry.updated.GetOr(now))
  {
    if entry.title.None? || entry.links == [] then None
    else
      var title := entry.title.value;
      var link := entry.links[0];
      var guid := entry.id;
      var description := ExtractDescription(entry);
      var published := match entry.published
        case Some(t) => t
        case None => entry.updated.GetOr(now);
      if guid != "" && title != "" && link != "" then
        Some(Post(guid, title, description, link, published, feedId))
      else
        None
  }

  /** What one publisher reported for a post. */
  datatype PublisherResult = PublisherResult(publisherId: string, success: bool, message: string, publishedAt: int)

  /** A post that was sent to its publishers, with their results. */
  datatype PublishedPost = PublishedPost(postGuid: string, feedId: string, publishedAt: int,
                                         publisherResults: seq<PublisherResult>)

  /** Whether a record is the record of `post`: same guid and same feed. */
  predicate Records(rec: PublishedPost, post: Post) {
    rec.postGuid == post.guid && rec.feedId == post.feedId
  }

  /** Whether some record of `records` is the record of `post`. */
  function AnyRecords(records: seq<PublishedPost>, post: Post): (b: bool)
    ensures b <==> exists i | 0 <= i < |records| :: Records(records[i], post)
  {
    if records == [] then false
    else Records(records[0], post) || AnyRecords(records[1..], post)
  }

  /** The number of records of feed `feedId`. */
  function CountFeed(records: seq<PublishedPost>, feedId: string): (n: nat)
    ensures n <= |records|
    ensures n == 0 <==> forall i | 0 <= i < |records| :: records[i].feedId != feedId
  {
    if records == [] then 0
    else (if records[0].feedId == feedId then 1 else 0) + CountFeed(records[1..], feedId)
  }

  lemma {:induction false} CountFeedAppend(a: seq<PublishedPost>, b: seq<PublishedPost>, feedId: string)
    ensures CountFeed(a + b, feedId) == CountFeed(a, feedId) + CountFeed(b, feedId)
  {
    if a == [] {
      assert a + b == b;
    } else {
      assert (a + b)[1..] == a[1..] + b;
      CountFeedAppend(a[1..], b, feedId);
    }
  }

  /** The records kept by a cleanup: those published strictly after `cutoff`,
      in their order. */
  function Retained(records: seq<PublishedPost>, cutoff: int): (r: seq<PublishedPost>)
    ensures |r| <= |records|
    ensures forall i | 0 <= i < |r| :: r[i].publishedAt > cutoff && r[i] in records
    ensures forall i | 0 <= i < |records| && records[i].publishedAt > cutoff :: records[i] in r
  {
    if records == [] then []
    else
      var rest := Retained(records[..|records| - 1], cutoff);
      var last := records[|records| - 1];
      assert forall i | 0 <= i < |records| - 1 :: records[..|records| - 1][i] == records[i];
      if last.publishedAt > cutoff then rest + [last] else rest
  }

  /** No two records are the record of the same post. */
  predicate NoDuplicates(records: seq<PublishedPost>) {
    forall i, j | 0 <= i < j < |records| ::
      !(records[i].postGuid == records[j].postGuid && records[i].feedId == records[j].feedId)
  }

  /** The record that `mark_published` appends for `post`. */
  function RecordOf(post: Post, results: seq<(string, bool, string)>, now: int): (rec: PublishedPost)
    ensures Records(rec, post)
  {
    PublishedPost(post.guid, post.feedId, now,
                  seq(|results|, i requires 0 <= i < |results| =>
                        PublisherResult(results[i].0, results[i].1, results[i].2, now)))
  }

  /** Recording a post that is not yet recorded keeps the ledger free of
      duplicates, and the post is then recorded. */
  lemma MarkPublishedKeepsNoDuplicates(records: seq<PublishedPost>, post: Post, rec: PublishedPost)
    requires NoDuplicates(records) && !AnyRecords(records, post) && Records(rec, post)
    ensures NoDuplicates(records + [rec])
    ensures AnyRecords(records + [rec], post)
  {
    var s := records + [rec];
    assert Records(s[|records|], post);
  }

  /** Cleaning up never creates duplicates and never makes a post recorded. */
  lemma {:induction false} RetainedKeepsNoDuplicates(records: seq<PublishedPost>, cutoff: int, post: Post)
    requires NoDuplicates(records)
    ensures NoDuplicates(Retained(records, cutoff))
    ensures AnyRecords(Retained(records, cutoff), post) ==> AnyRecords(records, post)
  {
    if records != [] {
      var init := records[..|records| - 1];
      var last := records[|records| - 1];
      assert NoDuplicates(init) by {
        forall i, j | 0 <= i < j < |init| ensures !(init[i].postGuid == init[j].postGuid && init[i].feedId == init[j].feedId) {
          assert init[i] == records[i] && init[j] == records[j];
        }
      }
      RetainedKeepsNoDuplicates(init, cutoff, post);
      var rest := Retained(init, cutoff);
      if last.publishedAt > cutoff {
        var r := rest + [last];
        forall i, j | 0 <= i < j < |r| ensures !(r[i].postGuid == r[j].postGuid && r[i].feedId == r[j].feedId) {
          if j == |rest| {
            assert r[i] in init;
            var k :| 0 <= k < |init| && init[k] == r[i];
            assert records[k] == r[i] && records[|records| - 1] == r[j];
          } else {
            assert r[i] == rest[i] && r[j] == rest[j];
          }
        }
      }
    }
  }

  /** The ledger of published posts (`PublishedPostsStorage`). Records are
      only ever appended, or dropped by a cleanup. */
  class PublishedPostsStorage {
    var posts: seq<PublishedPost>

    constructor ()
      ensures posts == []
    {
      posts := [];
    }

    /** `is_published`: some record has the post's guid and feed id. */
    function IsPublished(post: Post): (b: bool)
      reads this
      ensures b <==> exists i | 0 <= i < |posts| :: posts[i].postGuid == post.guid && posts[i].feedId == post.feedId
    {
      AnyRecords(posts, post)
    }

    /** `mark_published`: append one record for the post, carrying one
        publisher result per entry of `results`, in their order. Nothing is
        deduplicated and the earlier records are untouched. */
    method MarkPublished(post: Post, results: seq<(string, bool, string)>, now: int)
      modifies this
      ensures posts == old(posts) + [RecordOf(post, results, now)]
      ensures |posts[|posts| - 1].publisherResults| == |results|
      ensures forall i | 0 <= i < |results| ::
        var pr := posts[|posts| - 1].publisherResults[i];
        pr.publisherId == results[i].0 && pr.success == results[i].1 && pr.message == results[i].2
    {
      var publisherResults: seq<PublisherResult> := [];
      for i := 0 to |results|
        invariant |publisherResults| == i
        invariant forall k | 0 <= k < i ::
          publisherResults[k] == PublisherResult(results[k].0, results[k].1, results[k].2, now)
      {
        var (publisherId, success, message) := results[i];
        publisherResults := publisherResults + [PublisherResult(publisherId, success, message, now)];
      }
      assert publisherResults == RecordOf(post, results, now).publisherResults;
      posts := posts + [PublishedPost(post.guid, post.feedId, now, publisherResults)];
    }

    /** `get_published_count`: the number of records of the feed. */
    function PublishedCount(feedId: string): (n: nat)
      reads this
      ensures n <= |posts|
      ensures n == 0 <==> forall i | 0 <= i < |posts| :: posts[i].feedId != feedId
    {
      CountFeed(posts, feedId)
    }

    /** `cleanup_old_posts`: keep exactly the records published strictly
        after `now` minus `daysToKeep` days, in their order. */
    method CleanupOldPosts(daysToKeep: KeepDays, now: int)
      modifies this
      ensures posts == Retained(old(posts), now - daysToKeep * 86400)
    {
      var cutoff := now - daysToKeep * 86400;
      var kept: seq<PublishedPost> := [];
      for i := 0 to |posts|
        invariant kept == Retained(posts[..i], cutoff)
      {
        assert posts[..i + 1][..i] == posts[..i];
        if posts[i].publishedAt > cutoff {
          kept := kept + [posts[i]];
        }
      }
      assert posts[..|posts|] == posts;
      posts := kept;
    }
  }

  /** `Duration::days` accepts day counts up to about 1.07e11 (its bound is
      `i64::MAX` milliseconds); a larger count panics. */
  type KeepDays = d: nat | d <= 106751991167

  /** Marking a post adds one to its feed's count and leaves every other
      feed's count unchanged. */
  lemma MarkPublishedCount(records: seq<PublishedPost>, rec: PublishedPost, feedId: string)
    ensures CountFeed(records + [rec], feedId) == CountFeed(records, feedId) + (if rec.feedId == feedId then 1 else 0)
  {
    CountFeedAppend(records, [rec], feedId);
    assert [rec][1..] == [];
  }

  /** Cleaning up twice with the same cutoff is the same as once. */
  lemma {:induction false} RetainedIdempotent(records: seq<PublishedPost>, cutoff: int)
    ensures Retained(Retained(records, cutoff), cutoff) == Retained(records, cutoff)
  {
    if records != [] {
      var init := records[..|records| - 1];
      var last := records[|records| - 1];
      RetainedIdempotent(init, cutoff);
      var rest := Retained(init, cutoff);
      if last.publishedAt > cutoff {
        var r := rest + [last];
        assert r[..|r| - 1] == rest;
      }
    }
  }
}
