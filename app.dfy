/** The application's cycle: the configuration check done at start-up and
    the feed-check cycle, which fetches the due feeds, sends every post not
    yet in the ledger to the feed's publishers, records it, and saves the
    ledger and the feed cache. Saving is recorded in the cycle's report;
    logging and the pause between posts are not modelled. */
module App {
  import opened Wrappers
  import opened Config
  import opened Posts
  import opened Feeds
  import opened Publishers

  // ---------------------------------------------------------------------
  // validate_config
  // ---------------------------------------------------------------------

  /** The first id of `ids` that is not `known`. */
  function FirstUnknown(ids: seq<string>, known: set<string>): (r: Option<string>)
    ensures r.None? <==> forall j | 0 <= j < |ids| :: ids[j] in known
    ensures r.Some? ==> (r.value !in known
      && exists j | 0 <= j < |ids| :: ids[j] == r.value && forall j' | 0 <= j' < j :: ids[j'] in known)
  {
    if ids == [] then None
    else if ids[0] !in known then Some(ids[0])
    else
      var r := FirstUnknown(ids[1..], known);
      assert forall j | 1 <= j < |ids| :: ids[j] == ids[1..][j - 1];
      if r.Some? then
        var j :| 0 <= j < |ids[1..]| && ids[1..][j] == r.value && forall j' | 0 <= j' < j :: ids[1..][j'] in known;
        assert ids[j + 1] == r.value;
        r
      else r
  }

  /** The first feed, in order, that names a publisher that is not
      configured, with the first such publisher. */
  function FirstBadReference(feeds: seq<FeedConfig>, known: set<string>): Option<(string, string)> {
    if feeds == [] then None
    else
      var first := FirstUnknown(feeds[0].publishers, known);
      if first.Some? then Some((feeds[0].id, first.value))
      else FirstBadReference(feeds[1..], known)
  }

  /** There is a bad reference exactly when some feed names an unknown
      publisher, and the one reported is the first such feed's first. */
  lemma {:induction false} FirstBadReferenceProps(feeds: seq<FeedConfig>, known: set<string>)
    ensures var r := FirstBadReference(feeds, known);
      && (r.None? <==> forall i, j | 0 <= i < |feeds| && 0 <= j < |feeds[i].publishers| :: feeds[i].publishers[j] in known)
      && (r.Some? ==> exists i | 0 <= i < |feeds| ::
            feeds[i].id == r.value.0 && FirstUnknown(feeds[i].publishers, known) == Some(r.value.1)
            && forall i' | 0 <= i' < i :: FirstUnknown(feeds[i'].publishers, known).None?)
  {
    if feeds != [] && FirstUnknown(feeds[0].publishers, known).None? {
      FirstBadReferenceProps(feeds[1..], known);
      assert forall i | 1 <= i < |feeds| :: feeds[i] == feeds[1..][i - 1];
      var r := FirstBadReference(feeds[1..], known);
      if r.Some? {
        var i :| 0 <= i < |feeds[1..]| && feeds[1..][i].id == r.value.0
                 && FirstUnknown(feeds[1..][i].publishers, known) == Some(r.value.1)
                 && forall i' | 0 <= i' < i :: FirstUnknown(feeds[1..][i'].publishers, known).None?;
        assert feeds[i + 1] == feeds[1..][i];
      }
    }
  }

  /** `validate_config`: there is a feed, there is a publisher, and every
      publisher a feed names is configured; the first failing check, in that
      order, gives the error. */
  function ValidateConfig(config: AppConfig): (r: Result<()>)
    ensures r.Ok? <==> (|config.feeds| > 0 && |config.publishers| > 0
      && forall i, j | 0 <= i < |config.feeds| && 0 <= j < |config.feeds[i].publishers| ::
           config.feeds[i].publishers[j] in config.publishers)
    ensures config.feeds == [] ==> r == Err("No feeds configured")
    ensures config.feeds != [] && config.publishers == map[] ==> r == Err("No publishers configured")
    ensures config.feeds != [] && config.publishers != map[] && r.Err? ==>
      var bad := FirstBadReference(config.feeds, config.publishers.Keys);
      bad.Some? && r.msg == "Feed '" + bad.value.0 + "' references non-existent publisher '" + bad.value.1 + "'"
  {
    FirstBadReferenceProps(config.feeds, config.publishers.Keys);
    if config.feeds == [] then Err("No feeds configured")
    else if |config.publishers| == 0 then Err("No publishers configured")
    else
      match FirstBadReference(config.feeds, config.publishers.Keys)
      case Some((feedId, publisherId)) =>
        Err("Feed '" + feedId + "' references non-existent publisher '" + publisherId + "'")
      case None => Ok(())
  }

  // ---------------------------------------------------------------------
  // run_feed_check, as a value
  // ---------------------------------------------------------------------

  /** What the cycle reads but does not change: the feeds (for their
      publisher lists), the registered publisher ids, the dry-run flag, the
      publishers' outcomes and the clock. `PublishedPost::new` reads the
      clock for each record it makes; `stamp(k)` is that reading for the
      record that lands at position `k` of the ledger. */
  datatype Context = Context(feeds: seq<Feed>, registered: set<string>, dryRun: bool, outcome: Outcomes,
                             stamp: nat -> int)

  /** The cycle's running state: the two counters, the ledger's records and
      the number of publish calls made so far. */
  datatype Tally = Tally(newPosts: nat, published: nat, records: seq<PublishedPost>, calls: nat)

  /** One ledger entry per publisher id: the id, whether it succeeded and its
      message or error text. */
  function Entries(ids: seq<string>, rs: seq<Result<string>>): (e: seq<(string, bool, string)>)
    requires |ids| == |rs|
    ensures |e| == |ids|
  {
    seq(|ids|, i requires 0 <= i < |ids| => (ids[i], rs[i].Ok?, if rs[i].Ok? then rs[i].value else rs[i].msg))
  }

  /** The number of successful entries. */
  function Successes(entries: seq<(string, bool, string)>): (n: nat)
    ensures n <= |entries|
    ensures n > 0 <==> exists i | 0 <= i < |entries| :: entries[i].1
  {
    if entries == [] then 0
    else
      var n := Successes(entries[..|entries| - 1]);
      assert forall i | 0 <= i < |entries| - 1 :: entries[..|entries| - 1][i] == entries[i];
      n + if entries[|entries| - 1].1 then 1 else 0
  }

  /** Entry `i` carries publisher `i`'s id, whether it succeeded and its
      message or error text; so the entries hold a success exactly when
      some publisher succeeded. */
  lemma EntriesProps(ids: seq<string>, rs: seq<Result<string>>)
    requires |ids| == |rs|
    ensures var e := Entries(ids, rs);
      && (forall i | 0 <= i < |ids| ::
            && e[i].0 == ids[i] && (e[i].1 <==> rs[i].Ok?)
            && e[i].2 == (if rs[i].Ok? then rs[i].value else rs[i].msg))
      && (Successes(e) > 0 <==> exists i | 0 <= i < |rs| :: rs[i].Ok?)
  {
    var e := Entries(ids, rs);
    if exists i | 0 <= i < |rs| :: rs[i].Ok? {
      var i :| 0 <= i < |rs| && rs[i].Ok?;
      assert e[i].1;
    }
  }

  /** One post of a feed whose publishers are `ids`: skipped when the ledger
      has it or in a dry run; otherwise sent to every publisher and recorded
      with one entry per publisher, and counted as published when some
      publisher succeeded. */
  function PostStep(ctx: Context, t: Tally, ids: seq<string>, post: Post): Tally {
    if AnyRecords(t.records, post) || ctx.dryRun then t
    else
      var (rs, called) := Dispatch(ctx.registered, ids, post, ctx.outcome, t.calls);
      var entries := Entries(ids, rs);
      Tally(t.newPosts, t.published + (if Successes(entries) > 0 then 1 else 0),
            t.records + [RecordOf(post, entries, ctx.stamp(|t.records|))], t.calls + |called|)
  }

  /** The posts of one feed, in order. */
  function PostsStep(ctx: Context, t: Tally, ids: seq<string>, posts: seq<Post>): Tally {
    if posts == [] then t
    else PostStep(ctx, PostsStep(ctx, t, ids, posts[..|posts| - 1]), ids, posts[|posts| - 1])
  }

  /** The publishers of the first feed with the id, if there is one. */
  function PublishersOf(ctx: Context, feedId: string): Option<seq<string>> {
    match FindFeed(ctx.feeds, feedId)
    case Some(feed) => Some(feed.config.publishers)
    case None => None
  }

  /** One feed's result: a failed fetch or an empty list is skipped; new posts
      are counted; then a feed that is not found or has no publishers is
      skipped, and otherwise its posts are processed. */
  function FeedStep(ctx: Context, t: Tally, entry: (string, Result<seq<Post>>)): Tally {
    match entry.1
    case Err(_) => t
    case Ok(posts) =>
      if posts == [] then t
      else
        var counted := t.(newPosts := t.newPosts + |posts|);
        match PublishersOf(ctx, entry.0)
        case None => counted
        case Some(ids) => if ids == [] then counted else PostsStep(ctx, counted, ids, posts)
  }

  /** The feed results of a cycle, in order. */
  function Sweep(ctx: Context, t: Tally, results: seq<(string, Result<seq<Post>>)>): Tally {
    if results == [] then t
    else FeedStep(ctx, Sweep(ctx, t, results[..|results| - 1]), results[|results| - 1])
  }

  /** Whether the cycle sends a feed result's posts: the fetch succeeded
      with posts and the feed is known and has publishers. */
  predicate Dispatches(ctx: Context, entry: (string, Result<seq<Post>>)) {
    entry.1.Ok? && entry.1.value != [] && PublishersOf(ctx, entry.0).Some? && PublishersOf(ctx, entry.0).value != []
  }

  lemma FeedStepDispatching(ctx: Context, t: Tally, entry: (string, Result<seq<Post>>))
    requires Dispatches(ctx, entry)
    ensures FeedStep(ctx, t, entry)
      == PostsStep(ctx, t.(newPosts := t.newPosts + |entry.1.value|), PublishersOf(ctx, entry.0).value, entry.1.value)
  {
  }

  lemma FeedStepNotDispatching(ctx: Context, t: Tally, entry: (string, Result<seq<Post>>))
    requires !Dispatches(ctx, entry)
    ensures FeedStep(ctx, t, entry) == t.(newPosts := t.newPosts + if entry.1.Ok? then |entry.1.value| else 0)
  {
  }

  // ---------------------------------------------------------------------
  // Properties of the cycle
  // ---------------------------------------------------------------------

  /** The number of posts in the successful, non-empty feed results. */
  function NewCount(results: seq<(string, Result<seq<Post>>)>): nat {
    if results == [] then 0
    else
      var last := results[|results| - 1].1;
      NewCount(results[..|results| - 1]) + if last.Ok? then |last.value| else 0
  }

  lemma {:induction false} PostsStepKeepsCount(ctx: Context, t: Tally, ids: seq<string>, posts: seq<Post>)
    ensures PostsStep(ctx, t, ids, posts).newPosts == t.newPosts
  {
    if posts != [] {
      PostsStepKeepsCount(ctx, t, ids, posts[..|posts| - 1]);
    }
  }

  lemma FeedStepCount(ctx: Context, s: Tally, entry: (string, Result<seq<Post>>))
    ensures FeedStep(ctx, s, entry).newPosts == s.newPosts + if entry.1.Ok? then |entry.1.value| else 0
  {
    if Dispatches(ctx, entry) {
      FeedStepDispatching(ctx, s, entry);
      PostsStepKeepsCount(ctx, s.(newPosts := s.newPosts + |entry.1.value|), PublishersOf(ctx, entry.0).value, entry.1.value);
    } else {
      FeedStepNotDispatching(ctx, s, entry);
    }
  }

  /** `total_new_posts` counts every post every fetched feed returned,
      including posts already in the ledger and posts of feeds that are then
      skipped. */
  lemma {:induction false} SweepCountsNewPosts(ctx: Context, t: Tally, results: seq<(string, Result<seq<Post>>)>)
    ensures Sweep(ctx, t, results).newPosts == t.newPosts + NewCount(results)
  {
    if results != [] {
      var init := results[..|results| - 1];
      SweepCountsNewPosts(ctx, t, init);
      FeedStepCount(ctx, Sweep(ctx, t, init), results[|results| - 1]);
    }
  }

  /** Whether some publisher succeeded for the record. */
  predicate Succeeded(rec: PublishedPost) {
    exists i | 0 <= i < |rec.publisherResults| :: rec.publisherResults[i].success
  }

  /** The number of records for which some publisher succeeded. */
  function SucceededCount(records: seq<PublishedPost>): nat {
    if records == [] then 0
    else SucceededCount(records[..|records| - 1]) + if Succeeded(records[|records| - 1]) then 1 else 0
  }

  /** `u` extends `t`: the ledger only grew at its end, publish calls were
      only added, and `total_published` grew by the number of new records
      for which some publisher succeeded. */
  predicate Extends(t: Tally, u: Tally) {
    && t.records <= u.records
    && t.calls <= u.calls
    && u.published == t.published + SucceededCount(u.records[|t.records|..])
  }

  lemma ExtendsReflexive(t: Tally)
    ensures Extends(t, t)
  {
    assert t.records[|t.records|..] == [];
  }

  /** A recorded post is counted as published exactly when some publisher
      succeeded; the ledger keeps its earlier records and gains at most one,
      and a post already in it, or any post in a dry run, changes nothing. */
  lemma PostStepExtends(ctx: Context, t0: Tally, t: Tally, ids: seq<string>, post: Post)
    requires Extends(t0, t)
    ensures var u := PostStep(ctx, t, ids, post);
      && Extends(t0, u)
      && (AnyRecords(t.records, post) || ctx.dryRun ==> u == t)
      && (!AnyRecords(t.records, post) && !ctx.dryRun ==>
            |u.records| == |t.records| + 1 && Records(u.records[|t.records|], post)
            && |u.records[|t.records|].publisherResults| == |ids|
            && forall i | 0 <= i < |ids| :: u.records[|t.records|].publisherResults[i].publisherId == ids[i])
  {
    var u := PostStep(ctx, t, ids, post);
    if !AnyRecords(t.records, post) && !ctx.dryRun {
      var (rs, called) := Dispatch(ctx.registered, ids, post, ctx.outcome, t.calls);
      var entries := Entries(ids, rs);
      var rec := RecordOf(post, entries, ctx.stamp(|t.records|));
      assert u.records == t.records + [rec];
      var added := u.records[|t0.records|..];
      assert added[..|added| - 1] == t.records[|t0.records|..];
      RecordSucceeded(post, entries, ctx.stamp(|t.records|));
    }
  }

  /** A post's record shows a success exactly when its entries count one. */
  lemma RecordSucceeded(post: Post, entries: seq<(string, bool, string)>, now: int)
    ensures Succeeded(RecordOf(post, entries, now)) <==> Successes(entries) > 0
  {
    var rec := RecordOf(post, entries, now);
    assert forall i | 0 <= i < |entries| :: rec.publisherResults[i].success == entries[i].1;
  }

  lemma {:induction false} PostsStepExtends(ctx: Context, t0: Tally, t: Tally, ids: seq<string>, posts: seq<Post>)
    requires Extends(t0, t)
    ensures Extends(t0, PostsStep(ctx, t, ids, posts))
  {
    if posts != [] {
      PostsStepExtends(ctx, t0, t, ids, posts[..|posts| - 1]);
      PostStepExtends(ctx, t0, PostsStep(ctx, t, ids, posts[..|posts| - 1]), ids, posts[|posts| - 1]);
    }
  }

  lemma FeedStepExtends(ctx: Context, t0: Tally, s: Tally, entry: (string, Result<seq<Post>>))
    requires Extends(t0, s)
    ensures Extends(t0, FeedStep(ctx, s, entry))
  {
    if Dispatches(ctx, entry) {
      FeedStepDispatching(ctx, s, entry);
      PostsStepExtends(ctx, t0, s.(newPosts := s.newPosts + |entry.1.value|), PublishersOf(ctx, entry.0).value, entry.1.value);
    } else {
      FeedStepNotDispatching(ctx, s, entry);
    }
  }

  lemma {:induction false} SweepExtendsFrom(ctx: Context, t0: Tally, t: Tally, results: seq<(string, Result<seq<Post>>)>)
    requires Extends(t0, t)
    ensures Extends(t0, Sweep(ctx, t, results))
  {
    if results != [] {
      var init := results[..|results| - 1];
      SweepExtendsFrom(ctx, t0, t, init);
      FeedStepExtends(ctx, t0, Sweep(ctx, t, init), results[|results| - 1]);
    }
  }

  /** Over a whole cycle the ledger only gains records at its end, and
      `total_published` grows by exactly the number of new records for which
      some publisher succeeded; a post whose every publisher failed is
      recorded all the same. */
  lemma SweepExtends(ctx: Context, t: Tally, results: seq<(string, Result<seq<Post>>)>)
    ensures Extends(t, Sweep(ctx, t, results))
  {
    ExtendsReflexive(t);
    SweepExtendsFrom(ctx, t, t, results);
  }

  lemma {:induction false} PostsStepNoDuplicates(ctx: Context, t: Tally, ids: seq<string>, posts: seq<Post>)
    requires NoDuplicates(t.records)
    ensures NoDuplicates(PostsStep(ctx, t, ids, posts).records)
  {
    if posts != [] {
      PostsStepNoDuplicates(ctx, t, ids, posts[..|posts| - 1]);
      var s := PostsStep(ctx, t, ids, posts[..|posts| - 1]);
      var post := posts[|posts| - 1];
      if !AnyRecords(s.records, post) && !ctx.dryRun {
        var (rs, called) := Dispatch(ctx.registered, ids, post, ctx.outcome, s.calls);
        MarkPublishedKeepsNoDuplicates(s.records, post, RecordOf(post, Entries(ids, rs), ctx.stamp(|s.records|)));
      }
    }
  }

  lemma FeedStepNoDuplicates(ctx: Context, s: Tally, entry: (string, Result<seq<Post>>))
    requires NoDuplicates(s.records)
    ensures NoDuplicates(FeedStep(ctx, s, entry).records)
  {
    if Dispatches(ctx, entry) {
      FeedStepDispatching(ctx, s, entry);
      PostsStepNoDuplicates(ctx, s.(newPosts := s.newPosts + |entry.1.value|), PublishersOf(ctx, entry.0).value, entry.1.value);
    } else {
      FeedStepNotDispatching(ctx, s, entry);
    }
  }

  /** No post is recorded twice: a post the ledger already has is neither
      sent nor recorded again, so a ledger without duplicates stays so. */
  lemma {:induction false} SweepNoDuplicates(ctx: Context, t: Tally, results: seq<(string, Result<seq<Post>>)>)
    requires NoDuplicates(t.records)
    ensures NoDuplicates(Sweep(ctx, t, results).records)
  {
    if results != [] {
      var init := results[..|results| - 1];
      SweepNoDuplicates(ctx, t, init);
      FeedStepNoDuplicates(ctx, Sweep(ctx, t, init), results[|results| - 1]);
    }
  }

  lemma {:induction false} DryRunPosts(ctx: Context, t: Tally, ids: seq<string>, posts: seq<Post>)
    requires ctx.dryRun
    ensures PostsStep(ctx, t, ids, posts) == t
  {
    if posts != [] {
      DryRunPosts(ctx, t, ids, posts[..|posts| - 1]);
    }
  }

  lemma FeedStepDryRun(ctx: Context, s: Tally, entry: (string, Result<seq<Post>>))
    requires ctx.dryRun
    ensures FeedStep(ctx, s, entry) == s.(newPosts := FeedStep(ctx, s, entry).newPosts)
  {
    if Dispatches(ctx, entry) {
      FeedStepDispatching(ctx, s, entry);
      DryRunPosts(ctx, s.(newPosts := s.newPosts + |entry.1.value|), PublishersOf(ctx, entry.0).value, entry.1.value);
    } else {
      FeedStepNotDispatching(ctx, s, entry);
    }
  }

  /** In a dry run nothing is sent, nothing is recorded and nothing is
      counted as published: only `total_new_posts` moves. */
  lemma {:induction false} DryRunChangesNothing(ctx: Context, t: Tally, results: seq<(string, Result<seq<Post>>)>)
    requires ctx.dryRun
    ensures Sweep(ctx, t, results) == t.(newPosts := Sweep(ctx, t, results).newPosts)
  {
    if results != [] {
      var init := results[..|results| - 1];
      DryRunChangesNothing(ctx, t, init);
      FeedStepDryRun(ctx, Sweep(ctx, t, init), results[|results| - 1]);
    }
  }

  /** Two running states that differ at most in `total_new_posts`. */
  predicate SameButCount(t: Tally, u: Tally) {
    t.published == u.published && t.records == u.records && t.calls == u.calls
  }

  lemma {:induction false} PostsStepIgnoresCount(ctx: Context, t: Tally, u: Tally, ids: seq<string>, posts: seq<Post>)
    requires SameButCount(t, u)
    ensures SameButCount(PostsStep(ctx, t, ids, posts), PostsStep(ctx, u, ids, posts))
  {
    if posts != [] {
      PostsStepIgnoresCount(ctx, t, u, ids, posts[..|posts| - 1]);
    }
  }

  lemma FeedStepIgnoresCount(ctx: Context, t: Tally, u: Tally, entry: (string, Result<seq<Post>>))
    requires SameButCount(t, u)
    ensures SameButCount(FeedStep(ctx, t, entry), FeedStep(ctx, u, entry))
  {
    if Dispatches(ctx, entry) {
      FeedStepDispatching(ctx, t, entry);
      FeedStepDispatching(ctx, u, entry);
      PostsStepIgnoresCount(ctx, t.(newPosts := t.newPosts + |entry.1.value|), u.(newPosts := u.newPosts + |entry.1.value|),
                            PublishersOf(ctx, entry.0).value, entry.1.value);
    } else {
      FeedStepNotDispatching(ctx, t, entry);
      FeedStepNotDispatching(ctx, u, entry);
    }
  }

  lemma {:induction false} SweepIgnoresCount(ctx: Context, t: Tally, u: Tally, results: seq<(string, Result<seq<Post>>)>)
    requires SameButCount(t, u)
    ensures SameButCount(Sweep(ctx, t, results), Sweep(ctx, u, results))
  {
    if results != [] {
      var init := results[..|results| - 1];
      SweepIgnoresCount(ctx, t, u, init);
      FeedStepIgnoresCount(ctx, Sweep(ctx, t, init), Sweep(ctx, u, init), results[|results| - 1]);
    }
  }

  lemma {:induction false} SweepAppend(ctx: Context, t: Tally, a: seq<(string, Result<seq<Post>>)>,
                                       b: seq<(string, Result<seq<Post>>)>)
    ensures Sweep(ctx, t, a + b) == Sweep(ctx, Sweep(ctx, t, a), b)
  {
    if b == [] {
      assert a + b == a;
    } else {
      assert (a + b)[..|a + b| - 1] == a + b[..|b| - 1];
      SweepAppend(ctx, t, a, b[..|b| - 1]);
    }
  }

  /** Whether the cycle skips a feed result without sending anything: a
      failed fetch, no new posts, an unknown feed or one without publishers. */
  predicate Skipped(ctx: Context, entry: (string, Result<seq<Post>>)) {
    entry.1.Err? || entry.1.value == [] || PublishersOf(ctx, entry.0).None? || PublishersOf(ctx, entry.0).value == []
  }

  /** A skipped feed does not affect the others: without it the cycle sends,
      records and counts as published exactly the same. */
  lemma SkippedFeedAffectsNoOther(ctx: Context, t: Tally, results: seq<(string, Result<seq<Post>>)>, j: nat)
    requires j < |results| && Skipped(ctx, results[j])
    ensures SameButCount(Sweep(ctx, t, results[..j] + results[j + 1..]), Sweep(ctx, t, results))
  {
    var a := results[..j];
    var b := results[j + 1..];
    assert results == a + [results[j]] + b;
    SweepAppend(ctx, t, a + [results[j]], b);
    SweepAppend(ctx, t, a, b);
    var s := Sweep(ctx, t, a);
    assert (a + [results[j]])[..|a|] == a;
    var s' := Sweep(ctx, t, a + [results[j]]);
    assert s' == FeedStep(ctx, s, results[j]);
    SweepIgnoresCount(ctx, s, s', b);
  }

  // ---------------------------------------------------------------------
  // run_feed_check, as the program runs it
  // ---------------------------------------------------------------------

  /** What a cycle reports: the two counters, the ledger written (none in a
      dry run) and the feed cache written. */
  datatype Report = Report(newPosts: nat, published: nat, savedLedger: Option<seq<PublishedPost>>,
                           savedCache: map<string, CacheMetadata>)

  /** The ledger entries for a post, one per publisher id in order, and
      the number of publishers that succeeded. */
  method Tabulate(ids: seq<string>, results: seq<Result<string>>)
    returns (entries: seq<(string, bool, string)>, successes: nat)
    requires |ids| == |results|
    ensures entries == Entries(ids, results) && successes == Successes(entries)
  {
    entries := [];
    successes := 0;
    for i := 0 to |results|
      invariant |entries| == i && successes == Successes(entries)
      invariant forall k | 0 <= k < i ::
        entries[k] == (ids[k], results[k].Ok?, if results[k].Ok? then results[k].value else results[k].msg)
    {
      var entry := if results[i].Ok? then (ids[i], true, results[i].value) else (ids[i], false, results[i].msg);
      assert (entries + [entry])[..i] == entries;
      entries := entries + [entry];
      if entry.1 {
        successes := successes + 1;
      }
    }
  }

  /** One post: skip it when the ledger has it or in a dry run; otherwise
      send it to every publisher of the feed and record the results. */
  method ProcessPost(ghost ctx: Context, publishers: PublisherManager, ledger: PublishedPostsStorage,
                     ids: seq<string>, post: Post, dryRun: bool, outcome: Outcomes, stamp: nat -> int,
                     newPosts: nat, published: nat)
    returns (published': nat)
    requires ctx.registered == publishers.publishers.Keys && ctx.dryRun == dryRun
    requires ctx.outcome == outcome && ctx.stamp == stamp
    modifies publishers, ledger
    ensures Tally(newPosts, published', ledger.posts, |publishers.calls|)
      == PostStep(ctx, Tally(newPosts, published, old(ledger.posts), |old(publishers.calls)|), ids, post)
    ensures publishers.publishers == old(publishers.publishers)
  {
    published' := published;
    if ledger.IsPublished(post) || dryRun {
      return;
    }
    var results := publishers.PublishToAll(post, ids, outcome);
    var entries, successes := Tabulate(ids, results);
    ledger.MarkPublished(post, entries, stamp(|ledger.posts|));
    if successes > 0 {
      published' := published' + 1;
    }
  }

  /** The loop over one feed's new posts. */
  method ProcessPosts(ghost ctx: Context, publishers: PublisherManager, ledger: PublishedPostsStorage,
                      ids: seq<string>, posts: seq<Post>, dryRun: bool, outcome: Outcomes, stamp: nat -> int,
                      newPosts: nat, published: nat)
    returns (published': nat)
    requires ctx.registered == publishers.publishers.Keys && ctx.dryRun == dryRun
    requires ctx.outcome == outcome && ctx.stamp == stamp
    modifies publishers, ledger
    ensures Tally(newPosts, published', ledger.posts, |publishers.calls|)
      == PostsStep(ctx, Tally(newPosts, published, old(ledger.posts), |old(publishers.calls)|), ids, posts)
    ensures publishers.publishers == old(publishers.publishers)
  {
    ghost var t0 := Tally(newPosts, published, ledger.posts, |publishers.calls|);
    published' := published;
    for n := 0 to |posts|
      invariant Tally(newPosts, published', ledger.posts, |publishers.calls|) == PostsStep(ctx, t0, ids, posts[..n])
      invariant publishers.publishers == old(publishers.publishers)
    {
      assert posts[..n + 1][..n] == posts[..n];
      published' := ProcessPost(ctx, publishers, ledger, ids, posts[n], dryRun, outcome, stamp, newPosts, published');
    }
    assert posts[..|posts|] == posts;
  }

  /** Whom a feed result goes to: the publishers of its feed when the
      fetch succeeded with posts and the feed is known and has publishers,
      and nobody otherwise. */
  method Recipients(ghost ctx: Context, feeds: FeedManager, entry: (string, Result<seq<Post>>))
    returns (ids: Option<seq<string>>)
    requires ctx.feeds == feeds.feeds
    ensures ids.Some? <==> Dispatches(ctx, entry)
    ensures ids.Some? ==> ids.value == PublishersOf(ctx, entry.0).value
  {
    if entry.1.Err? || entry.1.value == [] {
      return None;
    }
    var feed := feeds.GetFeed(entry.0);
    if feed.None? || feed.value.config.publishers == [] {
      return None;
    }
    return Some(feed.value.config.publishers);
  }

  /** One feed's result, as the loop of `run_feed_check` handles it. */
  method ProcessFeed(ghost ctx: Context, feeds: FeedManager, publishers: PublisherManager, ledger: PublishedPostsStorage,
                     entry: (string, Result<seq<Post>>), dryRun: bool, outcome: Outcomes, stamp: nat -> int,
                     newPosts: nat, published: nat)
    returns (newPosts': nat, published': nat)
    requires ctx.feeds == feeds.feeds && ctx.registered == publishers.publishers.Keys
    requires ctx.dryRun == dryRun && ctx.outcome == outcome && ctx.stamp == stamp
    modifies publishers, ledger
    ensures Tally(newPosts', published', ledger.posts, |publishers.calls|)
      == FeedStep(ctx, Tally(newPosts, published, old(ledger.posts), |old(publishers.calls)|), entry)
    ensures publishers.publishers == old(publishers.publishers)
  {
    ghost var t := Tally(newPosts, published, ledger.posts, |publishers.calls|);
    newPosts', published' := newPosts, published;
    if entry.1.Ok? {
      newPosts' := newPosts' + |entry.1.value|;
    }
    var ids := Recipients(ctx, feeds, entry);
    if ids.None? {
      FeedStepNotDispatching(ctx, t, entry);
      return;
    }
    FeedStepDispatching(ctx, t, entry);
    published' := ProcessPosts(ctx, publishers, ledger, ids.value, entry.1.value, dryRun, outcome, stamp, newPosts', published');
  }

  /** The loop of `run_feed_check` over the feed results, in order. */
  method ProcessResults(ghost ctx: Context, feeds: FeedManager, publishers: PublisherManager, ledger: PublishedPostsStorage,
                        results: seq<(string, Result<seq<Post>>)>, dryRun: bool, outcome: Outcomes, stamp: nat -> int)
    returns (newPosts: nat, published: nat)
    requires ctx.feeds == feeds.feeds && ctx.registered == publishers.publishers.Keys
    requires ctx.dryRun == dryRun && ctx.outcome == outcome && ctx.stamp == stamp
    modifies publishers, ledger
    ensures Tally(newPosts, published, ledger.posts, |publishers.calls|)
      == Sweep(ctx, Tally(0, 0, old(ledger.posts), |old(publishers.calls)|), results)
    ensures publishers.publishers == old(publishers.publishers)
    ensures forall j | 0 <= j < |feeds.feeds| :: unchanged(feeds.feeds[j])
  {
    ghost var t0 := Tally(0, 0, ledger.posts, |publishers.calls|);
    newPosts, published := 0, 0;
    for n := 0 to |results|
      invariant Tally(newPosts, published, ledger.posts, |publishers.calls|) == Sweep(ctx, t0, results[..n])
      invariant publishers.publishers == old(publishers.publishers)
    {
      assert results[..n + 1][..n] == results[..n];
      newPosts, published := ProcessFeed(ctx, feeds, publishers, ledger, results[n], dryRun, outcome, stamp,
                                         newPosts, published);
    }
    assert results[..|results|] == results;
  }

  /** `run_feed_check`: check the due feeds, process every feed result in
      order, save the ledger unless this is a dry run, and save the feed
      cache. Feed `i`'s due check reads the clock as `clock[i]`; each record
      is stamped by `stamp` at the position it takes in the ledger. */
  method RunFeedCheck(feeds: FeedManager, publishers: PublisherManager, ledger: PublishedPostsStorage,
                      defaultIntervalMinutes: U64, dryRun: bool, clock: seq<int>, stamp: nat -> int,
                      inputs: seq<seq<AttemptInput>>, outcome: Outcomes)
    returns (results: seq<(string, Result<seq<Post>>)>, checked: seq<nat>, report: Report)
    requires feeds.Valid() && |inputs| == |feeds.feeds| && |clock| == |feeds.feeds|
    requires forall i | 0 <= i < |feeds.feeds| :: |inputs[i]| > MaxRetries(feeds.feeds[i].config)
    modifies feeds.feeds, publishers, ledger
    ensures var before := old(States(feeds.feeds));
      Checks(results, checked, States(feeds.feeds))
        == CheckAll(feeds.feeds, before, Runs(feeds.feeds, before, inputs, |feeds.feeds|), |feeds.feeds|, clock, defaultIntervalMinutes)
    ensures var ctx := Context(feeds.feeds, old(publishers.publishers).Keys, dryRun, outcome, stamp);
      var t := Sweep(ctx, Tally(0, 0, old(ledger.posts), |old(publishers.calls)|), results);
      && ledger.posts == t.records && |publishers.calls| == t.calls
      && report == Report(t.newPosts, t.published, if dryRun then None else Some(t.records), CacheOf(feeds.feeds))
    ensures publishers.publishers == old(publishers.publishers)
  {
    results, checked := feeds.CheckAllFeeds(defaultIntervalMinutes, clock, inputs);
    label swept:
    report := ProcessAndSave(feeds, publishers, ledger, results, dryRun, outcome, stamp);
    StatesUnchanged@swept(feeds.feeds);
  }

  /** The second half of `run_feed_check`: process the feed results in
      order, save the ledger unless this is a dry run, and save the feed
      cache. */
  method ProcessAndSave(feeds: FeedManager, publishers: PublisherManager, ledger: PublishedPostsStorage,
                        results: seq<(string, Result<seq<Post>>)>, dryRun: bool, outcome: Outcomes, stamp: nat -> int)
    returns (report: Report)
    modifies publishers, ledger
    ensures var ctx := Context(feeds.feeds, old(publishers.publishers).Keys, dryRun, outcome, stamp);
      var t := Sweep(ctx, Tally(0, 0, old(ledger.posts), |old(publishers.calls)|), results);
      && ledger.posts == t.records && |publishers.calls| == t.calls
      && report == Report(t.newPosts, t.published, if dryRun then None else Some(t.records), CacheOf(feeds.feeds))
    ensures publishers.publishers == old(publishers.publishers)
    ensures forall j | 0 <= j < |feeds.feeds| :: unchanged(feeds.feeds[j])
  {
    ghost var ctx := Context(feeds.feeds, publishers.publishers.Keys, dryRun, outcome, stamp);
    var totalNewPosts, totalPublished := ProcessResults(ctx, feeds, publishers, ledger, results, dryRun, outcome, stamp);
    var savedLedger := if dryRun then None else Some(ledger.posts);
    var cache := feeds.GetCacheMetadata();
    report := Report(totalNewPosts, totalPublished, savedLedger, cache);
  }
}
