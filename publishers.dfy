/** The publisher registry: it builds one publisher per configured entry and
    fans a post out to a list of publisher ids. What each publisher's own
    `publish` returns is an input here (`Outcomes`); the publishers' logic is
    modelled in their own modules. */
module Publishers {
  import opened Wrappers
  import opened Config
  import opened Posts
  import opened Template
  import TelegramPublishing
  import XPublishing
  import LinkedIn
  import Bluesky
  import ThreadsPublishing
  import OAuth

  /** A created publisher. Mastodon, Matrix and OpenObserve keep their
      configuration and template only: their publishing is not modelled. */
  datatype Publisher =
    | TelegramTarget(telegram: TelegramPublishing.TelegramPublisher)
    | XTarget(x: XPublishing.XPublisher)
    | LinkedInTarget(linkedin: LinkedIn.LinkedInPublisher)
    | BlueskyTarget(bluesky: Bluesky.BlueskyPublisher)
    | ThreadsTarget(threads: ThreadsPublishing.ThreadsPublisher)
    | PlainTarget(kind: string, id: string, config: PublisherConfig, template: string)

  /** What a created publisher is: its type name, id, template and the
      configuration file its tokens are written back to, if any. */
  datatype Profile = Profile(kind: string, id: string, template: string, configPath: Option<string>)

  /** The type name `get_default_template` is asked for. */
  function Kind(config: PublisherConfig): string {
    match config
    case Telegram(_, _, _, _, _) => "telegram"
    case X(_, _, _, _, _, _) => "x"
    case Mastodon(_, _, _) => "mastodon"
    case LinkedIn(_, _, _, _, _, _, _) => "linkedin"
    case OpenObserve(_, _, _, _, _) => "openobserve"
    case Matrix(_, _, _, _) => "matrix"
    case Bluesky(_, _, _, _) => "bluesky"
    case Threads(_, _, _) => "threads"
    case Discord(_, _) => "discord"
  }

  /** The profile `create_publisher_with_config_path` gives a configuration:
      the configured template, else the type's default one; only the X and
      LinkedIn publishers are told the configuration file. */
  function Planned(id: string, config: PublisherConfig, configPath: Option<string>): (p: Profile)
    ensures p.id == id && p.kind == Kind(config)
    ensures config.template.Some? ==> p.template == config.template.value
    ensures config.template.None? ==> p.template == DefaultTemplate(Kind(config))
    ensures p.configPath.Some? <==> (config.X? || config.LinkedIn?) && configPath.Some?
    ensures p.configPath.Some? ==> p.configPath == configPath
  {
    Profile(Kind(config), id, config.template.GetOr(DefaultTemplate(Kind(config))),
            if config.X? || config.LinkedIn? then configPath else None)
  }

  /** The profile of a created publisher, read from its fields. */
  function ProfileOf(p: Publisher): Profile {
    match p
    case TelegramTarget(t) => Profile("telegram", t.id, t.template, None)
    case XTarget(x) => Profile("x", x.id, x.template, x.configFilePath)
    case LinkedInTarget(l) => Profile("linkedin", l.id, l.template, l.configFilePath)
    case BlueskyTarget(b) => Profile("bluesky", b.id, b.template, None)
    case ThreadsTarget(t) => Profile("threads", t.id, t.template, None)
    case PlainTarget(kind, id, _, template) => Profile(kind, id, template, None)
  }

  /** `create_publisher_with_config_path`: one publisher of the configured
      type, holding the configured fields. The Discord type has no arm. */
  method CreatePublisher(id: string, config: PublisherConfig, configPath: Option<string>) returns (p: Publisher)
    requires !config.Discord?
    ensures ProfileOf(p) == Planned(id, config, configPath)
    ensures config.Telegram? ==> p == TelegramTarget(TelegramPublishing.TelegramPublisher(
      id, config.botToken, config.chatId, config.parseMode, config.messageThreadId, ProfileOf(p).template))
    ensures config.Bluesky? ==> p == BlueskyTarget(Bluesky.NewPublisher(
      id, config.handle, config.password, config.pdsUrl, ProfileOf(p).template))
    ensures config.Threads? ==> p == ThreadsTarget(ThreadsPublishing.ThreadsPublisher(
      id, config.accessToken, config.threadsUserId, ProfileOf(p).template))
    ensures config.X? ==> (p.XTarget? && fresh(p.x) && p.x.clientId == config.clientId
      && p.x.State() == OAuth.Session(OAuth.Cells(config.initialAccessToken, config.initialRefreshToken), [], []))
    ensures config.LinkedIn? ==> (p.LinkedInTarget? && fresh(p.linkedin) && p.linkedin.userId == config.userId
      && p.linkedin.State() == OAuth.Session(OAuth.Cells(config.initialAccessToken, config.initialRefreshToken), [], []))
    ensures config.Mastodon? || config.Matrix? || config.OpenObserve? ==> p.PlainTarget? && p.config == config
  {
    var template := config.template.GetOr(DefaultTemplate(Kind(config)));
    match config {
      case Telegram(botToken, chatId, parseMode, messageThreadId, _) =>
        p := TelegramTarget(TelegramPublishing.TelegramPublisher(id, botToken, chatId, parseMode, messageThreadId, template));
      case X(clientId, clientSecret, accessToken, refreshToken, redirectUri, _) =>
        var x := new XPublishing.XPublisher(id, clientId, clientSecret, accessToken, refreshToken, redirectUri,
                                            template, configPath);
        p := XTarget(x);
      case Mastodon(_, _, _) =>
        p := PlainTarget("mastodon", id, config, template);
      case LinkedIn(clientId, clientSecret, accessToken, refreshToken, userId, redirectUri, _) =>
        var l := new LinkedIn.LinkedInPublisher(id, clientId, clientSecret, accessToken, refreshToken, userId,
                                                redirectUri, template, configPath);
        p := LinkedInTarget(l);
      case OpenObserve(_, _, _, _, _) =>
        p := PlainTarget("openobserve", id, config, template);
      case Matrix(_, _, _, _) =>
        p := PlainTarget("matrix", id, config, template);
      case Bluesky(handle, password, pdsUrl, _) =>
        p := BlueskyTarget(Bluesky.NewPublisher(id, handle, password, pdsUrl, template));
      case Threads(accessToken, userId, _) =>
        p := ThreadsTarget(ThreadsPublishing.ThreadsPublisher(id, accessToken, userId, template));
    }
  }

  /** What the `k`-th publish call of the process, made by publisher `id`
      for `post`, returns. */
  type Outcomes = (nat, Post, string) -> Result<string>

  function NotFound(id: string): string {
    "Publisher not found: " + id
  }

  /** The ids of `ids` that are registered, in order, repeats kept: the
      publishers a fan-out calls. */
  function Registered(registered: set<string>, ids: seq<string>): (r: seq<string>)
    ensures |r| <= |ids|
    ensures forall i | 0 <= i < |r| :: r[i] in registered && r[i] in ids
  {
    if ids == [] then []
    else
      var rest := Registered(registered, ids[..|ids| - 1]);
      var id := ids[|ids| - 1];
      if id in registered then rest + [id] else rest
  }

  /** `publish_to_all` as a value: one result per requested id, in order,
      where the calls are numbered from `k`. Also returns the ids called:
      exactly the registered ones. */
  function Dispatch(registered: set<string>, ids: seq<string>, post: Post, outcome: Outcomes, k: nat)
    : (out: (seq<Result<string>>, seq<string>))
    ensures |out.0| == |ids| && out.1 == Registered(registered, ids)
  {
    if ids == [] then ([], [])
    else
      var (rs, called) := Dispatch(registered, ids[..|ids| - 1], post, outcome, k);
      var id := ids[|ids| - 1];
      if id in registered then (rs + [outcome(k + |called|, post, id)], called + [id])
      else (rs + [Err(NotFound(id))], called)
  }

  /** The results for a prefix of the ids are a prefix of the results. */
  lemma {:induction false} DispatchPrefix(registered: set<string>, ids: seq<string>, n: nat, post: Post, outcome: Outcomes, k: nat)
    requires n <= |ids|
    ensures Dispatch(registered, ids[..n], post, outcome, k).0 == Dispatch(registered, ids, post, outcome, k).0[..n]
  {
    if n < |ids| {
      var init := ids[..|ids| - 1];
      assert init[..n] == ids[..n];
      DispatchPrefix(registered, init, n, post, outcome, k);
    } else {
      assert ids[..n] == ids;
    }
  }

  /** The fan-out gives exactly one result per requested id, in order: an
      unregistered id gets "Publisher not found" and calls nothing; a
      registered one gets the outcome of the next call, whose number counts
      only the registered ids before it. */
  lemma DispatchSlot(registered: set<string>, ids: seq<string>, i: nat, post: Post, outcome: Outcomes, k: nat)
    requires i < |ids|
    ensures var rs := Dispatch(registered, ids, post, outcome, k).0;
      && (ids[i] !in registered ==> rs[i] == Err(NotFound(ids[i])))
      && (ids[i] in registered ==> rs[i] == outcome(k + |Registered(registered, ids[..i])|, post, ids[i]))
  {
    DispatchPrefix(registered, ids, i + 1, post, outcome, k);
    assert ids[..i + 1][..i] == ids[..i];
  }

  /** A missing publisher does not affect the others: dropping an
      unregistered id from the request drops its slot and leaves every other
      result as it was. */
  lemma MissingDoesNotAffectOthers(registered: set<string>, ids: seq<string>, j: nat, post: Post, outcome: Outcomes, k: nat)
    requires j < |ids| && ids[j] !in registered
    ensures var rs := Dispatch(registered, ids, post, outcome, k).0;
      Dispatch(registered, ids[..j] + ids[j + 1..], post, outcome, k).0 == rs[..j] + rs[j + 1..]
  {
    DropMissing(registered, ids[..j], ids[j], ids[j + 1..], post, outcome, k);
    assert ids[..j] + [ids[j]] + ids[j + 1..] == ids;
  }

  /** Dropping an unregistered id from a request drops its slot and calls
      the same publishers. */
  lemma {:induction false} DropMissing(registered: set<string>, before: seq<string>, missing: string, after: seq<string>,
                                       post: Post, outcome: Outcomes, k: nat)
    requires missing !in registered
    ensures var d := Dispatch(registered, before + [missing] + after, post, outcome, k);
      var d' := Dispatch(registered, before + after, post, outcome, k);
      d'.0 == d.0[..|before|] + d.0[|before| + 1..] && d'.1 == d.1
  {
    if after == [] {
      assert before + [missing] + after == before + [missing];
      assert before + after == before;
      DispatchSnoc(registered, before, missing, post, outcome, k);
    } else {
      var init := after[..|after| - 1];
      var id := after[|after| - 1];
      DropMissing(registered, before, missing, init, post, outcome, k);
      DropMissingStep(registered, before, missing, init, id, post, outcome, k);
      SnocAfter(before, missing, after);
    }
  }

  /** Splitting the last id off the ids after the dropped one. */
  lemma SnocAfter(before: seq<string>, missing: string, after: seq<string>)
    requires after != []
    ensures before + [missing] + after == before + [missing] + after[..|after| - 1] + [after[|after| - 1]]
    ensures before + after == before + after[..|after| - 1] + [after[|after| - 1]]
  {
    assert after == after[..|after| - 1] + [after[|after| - 1]];
  }

  /** The inductive step of `DropMissing`: one more id after the dropped one. */
  lemma DropMissingStep(registered: set<string>, before: seq<string>, missing: string, init: seq<string>, id: string,
                        post: Post, outcome: Outcomes, k: nat)
    requires missing !in registered
    requires var d := Dispatch(registered, before + [missing] + init, post, outcome, k);
      var d' := Dispatch(registered, before + init, post, outcome, k);
      d'.0 == d.0[..|before|] + d.0[|before| + 1..] && d'.1 == d.1
    ensures var d := Dispatch(registered, before + [missing] + init + [id], post, outcome, k);
      var d' := Dispatch(registered, before + init + [id], post, outcome, k);
      d'.0 == d.0[..|before|] + d.0[|before| + 1..] && d'.1 == d.1
  {
    var pre := Dispatch(registered, before + [missing] + init, post, outcome, k);
    var pre' := Dispatch(registered, before + init, post, outcome, k);
    DispatchSnoc(registered, before + [missing] + init, id, post, outcome, k);
    DispatchSnoc(registered, before + init, id, post, outcome, k);
    var x := if id in registered then outcome(k + |pre.1|, post, id) else Err(NotFound(id));
    DropLast(pre.0, pre'.0, x, |before|);
  }

  /** Dropping slot `n` commutes with appending a result. */
  lemma DropLast(rs: seq<Result<string>>, rs': seq<Result<string>>, x: Result<string>, n: nat)
    requires n < |rs| && rs' == rs[..n] + rs[n + 1..]
    ensures rs' + [x] == (rs + [x])[..n] + (rs + [x])[n + 1..]
  {
    assert (rs + [x])[n + 1..] == rs[n + 1..] + [x];
  }

  /** One more requested id: one more result, and one more call if it is
      registered. */
  lemma DispatchSnoc(registered: set<string>, ids: seq<string>, id: string, post: Post, outcome: Outcomes, k: nat)
    ensures var pre := Dispatch(registered, ids, post, outcome, k);
      Dispatch(registered, ids + [id], post, outcome, k)
        == if id in registered then (pre.0 + [outcome(k + |pre.1|, post, id)], pre.1 + [id])
           else (pre.0 + [Err(NotFound(id))], pre.1)
  {
    assert (ids + [id])[..|ids|] == ids;
  }

  /** The registry (`PublisherManager`). `calls` records every publish call
      made through it, in order. */
  class PublisherManager {
    var publishers: map<string, Publisher>
    const configPath: Option<string>
    var calls: seq<(Post, string)>

    /** `PublisherManager::new` and `new_with_config_path`. */
    constructor (configPath: Option<string>)
      ensures publishers == map[] && this.configPath == configPath && calls == []
    {
      publishers := map[];
      this.configPath := configPath;
      calls := [];
    }

    /** `add_publisher`: create the publisher and register it under `id`,
        replacing any earlier one. */
    method AddPublisher(id: string, config: PublisherConfig)
      requires !config.Discord?
      modifies this
      ensures publishers.Keys == old(publishers).Keys + {id}
      ensures forall other | other in old(publishers) && other != id :: publishers[other] == old(publishers)[other]
      ensures ProfileOf(publishers[id]) == Planned(id, config, configPath)
      ensures calls == old(calls)
    {
      var p := CreatePublisher(id, config, configPath);
      publishers := publishers[id := p];
    }

    /** `publish_to_all`: call each requested publisher in order and collect
        one result per id. */
    method PublishToAll(post: Post, ids: seq<string>, outcome: Outcomes) returns (results: seq<Result<string>>)
      modifies this
      ensures var (rs, called) := Dispatch(publishers.Keys, ids, post, outcome, |old(calls)|);
        results == rs && calls == old(calls) + seq(|called|, i requires 0 <= i < |called| => (post, called[i]))
      ensures publishers == old(publishers)
    {
      results := [];
      ghost var called: seq<string> := [];
      for i := 0 to |ids|
        invariant (results, called) == Dispatch(publishers.Keys, ids[..i], post, outcome, |old(calls)|)
        invariant calls == old(calls) + seq(|called|, j requires 0 <= j < |called| => (post, called[j]))
        invariant publishers == old(publishers)
      {
        assert ids[..i + 1][..i] == ids[..i];
        var id := ids[i];
        if id in publishers {
          var r := outcome(|calls|, post, id);
          results := results + [r];
          calls := calls + [(post, id)];
          called := called + [id];
        } else {
          results := results + [Err(NotFound(id))];
        }
      }
      assert ids[..|ids|] == ids;
    }
  }
}
