/** The LinkedIn publisher: it shares a post through the UGC posts API as
    a member or an organization, keeping its OAuth tokens in two cells. The
    rendered commentary is an input (template rendering is not modelled). */
module LinkedIn {
  import opened Wrappers
  import opened Text
  import opened Posts
  import opened Http
  import opened OAuth

  /** The body of a UGC post: the author's URN, the commentary, and the
      shared article's description, URL and title. */
  datatype UgcPost = UgcPost(author: string, commentary: string, description: string, link: string, title: string)

  const OrganizationPrefix: string := "urn:li:organization:"
  const PersonPrefix: string := "urn:li:person:"
  const ProfileIdMissing: string := "Could not get user ID from LinkedIn profile"

  predicate AllAsciiDigits(s: string) {
    forall i | 0 <= i < |s| :: IsAsciiDigit(s[i])
  }

  /** The author of the post for a configured `user_id`: an organization
      when the id is all ASCII digits (the empty id included), a member
      otherwise. */
  function AuthorUrn(userId: string): (urn: string)
    ensures urn == OrganizationPrefix + userId <==> AllAsciiDigits(userId)
    ensures urn == PersonPrefix + userId <==> !AllAsciiDigits(userId)
  {
    if AllAsciiDigits(userId) then
      assert (OrganizationPrefix + userId)[7] != (PersonPrefix + userId)[7];
      OrganizationPrefix + userId
    else
      assert (OrganizationPrefix + userId)[7] != (PersonPrefix + userId)[7];
      PersonPrefix + userId
  }

  /** The author's URN: from the configured id without any request, or from
      a profile lookup with the access token, which succeeds exactly when
      its reply is a 2xx carrying an `id`. */
  function Author(s: Session<UgcPost>, net: Network<UgcPost>, userId: Option<string>, token: string)
    : (out: (Result<string>, Session<UgcPost>))
    ensures userId.Some? ==> out == (Ok(AuthorUrn(userId.value)), s)
    ensures userId.None? ==> out.1 == s.(sent := s.sent + [ProfileLookup(token)])
    ensures userId.None? ==>
      var reply := net(|s.sent|, ProfileLookup(token));
      && (out.0.Ok? <==> reply.Response? && IsSuccess(reply.status) && reply.json.Ok? && reply.json.value.id.Some?)
      && (out.0.Ok? ==> out.0.value == PersonPrefix + reply.json.value.id.value)
  {
    match userId
    case Some(id) => (Ok(AuthorUrn(id)), s)
    case None =>
      var (reply, s1) := Send(s, net, ProfileLookup(token));
      match reply
      case SendError(msg) => (Err(msg), s1)
      case Response(status, body, json) =>
        if !IsSuccess(status) then (Err("Failed to get LinkedIn profile: " + body), s1)
        else if json.Err? then (Err(json.msg), s1)
        else if json.value.id.None? then (Err(ProfileIdMissing), s1)
        else (Ok(PersonPrefix + json.value.id.value), s1)
  }

  /** The post the publisher shares for `post` with commentary `text`. */
  function Payload(author: string, text: string, post: Post): UgcPost {
    UgcPost(author, text, post.description.GetOr(""), post.link, post.title)
  }

  /** `publish`: render, get a valid access token, find the author, then
      post with one refresh-and-retry on a 401. Each failing step ends the
      publish with its error. */
  function PublishRun(s: Session<UgcPost>, net: Network<UgcPost>, persist: bool, userId: Option<string>,
                      post: Post, rendered: Result<string>): (Result<string>, Session<UgcPost>)
  {
    match rendered
    case Err(msg) => (Err(msg), s)
    case Ok(text) =>
      var (token, s1) := GetValid(LinkedInService, s, net, persist);
      match token
      case Err(msg) => (Err(msg), s1)
      case Ok(t) =>
        var (author, s2) := Author(s1, net, userId, t);
        match author
        case Err(msg) => (Err(msg), s2)
        case Ok(urn) => PostWithRetry(LinkedInService, s2, net, persist, t, Payload(urn, text, post))
  }

  /** A rendering failure makes no request and changes nothing; with a held
      access token and a configured id, the publish is exactly one post
      attempt (with its one possible refresh and retry) on the held token,
      authored per `AuthorUrn`. */
  lemma PublishWithHeldToken(s: Session<UgcPost>, net: Network<UgcPost>, persist: bool, userId: Option<string>,
                             post: Post, rendered: Result<string>)
    ensures rendered.Err? ==> PublishRun(s, net, persist, userId, post, rendered) == (Err(rendered.msg), s)
    ensures rendered.Ok? && s.cells.access.Some? && userId.Some? ==>
      PublishRun(s, net, persist, userId, post, rendered)
      == PostWithRetry(LinkedInService, s, net, persist, s.cells.access.value,
                       Payload(AuthorUrn(userId.value), rendered.value, post))
  {
  }

  class LinkedInPublisher {
    const id: string
    const clientId: string
    const clientSecret: string
    const userId: Option<string>
    const redirectUri: string
    const template: string
    const configFilePath: Option<string>
    var accessToken: Option<string>
    var refreshToken: Option<string>
    /** Every request sent, in order. */
    var sent: seq<Request<UgcPost>>
    /** Every token pair written to the configuration file, in order. */
    var saves: seq<Cells>

    /** `LinkedInPublisher::new`: the redirect URI defaults to
        `https://127.0.0.1`. */
    constructor (id: string, clientId: string, clientSecret: string, accessToken: Option<string>,
                 refreshToken: Option<string>, userId: Option<string>, redirectUri: Option<string>,
                 template: string, configFilePath: Option<string>)
      ensures this.id == id && this.clientId == clientId && this.clientSecret == clientSecret
      ensures this.userId == userId && this.template == template && this.configFilePath == configFilePath
      ensures this.redirectUri == redirectUri.GetOr("https://127.0.0.1")
      ensures State() == Session(Cells(accessToken, refreshToken), [], [])
    {
      this.id := id;
      this.clientId := clientId;
      this.clientSecret := clientSecret;
      this.accessToken := accessToken;
      this.refreshToken := refreshToken;
      this.userId := userId;
      this.redirectUri := redirectUri.GetOr("https://127.0.0.1");
      this.template := template;
      this.configFilePath := configFilePath;
      sent := [];
      saves := [];
    }

    function State(): Session<UgcPost>
      reads this
    {
      Session(Cells(accessToken, refreshToken), sent, saves)
    }

    method SendRequest(net: Network<UgcPost>, req: Request<UgcPost>) returns (reply: Reply)
      modifies this
      ensures (reply, State()) == Send(old(State()), net, req)
    {
      reply := net(|sent|, req);
      sent := sent + [req];
    }

    /** `refresh_access_token`. */
    method RefreshAccessToken(net: Network<UgcPost>) returns (r: Result<(string, string)>)
      modifies this
      ensures (r, State()) == Refresh(LinkedInService, old(State()), net)
    {
      if refreshToken.None? {
        r := Err("No refresh token available");
        return;
      }
      var held := refreshToken.value;
      var reply := SendRequest(net, RefreshGrant(held));
      r := Granted(held, reply, LinkedInService);
      if r.Ok? {
        accessToken := Some(r.value.0);
        refreshToken := Some(r.value.1);
      }
    }

    /** `save_tokens_to_config`, as a recorded write. */
    method SaveTokensToConfig(a: string, rt: string)
      modifies this
      ensures State() == Save(old(State()), configFilePath.Some?, a, rt)
    {
      if configFilePath.Some? {
        saves := saves + [Cells(Some(a), Some(rt))];
      }
    }

    /** `get_valid_access_token`. */
    method GetValidAccessToken(net: Network<UgcPost>) returns (r: Result<string>)
      modifies this
      ensures (r, State()) == GetValid(LinkedInService, old(State()), net, configFilePath.Some?)
    {
      if accessToken.Some? {
        r := Ok(accessToken.value);
        return;
      }
      var refreshed := RefreshAccessToken(net);
      if refreshed.Err? {
        r := Err(refreshed.msg);
        return;
      }
      SaveTokensToConfig(refreshed.value.0, refreshed.value.1);
      r := Ok(refreshed.value.0);
    }

    /** `get_user_profile` and the author choice in `publish`. */
    method FindAuthor(net: Network<UgcPost>, token: string) returns (r: Result<string>)
      modifies this
      ensures (r, State()) == Author(old(State()), net, userId, token)
    {
      if userId.Some? {
        r := Ok(AuthorUrn(userId.value));
        return;
      }
      var reply := SendRequest(net, ProfileLookup(token));
      if reply.SendError? {
        r := Err(reply.msg);
      } else if !IsSuccess(reply.status) {
        r := Err("Failed to get LinkedIn profile: " + reply.body);
      } else if reply.json.Err? {
        r := Err(reply.json.msg);
      } else if reply.json.value.id.None? {
        r := Err(ProfileIdMissing);
      } else {
        r := Ok(PersonPrefix + reply.json.value.id.value);
      }
    }

    /** The post request and its one refresh-and-retry on a 401. */
    method PostWithRetry(net: Network<UgcPost>, token: string, payload: UgcPost) returns (r: Result<string>)
      modifies this
      ensures (r, State()) == OAuth.PostWithRetry(LinkedInService, old(State()), net, configFilePath.Some?, token, payload)
    {
      var reply := SendRequest(net, CreatePost(token, payload));
      if reply.SendError? {
        r := Err(reply.msg);
        return;
      }
      if IsSuccess(reply.status) {
        r := Published(LinkedInService, false, reply.json);
        return;
      }
      if reply.status != Unauthorized {
        r := Err("Failed to publish to " + Label(LinkedInService) + ": " + StatusText(reply.status) + " - " + reply.body);
        return;
      }
      var refreshed := RefreshAccessToken(net);
      if refreshed.Err? {
        r := Err("Failed to publish to " + Label(LinkedInService) + " - token refresh failed: " + refreshed.msg);
        return;
      }
      SaveTokensToConfig(refreshed.value.0, refreshed.value.1);
      var retry := SendRequest(net, CreatePost(refreshed.value.0, payload));
      if retry.SendError? {
        r := Err(retry.msg);
      } else if IsSuccess(retry.status) {
        r := Published(LinkedInService, true, retry.json);
      } else {
        r := Err("Failed to publish to " + Label(LinkedInService) + " after token refresh: " + StatusText(retry.status) + " - " + retry.body);
      }
    }

    /** `publish`, given the rendered commentary. */
    method Publish(post: Post, rendered: Result<string>, net: Network<UgcPost>) returns (r: Result<string>)
      modifies this
      ensures (r, State()) == PublishRun(old(State()), net, configFilePath.Some?, userId, post, rendered)
    {
      if rendered.Err? {
        r := Err(rendered.msg);
        return;
      }
      var token := GetValidAccessToken(net);
      if token.Err? {
        r := Err(token.msg);
        return;
      }
      var author := FindAuthor(net, token.value);
      if author.Err? {
        r := Err(author.msg);
        return;
      }
      r := PostWithRetry(net, token.value, Payload(author.value, rendered.value, post));
    }
  }
}
