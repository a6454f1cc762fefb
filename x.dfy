/** The X publisher: it posts a tweet through the v2 API with an OAuth 2.0
    user token kept in two cells. The rendered text is an input (template
    rendering is not modelled). */
module XPublishing {
  import opened Wrappers
  import opened Text
  import opened Posts
  import opened Http
  import opened OAuth

  const TweetLimit: nat := 280

  /** The tweet for a rendered text: unchanged up to 280 bytes, else its
      longest prefix within 277 bytes (cut at a character boundary) followed
      by "...". */
  function TweetText(rendered: string): (t: string)
    ensures Utf8Len(t) <= TweetLimit
    ensures Utf8Len(rendered) <= TweetLimit ==> t == rendered
    ensures Utf8Len(rendered) > TweetLimit ==>
      exists k :: 0 <= k <= |rendered| && t == rendered[..k] + Ellipsis && Utf8Len(rendered[..k]) <= TweetLimit - 3
        && (k < |rendered| ==> Utf8Len(rendered[..k + 1]) > TweetLimit - 3)
  {
    ByteTruncate(rendered, TweetLimit)
  }

  /** `publish`: render, truncate, get a valid access token, then post with
      one refresh-and-retry on a 401. */
  function PublishRun(s: Session<string>, net: Network<string>, persist: bool, rendered: Result<string>)
    : (Result<string>, Session<string>)
  {
    match rendered
    case Err(msg) => (Err(msg), s)
    case Ok(text) =>
      var (token, s1) := GetValid(XService, s, net, persist);
      match token
      case Err(msg) => (Err(msg), s1)
      case Ok(t) => PostWithRetry(XService, s1, net, persist, t, TweetText(text))
  }

  /** Every tweet a publish sends is the truncated rendering, at most 280
      bytes long, and at most two tweets are sent (the second only as the
      retry after a 401 and a granted refresh). */
  lemma {:induction false} PublishSendsTruncated(s: Session<string>, net: Network<string>, persist: bool, text: string)
    ensures var (r, s') := PublishRun(s, net, persist, Ok(text));
      && s.sent <= s'.sent
      && (forall k | |s.sent| <= k < |s'.sent| && s'.sent[k].CreatePost? ::
            s'.sent[k].payload == TweetText(text) && Utf8Len(s'.sent[k].payload) <= TweetLimit)
      && |s'.sent| <= |s.sent| + 4
  {
    var (token, s1) := GetValid(XService, s, net, persist);
    GetValidSendsGrant(XService, s, net, persist);
    if token.Ok? {
      PostWithRetryPosts(XService, s1, net, persist, token.value, TweetText(text));
      var s' := PostWithRetry(XService, s1, net, persist, token.value, TweetText(text)).1;
      assert forall j | |s.sent| <= j < |s1.sent| :: s'.sent[j] == s1.sent[j];
    }
  }

  /** Looks up the first query parameter named `key`. */
  function Lookup(pairs: seq<(string, string)>, key: string): (r: Option<string>)
    ensures r.None? <==> forall i | 0 <= i < |pairs| :: pairs[i].0 != key
    ensures r.Some? ==> exists i | 0 <= i < |pairs| :: pairs[i] == (key, r.value)
  {
    if pairs == [] then None
    else if pairs[0].0 == key then Some(pairs[0].1)
    else
      assert forall i | 1 <= i < |pairs| :: pairs[i] == pairs[1..][i - 1];
      Lookup(pairs[1..], key)
  }

  /** The parameter found is the first one with the key. */
  lemma {:induction false} LookupFirst(pairs: seq<(string, string)>, key: string, n: nat)
    requires n < |pairs| && pairs[n].0 == key
    requires forall i | 0 <= i < n :: pairs[i].0 != key
    ensures Lookup(pairs, key) == Some(pairs[n].1)
  {
    if n > 0 {
      LookupFirst(pairs[1..], key, n - 1);
    }
  }

  const CodeVerifier: string := "challenge"
  const Scope: string := "tweet.read tweet.write users.read offline.access"

  /** `generate_auth_url`: the authorization request's query parameters (the
      URL encoding is not modelled) and the code verifier, with the state
      given or else a fresh identifier. */
  function AuthRequest(clientId: string, redirectUri: string, state: Option<string>, freshId: string)
    : (r: (seq<(string, string)>, string))
  {
    ([("response_type", "code"), ("client_id", clientId), ("redirect_uri", redirectUri), ("scope", Scope),
      ("state", state.GetOr(freshId)), ("code_challenge", CodeVerifier), ("code_challenge_method", "plain")],
     CodeVerifier)
  }

  /** Under the "plain" method of section 4.2 of RFC 7636 the server accepts
      a verifier exactly when it equals the challenge. */
  predicate PlainVerifies(pairs: seq<(string, string)>, verifier: string) {
    Lookup(pairs, "code_challenge_method") == Some("plain") && Lookup(pairs, "code_challenge") == Some(verifier)
  }

  /** The verifier returned with the authorization request is the one its
      challenge accepts, and the request names the state it was given. */
  lemma AuthRequestPairsVerifier(clientId: string, redirectUri: string, state: Option<string>, freshId: string)
    ensures var (pairs, verifier) := AuthRequest(clientId, redirectUri, state, freshId);
      PlainVerifies(pairs, verifier)
      && (state.Some? ==> Lookup(pairs, "state") == state)
  {
    var (pairs, verifier) := AuthRequest(clientId, redirectUri, state, freshId);
    LookupFirst(pairs, "code_challenge_method", 6);
    LookupFirst(pairs, "code_challenge", 5);
    LookupFirst(pairs, "state", 4);
  }

  class XPublisher {
    const id: string
    const clientId: string
    const clientSecret: string
    const redirectUri: string
    const template: string
    const configFilePath: Option<string>
    var accessToken: Option<string>
    var refreshToken: Option<string>
    /** Every request sent, in order. */
    var sent: seq<Request<string>>
    /** Every token pair written to the configuration file, in order. */
    var saves: seq<Cells>

    /** `XPublisher::new`: the redirect URI defaults to `https://127.0.0.1`. */
    constructor (id: string, clientId: string, clientSecret: string, accessToken: Option<string>,
                 refreshToken: Option<string>, redirectUri: Option<string>, template: string,
                 configFilePath: Option<string>)
      ensures this.id == id && this.clientId == clientId && this.clientSecret == clientSecret
      ensures this.template == template && this.configFilePath == configFilePath
      ensures this.redirectUri == redirectUri.GetOr("https://127.0.0.1")
      ensures State() == Session(Cells(accessToken, refreshToken), [], [])
    {
      this.id := id;
      this.clientId := clientId;
      this.clientSecret := clientSecret;
      this.accessToken := accessToken;
      this.refreshToken := refreshToken;
      this.redirectUri := redirectUri.GetOr("https://127.0.0.1");
      this.template := template;
      this.configFilePath := configFilePath;
      sent := [];
      saves := [];
    }

    function State(): Session<string>
      reads this
    {
      Session(Cells(accessToken, refreshToken), sent, saves)
    }

    /** `generate_auth_url`. */
    function GenerateAuthUrl(state: Option<string>, freshId: string): (r: (seq<(string, string)>, string))
      reads this
      ensures PlainVerifies(r.0, r.1)
    {
      AuthRequestPairsVerifier(clientId, redirectUri, state, freshId);
      AuthRequest(clientId, redirectUri, state, freshId)
    }

    method SendRequest(net: Network<string>, req: Request<string>) returns (reply: Reply)
      modifies this
      ensures (reply, State()) == Send(old(State()), net, req)
    {
      reply := net(|sent|, req);
      sent := sent + [req];
    }

    /** `refresh_access_token`. */
    method RefreshAccessToken(net: Network<string>) returns (r: Result<(string, string)>)
      modifies this
      ensures (r, State()) == Refresh(XService, old(State()), net)
    {
      if refreshToken.None? {
        r := Err("No refresh token available");
        return;
      }
      var held := refreshToken.value;
      var reply := SendRequest(net, RefreshGrant(held));
      r := Granted(held, reply, XService);
      if r.Ok? {
        accessToken := Some(r.value.0);
        refreshToken := Some(r.value.1);
      }
    }

    /** `save_tokens_to_config`, as a recorded write. */
    method SaveTokensToConfig(a: string, rt: string)
      modifies this
      ensures State() == Save(old(State()), configFilePath.Some?, a, rt)
    {
      if configFilePath.Some? {
        saves := saves + [Cells(Some(a), Some(rt))];
      }
    }

    /** `get_valid_access_token`. */
    method GetValidAccessToken(net: Network<string>) returns (r: Result<string>)
      modifies this
      ensures (r, State()) == GetValid(XService, old(State()), net, configFilePath.Some?)
    {
      if accessToken.Some? {
        r := Ok(accessToken.value);
        return;
      }
      var refreshed := RefreshAccessToken(net);
      if refreshed.Err? {
        r := Err(refreshed.msg);
        return;
      }
      SaveTokensToConfig(refreshed.value.0, refreshed.value.1);
      r := Ok(refreshed.value.0);
    }

    /** The tweet request and its one refresh-and-retry on a 401. */
    method PostWithRetry(net: Network<string>, token: string, text: string) returns (r: Result<string>)
      modifies this
      ensures (r, State()) == OAuth.PostWithRetry(XService, old(State()), net, configFilePath.Some?, token, text)
    {
      var reply := SendRequest(net, CreatePost(token, text));
      if reply.SendError? {
        r := Err(reply.msg);
        return;
      }
      if IsSuccess(reply.status) {
        r := Published(XService, false, reply.json);
        return;
      }
      if reply.status != Unauthorized {
        r := Err("Failed to publish to " + Label(XService) + ": " + StatusText(reply.status) + " - " + reply.body);
        return;
      }
      var refreshed := RefreshAccessToken(net);
      if refreshed.Err? {
        r := Err("Failed to publish to " + Label(XService) + " - token refresh failed: " + refreshed.msg);
        return;
      }
      SaveTokensToConfig(refreshed.value.0, refreshed.value.1);
      var retry := SendRequest(net, CreatePost(refreshed.value.0, text));
      if retry.SendError? {
        r := Err(retry.msg);
      } else if IsSuccess(retry.status) {
        r := Published(XService, true, retry.json);
      } else {
        r := Err("Failed to publish to " + Label(XService) + " after token refresh: " + StatusText(retry.status)
                 + " - " + retry.body);
      }
    }

    /** `publish`, given the rendered text. */
    method Publish(post: Post, rendered: Result<string>, net: Network<string>) returns (r: Result<string>)
      modifies this
      ensures (r, State()) == PublishRun(old(State()), net, configFilePath.Some?, rendered)
    {
      if rendered.Err? {
        r := Err(rendered.msg);
        return;
      }
      var text := TweetText(rendered.value);
      var token := GetValidAccessToken(net);
      if token.Err? {
        r := Err(token.msg);
        return;
      }
      r := PostWithRetry(net, token.value, text);
    }
  }
}
