/** The token handling the OAuth 2.0 publishers (X and LinkedIn) share: two
    token cells, a refresh grant (section 6 of RFC 6749) that keeps the old
    refresh token when the server does not send a new one, and a publish
    request that, on a 401 (section 15.5.2 of RFC 9110), refreshes once and
    retries once. The network is an oracle: the reply to a publisher's k-th
    request is `net(k, request)`. */
module OAuth {
  import opened Wrappers
  import opened Http

  /** The publisher's access and refresh token cells. */
  datatype Cells = Cells(access: Option<string>, refresh: Option<string>)

  /** The requests an OAuth publisher makes; `P` is the service's post body. */
  datatype Request<P> =
    | RefreshGrant(refreshToken: string)
    | ProfileLookup(accessToken: string)
    | CreatePost(accessToken: string, payload: P)

  /** The JSON fields a reply body may carry (`access_token`,
      `refresh_token`, and the id of a created post or of a profile). */
  datatype Fields = Fields(accessToken: Option<string>, refreshToken: Option<string>, id: Option<string>)

  /** A reply: a transport error, or a status, the body text and the body
      decoded as JSON (or the decoding error). */
  datatype Reply = SendError(msg: string) | Response(status: int, body: string, json: Result<Fields>)

  type Network<!P> = (nat, Request<P>) -> Reply

  datatype Service = XService | LinkedInService

  function Label(service: Service): string {
    match service
    case XService => "X"
    case LinkedInService => "LinkedIn"
  }

  function MissingAccessToken(service: Service): string {
    match service
    case XService => "No access_token in response"
    case LinkedInService => "No access_token in refresh response"
  }

  /** What a publisher has done so far: its token cells, every request it
      sent, and every pair of tokens it wrote to its configuration file. */
  datatype Session<P> = Session(cells: Cells, sent: seq<Request<P>>, saves: seq<Cells>)

  /** Sending `req`: the reply is the network's answer to the next request. */
  function Send<P>(s: Session<P>, net: Network<P>, req: Request<P>): (out: (Reply, Session<P>))
    ensures out.1 == s.(sent := s.sent + [req])
    ensures out.0 == net(|s.sent|, req)
  {
    (net(|s.sent|, req), s.(sent := s.sent + [req]))
  }

  /** The tokens a successful refresh reply grants: the new access token and
      the new refresh token, or the old one when the reply has none. */
  function Granted(held: string, reply: Reply, service: Service): (r: Result<(string, string)>)
    ensures r.Ok? <==> reply.Response? && IsSuccess(reply.status) && reply.json.Ok? && reply.json.value.accessToken.Some?
    ensures r.Ok? ==> r.value.0 == reply.json.value.accessToken.value
                      && r.value.1 == reply.json.value.refreshToken.GetOr(held)
  {
    match reply
    case SendError(msg) => Err(msg)
    case Response(status, body, json) =>
      if !IsSuccess(status) then
        Err("Failed to refresh " + Label(service) + " token: " + StatusText(status) + " - " + body)
      else if json.Err? then Err(json.msg)
      else if json.value.accessToken.None? then Err(MissingAccessToken(service))
      else Ok((json.value.accessToken.value, json.value.refreshToken.GetOr(held)))
  }

  /** `refresh_access_token`: without a refresh token it fails before any
      request; otherwise it sends the grant, and only a granted reply
      changes the cells, to the granted pair. */
  function Refresh<P>(service: Service, s: Session<P>, net: Network<P>): (out: (Result<(string, string)>, Session<P>))
    ensures s.cells.refresh.None? ==> out == (Err("No refresh token available"), s)
    ensures s.cells.refresh.Some? ==>
      && out.1.sent == s.sent + [RefreshGrant(s.cells.refresh.value)]
      && out.0 == Granted(s.cells.refresh.value, net(|s.sent|, RefreshGrant(s.cells.refresh.value)), service)
    ensures out.1.saves == s.saves
    ensures out.0.Ok? ==> out.1.cells == Cells(Some(out.0.value.0), Some(out.0.value.1))
    ensures out.0.Err? ==> out.1.cells == s.cells
  {
    match s.cells.refresh
    case None => (Err("No refresh token available"), s)
    case Some(held) =>
      var (reply, s1) := Send(s, net, RefreshGrant(held));
      var r := Granted(held, reply, service);
      if r.Ok? then (r, s1.(cells := Cells(Some(r.value.0), Some(r.value.1)))) else (r, s1)
  }

  /** `save_tokens_to_config`: the new pair is written only when the
      publisher knows its configuration file; a failed write is ignored. */
  function Save<P>(s: Session<P>, persist: bool, a: string, r: string): Session<P> {
    if persist then s.(saves := s.saves + [Cells(Some(a), Some(r))]) else s
  }

  /** `get_valid_access_token`: a held access token is returned without any
      request; otherwise the token is refreshed and the new pair saved. */
  function GetValid<P>(service: Service, s: Session<P>, net: Network<P>, persist: bool): (out: (Result<string>, Session<P>))
    ensures s.cells.access.Some? ==> out == (Ok(s.cells.access.value), s)
    ensures s.cells.access.None? ==>
      var (refreshed, s1) := Refresh(service, s, net);
      && out.1.cells == s1.cells && out.1.sent == s1.sent
      && (refreshed.Ok? ==> out.0 == Ok(refreshed.value.0)
                            && out.1.saves == s.saves + (if persist then [s1.cells] else []))
      && (refreshed.Err? ==> out.0 == Err(refreshed.msg) && out.1.saves == s.saves)
  {
    match s.cells.access
    case Some(token) => (Ok(token), s)
    case None =>
      var (refreshed, s1) := Refresh(service, s, net);
      match refreshed
      case Err(msg) => (Err(msg), s1)
      case Ok((a, r)) => (Ok(a), Save(s1, persist, a, r))
  }

  /** Getting a valid token sends nothing but, at most, one refresh grant. */
  lemma GetValidSendsGrant<P>(service: Service, s: Session<P>, net: Network<P>, persist: bool)
    ensures var s1 := GetValid(service, s, net, persist).1;
      && s.sent <= s1.sent && |s1.sent| <= |s.sent| + 1
      && forall j | |s.sent| <= j < |s1.sent| :: s1.sent[j].RefreshGrant?
  {
    if s.cells.access.None? && s.cells.refresh.Some? {
      var s1 := GetValid(service, s, net, persist).1;
      assert s1.sent == s.sent + [RefreshGrant(s.cells.refresh.value)];
    }
  }

  /** The confirmation for a created post. */
  function Published(service: Service, afterRefresh: bool, json: Result<Fields>): Result<string> {
    match json
    case Err(msg) => Err(msg)
    case Ok(fields) =>
      Ok("Published to " + Label(service) + (if afterRefresh then " (after token refresh): " else ": ")
         + fields.id.GetOr("unknown"))
  }

  /** The retry after a refresh. */
  function Retry<P>(service: Service, s: Session<P>, net: Network<P>, token: string, payload: P): (Result<string>, Session<P>) {
    var (reply, s1) := Send(s, net, CreatePost(token, payload));
    match reply
    case SendError(msg) => (Err(msg), s1)
    case Response(status, body, json) =>
      if IsSuccess(status) then (Published(service, true, json), s1)
      else (Err("Failed to publish to " + Label(service) + " after token refresh: " + StatusText(status) + " - " + body), s1)
  }

  /** Creating the post with `token`; a 401 refreshes the tokens, saves
      them and retries once with the new access token. Any other failure,
      a failed refresh and a failed retry are final. */
  function PostWithRetry<P>(service: Service, s: Session<P>, net: Network<P>, persist: bool, token: string, payload: P)
    : (Result<string>, Session<P>)
  {
    var (reply, s1) := Send(s, net, CreatePost(token, payload));
    match reply
    case SendError(msg) => (Err(msg), s1)
    case Response(status, body, json) =>
      if IsSuccess(status) then (Published(service, false, json), s1)
      else if status == Unauthorized then
        var (refreshed, s2) := Refresh(service, s1, net);
        match refreshed
        case Err(msg) => (Err("Failed to publish to " + Label(service) + " - token refresh failed: " + msg), s2)
        case Ok((a, r)) => Retry(service, Save(s2, persist, a, r), net, a, payload)
      else (Err("Failed to publish to " + Label(service) + ": " + StatusText(status) + " - " + body), s1)
  }

  /** Whether the first reply to the post was a 401. */
  predicate FirstWasUnauthorized<P>(s: Session<P>, net: Network<P>, token: string, payload: P) {
    var reply := net(|s.sent|, CreatePost(token, payload));
    reply.Response? && reply.status == Unauthorized
  }

  /** The requests of a publish attempt are the post alone, or, after a 401
      only, the post and one refresh grant, and, when that refresh granted
      new tokens only, one retry of the same payload with the new access
      token. A success or any failure other than a 401 leaves the token
      cells as they were. */
  lemma {:induction false} PostWithRetryShape<P>(service: Service, s: Session<P>, net: Network<P>, persist: bool,
                                                 token: string, payload: P)
    ensures var (r, s') := PostWithRetry(service, s, net, persist, token, payload);
      && |s.sent| < |s'.sent| <= |s.sent| + 3
      && s'.sent[..|s.sent| + 1] == s.sent + [CreatePost(token, payload)]
      && (|s'.sent| > |s.sent| + 1 <==> FirstWasUnauthorized(s, net, token, payload) && s.cells.refresh.Some?)
      && (|s'.sent| > |s.sent| + 1 ==> s'.sent[|s.sent| + 1] == RefreshGrant(s.cells.refresh.value))
      && (|s'.sent| == |s.sent| + 3 <==>
            FirstWasUnauthorized(s, net, token, payload) && Refresh(service, s.(sent := s.sent + [CreatePost(token, payload)]), net).0.Ok?)
      && (|s'.sent| == |s.sent| + 3 ==>
            s'.sent[|s.sent| + 2] == CreatePost(s'.cells.access.value, payload) && s'.cells.access.Some?)
      && (!FirstWasUnauthorized(s, net, token, payload) ==> s'.cells == s.cells && s'.saves == s.saves)
  {
    var (reply, s1) := Send(s, net, CreatePost(token, payload));
    if reply.Response? && !IsSuccess(reply.status) && reply.status == Unauthorized {
      var (refreshed, s2) := Refresh(service, s1, net);
      if refreshed.Ok? {
        var s3 := Save(s2, persist, refreshed.value.0, refreshed.value.1);
        assert s3.cells.access == Some(refreshed.value.0);
        assert s3.sent == s2.sent;
      }
    }
  }

  /** The result of a publish attempt: a transport error or a failure
      other than a 401 on the post is final, with no further request; a
      2xx on the post is its confirmation; after a 401, a refused refresh
      is an error; and any success answers the last request sent, a post,
      with a 2xx reply. */
  lemma PostWithRetryResult<P>(service: Service, s: Session<P>, net: Network<P>, persist: bool, token: string, payload: P)
    ensures var (r, s') := PostWithRetry(service, s, net, persist, token, payload);
      var reply := net(|s.sent|, CreatePost(token, payload));
      var s1 := s.(sent := s.sent + [CreatePost(token, payload)]);
      && (reply.SendError? ==> r == Err(reply.msg) && s' == s1)
      && (reply.Response? && !IsSuccess(reply.status) && reply.status != Unauthorized ==> r.Err? && s' == s1)
      && (reply.Response? && IsSuccess(reply.status) ==> r == Published(service, false, reply.json) && s' == s1)
      && (FirstWasUnauthorized(s, net, token, payload) && Refresh(service, s1, net).0.Err? ==> r.Err?)
      && (r.Ok? ==>
            var last := |s'.sent| - 1;
            && last >= |s.sent| && s'.sent[last].CreatePost?
            && net(last, s'.sent[last]).Response? && IsSuccess(net(last, s'.sent[last]).status))
  {
    var (reply, s1) := Send(s, net, CreatePost(token, payload));
    if reply.Response? && !IsSuccess(reply.status) && reply.status == Unauthorized {
      var (refreshed, s2) := Refresh(service, s1, net);
      if refreshed.Ok? {
        var s3 := Save(s2, persist, refreshed.value.0, refreshed.value.1);
        assert s3.sent == s2.sent;
        var (r, s4) := Retry(service, s3, net, refreshed.value.0, payload);
        assert s4.sent == s3.sent + [CreatePost(refreshed.value.0, payload)];
      }
    }
  }

  /** A publish attempt only appends requests, at most three, and every
      post among them carries the payload. */
  lemma PostWithRetryPosts<P>(service: Service, s: Session<P>, net: Network<P>, persist: bool, token: string, payload: P)
    ensures var s' := PostWithRetry(service, s, net, persist, token, payload).1;
      && s.sent <= s'.sent && |s'.sent| <= |s.sent| + 3
      && forall k | |s.sent| <= k < |s'.sent| && s'.sent[k].CreatePost? :: s'.sent[k].payload == payload
  {
    PostWithRetryShape(service, s, net, persist, token, payload);
    var s' := PostWithRetry(service, s, net, persist, token, payload).1;
    var n := |s.sent|;
    assert s'.sent[..n + 1][..n] == s.sent;
    assert s'.sent[n] == s'.sent[..n + 1][n];
  }
}
