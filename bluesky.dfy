/** The Bluesky publisher: it opens a session with the handle and password,
    then creates a post record whose links are marked up as facets with UTF-8
    byte offsets. The rendered text, the clock and the network are inputs. */
module Bluesky {
  import opened Wrappers
  import opened Text
  import opened Http
  import opened Posts

  const PostLimit: nat := 300
  const DefaultPds: string := "https://bsky.social"
  const PlainScheme: string := "http://"
  const SecureScheme: string := "https://"

  /** A publisher's settings; `new` defaults the PDS URL. */
  datatype BlueskyPublisher = BlueskyPublisher(id: string, handle: string, password: string, pdsUrl: string,
                                               template: string)

  function NewPublisher(id: string, handle: string, password: string, pdsUrl: Option<string>, template: string)
    : (p: BlueskyPublisher)
    ensures p.pdsUrl == (if pdsUrl.Some? then pdsUrl.value else DefaultPds)
    ensures p.id == id && p.handle == handle && p.password == password && p.template == template
  {
    BlueskyPublisher(id, handle, password, pdsUrl.GetOr(DefaultPds), template)
  }

  // ---------------------------------------------------------------------
  // Link facets

  /** A link found in the text, as character positions `[start, end)`. */
  datatype Span = Span(start: nat, end: nat)

  /** A link facet: UTF-8 byte offsets and the link itself. */
  datatype Facet = Facet(byteStart: nat, byteEnd: nat, uri: string)

  /** The end of the match of `https?://[^\s]+` starting at `i`, if any: the
      scheme and separator, then the longest run of non-whitespace, which
      must not be empty. */
  function LinkEnd(s: string, i: nat): (e: Option<nat>)
    requires i <= |s|
    ensures e.Some? ==> i < e.value <= |s|
    ensures e.Some? ==> (StartsWith(s[i..], SecureScheme) || StartsWith(s[i..], PlainScheme))
    ensures e.Some? ==> e.value == |s| || IsWhitespace(s[e.value])
  {
    var t := s[i..];
    if StartsWith(t, SecureScheme) && RunLen(t[|SecureScheme|..]) > 0 then Some(i + |SecureScheme| + RunLen(t[|SecureScheme|..]))
    else if StartsWith(t, PlainScheme) && RunLen(t[|PlainScheme|..]) > 0 then Some(i + |PlainScheme| + RunLen(t[|PlainScheme|..]))
    else None
  }

  /** The links of `s` from position `i` on, leftmost first, each search
      resuming where the previous link ended. */
  function Spans(s: string, i: nat): (spans: seq<Span>)
    requires i <= |s|
    decreases |s| - i
    ensures forall k | 0 <= k < |spans| :: i <= spans[k].start < spans[k].end <= |s|
                                          && LinkEnd(s, spans[k].start) == Some(spans[k].end)
    ensures forall k | 0 <= k < |spans| - 1 :: spans[k].end <= spans[k + 1].start
  {
    if i == |s| then []
    else match LinkEnd(s, i)
      case Some(e) => [Span(i, e)] + Spans(s, e)
      case None => Spans(s, i + 1)
  }

  /** No link is missed: every position from which the pattern matches lies
      inside one of the links found. */
  lemma {:induction false} SpansCover(s: string, i: nat, j: nat)
    requires i <= j <= |s| && LinkEnd(s, j).Some?
    decreases |s| - i
    ensures exists k | 0 <= k < |Spans(s, i)| :: Spans(s, i)[k].start <= j < Spans(s, i)[k].end
  {
    var spans := Spans(s, i);
    match LinkEnd(s, i)
    case Some(e) =>
      if j < e {
        assert spans[0] == Span(i, e);
      } else {
        SpansCover(s, e, j);
        var k :| 0 <= k < |Spans(s, e)| && Spans(s, e)[k].start <= j < Spans(s, e)[k].end;
        assert spans[k + 1] == Spans(s, e)[k];
      }
    case None =>
      SpansCover(s, i + 1, j);
  }

  function ToFacet(s: string, sp: Span): Facet
    requires sp.start <= sp.end <= |s|
  {
    Facet(Utf8Len(s[..sp.start]), Utf8Len(s[..sp.end]), s[sp.start..sp.end])
  }

  function FacetsOf(s: string, spans: seq<Span>): (fs: seq<Facet>)
    requires forall k | 0 <= k < |spans| :: spans[k].start <= spans[k].end <= |s|
    ensures |fs| == |spans|
    ensures forall k | 0 <= k < |spans| :: fs[k] == ToFacet(s, spans[k])
  {
    if spans == [] then [] else [ToFacet(s, spans[0])] + FacetsOf(s, spans[1..])
  }

  /** The facets of the links found from position `i` on, built as the
      search goes. */
  function FacetsFrom(s: string, i: nat): seq<Facet>
    requires i <= |s|
    decreases |s| - i
  {
    if i == |s| then []
    else match LinkEnd(s, i)
      case Some(e) => [ToFacet(s, Span(i, e))] + FacetsFrom(s, e)
      case None => FacetsFrom(s, i + 1)
  }

  /** The facets of the text: one per link found. */
  function Facets(s: string): seq<Facet> {
    FacetsFrom(s, 0)
  }

  /** The facets built during the search are those of the links found. */
  lemma {:induction false} FacetsFromSpans(s: string, i: nat)
    requires i <= |s|
    ensures FacetsFrom(s, i) == FacetsOf(s, Spans(s, i))
    decreases |s| - i
  {
    if i < |s| {
      match LinkEnd(s, i)
      case Some(e) =>
        FacetsFromSpans(s, e);
        var spans := Spans(s, i);
        assert spans[1..] == Spans(s, e);
      case None =>
        FacetsFromSpans(s, i + 1);
    }
  }

  /** The facet of a link: its text starts with a scheme, has no
      whitespace, and its byte length is `byteEnd - byteStart`. */
  lemma FacetIsLink(s: string, sp: Span)
    requires sp.start <= |s| && LinkEnd(s, sp.start) == Some(sp.end)
    ensures var f := ToFacet(s, sp);
      && (StartsWith(f.uri, SecureScheme) || StartsWith(f.uri, PlainScheme))
      && (forall c | c in f.uri :: !IsWhitespace(c))
      && f.byteEnd == f.byteStart + Utf8Len(f.uri)
  {
    var uri := s[sp.start..sp.end];
    assert s[..sp.end] == s[..sp.start] + uri;
    Utf8LenAppend(s[..sp.start], uri);
    LinkIsUrl(s, sp.start);
  }

  /** Byte offsets grow with character positions. */
  lemma BytesMonotone(s: string, a: nat, b: nat)
    requires a <= b <= |s|
    ensures Utf8Len(s[..a]) <= Utf8Len(s[..b])
  {
    assert s[..b] == s[..a] + s[a..b];
    Utf8LenAppend(s[..a], s[a..b]);
  }

  /** Each facet is a link measured in bytes, and the facets follow one
      another without overlapping. */
  lemma FacetsAreLinks(s: string)
    ensures forall k | 0 <= k < |Facets(s)| ::
      && (StartsWith(Facets(s)[k].uri, SecureScheme) || StartsWith(Facets(s)[k].uri, PlainScheme))
      && (forall c | c in Facets(s)[k].uri :: !IsWhitespace(c))
      && Facets(s)[k].byteEnd == Facets(s)[k].byteStart + Utf8Len(Facets(s)[k].uri)
    ensures forall k | 0 <= k < |Facets(s)| - 1 :: Facets(s)[k].byteEnd <= Facets(s)[k + 1].byteStart
  {
    var spans := Spans(s, 0);
    var fs := Facets(s);
    FacetsFromSpans(s, 0);
    forall k | 0 <= k < |fs|
      ensures (StartsWith(fs[k].uri, SecureScheme) || StartsWith(fs[k].uri, PlainScheme))
      ensures forall c | c in fs[k].uri :: !IsWhitespace(c)
      ensures fs[k].byteEnd == fs[k].byteStart + Utf8Len(fs[k].uri)
    {
      FacetIsLink(s, spans[k]);
    }
    forall k | 0 <= k < |fs| - 1 ensures fs[k].byteEnd <= fs[k + 1].byteStart {
      BytesMonotone(s, spans[k].end, spans[k + 1].start);
    }
  }

  /** The match at `i` is the scheme followed by non-whitespace only. */
  lemma LinkIsUrl(s: string, i: nat)
    requires i <= |s| && LinkEnd(s, i).Some?
    ensures var u := s[i..LinkEnd(s, i).value];
      (StartsWith(u, SecureScheme) || StartsWith(u, PlainScheme)) && forall c | c in u :: !IsWhitespace(c)
  {
    var e := LinkEnd(s, i).value;
    var t := s[i..];
    var u := s[i..e];
    var n := if StartsWith(t, SecureScheme) && RunLen(t[|SecureScheme|..]) > 0 then |SecureScheme| else |PlainScheme|;
    assert u == t[..n] + t[n..][..RunLen(t[n..])];
    assert forall c | c in t[..n] :: !IsWhitespace(c) by {
      assert t[..n] == SecureScheme || t[..n] == PlainScheme;
    }
  }

  /** `extract_url_facets`: one facet per match, in order. */
  method ExtractUrlFacets(text: string) returns (facets: seq<Facet>)
    ensures facets == Facets(text)
  {
    facets := [];
    var i := 0;
    while i < |text|
      invariant i <= |text|
      invariant facets + FacetsFrom(text, i) == Facets(text)
      decreases |text| - i
    {
      var e := LinkEnd(text, i);
      if e.Some? {
        var f := ToFacet(text, Span(i, e.value));
        assert facets + ([f] + FacetsFrom(text, e.value)) == (facets + [f]) + FacetsFrom(text, e.value);
        facets := facets + [f];
        i := e.value;
      } else {
        i := i + 1;
      }
    }
    assert facets + [] == facets;
  }

  // ---------------------------------------------------------------------
  // Publishing

  /** The post record: its text, creation time, and the facets, present only
      when there is at least one. */
  datatype Record = Record(text: string, createdAt: string, facets: Option<seq<Facet>>)

  datatype BskyRequest =
    | CreateSession(url: string, identifier: string, password: string)
    | CreateRecord(url: string, accessJwt: string, repo: string, record: Record)

  /** The JSON fields a reply may carry: `accessJwt`, `did` and `uri`. */
  datatype BskyFields = BskyFields(accessJwt: Option<string>, did: Option<string>, uri: Option<string>)

  datatype BskyReply = SendError(msg: string) | Response(status: int, body: string, json: Result<BskyFields>)

  /** `authenticate`: a session needs both `accessJwt` and `did` in a
      successful reply. */
  function Authenticated(reply: BskyReply): (r: Result<(string, string)>)
    ensures r.Ok? <==> reply.Response? && IsSuccess(reply.status) && reply.json.Ok?
                       && reply.json.value.accessJwt.Some? && reply.json.value.did.Some?
    ensures r.Ok? ==> r.value == (reply.json.value.accessJwt.value, reply.json.value.did.value)
  {
    match reply
    case SendError(msg) => Err(msg)
    case Response(status, body, json) =>
      if !IsSuccess(status) then Err("Bluesky authentication failed: " + StatusText(status) + " - " + body)
      else if json.Err? then Err(json.msg)
      else if json.value.accessJwt.Some? && json.value.did.Some? then Ok((json.value.accessJwt.value, json.value.did.value))
      else Err("Missing access token or DID in Bluesky auth response")
  }

  /** The post text: unchanged up to 300 bytes, else its longest prefix
      within 297 bytes (cut at a character boundary) followed by "...". */
  function PostText(rendered: string): (t: string)
    ensures Utf8Len(t) <= PostLimit
    ensures Utf8Len(rendered) <= PostLimit ==> t == rendered
    ensures Utf8Len(rendered) > PostLimit ==>
      exists k :: 0 <= k <= |rendered| && t == rendered[..k] + Ellipsis && Utf8Len(rendered[..k]) <= PostLimit - 3
        && (k < |rendered| ==> Utf8Len(rendered[..k + 1]) > PostLimit - 3)
  {
    ByteTruncate(rendered, PostLimit)
  }

  /** The record for a text, with facets computed on that text. */
  function MakeRecord(text: string, createdAt: string): (r: Record)
    ensures r.text == text && r.createdAt == createdAt
    ensures r.facets.None? <==> Facets(text) == []
    ensures r.facets.Some? ==> r.facets.value == Facets(text)
  {
    Record(text, createdAt, if Facets(text) == [] then None else Some(Facets(text)))
  }

  /** The record as `publish` builds it: the text and time, then the facets
      set when there are any. */
  method BuildRecord(text: string, createdAt: string) returns (record: Record)
    ensures record == MakeRecord(text, createdAt)
  {
    var facets := ExtractUrlFacets(text);
    record := Record(text, createdAt, None);
    if facets != [] {
      record := record.(facets := Some(facets));
    }
  }

  /** `publish`: authenticate first, then render, truncate, and create the
      record in the session's repository (its DID). The reply to the k-th
      request is `net(k, request)`; the result comes with the requests sent.
      Once the record is sent, a 2xx reply whose body decodes confirms the
      record's `uri` ("unknown" when absent); anything else is an error. */
  function Publish(p: BlueskyPublisher, post: Post, rendered: Result<string>, now: string,
                   net: (nat, BskyRequest) -> BskyReply): (out: (Result<string>, seq<BskyRequest>))
    ensures 1 <= |out.1| <= 2
    ensures out.1[0] == CreateSession(p.pdsUrl + "/xrpc/com.atproto.server.createSession", p.handle, p.password)
    ensures |out.1| == 2 <==> Authenticated(net(0, out.1[0])).Ok? && rendered.Ok?
    ensures |out.1| == 2 ==>
      var session := Authenticated(net(0, out.1[0])).value;
      out.1[1] == CreateRecord(p.pdsUrl + "/xrpc/com.atproto.repo.createRecord", session.0, session.1,
                               MakeRecord(PostText(rendered.value), now))
    ensures |out.1| == 1 ==> out.0.Err?
    ensures |out.1| == 2 ==>
      var reply := net(1, out.1[1]);
      && (out.0.Ok? <==> reply.Response? && IsSuccess(reply.status) && reply.json.Ok?)
      && (out.0.Ok? ==> out.0.value == "Published to Bluesky: " + reply.json.value.uri.GetOr("unknown"))
  {
    var auth := CreateSession(p.pdsUrl + "/xrpc/com.atproto.server.createSession", p.handle, p.password);
    match Authenticated(net(0, auth))
    case Err(msg) => (Err(msg), [auth])
    case Ok((token, did)) =>
      match rendered
      case Err(msg) => (Err(msg), [auth])
      case Ok(text) =>
        var create := CreateRecord(p.pdsUrl + "/xrpc/com.atproto.repo.createRecord", token, did,
                                   MakeRecord(PostText(text), now));
        match net(1, create)
        case SendError(msg) => (Err(msg), [auth, create])
        case Response(status, body, json) =>
          if !IsSuccess(status) then (Err("Failed to publish to Bluesky: " + StatusText(status) + " - " + body), [auth, create])
          else if json.Err? then (Err(json.msg), [auth, create])
          else (Ok("Published to Bluesky: " + json.value.uri.GetOr("unknown")), [auth, create])
  }
}
