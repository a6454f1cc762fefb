/** The YouTube client: resolving which uploads playlist to read, and turning
    the playlist's items into posts. The Data API is an oracle: a function
    from the request sent to the reply received. */
module YouTube {
  import opened Wrappers
  import opened Text
  import opened Posts
  import opened Chronology
  import opened Config
  import opened Http

  datatype VideoId = Simple(simpleId: string) | Complex(videoId: string)

  /** `VideoId::get_id`: the id under either form. */
  function GetId(v: VideoId): string {
    match v
    case Simple(id) => id
    case Complex(id) => id
  }

  /** A date text and what the date library's RFC 3339 parser makes of it:
      the instant it denotes when it is a date-time of section 5.6 of
      RFC 3339, and otherwise the text of the parse error. */
  datatype RawTime = RawTime(text: string, rfc3339: Result<int>)

  datatype Snippet = Snippet(publishedAt: RawTime, title: string, description: string,
                             resourceId: Option<string>)

  datatype Video = Video(id: VideoId, snippet: Snippet)

  /** The settings of one YouTube fetch (`YouTubeConfig`). */
  datatype YouTubeConfig = YouTubeConfig(apiKey: string, channelId: Option<string>,
                                         playlistId: Option<string>, username: Option<string>,
                                         maxResults: Option<U64>)

  datatype ApiRequest =
    | ChannelsByUsername(username: string)
    | ChannelsById(channelId: string)
    | PlaylistItems(playlistId: string, maxResults: nat)

  /** A reply of the Data API: a transport or decoding failure, a
      non-success status with its body, the uploads playlist of each
      channel item, or the playlist's items. */
  datatype ApiReply =
    | Failed(msg: string)
    | Status(code: int, text: string)
    | Channels(uploads: seq<string>)
    | Items(videos: seq<Video>)

  type Api = ApiRequest -> ApiReply

  /** The uploads playlist of the first channel item. A reply that is not a
      decoded channel list fails as the decoding would; an empty list fails
      with `notFound`. */
  function FirstUploads(reply: ApiReply, notFound: string): (r: Result<string>)
    ensures r.Ok? <==> reply.Channels? && reply.uploads != []
    ensures r.Ok? ==> r.value == reply.uploads[0]
    ensures reply.Channels? && reply.uploads == [] ==> r == Err(notFound)
  {
    match reply
    case Channels(uploads) => if uploads == [] then Err(notFound) else Ok(uploads[0])
    case Failed(msg) => Err(msg)
    case _ => Err("error decoding response body")
  }

  /** `get_uploads_playlist_id`. */
  function UploadsPlaylistId(api: Api, channelId: string): Result<string> {
    FirstUploads(api(ChannelsById(channelId)), "Channel not found: " + channelId)
  }

  /** `get_channel_id_by_username`: despite its name it yields what the
      channel lookup yields, the first item's uploads-playlist id, not the
      channel's id. */
  function ChannelIdByUsername(api: Api, username: string): Result<string> {
    FirstUploads(api(ChannelsByUsername(username)), "Channel not found for username: " + username)
  }

  /** Which playlist `fetch_channel_videos` reads: the direct playlist id,
      else the uploads playlist of the channel id, else an error. With only
      a username, the username lookup's uploads-playlist id is used as the
      channel id of a second lookup, whose uploads playlist is read. */
  function ResolvePlaylistId(config: YouTubeConfig, api: Api): (r: Result<string>)
    ensures config.playlistId.Some? ==> r == Ok(config.playlistId.value)
    ensures config.playlistId.None? && config.channelId.Some? ==>
      r == UploadsPlaylistId(api, config.channelId.value)
    ensures config.playlistId.None? && config.channelId.None? && config.username.Some? ==>
      var viaUser := ChannelIdByUsername(api, config.username.value);
      (viaUser.Err? ==> r == viaUser) && (viaUser.Ok? ==> r == UploadsPlaylistId(api, viaUser.value))
    ensures config.playlistId.None? && config.channelId.None? && config.username.None? ==>
      r == Err("Must specify channel_id, playlist_id, or username")
  {
    if config.playlistId.Some? then Ok(config.playlistId.value)
    else if config.channelId.Some? then UploadsPlaylistId(api, config.channelId.value)
    else if config.username.Some? then
      var channelId := ChannelIdByUsername(api, config.username.value);
      if channelId.Err? then Err(channelId.msg) else UploadsPlaylistId(api, channelId.value)
    else Err("Must specify channel_id, playlist_id, or username")
  }

  /** The requests `fetch_channel_videos` sends before reading the playlist. */
  function LookupRequests(config: YouTubeConfig, api: Api): (reqs: seq<ApiRequest>)
    ensures config.playlistId.Some? ==> reqs == []
    ensures |reqs| <= 2
    ensures forall i | 0 <= i < |reqs| :: !reqs[i].PlaylistItems?
  {
    if config.playlistId.Some? then []
    else if config.channelId.Some? then [ChannelsById(config.channelId.value)]
    else if config.username.Some? then
      var channelId := ChannelIdByUsername(api, config.username.value);
      if channelId.Err? then [ChannelsByUsername(config.username.value)]
      else [ChannelsByUsername(config.username.value), ChannelsById(channelId.value)]
    else []
  }

  /** The number of videos requested: at least 50. */
  function FetchCount(maxResults: U64): (n: U64)
    ensures n >= 50 && n >= maxResults && (n == 50 || n == maxResults)
  {
    if maxResults < 50 then 50 else maxResults
  }

  /** The id of a playlist item: its resource id when present, else its id. */
  function VideoIdOf(v: Video): (id: string)
    ensures v.snippet.resourceId.Some? ==> id == v.snippet.resourceId.value
    ensures v.snippet.resourceId.None? ==> id == GetId(v.id)
  {
    match v.snippet.resourceId
    case Some(rid) => rid
    case None => GetId(v.id)
  }

  /** Whether a playlist item is skipped: private, deleted, untitled or
      without id. */
  predicate Skipped(v: Video) {
    v.snippet.title == "Private video" || v.snippet.title == "Deleted video"
    || v.snippet.title == "" || VideoIdOf(v) == ""
  }

  const WatchPrefix: string := "https://www.youtube.com/watch?v="

  /** The post made from a kept playlist item. */
  function VideoPost(v: Video, published: int): (p: Post)
    requires !Skipped(v)
  {
    Post(VideoIdOf(v), v.snippet.title, Some(v.snippet.description),
         WatchPrefix + VideoIdOf(v), published, "youtube")
  }

  /** A post as built from a playlist item. */
  predicate IsVideoPost(p: Post) {
    && p.guid != "" && p.link == WatchPrefix + p.guid && p.feedId == "youtube"
    && p.title != "" && p.title != "Private video" && p.title != "Deleted video"
    && p.description.Some?
  }

  function Prepend(p: Post, r: Result<seq<Post>>): Result<seq<Post>> {
    match r
    case Ok(ps) => Ok([p] + ps)
    case Err(m) => Err(m)
  }

  /** The posts of the playlist items, in playlist order: skipped items are
      left out, and the first kept item whose date does not parse fails the
      whole list. */
  function PlaylistPosts(videos: seq<Video>): Result<seq<Post>> {
    if videos == [] then Ok([])
    else
      var v := videos[0];
      var rest := PlaylistPosts(videos[1..]);
      if Skipped(v) then rest
      else match v.snippet.publishedAt.rfc3339
        case Err(m) => Err(m)
        case Ok(t) => Prepend(VideoPost(v, t), rest)
  }

  /** Every post is built from a playlist item, and the list fails exactly
      when some kept item has a date that does not parse. */
  lemma PlaylistPostsProps(videos: seq<Video>)
    ensures var r := PlaylistPosts(videos);
      && (r.Ok? ==> |r.value| <= |videos| && forall i | 0 <= i < |r.value| :: IsVideoPost(r.value[i]))
      && (r.Err? <==> exists i | 0 <= i < |videos| :: !Skipped(videos[i]) && videos[i].snippet.publishedAt.rfc3339.Err?)
  {
    PlaylistPostsAreVideos(videos);
    PlaylistPostsFailure(videos);
  }

  lemma {:induction false} PlaylistPostsAreVideos(videos: seq<Video>)
    ensures var r := PlaylistPosts(videos);
      r.Ok? ==> |r.value| <= |videos| && forall i | 0 <= i < |r.value| :: IsVideoPost(r.value[i])
  {
    if videos != [] {
      PlaylistPostsAreVideos(videos[1..]);
      var r := PlaylistPosts(videos);
      var rest := PlaylistPosts(videos[1..]);
      if !Skipped(videos[0]) && videos[0].snippet.publishedAt.rfc3339.Ok? && rest.Ok? {
        var p := VideoPost(videos[0], videos[0].snippet.publishedAt.rfc3339.value);
        assert r.value == [p] + rest.value;
        assert forall i | 1 <= i < |r.value| :: r.value[i] == rest.value[i - 1];
      }
    }
  }

  lemma {:induction false} PlaylistPostsFailure(videos: seq<Video>)
    ensures PlaylistPosts(videos).Err? <==>
      exists i | 0 <= i < |videos| :: !Skipped(videos[i]) && videos[i].snippet.publishedAt.rfc3339.Err?
  {
    if videos != [] {
      PlaylistPostsFailure(videos[1..]);
      assert forall i | 1 <= i < |videos| :: videos[i] == videos[1..][i - 1];
      if PlaylistPosts(videos[1..]).Err? {
        var k :| 0 <= k < |videos[1..]| && !Skipped(videos[1..][k]) && videos[1..][k].snippet.publishedAt.rfc3339.Err?;
        assert videos[k + 1] == videos[1..][k];
      }
    }
  }

  /** One item of the playlist: skipped, failing, or prepended. */
  lemma PlaylistPostsStep(videos: seq<Video>, i: nat)
    requires i < |videos|
    ensures PlaylistPosts(videos[i..])
            == if Skipped(videos[i]) then PlaylistPosts(videos[i + 1..])
               else match videos[i].snippet.publishedAt.rfc3339
                 case Err(m) => Err(m)
                 case Ok(t) => Prepend(VideoPost(videos[i], t), PlaylistPosts(videos[i + 1..]))
  {
    assert videos[i..][0] == videos[i];
    assert videos[i..][1..] == videos[i + 1..];
  }

  /** Every kept playlist item with a valid date becomes exactly one post:
      the playlist's kept items and the posts correspond one to one. */
  lemma {:induction false} PlaylistPostsCount(videos: seq<Video>)
    requires PlaylistPosts(videos).Ok?
    ensures |PlaylistPosts(videos).value| == |KeptVideos(videos)|
    ensures forall i | 0 <= i < |KeptVideos(videos)| ::
      PlaylistPosts(videos).value[i].guid == VideoIdOf(KeptVideos(videos)[i])
      && PlaylistPosts(videos).value[i].title == KeptVideos(videos)[i].snippet.title
  {
    if videos != [] {
      PlaylistPostsCount(videos[1..]);
    }
  }

  /** The playlist items that are not skipped, in order. */
  function KeptVideos(videos: seq<Video>): (kept: seq<Video>)
    ensures forall i | 0 <= i < |kept| :: !Skipped(kept[i])
  {
    if videos == [] then []
    else if Skipped(videos[0]) then KeptVideos(videos[1..])
    else [videos[0]] + KeptVideos(videos[1..])
  }

  /** What `fetch_playlist_videos` returns for a reply. */
  function PlaylistResult(reply: ApiReply): Result<seq<Post>> {
    match reply
    case Failed(msg) => Err(msg)
    case Status(code, text) =>
      if IsSuccess(code) then Err("error decoding response body")
      else Err("YouTube API error " + StatusText(code) + ": " + text)
    case Channels(_) => Err("error decoding response body")
    case Items(videos) =>
      match PlaylistPosts(videos)
      case Ok(posts) => Ok(SortBy(NewestFirst, posts))
      case Err(m) => Err(m)
  }

  /** `fetch_playlist_videos`: request at least 50 items, then keep, build
      and sort the posts newest first. */
  method FetchPlaylistVideos(api: Api, playlistId: string, maxResults: U64)
    returns (r: Result<seq<Post>>, request: ApiRequest)
    ensures request == PlaylistItems(playlistId, FetchCount(maxResults))
    ensures r == PlaylistResult(api(request))
    ensures r.Ok? ==> Sorted(NewestFirst, r.value) && forall i | 0 <= i < |r.value| :: IsVideoPost(r.value[i])
  {
    request := PlaylistItems(playlistId, FetchCount(maxResults));
    var reply := api(request);
    if !reply.Items? {
      r := PlaylistResult(reply);
      return;
    }
    var videos := reply.videos;
    var posts: seq<Post> := [];
    var i := 0;
    assert videos[0..] == videos;
    assert PlaylistPosts(videos).Ok? ==> [] + PlaylistPosts(videos).value == PlaylistPosts(videos).value;
    while i < |videos|
      invariant 0 <= i <= |videos|
      invariant PlaylistPosts(videos) == PrependAll(posts, PlaylistPosts(videos[i..]))
    {
      var video := videos[i];
      PlaylistPostsStep(videos, i);
      var videoId := VideoIdOf(video);
      if video.snippet.title == "Private video" || video.snippet.title == "Deleted video"
         || video.snippet.title == "" || videoId == "" {
        i := i + 1;
        continue;
      }
      var link := WatchPrefix + videoId;
      if video.snippet.publishedAt.rfc3339.Err? {
        r := Err(video.snippet.publishedAt.rfc3339.msg);
        return;
      }
      var post := Post(videoId, video.snippet.title, Some(video.snippet.description), link,
                       video.snippet.publishedAt.rfc3339.value, "youtube");
      PrependAllStep(posts, post, PlaylistPosts(videos[i + 1..]));
      posts := posts + [post];
      i := i + 1;
    }
    assert videos[i..] == [];
    assert posts + [] == posts;
    r := Ok(SortBy(NewestFirst, posts));
    PlaylistResultSorted(reply);
  }

  function PrependAll(ps: seq<Post>, r: Result<seq<Post>>): Result<seq<Post>> {
    match r
    case Ok(qs) => Ok(ps + qs)
    case Err(m) => Err(m)
  }

  lemma PrependAllStep(ps: seq<Post>, p: Post, r: Result<seq<Post>>)
    ensures PrependAll(ps, Prepend(p, r)) == PrependAll(ps + [p], r)
  {
    if r.Ok? {
      assert ps + ([p] + r.value) == (ps + [p]) + r.value;
    }
  }

  lemma PlaylistResultSorted(reply: ApiReply)
    ensures var r := PlaylistResult(reply);
      r.Ok? ==> Sorted(NewestFirst, r.value) && forall i | 0 <= i < |r.value| :: IsVideoPost(r.value[i])
  {
    var r := PlaylistResult(reply);
    if r.Ok? {
      PlaylistPostsProps(reply.videos);
      var posts := PlaylistPosts(reply.videos).value;
      forall i | 0 <= i < |r.value| ensures IsVideoPost(r.value[i]) {
        assert r.value[i] in multiset(posts);
      }
    }
  }

  /** What `fetch_channel_videos` returns. */
  function ChannelVideosResult(config: YouTubeConfig, api: Api): Result<seq<Post>> {
    var id := ResolvePlaylistId(config, api);
    if id.Err? then Err(id.msg)
    else PlaylistResult(api(PlaylistItems(id.value, FetchCount(config.maxResults.GetOr(10)))))
  }

  /** `fetch_channel_videos`: resolve the playlist, then read it, asking for
      `maxResults` (default 10) but at least 50 items. */
  method FetchChannelVideos(config: YouTubeConfig, api: Api)
    returns (r: Result<seq<Post>>, requests: seq<ApiRequest>)
    ensures r == ChannelVideosResult(config, api)
    ensures var id := ResolvePlaylistId(config, api);
      && (id.Err? ==> requests == LookupRequests(config, api))
      && (id.Ok? ==> requests == LookupRequests(config, api) + [PlaylistItems(id.value, FetchCount(config.maxResults.GetOr(10)))])
    ensures r.Ok? ==> Sorted(NewestFirst, r.value) && forall i | 0 <= i < |r.value| :: IsVideoPost(r.value[i])
  {
    var playlistId := ResolvePlaylistId(config, api);
    requests := LookupRequests(config, api);
    if playlistId.Err? {
      r := Err(playlistId.msg);
      return;
    }
    var request;
    r, request := FetchPlaylistVideos(api, playlistId.value, config.maxResults.GetOr(10));
    requests := requests + [request];
  }
}
