/** The application's configuration types: feeds, publishers, schedule and
    storage. They carry no behaviour of their own. */
module Config {
  import opened Wrappers

  /** Rust's `u64` and `u32`. */
  type U64 = x: nat | x < 0x1_0000_0000_0000_0000
  type U32 = x: nat | x < 0x1_0000_0000

  datatype YouTubeGlobalConfig = YouTubeGlobalConfig(apiKey: string, defaultMaxResults: Option<U64>)

  /** The source of a feed: an RSS/Atom URL, or a YouTube channel, playlist
      or user. */
  datatype FeedTypeConfig =
    | Rss(url: string)
    | Youtube(channelId: Option<string>, playlistId: Option<string>, username: Option<string>,
              maxResults: Option<U64>)

  /** One configured feed. `feedType` is the free-text `type` field ("Rss" or
      "Youtube"); it is checked against `config` only when the feed is fetched. */
  datatype FeedConfig = FeedConfig(
    id: string,
    feedType: string,
    config: FeedTypeConfig,
    name: string,
    enabled: bool,
    publishers: seq<string>,
    checkIntervalMinutes: Option<U64>,
    maxRetries: Option<U32>,
    retryDelaySeconds: Option<U64>)

  /** One configured publisher. The OAuth publishers' token fields are named
      `initial...` because they only seed the publisher's token cells. */
  datatype PublisherConfig =
    | Telegram(botToken: string, chatId: string, parseMode: Option<string>,
               messageThreadId: Option<string>, template: Option<string>)
    | X(clientId: string, clientSecret: string, initialAccessToken: Option<string>,
        initialRefreshToken: Option<string>, redirectUri: Option<string>, template: Option<string>)
    | Mastodon(serverUrl: string, accessToken: string, template: Option<string>)
    | LinkedIn(clientId: string, clientSecret: string, initialAccessToken: Option<string>,
               initialRefreshToken: Option<string>, userId: Option<string>, redirectUri: Option<string>,
               template: Option<string>)
    | OpenObserve(url: string, organization: string, streamName: string, accessToken: string,
                  template: Option<string>)
    | Matrix(homeserverUrl: string, accessToken: string, roomId: string, template: Option<string>)
    | Bluesky(handle: string, password: string, pdsUrl: Option<string>, template: Option<string>)
    | Threads(accessToken: string, threadsUserId: string, template: Option<string>)
    | Discord(webhookUrl: string, template: Option<string>)

  datatype ScheduleConfig = ScheduleConfig(defaultIntervalMinutes: U64, timezone: string)

  datatype StorageConfig = StorageConfig(dataDir: string, publishedPostsFile: string)

  datatype AppConfig = AppConfig(
    feeds: seq<FeedConfig>,
    publishers: map<string, PublisherConfig>,
    youtube: Option<YouTubeGlobalConfig>,
    schedule: ScheduleConfig,
    storage: StorageConfig)

  /** `AppConfig::default()`. */
  const DefaultAppConfig: AppConfig := AppConfig(
    [], map[], None,
    ScheduleConfig(60, "UTC"),
    StorageConfig("./data", "published_posts.json"))
}
