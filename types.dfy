/** Records shared by the dashboard's components (autosocial-ai/types.ts). */
module Types {

  datatype Option<+T> = None | Some(value: T)

  /** JavaScript truthiness of a `string | null` value: null and "" are falsy. */
  predicate Truthy(o: Option<string>) {
    o.Some? && o.value != ""
  }

  /** A browser-store entry read back through `JSON.parse`: nothing stored
      (null or ""), a string that is not valid JSON (`JSON.parse` throws), or
      the parsed value. */
  datatype Stored<+T> = Absent | Corrupt | Parsed(value: T)

  /** The content modalities a generation provider can produce. */
  datatype Modality = Text | Image | Video

  /** ApiConfig: one provider entry. The provider id is kept as a string because
      stored configurations may carry ids outside the declared union. */
  datatype ApiConfig = ApiConfig(provider: string, apiKey: string, isActive: bool)

  datatype PostStatus = Queued | Published

  datatype Recurrence = Once | Every30m | Every1h | Every3h | Every6h | Every12h | Daily | Weekly

  datatype ScheduledPost = ScheduledPost(
    id: string,
    pageId: string,
    content: string,
    mediaType: Modality,
    mediaUrl: Option<string>,
    scheduledTime: string,
    status: PostStatus,
    recurrence: Recurrence)

  datatype ConnectedPage = ConnectedPage(
    id: string,
    name: string,
    accessToken: string,
    isConnected: bool,
    automationEnabled: bool,
    followers: int,
    aiInstructions: string,
    avatarUrl: string,
    connectedInstagram: Option<string>,
    instagramAvatarUrl: Option<string>)

  datatype AppSettings = AppSettings(
    fbAppId: string,
    fbAppSecret: string,
    smtpHost: string,
    smtpPort: string,
    smtpUser: string,
    smtpPass: string)

  /** The views the application can show (the `View` enum). */
  datatype View = Dashboard | Replies | Activity | Poster | ApiManager | Settings | Guide | Legal
  {
    /** The enum's string value. */
    function Name(): string {
      match this
      case Dashboard => "DASHBOARD"
      case Replies => "REPLIES"
      case Activity => "ACTIVITY"
      case Poster => "POSTER"
      case ApiManager => "API_MANAGER"
      case Settings => "SETTINGS"
      case Guide => "GUIDE"
      case Legal => "LEGAL"
    }
  }
}
