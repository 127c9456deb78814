/** The records stored in the Convex tables (convex/schema.ts). */
module Schema {
  import opened Outcomes

  type UserId = string     // Clerk subject, `user_id` in the tables
  type TrackId = int       // the episode's numeric track id
  type StorageId = string  // opaque handle of a stored transcript file

  /** Status of one Listen agent: the three literals of convex/schema.ts:30-34. */
  datatype Status = InProgress | Completed | Failed

  /** One entry of a user's `agentsGenerated.episodes` list. */
  datatype Episode = Episode(
    trackId: TrackId,
    episodeTitle: string,
    episodeDescription: string,
    episodeImageUrl: Option<string>,
    releaseDate: string,
    status: Status,
    errorMessage: Option<string>,
    createdAt: int)

  /** A row of `agentTranscripts`; the table is only indexed by `trackId`, so rows may repeat a track. */
  datatype TranscriptRow = TranscriptRow(trackId: TrackId, storageId: StorageId)

  /** A row of `notifications` (`type` is a reserved word in Dafny, hence `kind`). */
  datatype Notification = Notification(
    userId: UserId,
    trackId: TrackId,
    kind: string,
    read: bool,
    episodeTitle: string)

  /** Role of a chat message: the literals of convex/schema.ts:52-56. */
  datatype Role = User | Assistant | System

  /** A message stored in a `chats` document. */
  datatype StoredMessage = StoredMessage(id: string, role: Role, content: string, createdAt: int)

  /** A podcast chosen in a preference document, as convex/preferences.ts writes it. */
  datatype PodcastChoice = PodcastChoice(name: string, artistName: string, image: Option<string>)

  /** A `preferences` document, as convex/preferences.ts writes it. */
  datatype Preference = Preference(userId: UserId, providers: seq<string>, podcasts: seq<PodcastChoice>)

  /** A YouTube channel chosen in a video preference document. */
  datatype Channel = Channel(name: string, channelId: string, creatorName: string, image: Option<string>, color: string)

  /** A `videoPreferences` document, as convex/videoPreferences.ts writes it. */
  datatype VideoPreference = VideoPreference(userId: UserId, providers: seq<string>, channels: seq<Channel>)
}
