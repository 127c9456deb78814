/** convex/videoPreferences.ts: a user's video providers and YouTube channels. */
module VideoPreferences {
  import opened Outcomes
  import opened Schema
  import opened Db
  import opened Preferences

  const NotAuthorized := "Not authorized"
  const VideoPreferencesCreated := "Video preferences created successfully"

  /** The `updates` object of `updateVideoPreferences`. */
  datatype VideoPreferenceUpdates = VideoPreferenceUpdates(providers: Option<seq<string>>, channels: Option<seq<Channel>>)

  /** The three answers of `getVideoPreferencesByChannelId`: `null`, `undefined` (no channel
      matched) or the channel. */
  datatype ChannelLookup = NullResult | Undefined | Found(channel: Channel)

  function VideoOwnerOf(p: VideoPreference): UserId { p.userId }

  /** What `db.patch` writes: the supplied fields replace the stored ones. */
  function VideoPatched(p: VideoPreference, updates: VideoPreferenceUpdates): (r: VideoPreference)
    ensures r.userId == p.userId
    ensures updates.providers.None? ==> r.providers == p.providers
    ensures updates.providers.Some? ==> r.providers == updates.providers.value
    ensures updates.channels.None? ==> r.channels == p.channels
    ensures updates.channels.Some? ==> r.channels == updates.channels.value
  {
    var withProviders := if updates.providers.Some? then p.(providers := updates.providers.value) else p;
    if updates.channels.Some? then withProviders.(channels := updates.channels.value) else withProviders
  }

  /** A patch with no field supplied writes nothing, and a patch repeated is a patch once. */
  lemma VideoPatchedIdempotent(p: VideoPreference, updates: VideoPreferenceUpdates)
    ensures VideoPatched(p, VideoPreferenceUpdates(None, None)) == p
    ensures VideoPatched(VideoPatched(p, updates), updates) == VideoPatched(p, updates)
  {
  }

  /** `getVideoPreferences`: `null` without an identity or without a document, otherwise the
      user's first document. */
  function GetVideoPreferences(identity: Option<UserId>, rows: seq<VideoPreference>): (r: Option<VideoPreference>)
    ensures identity.None? ==> r.None?
    ensures identity.Some? ==> (r.None? <==> forall i :: 0 <= i < |rows| ==> rows[i].userId != identity.value)
    ensures identity.Some? && r.Some? ==>
              exists i :: 0 <= i < |rows| && rows[i] == r.value && rows[i].userId == identity.value &&
                          forall j :: 0 <= j < i ==> rows[j].userId != identity.value
  {
    match identity
    case None => None
    case Some(u) =>
      match FirstOf(rows, VideoOwnerOf, u)
      case None => None
      case Some(i) => Some(rows[i])
  }

  /** `channels.find((c) => c.channelId === channelId)`. */
  function FindChannel(channels: seq<Channel>, channelId: string): (r: Option<Channel>)
    ensures r.None? <==> forall i :: 0 <= i < |channels| ==> channels[i].channelId != channelId
    ensures r.Some? ==> exists i :: 0 <= i < |channels| && channels[i] == r.value && r.value.channelId == channelId &&
                                   forall j :: 0 <= j < i ==> channels[j].channelId != channelId
  {
    if channels == [] then None
    else if channels[0].channelId == channelId then Some(channels[0])
    else
      var r := FindChannel(channels[1..], channelId);
      assert forall i :: 0 < i < |channels| ==> channels[i] == channels[1..][i - 1];
      r
  }

  /** `getVideoPreferencesByChannelId`: `null` without an identity or a document, otherwise the
      first of the document's channels with that id, or `undefined`. */
  function GetVideoPreferencesByChannelId(identity: Option<UserId>, rows: seq<VideoPreference>, channelId: string)
    : (r: ChannelLookup)
    ensures r.NullResult? <==> GetVideoPreferences(identity, rows).None?
    ensures !r.NullResult? ==>
              var channels := GetVideoPreferences(identity, rows).value.channels;
              && (r.Undefined? <==> forall i :: 0 <= i < |channels| ==> channels[i].channelId != channelId)
              && (r.Found? ==> exists i :: 0 <= i < |channels| && channels[i] == r.channel && r.channel.channelId == channelId &&
                                           forall j :: 0 <= j < i ==> channels[j].channelId != channelId)
  {
    match GetVideoPreferences(identity, rows)
    case None => NullResult
    case Some(doc) =>
      match FindChannel(doc.channels, channelId)
      case None => Undefined
      case Some(c) => Found(c)
  }

  /** `createVideoPreference`: without an identity its own throw is caught into the failure
      reply and nothing is written; otherwise one new document for the user. */
  method CreateVideoPreference(db: Database, identity: Option<UserId>, providers: seq<string>, channels: seq<Channel>)
    returns (reply: MutationReply)
    modifies db`videoPreferences
    ensures identity.None? ==> reply == MutationReply(false, NotAuthorized) && db.videoPreferences == old(db.videoPreferences)
    ensures identity.Some? ==>
              reply == MutationReply(true, VideoPreferencesCreated) &&
              db.videoPreferences == old(db.videoPreferences) + [VideoPreference(identity.value, providers, channels)]
  {
    var thrown: Option<string> := None;
    if identity.None? {
      thrown := Some(NotAuthorized);
    } else {
      db.videoPreferences := db.videoPreferences + [VideoPreference(identity.value, providers, channels)];
    }
    if thrown.Some? {
      return MutationReply(false, thrown.value);
    }
    return MutationReply(true, VideoPreferencesCreated);
  }

  /** `updateVideoPreferences`: the supplied fields are patched into the document with that id,
      whoever owns it; a missing identity or a nonexistent id becomes a failure reply. */
  method UpdateVideoPreferences(db: Database, identity: Option<UserId>, videoPreferenceId: nat,
                                providers: Option<seq<string>>, channels: Option<seq<Channel>>)
    returns (reply: MutationReply)
    modifies db`videoPreferences
    ensures identity.None? ==> reply == MutationReply(false, NotAuthorized) && db.videoPreferences == old(db.videoPreferences)
    ensures identity.Some? && videoPreferenceId >= |old(db.videoPreferences)| ==>
              reply == MutationReply(false, NonexistentDocument) && db.videoPreferences == old(db.videoPreferences)
    ensures identity.Some? && videoPreferenceId < |old(db.videoPreferences)| ==>
              reply == MutationReply(true, PreferencesUpdated) &&
              db.videoPreferences == old(db.videoPreferences)[videoPreferenceId :=
                VideoPatched(old(db.videoPreferences)[videoPreferenceId], VideoPreferenceUpdates(providers, channels))]
  {
    if identity.None? {
      return MutationReply(false, NotAuthorized);
    }
    var updates := VideoPreferenceUpdates(None, None);
    if providers.Some? {
      updates := updates.(providers := providers);
    }
    if channels.Some? {
      updates := updates.(channels := channels);
    }
    if videoPreferenceId >= |db.videoPreferences| {
      return MutationReply(false, NonexistentDocument);
    }
    db.videoPreferences := db.videoPreferences[videoPreferenceId :=
      VideoPatched(db.videoPreferences[videoPreferenceId], updates)];
    return MutationReply(true, PreferencesUpdated);
  }
}
