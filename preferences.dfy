/** convex/preferences.ts: a user's podcast providers and podcasts. */
module Preferences {
  import opened Outcomes
  import opened Schema
  import opened Db

  const Unauthorized := "Unauthorized"
  const PreferencesCreated := "Preferences created successfully"
  const PreferencesUpdated := "Preferences updated successfully"

  /** The `{ success, message }` object both mutations return instead of throwing. */
  datatype MutationReply = MutationReply(success: bool, message: string)

  /** The `updates` object of `updatePreferences`: the fields that were supplied. */
  datatype PreferenceUpdates = PreferenceUpdates(providers: Option<seq<string>>, podcasts: Option<seq<PodcastChoice>>)

  function OwnerOf(p: Preference): UserId { p.userId }

  /** What `db.patch` writes: the supplied fields replace the stored ones, the rest is kept. */
  function Patched(p: Preference, updates: PreferenceUpdates): (r: Preference)
    ensures r.userId == p.userId
    ensures updates.providers.None? ==> r.providers == p.providers
    ensures updates.providers.Some? ==> r.providers == updates.providers.value
    ensures updates.podcasts.None? ==> r.podcasts == p.podcasts
    ensures updates.podcasts.Some? ==> r.podcasts == updates.podcasts.value
  {
    var withProviders := if updates.providers.Some? then p.(providers := updates.providers.value) else p;
    if updates.podcasts.Some? then withProviders.(podcasts := updates.podcasts.value) else withProviders
  }

  /** Two patches in a row are one patch whose later fields win. */
  lemma PatchedTwice(p: Preference, first: PreferenceUpdates, second: PreferenceUpdates)
    ensures Patched(Patched(p, first), second) ==
              Patched(p, PreferenceUpdates(if second.providers.Some? then second.providers else first.providers,
                                           if second.podcasts.Some? then second.podcasts else first.podcasts))
  {
  }

  /** A patch with no field supplied writes nothing, and a patch repeated is a patch once. */
  lemma PatchedIdempotent(p: Preference, updates: PreferenceUpdates)
    ensures Patched(p, PreferenceUpdates(None, None)) == p
    ensures Patched(Patched(p, updates), updates) == Patched(p, updates)
  {
  }

  /** `getPreferences`: throws without an identity, otherwise the user's first document or `null`. */
  function GetPreferences(identity: Option<UserId>, rows: seq<Preference>): (r: Result<Option<Preference>>)
    ensures identity.None? ==> r == Err(Unauthorized)
    ensures identity.Some? ==>
              r.Ok? && (r.value.None? <==> forall i :: 0 <= i < |rows| ==> rows[i].userId != identity.value)
    ensures identity.Some? && r.Ok? && r.value.Some? ==>
              exists i :: 0 <= i < |rows| && rows[i] == r.value.value && rows[i].userId == identity.value &&
                          forall j :: 0 <= j < i ==> rows[j].userId != identity.value
  {
    match identity
    case None => Err(Unauthorized)
    case Some(u) =>
      match FirstOf(rows, OwnerOf, u)
      case None => Ok(None)
      case Some(i) => Ok(Some(rows[i]))
  }

  /** `createPreference`: without an identity the failure reply and no write; otherwise one new
      document for the user. */
  method CreatePreference(db: Database, identity: Option<UserId>, providers: seq<string>, podcasts: seq<PodcastChoice>)
    returns (reply: MutationReply)
    modifies db`preferences
    ensures identity.None? ==> reply == MutationReply(false, Unauthorized) && db.preferences == old(db.preferences)
    ensures identity.Some? ==>
              reply == MutationReply(true, PreferencesCreated) &&
              db.preferences == old(db.preferences) + [Preference(identity.value, providers, podcasts)]
  {
    if identity.None? {
      return MutationReply(false, Unauthorized);
    }
    db.preferences := db.preferences + [Preference(identity.value, providers, podcasts)];
    return MutationReply(true, PreferencesCreated);
  }

  /** `updatePreferences`: without an identity the failure reply; otherwise the supplied fields are
      patched into the document with that id, whoever owns it. A patch of an id that names no
      document throws, and the catch turns it into a failure reply. */
  method UpdatePreferences(db: Database, identity: Option<UserId>, preferenceId: nat,
                           providers: Option<seq<string>>, podcasts: Option<seq<PodcastChoice>>)
    returns (reply: MutationReply)
    modifies db`preferences
    ensures identity.None? ==> reply == MutationReply(false, Unauthorized) && db.preferences == old(db.preferences)
    ensures identity.Some? && preferenceId >= |old(db.preferences)| ==>
              reply == MutationReply(false, NonexistentDocument) && db.preferences == old(db.preferences)
    ensures identity.Some? && preferenceId < |old(db.preferences)| ==>
              reply == MutationReply(true, PreferencesUpdated) &&
              db.preferences == old(db.preferences)[preferenceId := Patched(old(db.preferences)[preferenceId],
                                                                          PreferenceUpdates(providers, podcasts))]
  {
    if identity.None? {
      return MutationReply(false, Unauthorized);
    }
    var updates := PreferenceUpdates(None, None);
    if providers.Some? {
      updates := updates.(providers := providers);
    }
    if podcasts.Some? {
      updates := updates.(podcasts := podcasts);
    }
    if preferenceId >= |db.preferences| {
      return MutationReply(false, NonexistentDocument);
    }
    db.preferences := db.preferences[preferenceId := Patched(db.preferences[preferenceId], updates)];
    return MutationReply(true, PreferencesUpdated);
  }
}
