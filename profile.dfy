/** The profile page: the profile row as a record of fields, the save projection,
    the one-key privacy-settings merge and the local state updates. */
module Profile {
  import opened Common

  /** The columns of a `profiles` row. */
  datatype Field =
    | Id | UserId | DisplayName | AvatarUrl | Bio | Phone | Location | DateOfBirth
    | Occupation | Website | SocialLinks | PrivacySettings
    | FollowersCount | FollowingCount | PostsCount | CreatedAt | UpdatedAt

  /** A column value: null, text, a count, or a settings object. */
  datatype Value = Null | Text(text: string) | Count(count: int) | Settings(settings: map<string, string>)

  /** A profile row, or a partial row of updates: only the keys present are set. */
  type Record = map<Field, Value>

  /** The value of a field, null when the record does not hold it. */
  function Get(r: Record, f: Field): Value
  {
    if f in r then r[f] else Null
  }

  /** The seven editable fields `handleSave` sends. */
  const SaveFields: set<Field> := {DisplayName, Bio, Phone, Location, DateOfBirth, Occupation, Website}

  /** `{ ...profile, ...updates }`: the updates win, every other field is kept. */
  function Merge(profile: Record, updates: Record): (r: Record)
    ensures r.Keys == profile.Keys + updates.Keys
    ensures forall f :: f in updates ==> r[f] == updates[f]
    ensures forall f :: f in profile && f !in updates ==> r[f] == profile[f]
  {
    profile + updates
  }

  /** The destructuring in handleSave: exactly the editable fields the profile holds. */
  function SaveProjection(profile: Record): (u: Record)
    ensures u.Keys == SaveFields * profile.Keys
    ensures forall f :: f in u ==> u[f] == profile[f]
    ensures Id !in u && UserId !in u && PrivacySettings !in u && SocialLinks !in u && AvatarUrl !in u
    ensures FollowersCount !in u && FollowingCount !in u && PostsCount !in u
    ensures CreatedAt !in u && UpdatedAt !in u
  {
    map f | f in profile && f in SaveFields :: profile[f]
  }

  /** Merging the values a record already holds gives the same record back. */
  lemma MergeOwnFields(profile: Record, updates: Record)
    requires forall f :: f in updates ==> f in profile && profile[f] == updates[f]
    ensures Merge(profile, updates) == profile
  {
  }

  /** Saving sends the profile's own values, so a successful save leaves the local profile as it was. */
  lemma SaveKeepsLocalProfile(profile: Record)
    ensures Merge(profile, SaveProjection(profile)) == profile
  {
    MergeOwnFields(profile, SaveProjection(profile));
  }

  /** Applying the same updates twice is the same as once. */
  lemma MergeIdempotent(profile: Record, updates: Record)
    ensures Merge(Merge(profile, updates), updates) == Merge(profile, updates)
  {
  }

  /** `{ ...privacy_settings, [setting]: value }`; spreading null gives the empty object. */
  function PrivacyMerge(current: Value, setting: string, value: string): (r: Value)
    ensures r.Settings?
    ensures setting in r.settings && r.settings[setting] == value
    ensures current.Settings? ==> r.settings.Keys == current.settings.Keys + {setting}
    ensures current.Settings? ==> forall k :: k in current.settings && k != setting ==> r.settings[k] == current.settings[k]
    ensures !current.Settings? ==> r.settings == map[setting := value]
  {
    var base := if current.Settings? then current.settings else map[];
    Settings(base[setting := value])
  }

  /** `privacy_settings?.[setting] || fallback`: a missing or empty setting shows the fallback. */
  function ShownSetting(privacy: Value, setting: string, fallback: string): (shown: string)
    ensures privacy.Settings? && setting in privacy.settings && privacy.settings[setting] != "" ==>
              shown == privacy.settings[setting]
    ensures !(privacy.Settings? && setting in privacy.settings && privacy.settings[setting] != "") ==>
              shown == fallback
  {
    if privacy.Settings? && setting in privacy.settings && privacy.settings[setting] != ""
    then privacy.settings[setting] else fallback
  }

  /** The profile visibility select; 'public' when unset. */
  function ProfileVisibility(profile: Record): string
  {
    ShownSetting(Get(profile, PrivacySettings), "profile_visibility", "public")
  }

  /** The contact visibility select; 'friends' when unset. */
  function ContactVisibility(profile: Record): string
  {
    ShownSetting(Get(profile, PrivacySettings), "contact_visibility", "friends")
  }

  /** A fresh profile shows the defaults, and after choosing a value for one select that
      select shows it while the other keeps showing what it showed. */
  lemma VisibilityDefaultsAndUpdates(profile: Record, value: string)
    requires value != ""
    ensures PrivacySettings !in profile ==>
              ProfileVisibility(profile) == "public" && ContactVisibility(profile) == "friends"
    ensures var after := Merge(profile, map[PrivacySettings := PrivacyMerge(Get(profile, PrivacySettings), "profile_visibility", value)]);
            ProfileVisibility(after) == value && ContactVisibility(after) == ContactVisibility(profile)
    ensures var after := Merge(profile, map[PrivacySettings := PrivacyMerge(Get(profile, PrivacySettings), "contact_visibility", value)]);
            ContactVisibility(after) == value && ProfileVisibility(after) == ProfileVisibility(profile)
  {
  }

  /** The page state: the signed-in user and the loaded profile, each possibly absent. */
  class ProfilePage {
    var user: Option<string>
    var profile: Option<Record>

    constructor (user: Option<string>, loaded: Option<Record>)
      ensures this.user == user && profile == loaded
    {
      this.user := user;
      profile := loaded;
    }

    /** updateProfile: sends the updates for the user's row; on success the local profile
        becomes profile merged with the updates. Without a user or a profile nothing is sent. */
    method UpdateProfile(updates: Record, writeOk: bool) returns (sent: Option<Record>)
      modifies this`profile
      ensures old(user.None? || profile.None?) ==> sent.None? && profile == old(profile)
      ensures old(user.Some? && profile.Some?) ==> sent == Some(updates)
      ensures old(user.Some? && profile.Some?) && writeOk ==> profile == Some(Merge(old(profile.value), updates))
      ensures !writeOk ==> profile == old(profile)
    {
      if user.None? || profile.None? {
        return None;
      }
      sent := Some(updates);
      if writeOk {
        profile := Some(Merge(profile.value, updates));
      }
    }

    /** handleInputChange: exactly one field of a loaded profile changes. */
    method HandleInputChange(field: Field, value: Value)
      modifies this`profile
      ensures old(profile).None? ==> profile.None?
      ensures old(profile).Some? ==> profile.Some? && profile.value == old(profile.value)[field := value]
      ensures old(profile).Some? ==> forall f :: f != field ==> Get(profile.value, f) == Get(old(profile.value), f)
    {
      if profile.Some? {
        profile := Some(profile.value[field := value]);
      }
    }

    /** handleSave: sends the seven editable fields; the local profile ends as it was. */
    method HandleSave(writeOk: bool) returns (sent: Option<Record>)
      modifies this`profile
      ensures old(profile).None? || user.None? ==> sent.None?
      ensures old(profile).Some? && user.Some? ==> sent == Some(SaveProjection(old(profile.value)))
      ensures profile == old(profile)
    {
      if profile.None? {
        return None;
      }
      SaveKeepsLocalProfile(profile.value);
      sent := UpdateProfile(SaveProjection(profile.value), writeOk);
    }

    /** updatePrivacySettings: sends only the merged privacy settings. */
    method UpdatePrivacySettings(setting: string, value: string, writeOk: bool) returns (sent: Option<Record>)
      modifies this`profile
      ensures old(profile).None? || user.None? ==> sent.None? && profile == old(profile)
      ensures old(profile).Some? && user.Some? ==>
                sent == Some(map[PrivacySettings := PrivacyMerge(Get(old(profile.value), PrivacySettings), setting, value)])
      ensures old(profile).Some? && user.Some? && writeOk ==>
                && profile.Some?
                && Get(profile.value, PrivacySettings) == PrivacyMerge(Get(old(profile.value), PrivacySettings), setting, value)
                && forall f :: f != PrivacySettings ==> Get(profile.value, f) == Get(old(profile.value), f)
      ensures !writeOk ==> profile == old(profile)
    {
      if profile.None? {
        return None;
      }
      var merged := PrivacyMerge(Get(profile.value, PrivacySettings), setting, value);
      sent := UpdateProfile(map[PrivacySettings := merged], writeOk);
    }
  }
}
