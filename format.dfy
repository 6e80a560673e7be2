/**
 * The cached records. Only what the cache and the fetch pipeline use of them is
 * modelled: the embedded identity, the opaque skin payload, the timestamp and
 * the forced flag.
 */
module Format {
  import opened Wrappers

  /** A player identity: the provider's id (absent before resolution) and the display name. */
  datatype Profile = Profile(id: Option<string>, name: string)

  /**
   * One cache entry. `skin` is the texture payload, kept opaque; `forced` marks
   * a record an administrator pinned.
   */
  datatype SkinProfile = SkinProfile(profile: Profile, skin: Option<string>, timestamp: int, forced: bool)
  {
    predicate IsForced()
    {
      forced
    }

    /** The display name of the embedded profile. */
    function Name(): string
    {
      profile.name
    }

    /** A copy that is pinned, whatever this record's own flag; nothing else differs. */
    function CloneAsForced(): (r: SkinProfile)
      ensures r.IsForced()
      ensures r.profile == profile && r.skin == skin && r.timestamp == timestamp
    {
      this.(forced := true)
    }
  }
}
