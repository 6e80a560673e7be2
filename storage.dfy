/**
 * The skin record cache: player names, lowered, mapped to skin records, with
 * a pinned ("forced") state, lazy placeholders, a merging load and a filtered
 * save. The functions below give each operation's effect on the map; the class
 * performs them in place on its `skins` field.
 */
module Storage {
  import opened Wrappers
  import opened Text
  import opened Format

  type Skins = map<string, SkinProfile>

  /** What reading the cache file produced. */
  datatype CacheFile =
    | Unreadable                        // missing file, or an IOException / JsonIOException
    | EmptyDocument                     // the decoder returned null
    | Malformed                         // the decoder threw JsonSyntaxException
    | Decoded(entries: Skins)

  /** The record `getOrCreateSkinData` inserts for a key nobody has stored yet. */
  function Placeholder(key: string): SkinProfile
  {
    SkinProfile(Profile(None, key), None, 0, false)
  }

  /** Every key is already in lower case, as all four operations store them. */
  ghost predicate Normalised(m: Skins)
  {
    forall k :: k in m ==> Lower(k) == k
  }

  /** The answer of `isSkinDataForced(name)` on the map `m`. */
  predicate ForcedIn(m: Skins, name: string)
  {
    Lower(name) in m && m[Lower(name)].IsForced()
  }

  /** The map after `removeSkinData(name)`. */
  function Removed(m: Skins, name: string): (r: Skins)
    ensures Lower(name) !in r
    ensures forall k :: k != Lower(name) ==> (k in r <==> k in m)
    ensures forall k :: k in r ==> r[k] == m[k]
  {
    m - {Lower(name)}
  }

  /** The map after `setSkinData(name, p)`. */
  function Stored(m: Skins, name: string, p: SkinProfile): (r: Skins)
    ensures Lower(name) in r && r[Lower(name)].IsForced()
    ensures r[Lower(name)].profile == p.profile && r[Lower(name)].skin == p.skin
    ensures r[Lower(name)].timestamp == p.timestamp
    ensures forall k :: k != Lower(name) ==> (k in r <==> k in m)
    ensures forall k :: k in m && k != Lower(name) ==> r[k] == m[k]
  {
    m[Lower(name) := p.CloneAsForced()]
  }

  /** The record returned by `getOrCreateSkinData(name)` and the map after it. */
  function GetOrCreate(m: Skins, name: string): (out: (SkinProfile, Skins))
    ensures Lower(name) in out.1 && out.1[Lower(name)] == out.0
    ensures Lower(name) in m ==> out.0 == m[Lower(name)] && out.1 == m
    ensures Lower(name) !in m ==>
      && out.0.profile == Profile(None, Lower(name))
      && out.0.skin == None && out.0.timestamp == 0 && !out.0.IsForced()
    ensures forall k :: k != Lower(name) ==> (k in out.1 <==> k in m)
    ensures forall k :: k in m ==> out.1[k] == m[k]
  {
    var key := Lower(name);
    if key in m then (m[key], m) else (Placeholder(key), m[key := Placeholder(key)])
  }

  /** The map after `loadData` read `file`: decoded entries override, anything else leaves it. */
  function Merged(m: Skins, file: CacheFile): (r: Skins)
    ensures !file.Decoded? ==> r == m
    ensures file.Decoded? ==> forall k :: k in r <==> k in m || k in file.entries
    ensures file.Decoded? ==> forall k :: k in file.entries ==> r[k] == file.entries[k]
    ensures forall k :: k in m && !(file.Decoded? && k in file.entries) ==> k in r && r[k] == m[k]
  {
    if file.Decoded? then m + file.entries else m
  }

  /** The map `saveData` hands to the encoder: the entries whose record should be serialised. */
  function Exported(m: Skins, shouldSerialize: SkinProfile -> bool): (r: Skins)
    ensures forall k :: k in r <==> k in m && shouldSerialize(m[k])
    ensures forall k :: k in r ==> r[k] == m[k]
  {
    map k | k in m && shouldSerialize(m[k]) :: m[k]
  }

  /** The cache object: one live map, updated in place by each operation. */
  class SkinStorage {
    var skins: Skins

    /** The cache starts empty; the initial load is a separate call. */
    constructor ()
      ensures skins == map[]
    {
      skins := map[];
    }

    method IsSkinDataForced(name: string) returns (forced: bool)
      ensures forced == ForcedIn(skins, name)
    {
      var key := Lower(name);
      forced := key in skins && skins[key].IsForced();
    }

    method RemoveSkinData(name: string)
      modifies this
      ensures skins == Removed(old(skins), name)
    {
      skins := skins - {Lower(name)};
    }

    method SetSkinData(name: string, profile: SkinProfile)
      modifies this
      ensures skins == Stored(old(skins), name, profile)
      ensures ForcedIn(skins, name)
    {
      skins := skins[Lower(name) := profile.CloneAsForced()];
    }

    method GetOrCreateSkinData(name: string) returns (profile: SkinProfile)
      modifies this
      ensures (profile, skins) == GetOrCreate(old(skins), name)
    {
      var key := Lower(name);
      if key in skins {
        profile := skins[key];
      } else {
        profile := Placeholder(key);
        skins := skins[key := profile];
      }
    }

    /**
     * `thrown` is true when a JsonSyntaxException leaves the method: only
     * I/O failures are caught, and a null document is skipped.
     */
    method LoadData(file: CacheFile) returns (thrown: bool)
      modifies this
      ensures skins == Merged(old(skins), file)
      ensures thrown <==> file.Malformed?
    {
      thrown := false;
      match file
      case Decoded(entries) =>
        skins := skins + entries;
      case Malformed =>
        thrown := true;
      case _ =>
    }

    /** The snapshot written to the cache file; the live map is left as it is. */
    method SaveData(shouldSerialize: SkinProfile -> bool) returns (exported: Skins)
      ensures exported == Exported(skins, shouldSerialize)
    {
      exported := map k | k in skins && shouldSerialize(skins[k]) :: skins[k];
    }
  }

  /** `setSkinData` pins the record whatever the forced flag of the profile handed in. */
  lemma SetThenForced(m: Skins, name: string, p: SkinProfile)
    ensures ForcedIn(Stored(m, name, p), name)
    ensures !p.IsForced() ==> Stored(m, name, p)[Lower(name)] != p
  {
  }

  /** After `removeSkinData`, the name is not forced and the next lookup creates a fresh placeholder. */
  lemma RemoveThenFresh(m: Skins, name: string)
    ensures !ForcedIn(Removed(m, name), name)
    ensures GetOrCreate(Removed(m, name), name).0 == Placeholder(Lower(name))
  {
  }

  /** A second `getOrCreateSkinData` returns the same record and changes nothing. */
  lemma GetOrCreateIdempotent(m: Skins, name: string)
    ensures GetOrCreate(GetOrCreate(m, name).1, name) == GetOrCreate(m, name)
  {
  }

  /** Names equal ignoring case address the same entry in every operation. */
  lemma KeysIgnoreCase(m: Skins, a: string, b: string, p: SkinProfile)
    requires EqualsIgnoreCase(a, b)
    ensures ForcedIn(m, a) == ForcedIn(m, b)
    ensures Removed(m, a) == Removed(m, b)
    ensures Stored(m, a, p) == Stored(m, b, p)
    ensures GetOrCreate(m, a) == GetOrCreate(m, b)
  {
    EqualsIgnoreCaseIffSameLower(a, b);
  }

  /** An operation on a name and on its lowered form act on the same entry. */
  lemma KeyOfKey(m: Skins, name: string, p: SkinProfile)
    ensures ForcedIn(m, Lower(name)) == ForcedIn(m, name)
    ensures Removed(m, Lower(name)) == Removed(m, name)
    ensures Stored(m, Lower(name), p) == Stored(m, name, p)
    ensures GetOrCreate(m, Lower(name)) == GetOrCreate(m, name)
  {
    LowerIdempotent(name);
  }

  /** The four operations only ever store lower-case keys. */
  lemma OperationsKeepNormalised(m: Skins, name: string, p: SkinProfile)
    requires Normalised(m)
    ensures Normalised(Removed(m, name))
    ensures Normalised(Stored(m, name, p))
    ensures Normalised(GetOrCreate(m, name).1)
  {
    LowerIdempotent(name);
  }

  /**
   * Loading keeps the keys lower case exactly when the file's keys are; a file
   * edited by hand can bring in keys that no operation will ever find.
   */
  lemma MergeKeepsNormalisedIff(m: Skins, file: CacheFile)
    requires Normalised(m)
    ensures Normalised(Merged(m, file)) <==> (!file.Decoded? || Normalised(file.entries))
  {
    if file.Decoded? && !Normalised(file.entries) {
      var k :| k in file.entries && Lower(k) != k;
      assert k in Merged(m, file);
    }
  }

  /** The exported map is a sub-map of the live one, so its keys are lower case too. */
  lemma ExportedIsSubmap(m: Skins, shouldSerialize: SkinProfile -> bool)
    ensures Exported(m, shouldSerialize).Keys <= m.Keys
    ensures Normalised(m) ==> Normalised(Exported(m, shouldSerialize))
  {
  }

  /**
   * Saving and then loading into an empty cache gives back exactly the entries
   * that should be serialised, with their records.
   */
  lemma SaveLoadRoundTrip(m: Skins, shouldSerialize: SkinProfile -> bool)
    ensures Merged(map[], Decoded(Exported(m, shouldSerialize))) == Exported(m, shouldSerialize)
    ensures forall k :: k in Merged(map[], Decoded(Exported(m, shouldSerialize))) <==> k in m && shouldSerialize(m[k])
  {
  }

  /** When placeholders are not serialised, creating one does not change what a save writes. */
  lemma PlaceholderNotSaved(m: Skins, name: string, shouldSerialize: SkinProfile -> bool)
    requires !shouldSerialize(Placeholder(Lower(name)))
    ensures Exported(GetOrCreate(m, name).1, shouldSerialize) == Exported(m, shouldSerialize)
  {
    var after := GetOrCreate(m, name).1;
    assert Exported(after, shouldSerialize).Keys == Exported(m, shouldSerialize).Keys;
  }

  /** An unreadable, empty or malformed file leaves a fresh cache empty. */
  lemma FailedLoadLeavesEmpty(file: CacheFile)
    requires !file.Decoded?
    ensures Merged(map[], file) == map[]
  {
  }
}
