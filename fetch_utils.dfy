/**
 * Skin resolution: given a player name and the UUID last seen for it, obtain the
 * player's skin record from the Mojang API, trying the UUID first and the name
 * second, and turn every failure into a SkinFetchFailedException carrying one
 * reason.
 *
 * The two API calls are the fields of a `MojangApi` value, so every lemma holds
 * for every behaviour of the API. Java's exceptions are the `Throwable` values
 * a call fails with; each evaluation also records the calls it made, in order.
 */
module FetchUtils {
  import opened Wrappers
  import opened Text
  import opened Format

  /** The closed set of reasons a fetch can fail for. */
  datatype Reason = NoPremiumPlayer | NoSkinData | SkinRecodeFailed | RateLimited | GenericError

  /** The checked exception of the pipeline: a reason and, when it wraps one, the original throwable. */
  datatype SkinFetchFailedException = SkinFetchFailedException(reason: Reason, cause: Option<Throwable>)
  {
    function GetReason(): Reason
    {
      reason
    }
  }

  /** What a call can throw, as far as the pipeline's handlers tell them apart. */
  datatype Throwable =
    | SkinFetchFailed(exception: SkinFetchFailedException)
    | JsonSyntax
    | OtherThrowable(className: string)

  /** `new SkinFetchFailedException(reason)`. */
  function WithReason(r: Reason): (e: SkinFetchFailedException)
    ensures e.GetReason() == r
    ensures e.cause == None
  {
    SkinFetchFailedException(r, None)
  }

  /** `new SkinFetchFailedException(throwable)`: a generic error that keeps its cause. */
  function Wrapping(t: Throwable): (e: SkinFetchFailedException)
    ensures e.GetReason() == GenericError
    ensures e.cause == Some(t)
  {
    SkinFetchFailedException(GenericError, Some(t))
  }

  /** The two lookups of the Mojang API; `getSkinProfile` receives a null id as `None`. */
  datatype MojangApi = MojangApi(
    getSkinProfile: Option<string> -> Result<SkinProfile, Throwable>,
    getProfile: string -> Result<Profile, Throwable>)

  /** One call made to the API. */
  datatype Call = GetSkinProfileCall(id: Option<string>) | GetProfileCall(name: string)

  /** What the guarded block of `fetchSkinProfile` returns or lets escape, with the calls it made. */
  datatype Attempt = Attempt(outcome: Result<SkinProfile, Throwable>, calls: seq<Call>)

  /** What `fetchSkinProfile` returns or throws, with the calls it made. */
  datatype Fetched = Fetched(result: Result<SkinProfile, SkinFetchFailedException>, calls: seq<Call>)

  /** The name-based path: the name's profile, then the skin for that profile's id. */
  function ByName(api: MojangApi, name: string): (a: Attempt)
    ensures 1 <= |a.calls| <= 2 && a.calls[0] == GetProfileCall(name)
    ensures api.getProfile(name).Failure? ==> a == Attempt(Failure(api.getProfile(name).error), a.calls) && |a.calls| == 1
    ensures api.getProfile(name).Success? ==>
      var id := api.getProfile(name).value.id;
      a.outcome == api.getSkinProfile(id) && a.calls == [GetProfileCall(name), GetSkinProfileCall(id)]
  {
    match api.getProfile(name)
    case Failure(t) => Attempt(Failure(t), [GetProfileCall(name)])
    case Success(profile) =>
      Attempt(api.getSkinProfile(profile.id), [GetProfileCall(name), GetSkinProfileCall(profile.id)])
  }

  /**
   * The guarded block: the UUID fast path, whose own handler catches only
   * SkinFetchFailedException, and then the name-based path.
   */
  function Guarded(api: MojangApi, name: string, uuid: Option<string>): (a: Attempt)
  {
    match uuid
    case None => ByName(api, name)
    case Some(_) =>
      var named := ByName(api, name);
      match api.getSkinProfile(uuid)
      case Success(skinProfile) =>
        if EqualsIgnoreCase(skinProfile.Name(), name) then Attempt(Success(skinProfile), [GetSkinProfileCall(uuid)])
        else Attempt(named.outcome, [GetSkinProfileCall(uuid)] + named.calls)
      case Failure(SkinFetchFailed(_)) =>
        Attempt(named.outcome, [GetSkinProfileCall(uuid)] + named.calls)
      case Failure(t) =>
        Attempt(Failure(t), [GetSkinProfileCall(uuid)])
  }

  /** The outer handlers, in their order: JSON syntax errors, the pipeline's own exception, anything else. */
  function Rethrown(t: Throwable): (e: SkinFetchFailedException)
    ensures t.JsonSyntax? ==> e == WithReason(SkinRecodeFailed)
    ensures t.SkinFetchFailed? ==> e == t.exception
    ensures t.OtherThrowable? ==> e == Wrapping(t)
  {
    match t
    case JsonSyntax => WithReason(SkinRecodeFailed)
    case SkinFetchFailed(e) => e
    case OtherThrowable(_) => Wrapping(t)
  }

  /** The outcome of a single call once the outer handlers have seen it. */
  function Caught(r: Result<SkinProfile, Throwable>): Result<SkinProfile, SkinFetchFailedException>
  {
    match r
    case Success(p) => Success(p)
    case Failure(t) => Failure(Rethrown(t))
  }

  /**
   * The calls are, in order: the UUID lookup when a UUID is given, then at most
   * the name lookup and, only when that one succeeded, the lookup of the id it
   * returned.
   */
  predicate CallsInOrder(api: MojangApi, calls: seq<Call>, name: string, uuid: Option<string>)
  {
    var named := if uuid.Some? && |calls| > 0 then calls[1..] else calls;
    && 1 <= |calls| <= 3
    && (uuid.Some? ==> calls[0] == GetSkinProfileCall(uuid))
    && |named| <= 2
    && (uuid.None? ==> |named| >= 1)
    && (|named| >= 1 ==> named[0] == GetProfileCall(name))
    && (|named| == 1 ==> api.getProfile(name).Failure?)
    && (|named| == 2 ==> api.getProfile(name).Success?
                         && named[1] == GetSkinProfileCall(api.getProfile(name).value.id))
  }

  /**
   * `fetchSkinProfile(name, uuid)`. A returned record is either the one found by
   * UUID, whose name matched, or the one found through the name's current id.
   */
  function FetchSkinProfile(api: MojangApi, name: string, uuid: Option<string>): (f: Fetched)
    ensures CallsInOrder(api, f.calls, name, uuid)
    ensures f.result.Success? ==>
      || (&& uuid.Some? && f.calls == [GetSkinProfileCall(uuid)]
          && api.getSkinProfile(uuid) == Success(f.result.value)
          && EqualsIgnoreCase(f.result.value.Name(), name))
      || (&& api.getProfile(name).Success?
          && api.getSkinProfile(api.getProfile(name).value.id) == Success(f.result.value))
  {
    var a := Guarded(api, name, uuid);
    Fetched(Caught(a.outcome), a.calls)
  }

  /** With no UUID, the name-based path is taken directly and its outcome passes the outer handlers. */
  lemma NoUuidTakesNamePath(api: MojangApi, name: string)
    ensures FetchSkinProfile(api, name, None).calls[0] == GetProfileCall(name)
    ensures api.getProfile(name).Success? ==>
      && FetchSkinProfile(api, name, None).result == Caught(api.getSkinProfile(api.getProfile(name).value.id))
      && FetchSkinProfile(api, name, None).calls ==
           [GetProfileCall(name), GetSkinProfileCall(api.getProfile(name).value.id)]
    ensures api.getProfile(name).Failure? ==>
      FetchSkinProfile(api, name, None) == Fetched(Failure(Rethrown(api.getProfile(name).error)), [GetProfileCall(name)])
  {
  }

  /** A UUID lookup whose name matches is returned at once, and the name is never looked up. */
  lemma FastPathHit(api: MojangApi, name: string, uuid: string)
    requires api.getSkinProfile(Some(uuid)).Success?
    requires EqualsIgnoreCase(api.getSkinProfile(Some(uuid)).value.Name(), name)
    ensures FetchSkinProfile(api, name, Some(uuid)) ==
      Fetched(Success(api.getSkinProfile(Some(uuid)).value), [GetSkinProfileCall(Some(uuid))])
    ensures GetProfileCall(name) !in FetchSkinProfile(api, name, Some(uuid)).calls
  {
  }

  /**
   * A UUID lookup that returns another player's name, or that fails with
   * SkinFetchFailedException, falls back to exactly the name-based fetch.
   */
  lemma FallbackIsNamePath(api: MojangApi, name: string, uuid: string)
    requires || (api.getSkinProfile(Some(uuid)).Success?
                 && !EqualsIgnoreCase(api.getSkinProfile(Some(uuid)).value.Name(), name))
             || (api.getSkinProfile(Some(uuid)).Failure?
                 && api.getSkinProfile(Some(uuid)).error.SkinFetchFailed?)
    ensures FetchSkinProfile(api, name, Some(uuid)).result == FetchSkinProfile(api, name, None).result
    ensures FetchSkinProfile(api, name, Some(uuid)).calls ==
      [GetSkinProfileCall(Some(uuid))] + FetchSkinProfile(api, name, None).calls
  {
  }

  /**
   * Any other throwable from the UUID lookup escapes the inner handler: no
   * fallback is tried, and the outer handlers decide the reason.
   */
  lemma FastPathEscapes(api: MojangApi, name: string, uuid: string)
    requires api.getSkinProfile(Some(uuid)).Failure?
    requires !api.getSkinProfile(Some(uuid)).error.SkinFetchFailed?
    ensures FetchSkinProfile(api, name, Some(uuid)).calls == [GetSkinProfileCall(Some(uuid))]
    ensures api.getSkinProfile(Some(uuid)).error.JsonSyntax? ==>
      FetchSkinProfile(api, name, Some(uuid)).result == Failure(WithReason(SkinRecodeFailed))
    ensures api.getSkinProfile(Some(uuid)).error.OtherThrowable? ==>
      FetchSkinProfile(api, name, Some(uuid)).result == Failure(Wrapping(api.getSkinProfile(Some(uuid)).error))
  {
  }

  /** A SkinFetchFailedException from the name-based path reaches the caller unchanged. */
  lemma NamePathExceptionRethrown(api: MojangApi, name: string, uuid: Option<string>, e: SkinFetchFailedException)
    requires FetchSkinProfile(api, name, uuid).calls[|FetchSkinProfile(api, name, uuid).calls| - 1] == GetProfileCall(name)
    requires api.getProfile(name) == Failure(SkinFetchFailed(e))
    ensures FetchSkinProfile(api, name, uuid).result == Failure(e)
    ensures FetchSkinProfile(api, name, uuid).result.error.GetReason() == e.GetReason()
  {
  }

  /**
   * Every failure reaching the caller is the exception the last call threw
   * passed through, or is built from the throwable it threw: SKIN_RECODE_FAILED
   * for a JSON syntax error, GENERIC_ERROR for anything else.
   */
  lemma FailureComesFromLastCall(api: MojangApi, name: string, uuid: Option<string>)
    requires FetchSkinProfile(api, name, uuid).result.Failure?
    ensures var f := FetchSkinProfile(api, name, uuid);
      var last := f.calls[|f.calls| - 1];
      var thrown := if last.GetProfileCall? then api.getProfile(name).error else api.getSkinProfile(last.id).error;
      && (if last.GetProfileCall? then api.getProfile(name).Failure? else api.getSkinProfile(last.id).Failure?)
      && f.result.error == Rethrown(thrown)
  {
  }

  /** The fast-path example: the UUID lookup answers "notch" for "Notch", and the name is never looked up. */
  lemma ExampleFastPath()
    ensures var notch := SkinProfile(Profile(Some("abc-123"), "notch"), None, 1, false);
      var api := MojangApi(
        id => if id == Some("abc-123") then Success(notch) else Failure(OtherThrowable("java.io.IOException")),
        n => Failure(OtherThrowable("java.io.IOException")));
      FetchSkinProfile(api, "Notch", Some("abc-123")) == Fetched(Success(notch), [GetSkinProfileCall(Some("abc-123"))])
  {
    assert CharsMatchIgnoringCase('n', 'N');
  }

  /** The fallback example: the UUID now belongs to "OldName", so "NewName" is resolved by name. */
  lemma ExampleFallback()
    ensures var stale := SkinProfile(Profile(Some("u1"), "OldName"), None, 1, false);
      var current := SkinProfile(Profile(Some("u2"), "NewName"), None, 2, false);
      var api := MojangApi(
        id => if id == Some("u1") then Success(stale) else if id == Some("u2") then Success(current)
              else Failure(SkinFetchFailed(WithReason(NoSkinData))),
        n => if n == "NewName" then Success(Profile(Some("u2"), "NewName")) else Failure(SkinFetchFailed(WithReason(NoPremiumPlayer))));
      FetchSkinProfile(api, "NewName", Some("u1")) ==
        Fetched(Success(current), [GetSkinProfileCall(Some("u1")), GetProfileCall("NewName"), GetSkinProfileCall(Some("u2"))])
  {
    var oldName, newName := "OldName", "NewName";
    assert oldName[0] == 'O' && newName[0] == 'N';
    assert !CharsMatchIgnoringCase(oldName[0], newName[0]);
  }
}
