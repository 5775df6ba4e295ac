/** Vocabulary shared by the two adapters: the values the host and the vendor SDK
    hand in (contexts, listener identities, the vendor SDK version), the
    version gate on the context, and the translation of vendor error codes into
    the host's error codes. */
module Mediation {

  datatype Option<+T> = None | Some(value: T)

  /** An Android context handed in by the host. Only whether it is an Activity
      matters to the adapters; `id` keeps two contexts apart. */
  datatype Context = Context(id: nat, isActivity: bool)

  /** The identity of a host listener object. */
  type ListenerId = nat

  predicate IsActivity(ctx: Option<Context>) {
    ctx.Some? && ctx.value.isActivity
  }

  /** Vendor SDK versions below `threshold` only accept an Activity as context:
      the adapters refuse any other context on such a version. */
  predicate RejectsContext(sdkVersion: int, threshold: int, ctx: Option<Context>) {
    sdkVersion < threshold && !IsActivity(ctx)
  }

  /** The parameter type of the vendor entry point that the adapters look up
      reflectively: `Activity` below the version threshold, `Context` from it on. */
  datatype ContextParameter = ActivityParameter | GenericContextParameter

  function ContextParameterFor(sdkVersion: int, threshold: int): ContextParameter {
    if sdkVersion < threshold then ActivityParameter else GenericContextParameter
  }

  /** The host's error codes (AdRequest.ERROR_CODE_INTERNAL_ERROR = 0,
      ERROR_CODE_INVALID_REQUEST = 1, ERROR_CODE_NETWORK_ERROR = 2,
      ERROR_CODE_NO_FILL = 3). */
  datatype AdMobError = InternalError | InvalidRequest | NetworkError | NoFill

  /** The vendor's error codes that the translation singles out
      (AppLovinErrorCodes.NO_FILL, NO_NETWORK, FETCH_AD_TIMEOUT). */
  const APPLOVIN_NO_FILL: int := 204
  const APPLOVIN_NO_NETWORK: int := -103
  const APPLOVIN_FETCH_AD_TIMEOUT: int := -102

  /** Translates a vendor error code into the host's vocabulary. Total: every
      vendor code has exactly one translation, and an invalid-request code is
      never produced. */
  function ToAdMobErrorCode(applovinErrorCode: int): (r: AdMobError)
    ensures r == NoFill <==> applovinErrorCode == APPLOVIN_NO_FILL
    ensures r == NetworkError <==>
              applovinErrorCode == APPLOVIN_NO_NETWORK || applovinErrorCode == APPLOVIN_FETCH_AD_TIMEOUT
    ensures r == InternalError <==>
              applovinErrorCode != APPLOVIN_NO_FILL && applovinErrorCode != APPLOVIN_NO_NETWORK
              && applovinErrorCode != APPLOVIN_FETCH_AD_TIMEOUT
    ensures r != InvalidRequest
  {
    if applovinErrorCode == APPLOVIN_NO_FILL then
      NoFill
    else if applovinErrorCode == APPLOVIN_NO_NETWORK || applovinErrorCode == APPLOVIN_FETCH_AD_TIMEOUT then
      NetworkError
    else
      InternalError
  }
}
