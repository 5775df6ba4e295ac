/** The banner adapter: on a banner request it picks the vendor size that
    matches the host's size, builds a vendor ad view, registers load, display
    and click listeners on it and starts a load; the view's callbacks are then
    translated into calls on the host's banner listener, and the host's
    lifecycle calls are passed on to the view. Every listener call is appended
    to `calls` and every call into the vendor SDK to `vendorCalls`. */
module BannerAdapter {
  import opened Mediation

  /** Vendor SDK versions below 7.1.0 need an Activity as context. */
  const GENERIC_CONTEXT_VERSION: int := 710
  const PLUGIN_VERSION: string := "AdMob-2.1"

  /** A host ad size; two sizes are equal when their dimensions are. */
  datatype AdSize = AdSize(width: int, height: int)

  const BANNER: AdSize := AdSize(320, 50)
  const LARGE_BANNER: AdSize := AdSize(320, 100)
  const MEDIUM_RECTANGLE: AdSize := AdSize(300, 250)
  const LEADERBOARD: AdSize := AdSize(728, 90)

  /** The vendor's ad sizes. */
  datatype AppLovinAdSize = Banner | Mrec | Leader | Interstitial

  /** The vendor size used for a host size: banner and large banner become the
      vendor banner, medium rectangle the MREC, leaderboard the leader; no
      other host size has one, and the interstitial size is never chosen. */
  function AppLovinAdSizeFromAdMobAdSize(adSize: AdSize): (r: Option<AppLovinAdSize>)
    ensures r == Some(Banner) <==> adSize == BANNER || adSize == LARGE_BANNER
    ensures r == Some(Mrec) <==> adSize == MEDIUM_RECTANGLE
    ensures r == Some(Leader) <==> adSize == LEADERBOARD
    ensures r != Some(Interstitial)
  {
    if adSize == BANNER || adSize == LARGE_BANNER then Some(Banner)
    else if adSize == MEDIUM_RECTANGLE then Some(Mrec)
    else if adSize == LEADERBOARD then Some(Leader)
    else None
  }

  /** A vendor ad view. What it renders and loads is the vendor's business;
      the model keeps its size, the context it was built with and which
      constructor signature built it. */
  class AdView {
    const size: AppLovinAdSize
    const parentContext: Option<Context>
    const parameter: ContextParameter

    constructor (size: AppLovinAdSize, parentContext: Option<Context>, parameter: ContextParameter)
      ensures this.size == size && this.parentContext == parentContext && this.parameter == parameter
    {
      this.size := size;
      this.parentContext := parentContext;
      this.parameter := parameter;
    }
  }

  /** The calls the adapter makes on the host's banner listener. */
  datatype BannerEvent =
    | OnAdLoaded(view: AdView?)
    | OnAdFailedToLoad(error: AdMobError)
    | OnAdOpened
    | OnAdLeftApplication

  datatype ListenerCall = ListenerCall(listener: ListenerId, event: BannerEvent)

  /** Calls into the vendor SDK whose effects lie outside this model. The load
      and click listeners registered on a view report to host listener `sink`. */
  datatype VendorCall =
    | SetPluginVersion(version: string)
    | SetAdLoadListener(view: AdView, sink: ListenerId)
    | SetAdDisplayListener(view: AdView)
    | SetAdClickListener(view: AdView, sink: ListenerId)
    | LoadNextAd(view: AdView)
    | Destroy(view: AdView)
    | Pause(view: AdView)
    | Resume(view: AdView)

  /** The vendor calls a successful request makes once it holds `view`. */
  function SetUpAndLoad(view: AdView, sink: ListenerId): seq<VendorCall> {
    [SetAdLoadListener(view, sink), SetAdDisplayListener(view), SetAdClickListener(view, sink), LoadNextAd(view)]
  }

  /** How a request ended: normally, or by dereferencing a missing view. */
  datatype RequestOutcome = Completed | NullDereference

  class AppLovinCustomEventBanner {
    /** AppLovinSdk.VERSION_CODE of the installed vendor SDK. */
    const sdkVersion: int

    var adView: AdView?

    /** Calls made on host listeners, oldest first. */
    var calls: seq<ListenerCall>
    /** Calls made into the vendor SDK, oldest first. */
    var vendorCalls: seq<VendorCall>

    /** A view the adapter holds has had its listeners registered and a load
        started, so the lifecycle calls only ever reach a view that is in use. */
    ghost predicate Valid()
      reads this
    {
      adView != null ==> LoadNextAd(adView) in vendorCalls
    }

    constructor (sdkVersion: int)
      ensures Valid()
      ensures this.sdkVersion == sdkVersion && adView == null && calls == [] && vendorCalls == []
    {
      this.sdkVersion := sdkVersion;
      adView := null;
      calls := [];
      vendorCalls := [];
    }

    /** Builds a vendor view with the constructor signature the SDK version
        calls for; `constructed` says whether that constructor was found and
        succeeded. On failure the host is told of an internal error and there
        is no view. */
    method CreateAdView(size: AppLovinAdSize, parentContext: Option<Context>, l: ListenerId, constructed: bool)
      returns (view: AdView?)
      modifies this`calls
      ensures constructed ==>
                view != null && fresh(view) && view.size == size && view.parentContext == parentContext
                && view.parameter == ContextParameterFor(sdkVersion, GENERIC_CONTEXT_VERSION)
                && calls == old(calls)
      ensures !constructed ==>
                view == null && calls == old(calls) + [ListenerCall(l, OnAdFailedToLoad(InternalError))]
    {
      view := null;
      if constructed {
        var parameter := ContextParameterFor(sdkVersion, GENERIC_CONTEXT_VERSION);
        view := new AdView(size, parentContext, parameter);
      } else {
        calls := calls + [ListenerCall(l, OnAdFailedToLoad(InternalError))];
      }
    }

    /** The banner request as the source has it: when the view cannot be
        built, the failure is reported and the missing view is then used to
        register the listeners, which ends the request in a null dereference. */
    method RequestBannerAdAsWritten(ctx: Option<Context>, l: ListenerId, adSize: AdSize, constructed: bool)
      returns (outcome: RequestOutcome)
      requires Valid()
      modifies this
      ensures Valid()
      ensures outcome == NullDereference <==>
                !RejectsContext(sdkVersion, GENERIC_CONTEXT_VERSION, ctx)
                && AppLovinAdSizeFromAdMobAdSize(adSize).Some? && !constructed
      ensures outcome == NullDereference ==>
                adView == null && vendorCalls == old(vendorCalls) + [SetPluginVersion(PLUGIN_VERSION)]
                && calls == old(calls) + [ListenerCall(l, OnAdFailedToLoad(InternalError))]
      ensures outcome == Completed && RejectsContext(sdkVersion, GENERIC_CONTEXT_VERSION, ctx) ==>
                calls == old(calls) + [ListenerCall(l, OnAdFailedToLoad(InternalError))]
                && adView == old(adView) && vendorCalls == old(vendorCalls)
      ensures outcome == Completed && !RejectsContext(sdkVersion, GENERIC_CONTEXT_VERSION, ctx)
              && AppLovinAdSizeFromAdMobAdSize(adSize).None? ==>
                calls == old(calls) + [ListenerCall(l, OnAdFailedToLoad(InternalError))]
                && adView == old(adView) && vendorCalls == old(vendorCalls)
      ensures outcome == Completed && !RejectsContext(sdkVersion, GENERIC_CONTEXT_VERSION, ctx)
              && AppLovinAdSizeFromAdMobAdSize(adSize).Some? ==>
                constructed
                && adView != null && fresh(adView) && adView.size == AppLovinAdSizeFromAdMobAdSize(adSize).value
                && adView.parentContext == ctx && calls == old(calls)
                && vendorCalls == old(vendorCalls) + [SetPluginVersion(PLUGIN_VERSION)] + SetUpAndLoad(adView, l)
    {
      outcome := Completed;
      if sdkVersion < GENERIC_CONTEXT_VERSION && !IsActivity(ctx) {
        calls := calls + [ListenerCall(l, OnAdFailedToLoad(InternalError))];
        return;
      }
      var appLovinAdSize := AppLovinAdSizeFromAdMobAdSize(adSize);
      if appLovinAdSize.Some? {
        vendorCalls := vendorCalls + [SetPluginVersion(PLUGIN_VERSION)];
        adView := CreateAdView(appLovinAdSize.value, ctx, l, constructed);
        if adView == null {
          outcome := NullDereference;
          return;
        }
        var view := adView;
        vendorCalls := vendorCalls + SetUpAndLoad(view, l);
      } else {
        calls := calls + [ListenerCall(l, OnAdFailedToLoad(InternalError))];
      }
    }

    /** The banner request. A non-Activity context on an old SDK and a host
        size with no vendor equivalent are each reported as one internal error
        before any view exists. Otherwise the plugin version is set and a view
        built; a view that cannot be built is reported as one internal error
        and the request stops there. A built view is kept, gets its three
        listeners, and one load is started. */
    method RequestBannerAd(ctx: Option<Context>, l: ListenerId, adSize: AdSize, constructed: bool)
      requires Valid()
      modifies this
      ensures Valid()
      ensures RejectsContext(sdkVersion, GENERIC_CONTEXT_VERSION, ctx) ==>
                calls == old(calls) + [ListenerCall(l, OnAdFailedToLoad(InternalError))]
                && adView == old(adView) && vendorCalls == old(vendorCalls)
      ensures !RejectsContext(sdkVersion, GENERIC_CONTEXT_VERSION, ctx)
              && AppLovinAdSizeFromAdMobAdSize(adSize).None? ==>
                calls == old(calls) + [ListenerCall(l, OnAdFailedToLoad(InternalError))]
                && adView == old(adView) && vendorCalls == old(vendorCalls)
      ensures !RejectsContext(sdkVersion, GENERIC_CONTEXT_VERSION, ctx)
              && AppLovinAdSizeFromAdMobAdSize(adSize).Some? && !constructed ==>
                calls == old(calls) + [ListenerCall(l, OnAdFailedToLoad(InternalError))]
                && adView == null && vendorCalls == old(vendorCalls) + [SetPluginVersion(PLUGIN_VERSION)]
      ensures !RejectsContext(sdkVersion, GENERIC_CONTEXT_VERSION, ctx)
              && AppLovinAdSizeFromAdMobAdSize(adSize).Some? && constructed ==>
                adView != null && fresh(adView) && adView.size == AppLovinAdSizeFromAdMobAdSize(adSize).value
                && adView.parentContext == ctx && calls == old(calls)
                && vendorCalls == old(vendorCalls) + [SetPluginVersion(PLUGIN_VERSION)] + SetUpAndLoad(adView, l)
    {
      if sdkVersion < GENERIC_CONTEXT_VERSION && !IsActivity(ctx) {
        calls := calls + [ListenerCall(l, OnAdFailedToLoad(InternalError))];
        return;
      }
      var appLovinAdSize := AppLovinAdSizeFromAdMobAdSize(adSize);
      if appLovinAdSize.Some? {
        vendorCalls := vendorCalls + [SetPluginVersion(PLUGIN_VERSION)];
        adView := CreateAdView(appLovinAdSize.value, ctx, l, constructed);
        if adView == null {
          return;
        }
        var view := adView;
        vendorCalls := vendorCalls + SetUpAndLoad(view, l);
      } else {
        calls := calls + [ListenerCall(l, OnAdFailedToLoad(InternalError))];
      }
    }

    // The bodies of the three listeners registered on the view. The load and
    // click listeners report to `sink`, the host listener of the request that
    // registered them; the load listener hands over the view the adapter holds
    // when the callback arrives.

    method AdReceived(sink: ListenerId)
      modifies this`calls
      ensures calls == old(calls) + [ListenerCall(sink, OnAdLoaded(adView))]
    {
      calls := calls + [ListenerCall(sink, OnAdLoaded(adView))];
    }

    /** A failed load is reported with the vendor code translated. */
    method FailedToReceiveAd(sink: ListenerId, errorCode: int)
      modifies this`calls
      ensures calls == old(calls) + [ListenerCall(sink, OnAdFailedToLoad(ToAdMobErrorCode(errorCode)))]
      ensures calls[|calls| - 1].event.error != InvalidRequest
    {
      calls := calls + [ListenerCall(sink, OnAdFailedToLoad(ToAdMobErrorCode(errorCode)))];
    }

    /** Display and dismissal of the banner are only logged. */
    method AdDisplayed()
      ensures calls == old(calls) && vendorCalls == old(vendorCalls)
    {
    }

    method AdHidden()
      ensures calls == old(calls) && vendorCalls == old(vendorCalls)
    {
    }

    /** A click both opens the ad and leaves the application. */
    method AdClicked(sink: ListenerId)
      modifies this`calls
      ensures calls == old(calls) + [ListenerCall(sink, OnAdOpened), ListenerCall(sink, OnAdLeftApplication)]
    {
      calls := calls + [ListenerCall(sink, OnAdOpened)];
      calls := calls + [ListenerCall(sink, OnAdLeftApplication)];
    }

    // Lifecycle calls from the host: each is passed on to the view the adapter
    // holds, and is a no-op without one. The view stays held after destroy.

    method OnDestroy()
      requires Valid()
      modifies this`vendorCalls
      ensures Valid()
      ensures vendorCalls == old(vendorCalls) + (if adView != null then [Destroy(adView)] else [])
      ensures adView != null ==> LoadNextAd(adView) in old(vendorCalls)
    {
      if adView != null {
        vendorCalls := vendorCalls + [Destroy(adView)];
      }
    }

    method OnPause()
      requires Valid()
      modifies this`vendorCalls
      ensures Valid()
      ensures vendorCalls == old(vendorCalls) + (if adView != null then [Pause(adView)] else [])
      ensures adView != null ==> LoadNextAd(adView) in old(vendorCalls)
    {
      if adView != null {
        vendorCalls := vendorCalls + [Pause(adView)];
      }
    }

    method OnResume()
      requires Valid()
      modifies this`vendorCalls
      ensures Valid()
      ensures vendorCalls == old(vendorCalls) + (if adView != null then [Resume(adView)] else [])
      ensures adView != null ==> LoadNextAd(adView) in old(vendorCalls)
    {
      if adView != null {
        vendorCalls := vendorCalls + [Resume(adView)];
      }
    }
  }

  // ---------------------------------------------------------------------------
  // Client scenarios.

  /** The source's request crashes on a failed view construction: on a recent
      SDK, with a banner size and a constructor that fails, the host is told of
      the failure and the request then dereferences the missing view. */
  method ConstructionFailureAsWritten(ctx: Context, l: ListenerId)
    returns (outcome: RequestOutcome, calls: seq<ListenerCall>)
    ensures outcome == NullDereference
    ensures calls == [ListenerCall(l, OnAdFailedToLoad(InternalError))]
  {
    var banner := new AppLovinCustomEventBanner(GENERIC_CONTEXT_VERSION);
    outcome := banner.RequestBannerAdAsWritten(Some(ctx), l, BANNER, false);
    calls := banner.calls;
  }

  /** With the request corrected, the same failure is reported once and
      leaves no view behind: later lifecycle calls reach nothing. */
  method ConstructionFailureCorrected(ctx: Context, l: ListenerId)
    returns (calls: seq<ListenerCall>, vendorCalls: seq<VendorCall>)
    ensures calls == [ListenerCall(l, OnAdFailedToLoad(InternalError))]
    ensures vendorCalls == [SetPluginVersion(PLUGIN_VERSION)]
  {
    var banner := new AppLovinCustomEventBanner(GENERIC_CONTEXT_VERSION);
    banner.RequestBannerAd(Some(ctx), l, BANNER, false);
    banner.OnPause();
    banner.OnResume();
    banner.OnDestroy();
    calls, vendorCalls := banner.calls, banner.vendorCalls;
  }

  /** A request whose load succeeds and whose banner is then clicked: the
      host gets the loaded view, then opened and left-application. */
  method LoadThenClick(sdkVersion: int, ctx: Context, l: ListenerId, adSize: AdSize)
    returns (view: AdView?, calls: seq<ListenerCall>)
    requires !RejectsContext(sdkVersion, GENERIC_CONTEXT_VERSION, Some(ctx))
    requires AppLovinAdSizeFromAdMobAdSize(adSize).Some?
    ensures view != null && view.size == AppLovinAdSizeFromAdMobAdSize(adSize).value
    ensures calls == [ListenerCall(l, OnAdLoaded(view)), ListenerCall(l, OnAdOpened), ListenerCall(l, OnAdLeftApplication)]
  {
    var banner := new AppLovinCustomEventBanner(sdkVersion);
    banner.RequestBannerAd(Some(ctx), l, adSize, true);
    view := banner.adView;
    banner.AdReceived(l);
    banner.AdDisplayed();
    banner.AdClicked(l);
    calls := banner.calls;
  }
}
