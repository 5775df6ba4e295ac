/** The rewarded-video adapter: the host drives it through initialize, loadAd
    and showVideo; the vendor SDK calls it back with load, display, click,
    playback and reward-validation events, which it translates into calls on the
    host's listener. Every listener call is appended to `calls` and every call
    into the vendor SDK to `vendorCalls`, in the order they happen. */
module RewardedVideo {
  import opened Mediation

  /** Vendor SDK versions below 7.2.0 need an Activity as context. */
  const GENERIC_CONTEXT_VERSION: int := 720
  const PLUGIN_VERSION: string := "AdMob-2.0"

  /** The reward handed to the host: an amount and a reward type (the currency). */
  datatype AppLovinRewardItem = AppLovinRewardItem(amount: int, rewardType: string)

  /** The calls the adapter makes on the host's rewarded-video listener. */
  datatype RewardedEvent =
    | OnInitializationSucceeded
    | OnInitializationFailed(error: AdMobError)
    | OnAdLoaded
    | OnAdFailedToLoad(error: AdMobError)
    | OnAdOpened
    | OnAdClosed
    | OnAdClicked
    | OnAdLeftApplication
    | OnVideoStarted
    | OnRewarded(item: AppLovinRewardItem)

  datatype ListenerCall = ListenerCall(listener: ListenerId, event: RewardedEvent)

  /** The events `events`, each delivered to listener `l`. */
  function Notify(l: ListenerId, events: seq<RewardedEvent>): seq<ListenerCall> {
    if events == [] then [] else [ListenerCall(l, events[0])] + Notify(l, events[1..])
  }

  /** The vendor's rewarded unit, created from the context of the first
      successful initialisation. */
  datatype IncentivizedInterstitial = IncentivizedInterstitial(createdWith: Option<Context>)

  /** Calls into the vendor SDK whose effects lie outside this model. */
  datatype VendorCall =
    | InitializeSdk(ctx: Option<Context>)
    | SetPluginVersion(version: string)
    | CreateIncentivizedInterstitial(ctx: Option<Context>)
    | Preload
    | Show(parameter: ContextParameter, ctx: Option<Context>)

  /** How many times the vendor SDK was initialised in `vcs`. */
  function SdkInitializations(vcs: seq<VendorCall>): nat {
    if vcs == [] then 0
    else SdkInitializations(vcs[..|vcs| - 1]) + (if vcs[|vcs| - 1].InitializeSdk? then 1 else 0)
  }

  lemma SdkInitializationsSnoc(vcs: seq<VendorCall>, vc: VendorCall)
    ensures SdkInitializations(vcs + [vc]) == SdkInitializations(vcs) + (if vc.InitializeSdk? then 1 else 0)
  {
    assert (vcs + [vc])[..|vcs|] == vcs;
  }

  /** The vendor calls the first accepted initialisation makes: initialise the
      SDK, report the plugin version, create the rewarded unit. */
  function Startup(ctx: Option<Context>): seq<VendorCall> {
    [InitializeSdk(ctx), SetPluginVersion(PLUGIN_VERSION), CreateIncentivizedInterstitial(ctx)]
  }

  lemma SdkInitializationsStartup(vcs: seq<VendorCall>, ctx: Option<Context>)
    ensures SdkInitializations(vcs + Startup(ctx)) == SdkInitializations(vcs) + 1
  {
    var a := vcs + [InitializeSdk(ctx)];
    var b := a + [SetPluginVersion(PLUGIN_VERSION)];
    SdkInitializationsSnoc(vcs, InitializeSdk(ctx));
    SdkInitializationsSnoc(a, SetPluginVersion(PLUGIN_VERSION));
    SdkInitializationsSnoc(b, CreateIncentivizedInterstitial(ctx));
    assert b + [CreateIncentivizedInterstitial(ctx)] == vcs + Startup(ctx);
  }

  // ---------------------------------------------------------------------------
  // The per-show state and the vendor callbacks, as values.

  /** The state one show accumulates: whether playback ended fully watched and
      the verified reward, if any. */
  datatype Session = Session(fullyWatched: bool, reward: Option<AppLovinRewardItem>)

  /** The state showVideo starts every show from. */
  const FRESH_SESSION: Session := Session(false, None)

  /** The vendor's callbacks into the adapter (load, display, click, video
      playback and reward listeners), with the arguments the adapter uses. */
  datatype VendorCallback =
    | Received
    | FailedToReceive(errorCode: int)
    | Displayed
    | Hidden
    | Clicked
    | PlaybackBegan
    | PlaybackEnded(watchedFully: bool)
    | OverQuota
    | ValidationFailed(errorCode: int)
    | RewardRejected
    | DeclinedToView
    | RewardVerified(amount: int, currency: string)

  /** The session after callback `cb`: only playback-ended and reward-verified
      change it. */
  function Next(s: Session, cb: VendorCallback): (r: Session)
    ensures r.fullyWatched != s.fullyWatched ==> cb.PlaybackEnded?
    ensures r.reward != s.reward ==> cb.RewardVerified?
    ensures cb.PlaybackEnded? ==> r == s.(fullyWatched := cb.watchedFully)
    ensures cb.RewardVerified? ==> r == s.(reward := Some(AppLovinRewardItem(cb.amount, cb.currency)))
  {
    match cb
    case PlaybackEnded(watchedFully) => s.(fullyWatched := watchedFully)
    case RewardVerified(amount, currency) => s.(reward := Some(AppLovinRewardItem(amount, currency)))
    case _ => s
  }

  /** What the adapter tells the host when the ad is dismissed in session `s`. */
  function DismissEvents(s: Session): (r: seq<RewardedEvent>)
    ensures 0 < |r| <= 2
    ensures r[|r| - 1] == OnAdClosed && OnAdClosed !in r[..|r| - 1]
    ensures forall e :: e in r && e.OnRewarded? ==> s.fullyWatched && s.reward == Some(e.item)
    ensures s.fullyWatched && s.reward.Some? ==> OnRewarded(s.reward.value) in r
    ensures !(s.fullyWatched && s.reward.Some?) ==> r == [OnAdClosed]
  {
    (if s.fullyWatched && s.reward.Some? then [OnRewarded(s.reward.value)] else []) + [OnAdClosed]
  }

  /** The listener calls callback `cb` produces in session `s`. Only the
      dismissal closes the ad, and only the dismissal can deliver a reward. */
  function Emits(s: Session, cb: VendorCallback): (r: seq<RewardedEvent>)
    ensures OnAdClosed in r <==> cb == Hidden
    ensures forall e :: e in r && e.OnRewarded? ==> cb == Hidden && s.fullyWatched && s.reward == Some(e.item)
  {
    match cb
    case Received => [OnAdLoaded]
    case FailedToReceive(code) => [OnAdFailedToLoad(ToAdMobErrorCode(code))]
    case Displayed => [OnAdOpened]
    case Hidden => DismissEvents(s)
    case Clicked => [OnAdClicked, OnAdLeftApplication]
    case PlaybackBegan => [OnVideoStarted]
    case _ => []
  }

  /** The session after the callbacks `cbs`, in order. */
  function Run(s: Session, cbs: seq<VendorCallback>): Session
    decreases |cbs|
  {
    if cbs == [] then s else Run(Next(s, cbs[0]), cbs[1..])
  }

  /** The argument of the last playback-ended callback in `cbs`, if any. */
  function LastPlaybackEnded(cbs: seq<VendorCallback>): Option<bool> {
    if cbs == [] then None
    else if cbs[|cbs| - 1].PlaybackEnded? then Some(cbs[|cbs| - 1].watchedFully)
    else LastPlaybackEnded(cbs[..|cbs| - 1])
  }

  /** The reward of the last reward-verified callback in `cbs`, if any. */
  function LastVerifiedReward(cbs: seq<VendorCallback>): Option<AppLovinRewardItem> {
    if cbs == [] then None
    else if cbs[|cbs| - 1].RewardVerified? then
      Some(AppLovinRewardItem(cbs[|cbs| - 1].amount, cbs[|cbs| - 1].currency))
    else LastVerifiedReward(cbs[..|cbs| - 1])
  }

  lemma {:induction false} RunSnoc(s: Session, cbs: seq<VendorCallback>, cb: VendorCallback)
    ensures Run(s, cbs + [cb]) == Next(Run(s, cbs), cb)
    decreases |cbs|
  {
    if cbs != [] {
      assert (cbs + [cb])[0] == cbs[0];
      assert (cbs + [cb])[1..] == cbs[1..] + [cb];
      RunSnoc(Next(s, cbs[0]), cbs[1..], cb);
    }
  }

  /** After any callbacks, the session holds the verdict of the last
      playback-ended callback and the last verified reward; where there was
      none, the value from before is kept. */
  lemma {:induction false} RunKeepsLatest(s: Session, cbs: seq<VendorCallback>)
    ensures Run(s, cbs).fullyWatched ==
              (if LastPlaybackEnded(cbs).Some? then LastPlaybackEnded(cbs).value else s.fullyWatched)
    ensures Run(s, cbs).reward ==
              (if LastVerifiedReward(cbs).Some? then LastVerifiedReward(cbs) else s.reward)
    decreases |cbs|
  {
    if cbs != [] {
      var init, last := cbs[..|cbs| - 1], cbs[|cbs| - 1];
      assert cbs == init + [last];
      RunSnoc(s, init, last);
      RunKeepsLatest(s, init);
    }
  }

  /** Reward delivery: when the ad is dismissed after the callbacks `cbs` of one
      show, the host is told OnRewarded(item) and then OnAdClosed exactly when
      the last playback-ended callback reported the video fully watched and a
      reward `item` was verified since the show started; otherwise it is only
      told OnAdClosed. */
  lemma RewardDeliveredIff(cbs: seq<VendorCallback>)
    ensures Emits(Run(FRESH_SESSION, cbs), Hidden) ==
              if LastPlaybackEnded(cbs) == Some(true) && LastVerifiedReward(cbs).Some?
              then [OnRewarded(LastVerifiedReward(cbs).value), OnAdClosed]
              else [OnAdClosed]
  {
    RunKeepsLatest(FRESH_SESSION, cbs);
  }

  // ---------------------------------------------------------------------------
  // The adapter object.

  class ApplovinAdapter {
    /** AppLovinSdk.VERSION_CODE of the installed vendor SDK. */
    const sdkVersion: int

    var initialized: bool
    var incentivizedInterstitial: Option<IncentivizedInterstitial>
    var context: Option<Context>
    var listener: Option<ListenerId>
    var fullyWatched: bool
    var reward: Option<AppLovinRewardItem>

    /** Calls made on host listeners, oldest first. */
    var calls: seq<ListenerCall>
    /** Calls made into the vendor SDK, oldest first. */
    var vendorCalls: seq<VendorCall>

    /** The rewarded unit and the listener exist exactly once the adapter is
        initialised, and the vendor SDK has been initialised once by then and
        never before. */
    ghost predicate Valid()
      reads this
    {
      (initialized <==> incentivizedInterstitial.Some?) &&
      (initialized ==> listener.Some?) &&
      SdkInitializations(vendorCalls) == (if initialized then 1 else 0)
    }

    ghost function CurrentSession(): Session
      reads this
    {
      Session(fullyWatched, reward)
    }

    constructor (sdkVersion: int)
      ensures Valid()
      ensures this.sdkVersion == sdkVersion
      ensures !initialized && incentivizedInterstitial == None && context == None && listener == None
      ensures CurrentSession() == FRESH_SESSION
      ensures calls == [] && vendorCalls == []
    {
      this.sdkVersion := sdkVersion;
      initialized := false;
      incentivizedInterstitial := None;
      context := None;
      listener := None;
      fullyWatched := false;
      reward := None;
      calls := [];
      vendorCalls := [];
    }

    /** Rejects a non-Activity context on an old vendor SDK without touching
        the adapter; otherwise stores context and listener, initialises the
        vendor SDK and creates the rewarded unit on the first such call only,
        and reports success every time. */
    method Initialize(ctx: Option<Context>, l: ListenerId)
      requires Valid()
      modifies this`initialized, this`incentivizedInterstitial, this`context, this`listener
      modifies this`calls, this`vendorCalls
      ensures Valid()
      ensures RejectsContext(sdkVersion, GENERIC_CONTEXT_VERSION, ctx) ==>
                calls == old(calls) + [ListenerCall(l, OnInitializationFailed(InvalidRequest))]
                && initialized == old(initialized) && context == old(context) && listener == old(listener)
                && incentivizedInterstitial == old(incentivizedInterstitial)
                && vendorCalls == old(vendorCalls)
      ensures !RejectsContext(sdkVersion, GENERIC_CONTEXT_VERSION, ctx) ==>
                calls == old(calls) + [ListenerCall(l, OnInitializationSucceeded)]
                && initialized && context == ctx && listener == Some(l)
                && incentivizedInterstitial ==
                     (if old(initialized) then old(incentivizedInterstitial)
                      else Some(IncentivizedInterstitial(ctx)))
                && vendorCalls == old(vendorCalls) +
                     (if old(initialized) then []
                      else Startup(ctx))
    {
      if sdkVersion < GENERIC_CONTEXT_VERSION && !IsActivity(ctx) {
        calls := calls + [ListenerCall(l, OnInitializationFailed(InvalidRequest))];
        return;
      }
      context := ctx;
      listener := Some(l);
      if !initialized {
        SdkInitializationsStartup(vendorCalls, ctx);
        vendorCalls := vendorCalls + Startup(ctx);
        initialized := true;
        incentivizedInterstitial := Some(IncentivizedInterstitial(ctx));
      }
      calls := calls + [ListenerCall(l, OnInitializationSucceeded)];
    }

    /** Whether the adapter is initialised, that is, whether it holds a
        rewarded unit to load and show. */
    function IsInitialized(): (r: bool)
      requires Valid()
      reads this
      ensures r <==> incentivizedInterstitial.Some?
      ensures r ==> listener.Some?
    {
      initialized
    }

    /** `ready` is what the rewarded unit answers to isAdReadyToDisplay(). A
        ready unit is reported loaded at once; otherwise a preload is issued
        and the host hears nothing until the vendor calls back. */
    method LoadAd(ready: bool)
      requires Valid() && initialized
      modifies this`calls, this`vendorCalls
      ensures Valid()
      ensures ready ==> calls == old(calls) + [ListenerCall(listener.value, OnAdLoaded)]
                        && vendorCalls == old(vendorCalls)
      ensures !ready ==> calls == old(calls) && vendorCalls == old(vendorCalls) + [Preload]
    {
      if ready {
        calls := calls + [ListenerCall(listener.value, OnAdLoaded)];
      } else {
        SdkInitializationsSnoc(vendorCalls, Preload);
        vendorCalls := vendorCalls + [Preload];
      }
    }

    /** `ready` is the unit's isAdReadyToDisplay(); `showResolved` says whether
        the version's show() signature was found, `showInvoked` whether calling
        it succeeded. Without a ready unit nothing is reset or shown and the
        host gets an internal error. With one, the per-show state is reset first;
        a lookup or invocation failure then reports exactly one internal error. */
    method ShowVideo(ready: bool, showResolved: bool, showInvoked: bool)
      requires Valid() && initialized
      modifies this`fullyWatched, this`reward, this`calls, this`vendorCalls
      ensures Valid()
      ensures !ready ==>
                CurrentSession() == old(CurrentSession()) && vendorCalls == old(vendorCalls)
                && calls == old(calls) + [ListenerCall(listener.value, OnAdFailedToLoad(InternalError))]
      ensures ready ==> CurrentSession() == FRESH_SESSION
      ensures ready && !showResolved ==>
                vendorCalls == old(vendorCalls)
                && calls == old(calls) + [ListenerCall(listener.value, OnAdFailedToLoad(InternalError))]
      ensures ready && showResolved ==>
                vendorCalls == old(vendorCalls) + [Show(ContextParameterFor(sdkVersion, GENERIC_CONTEXT_VERSION), context)]
                && calls == old(calls) +
                     (if showInvoked then [] else [ListenerCall(listener.value, OnAdFailedToLoad(InternalError))])
    {
      if ready {
        fullyWatched := false;
        reward := None;
        if showResolved {
          var parameter := ContextParameterFor(sdkVersion, GENERIC_CONTEXT_VERSION);
          SdkInitializationsSnoc(vendorCalls, Show(parameter, context));
          vendorCalls := vendorCalls + [Show(parameter, context)];
          if !showInvoked {
            calls := calls + [ListenerCall(listener.value, OnAdFailedToLoad(InternalError))];
          }
        } else {
          calls := calls + [ListenerCall(listener.value, OnAdFailedToLoad(InternalError))];
        }
      } else {
        calls := calls + [ListenerCall(listener.value, OnAdFailedToLoad(InternalError))];
      }
    }

    /** A present context replaces the stored one; an absent one is ignored. */
    method OnContextChanged(ctx: Option<Context>)
      requires Valid()
      modifies this`context
      ensures Valid()
      ensures context == if ctx.Some? then ctx else old(context)
    {
      if ctx.Some? {
        context := ctx;
      }
    }

    // Vendor callbacks. The vendor calls them only on an adapter that has
    // registered itself through preload or show, hence after initialisation.

    method AdReceived()
      requires Valid() && initialized
      modifies this`calls
      ensures Valid()
      ensures calls == old(calls) + [ListenerCall(listener.value, OnAdLoaded)]
      ensures calls == old(calls) + Notify(listener.value, Emits(CurrentSession(), Received))
    {
      calls := calls + [ListenerCall(listener.value, OnAdLoaded)];
    }

    method FailedToReceiveAd(errorCode: int)
      requires Valid() && initialized
      modifies this`calls
      ensures Valid()
      ensures calls == old(calls) + [ListenerCall(listener.value, OnAdFailedToLoad(ToAdMobErrorCode(errorCode)))]
      ensures calls == old(calls) + Notify(listener.value, Emits(CurrentSession(), FailedToReceive(errorCode)))
    {
      calls := calls + [ListenerCall(listener.value, OnAdFailedToLoad(ToAdMobErrorCode(errorCode)))];
    }

    method AdDisplayed()
      requires Valid() && initialized
      modifies this`calls
      ensures Valid()
      ensures calls == old(calls) + [ListenerCall(listener.value, OnAdOpened)]
      ensures calls == old(calls) + Notify(listener.value, Emits(CurrentSession(), Displayed))
    {
      calls := calls + [ListenerCall(listener.value, OnAdOpened)];
    }

    /** The dismissal: the reward goes to the host first if the video was fully
        watched and a reward is pending, then the ad is closed. The per-show
        state is left as it is. */
    method AdHidden()
      requires Valid() && initialized
      modifies this`calls
      ensures Valid()
      ensures fullyWatched && reward.Some? ==>
                calls == old(calls) + [ListenerCall(listener.value, OnRewarded(reward.value)),
                                       ListenerCall(listener.value, OnAdClosed)]
      ensures !(fullyWatched && reward.Some?) ==>
                calls == old(calls) + [ListenerCall(listener.value, OnAdClosed)]
      ensures calls == old(calls) + Notify(listener.value, Emits(CurrentSession(), Hidden))
    {
      var l := listener.value;
      if fullyWatched && reward.Some? {
        var item := reward.value;
        assert Emits(CurrentSession(), Hidden) == [OnRewarded(item), OnAdClosed];
        assert Notify(l, [OnAdClosed]) == [ListenerCall(l, OnAdClosed)];
        assert Notify(l, [OnRewarded(item), OnAdClosed]) == [ListenerCall(l, OnRewarded(item)), ListenerCall(l, OnAdClosed)];
        calls := calls + [ListenerCall(l, OnRewarded(item))];
      } else {
        assert Notify(l, [OnAdClosed]) == [ListenerCall(l, OnAdClosed)];
      }
      calls := calls + [ListenerCall(listener.value, OnAdClosed)];
    }

    method AdClicked()
      requires Valid() && initialized
      modifies this`calls
      ensures Valid()
      ensures calls == old(calls) + [ListenerCall(listener.value, OnAdClicked),
                                     ListenerCall(listener.value, OnAdLeftApplication)]
      ensures calls == old(calls) + Notify(listener.value, Emits(CurrentSession(), Clicked))
    {
      var l := listener.value;
      assert Notify(l, [OnAdLeftApplication]) == [ListenerCall(l, OnAdLeftApplication)];
      assert Notify(l, [OnAdClicked, OnAdLeftApplication]) ==
               [ListenerCall(l, OnAdClicked), ListenerCall(l, OnAdLeftApplication)];
      calls := calls + [ListenerCall(listener.value, OnAdClicked)];
      calls := calls + [ListenerCall(listener.value, OnAdLeftApplication)];
    }

    method VideoPlaybackBegan()
      requires Valid() && initialized
      modifies this`calls
      ensures Valid()
      ensures calls == old(calls) + [ListenerCall(listener.value, OnVideoStarted)]
      ensures calls == old(calls) + Notify(listener.value, Emits(CurrentSession(), PlaybackBegan))
    {
      calls := calls + [ListenerCall(listener.value, OnVideoStarted)];
    }

    /** Records whether playback ended fully watched; the host hears nothing
        until the dismissal. */
    method VideoPlaybackEnded(watchedFully: bool)
      requires Valid() && initialized
      modifies this`fullyWatched
      ensures Valid()
      ensures fullyWatched == watchedFully
      ensures CurrentSession() == Next(old(CurrentSession()), PlaybackEnded(watchedFully))
      ensures calls == old(calls)
    {
      fullyWatched := watchedFully;
    }

    /** Stores the verified reward as pending; the host hears nothing until the
        dismissal. `amount` is the payload's amount already truncated to an int. */
    method UserRewardVerified(amount: int, currency: string)
      requires Valid() && initialized
      modifies this`reward
      ensures Valid()
      ensures reward == Some(AppLovinRewardItem(amount, currency))
      ensures CurrentSession() == Next(old(CurrentSession()), RewardVerified(amount, currency))
      ensures calls == old(calls)
    {
      reward := Some(AppLovinRewardItem(amount, currency));
    }

    // The remaining reward-listener callbacks are only logged: they change no
    // state and tell the host nothing (the reward is dropped silently).

    method UserOverQuota()
      requires Valid() && initialized
      ensures unchanged(this)
    {
    }

    method ValidationRequestFailed(errorCode: int)
      requires Valid() && initialized
      ensures unchanged(this)
    {
    }

    method UserRewardRejected()
      requires Valid() && initialized
      ensures unchanged(this)
    {
    }

    method UserDeclinedToViewAd()
      requires Valid() && initialized
      ensures unchanged(this)
    {
    }
  }

  // ---------------------------------------------------------------------------
  // Client scenarios: what a host can rely on from the contracts above.

  /** Initialising twice with an accepted context initialises the vendor SDK
      once, and both calls report success. */
  method InitializeTwice(sdkVersion: int, ctx: Context, first: ListenerId, second: ListenerId)
    returns (calls: seq<ListenerCall>, vendorCalls: seq<VendorCall>)
    requires !RejectsContext(sdkVersion, GENERIC_CONTEXT_VERSION, Some(ctx))
    ensures calls == [ListenerCall(first, OnInitializationSucceeded), ListenerCall(second, OnInitializationSucceeded)]
    ensures SdkInitializations(vendorCalls) == 1
    ensures vendorCalls == [InitializeSdk(Some(ctx)), SetPluginVersion(PLUGIN_VERSION), CreateIncentivizedInterstitial(Some(ctx))]
  {
    var adapter := new ApplovinAdapter(sdkVersion);
    adapter.Initialize(Some(ctx), first);
    adapter.Initialize(Some(ctx), second);
    calls, vendorCalls := adapter.calls, adapter.vendorCalls;
  }

  /** An old vendor SDK and a non-Activity context: initialisation fails with
      an invalid-request error, and a second attempt fails the same way. */
  method InitializeRejected(sdkVersion: int, ctx: Option<Context>, l: ListenerId)
    returns (calls: seq<ListenerCall>, initialized: bool, vendorCalls: seq<VendorCall>)
    requires sdkVersion < GENERIC_CONTEXT_VERSION && !IsActivity(ctx)
    ensures calls == [ListenerCall(l, OnInitializationFailed(InvalidRequest)),
                      ListenerCall(l, OnInitializationFailed(InvalidRequest))]
    ensures !initialized && vendorCalls == []
  {
    var adapter := new ApplovinAdapter(sdkVersion);
    adapter.Initialize(ctx, l);
    adapter.Initialize(ctx, l);
    calls, initialized, vendorCalls := adapter.calls, adapter.IsInitialized(), adapter.vendorCalls;
  }

  /** A show that plays to its end and gets a verified reward: the host
      receives the reward just before the close exactly when playback ended
      fully watched. */
  method RewardedShow(sdkVersion: int, ctx: Context, l: ListenerId, watchedFully: bool, amount: int, currency: string)
    returns (calls: seq<ListenerCall>)
    requires !RejectsContext(sdkVersion, GENERIC_CONTEXT_VERSION, Some(ctx))
    ensures calls ==
              [ListenerCall(l, OnInitializationSucceeded)]
              + (if watchedFully then [ListenerCall(l, OnRewarded(AppLovinRewardItem(amount, currency)))] else [])
              + [ListenerCall(l, OnAdClosed)]
  {
    var adapter := new ApplovinAdapter(sdkVersion);
    adapter.Initialize(Some(ctx), l);
    ghost var initialized := adapter.calls;
    assert initialized == [ListenerCall(l, OnInitializationSucceeded)] && adapter.listener == Some(l);
    adapter.ShowVideo(true, true, true);
    assert adapter.calls == initialized && adapter.listener == Some(l);
    adapter.VideoPlaybackEnded(watchedFully);
    adapter.UserRewardVerified(amount, currency);
    assert adapter.calls == initialized && adapter.listener == Some(l);
    assert adapter.fullyWatched == watchedFully && adapter.reward == Some(AppLovinRewardItem(amount, currency));
    adapter.AdHidden();
    calls := adapter.calls;
    if watchedFully {
      assert calls == initialized + [ListenerCall(l, OnRewarded(AppLovinRewardItem(amount, currency))), ListenerCall(l, OnAdClosed)];
    } else {
      assert calls == initialized + [ListenerCall(l, OnAdClosed)];
    }
  }

  /** A reward verified in an earlier show does not carry over: showing again
      resets it, so a fully watched second show without a new verification is
      dismissed without reward. */
  method NoStaleReward(sdkVersion: int, ctx: Context, l: ListenerId, amount: int, currency: string)
    returns (secondShow: seq<ListenerCall>)
    requires !RejectsContext(sdkVersion, GENERIC_CONTEXT_VERSION, Some(ctx))
    ensures secondShow == [ListenerCall(l, OnAdClosed)]
  {
    var adapter := new ApplovinAdapter(sdkVersion);
    adapter.Initialize(Some(ctx), l);
    adapter.ShowVideo(true, true, true);
    adapter.VideoPlaybackEnded(true);
    adapter.UserRewardVerified(amount, currency);
    adapter.AdHidden();
    assert adapter.listener == Some(l);
    var before := adapter.calls;
    adapter.ShowVideo(true, true, true);
    adapter.VideoPlaybackEnded(true);
    assert adapter.CurrentSession() == Session(true, None);
    adapter.AdHidden();
    secondShow := adapter.calls[|before|..];
  }

  /** Showing before a unit is ready reports an internal error and never
      reaches the vendor's show(). */
  method ShowBeforeReady(sdkVersion: int, ctx: Context, l: ListenerId)
    returns (calls: seq<ListenerCall>, vendorCalls: seq<VendorCall>)
    requires !RejectsContext(sdkVersion, GENERIC_CONTEXT_VERSION, Some(ctx))
    ensures calls == [ListenerCall(l, OnInitializationSucceeded), ListenerCall(l, OnAdFailedToLoad(InternalError))]
    ensures forall vc :: vc in vendorCalls ==> !vc.Show?
  {
    var adapter := new ApplovinAdapter(sdkVersion);
    adapter.Initialize(Some(ctx), l);
    adapter.ShowVideo(false, true, true);
    calls, vendorCalls := adapter.calls, adapter.vendorCalls;
  }

  /** Reward delivery on the adapter object: after a ready show, any vendor
      callbacks `cbs` delivered through the adapter's methods, then a
      dismissal, the dismissal tells the host OnRewarded(item) and OnAdClosed
      exactly when the last playback ended fully watched and `item` is the last
      verified reward, and OnAdClosed alone otherwise. */
  method DismissAfterCallbacks(sdkVersion: int, ctx: Context, l: ListenerId, cbs: seq<VendorCallback>)
    returns (dismissal: seq<ListenerCall>)
    requires !RejectsContext(sdkVersion, GENERIC_CONTEXT_VERSION, Some(ctx))
    ensures dismissal ==
              if LastPlaybackEnded(cbs) == Some(true) && LastVerifiedReward(cbs).Some?
              then [ListenerCall(l, OnRewarded(LastVerifiedReward(cbs).value)), ListenerCall(l, OnAdClosed)]
              else [ListenerCall(l, OnAdClosed)]
  {
    var adapter := new ApplovinAdapter(sdkVersion);
    adapter.Initialize(Some(ctx), l);
    adapter.ShowVideo(true, true, true);
    var i := 0;
    while i < |cbs|
      invariant 0 <= i <= |cbs|
      invariant adapter.Valid() && adapter.initialized && adapter.listener == Some(l)
      invariant adapter.CurrentSession() == Run(FRESH_SESSION, cbs[..i])
    {
      assert cbs[..i + 1] == cbs[..i] + [cbs[i]];
      RunSnoc(FRESH_SESSION, cbs[..i], cbs[i]);
      match cbs[i] {
      case Received => adapter.AdReceived();
      case FailedToReceive(code) => adapter.FailedToReceiveAd(code);
      case Displayed => adapter.AdDisplayed();
      case Hidden => adapter.AdHidden();
      case Clicked => adapter.AdClicked();
      case PlaybackBegan => adapter.VideoPlaybackBegan();
      case PlaybackEnded(watchedFully) => adapter.VideoPlaybackEnded(watchedFully);
      case OverQuota => adapter.UserOverQuota();
      case ValidationFailed(code) => adapter.ValidationRequestFailed(code);
      case RewardRejected => adapter.UserRewardRejected();
      case DeclinedToView => adapter.UserDeclinedToViewAd();
      case RewardVerified(amount, currency) => adapter.UserRewardVerified(amount, currency);
      }
      i := i + 1;
    }
    assert cbs[..i] == cbs;
    RewardDeliveredIff(cbs);
    var before := adapter.calls;
    adapter.AdHidden();
    dismissal := adapter.calls[|before|..];
  }

  /** The dismissal does not consume the pending reward: a second dismissal
      before the next ready show delivers the same reward again. */
  method RepeatedDismissal(sdkVersion: int, ctx: Context, l: ListenerId, amount: int, currency: string)
    returns (first: seq<ListenerCall>, second: seq<ListenerCall>)
    requires !RejectsContext(sdkVersion, GENERIC_CONTEXT_VERSION, Some(ctx))
    ensures first == second
    ensures second == [ListenerCall(l, OnRewarded(AppLovinRewardItem(amount, currency))), ListenerCall(l, OnAdClosed)]
  {
    var adapter := new ApplovinAdapter(sdkVersion);
    adapter.Initialize(Some(ctx), l);
    adapter.ShowVideo(true, true, true);
    adapter.VideoPlaybackEnded(true);
    adapter.UserRewardVerified(amount, currency);
    var before := adapter.calls;
    adapter.AdHidden();
    first := adapter.calls[|before|..];
    before := adapter.calls;
    adapter.AdHidden();
    second := adapter.calls[|before|..];
  }

  /** A show that finds no ready unit resets nothing: the reward verified in
      the previous show is still pending and is delivered at the next
      dismissal. */
  method UnreadyShowKeepsReward(sdkVersion: int, ctx: Context, l: ListenerId, amount: int, currency: string)
    returns (dismissal: seq<ListenerCall>)
    requires !RejectsContext(sdkVersion, GENERIC_CONTEXT_VERSION, Some(ctx))
    ensures dismissal == [ListenerCall(l, OnRewarded(AppLovinRewardItem(amount, currency))), ListenerCall(l, OnAdClosed)]
  {
    var adapter := new ApplovinAdapter(sdkVersion);
    adapter.Initialize(Some(ctx), l);
    adapter.ShowVideo(true, true, true);
    adapter.VideoPlaybackEnded(true);
    adapter.UserRewardVerified(amount, currency);
    adapter.ShowVideo(false, true, true);
    assert adapter.CurrentSession() == Session(true, Some(AppLovinRewardItem(amount, currency)));
    var before := adapter.calls;
    adapter.AdHidden();
    dismissal := adapter.calls[|before|..];
  }
}
