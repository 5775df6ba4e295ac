# AppLovin adapters for AdMob mediation, modelled in Dafny

Two adapters plug the AppLovin SDK into AdMob mediation on Android:

- the **rewarded-video adapter** (`ApplovinAdapter`) initialises the vendor SDK once per adapter object, preloads and shows a rewarded unit, and translates the vendor's load, display, click, playback and reward-validation callbacks into calls on AdMob's rewarded-video listener. A reward reaches the host only at dismissal, and only if the video was fully watched and a verified reward arrived since the last `showVideo` that found a ready unit; a `showVideo` that finds none resets nothing. Dismissal does not consume the reward: a second dismissal before the next `showVideo` delivers it again;
- the **banner adapter** (`AppLovinCustomEventBanner`) maps the requested AdMob size to an AppLovin size, builds a vendor ad view, registers its listeners, starts a load, translates the view's callbacks, and forwards pause, resume and destroy to the view.

Both adapters translate vendor error codes the same way.

The model has three modules:

- `Mediation` (mediation.dfy) holds the shared vocabulary: contexts, listener identities, the version gate on the context, AdMob's error codes and `ToAdMobErrorCode`. That function appears identically in both source files and is defined once here.
- `RewardedVideo` (rewarded.dfy) holds the class `ApplovinAdapter`, whose fields are the source's fields. Every call on a host listener is appended to the field `calls`. Every call into the vendor SDK is appended to `vendorCalls` as an effect marker.
- `BannerAdapter` (banner.dfy) holds the size table, the vendor view `AdView`, and the class `AppLovinCustomEventBanner`, which records calls in the same way.

The environment is passed in as plain values:

- the SDK version is a constructor argument (`sdkVersion`), compared against 720 (rewarded) or 710 (banner);
- the context is a value that is or is not an Activity;
- `isAdReadyToDisplay()` is the argument `ready`;
- each reflective lookup or invocation is a boolean argument (`showResolved`, `showInvoked`, `constructed`).

Per-show state is also modelled as a value. `Session` holds `fullyWatched` and `reward`. `Next` and `Emits` give the effect of each vendor callback. Each callback method's contract ties it to these functions. The reward-delivery property is proved for any sequence of callbacks.

`initialized` is an instance field (AdMob/Android/ApplovinAdapter.java:47), so the vendor SDK is initialised once per adapter object.

The integer codes are constants of the two vendor SDKs, not of this repository:

- AdMob error codes: internal error 0, invalid request 1, network error 2, no fill 3;
- AppLovin error codes: `NO_FILL` 204, `NO_NETWORK` -103, `FETCH_AD_TIMEOUT` -102.

Only the distinctness of the three AppLovin codes matters to the contracts.

## Model

| member | source | states |
|---|---|---|
| `Mediation.ToAdMobErrorCode` | AdMob/Android/ApplovinAdapter.java:315-329 | total translation: the result is no-fill exactly for vendor NO_FILL, network-error exactly for NO_NETWORK or FETCH_AD_TIMEOUT, internal-error exactly for every other code, never invalid-request |
| `RewardedVideo.Next` | AdMob/Android/ApplovinAdapter.java:257-301 | only the playback-ended callback changes `fullyWatched`, to its verdict, and only the reward-verified callback changes the pending reward, to the verified item; every other callback leaves the per-show state alone |
| `RewardedVideo.DismissEvents` | AdMob/Android/ApplovinAdapter.java:223-229 | dismissal tells the host at most two things and always ends with exactly one close; any reward it delivers is the pending one and requires a fully watched video; a pending reward with a fully watched video is always delivered; with no reward due, the close comes alone |
| `RewardedVideo.Emits` | AdMob/Android/ApplovinAdapter.java:177-301 | of all vendor callbacks only the dismissal closes the ad, and only the dismissal can deliver a reward (the pending one, after a full watch) |
| `RewardedVideo.RunKeepsLatest` | AdMob/Android/ApplovinAdapter.java:257-301 | after any sequence of callbacks, `fullyWatched` is the verdict of the last playback-ended callback and `reward` the last verified reward, or the earlier value when there was none |
| `RewardedVideo.RewardDeliveredIff` | AdMob/Android/ApplovinAdapter.java:219-230 | after any callbacks since a show started, dismissal yields OnRewarded(item) then OnAdClosed exactly when the last playback ended fully watched and `item` is the last reward verified; otherwise only OnAdClosed |
| `RewardedVideo.ApplovinAdapter.constructor` | AdMob/Android/ApplovinAdapter.java:47-54 | a new adapter is uninitialised, holds no unit, context or listener, has an empty per-show state and has called nobody |
| `RewardedVideo.ApplovinAdapter.Initialize` | AdMob/Android/ApplovinAdapter.java:61-88 | an old SDK with a non-Activity context gets exactly one initialization-failed(invalid request) and no field or vendor call changes; otherwise context and listener are stored, SDK init, plugin version and unit creation happen only when not yet initialised, and success is reported every time; the vendor SDK is initialised once at most |
| `RewardedVideo.ApplovinAdapter.IsInitialized` | AdMob/Android/ApplovinAdapter.java:90-94 | the adapter reports itself initialised exactly when it holds a rewarded unit, and then it also holds a listener |
| `RewardedVideo.ApplovinAdapter.LoadAd` | AdMob/Android/ApplovinAdapter.java:97-109 | a ready unit gives one OnAdLoaded and no preload; otherwise one preload and no host call |
| `RewardedVideo.ApplovinAdapter.ShowVideo` | AdMob/Android/ApplovinAdapter.java:112-152 | without a ready unit: one internal error, no show, per-show state unchanged; with one: state reset to not watched and no reward, then the show with the version's context parameter, or exactly one internal error if the method is not found or its invocation fails |
| `RewardedVideo.ApplovinAdapter.OnContextChanged` | AdMob/Android/ApplovinAdapter.java:164-171 | a present context replaces the stored one, an absent one leaves it |
| `RewardedVideo.ApplovinAdapter.AdReceived` | AdMob/Android/ApplovinAdapter.java:178-190 | one OnAdLoaded to the stored listener |
| `RewardedVideo.ApplovinAdapter.FailedToReceiveAd` | AdMob/Android/ApplovinAdapter.java:193-205 | one OnAdFailedToLoad with the translated code |
| `RewardedVideo.ApplovinAdapter.AdDisplayed` | AdMob/Android/ApplovinAdapter.java:212-216 | one OnAdOpened |
| `RewardedVideo.ApplovinAdapter.AdHidden` | AdMob/Android/ApplovinAdapter.java:219-230 | OnRewarded(reward) then OnAdClosed when fully watched with a reward pending, otherwise OnAdClosed alone; per-show state untouched |
| `RewardedVideo.ApplovinAdapter.AdClicked` | AdMob/Android/ApplovinAdapter.java:237-243 | OnAdClicked followed by OnAdLeftApplication |
| `RewardedVideo.ApplovinAdapter.VideoPlaybackBegan` | AdMob/Android/ApplovinAdapter.java:250-254 | one OnVideoStarted |
| `RewardedVideo.ApplovinAdapter.VideoPlaybackEnded` | AdMob/Android/ApplovinAdapter.java:257-261 | `fullyWatched` becomes the argument; nothing else changes and the host is not called |
| `RewardedVideo.ApplovinAdapter.UserOverQuota` | AdMob/Android/ApplovinAdapter.java:268-271 | no state change, no host call |
| `RewardedVideo.ApplovinAdapter.ValidationRequestFailed` | AdMob/Android/ApplovinAdapter.java:274-277 | no state change, no host call |
| `RewardedVideo.ApplovinAdapter.UserRewardRejected` | AdMob/Android/ApplovinAdapter.java:280-283 | no state change, no host call |
| `RewardedVideo.ApplovinAdapter.UserDeclinedToViewAd` | AdMob/Android/ApplovinAdapter.java:286-289 | no state change, no host call |
| `RewardedVideo.ApplovinAdapter.UserRewardVerified` | AdMob/Android/ApplovinAdapter.java:292-301 | the pending reward becomes (amount, currency); nothing else changes and the host is not called |
| `RewardedVideo.InitializeTwice` | AdMob/Android/ApplovinAdapter.java:77-87 | two accepted initialisations: both report success, the vendor SDK is initialised exactly once |
| `RewardedVideo.InitializeRejected` | AdMob/Android/ApplovinAdapter.java:64-70 | an old SDK with a non-Activity context: every attempt fails with invalid request, the adapter stays uninitialised, the vendor is never called |
| `RewardedVideo.RewardedShow` | AdMob/Android/ApplovinAdapter.java:219-229 | a complete show ends with the reward just before the close if and only if playback ended fully watched |
| `RewardedVideo.NoStaleReward` | AdMob/Android/ApplovinAdapter.java:114-117 | a reward verified in one show is not delivered at the end of the next show, which had no verification |
| `RewardedVideo.DismissAfterCallbacks` | AdMob/Android/ApplovinAdapter.java:112-301 | on the adapter object: after a ready show and any vendor callbacks delivered through its methods, the dismissal yields OnRewarded(item) then OnAdClosed exactly when the last playback ended fully watched and `item` is the last verified reward, and OnAdClosed alone otherwise |
| `RewardedVideo.RepeatedDismissal` | AdMob/Android/ApplovinAdapter.java:219-230 | dismissal does not clear the pending reward: two dismissals after one fully watched, rewarded playback both deliver OnRewarded(item) then OnAdClosed |
| `RewardedVideo.UnreadyShowKeepsReward` | AdMob/Android/ApplovinAdapter.java:112-152 | a `showVideo` that finds no ready unit keeps the pending reward: a dismissal after it still yields OnRewarded(item) then OnAdClosed for the reward verified in the earlier show |
| `RewardedVideo.ShowBeforeReady` | AdMob/Android/ApplovinAdapter.java:147-151 | showing with no ready unit reports an internal error and never calls the vendor's show |
| `BannerAdapter.AppLovinAdSizeFromAdMobAdSize` | AdMob/Android/AppLovinCustomEventBanner.java:160-176 | banner and large banner map to BANNER, medium rectangle to MREC, leaderboard to LEADER, each in both directions; every other size maps to none; INTERSTITIAL is never produced |
| `BannerAdapter.AppLovinCustomEventBanner.constructor` | AdMob/Android/AppLovinCustomEventBanner.java:40 | a new adapter holds no view and has called nobody |
| `BannerAdapter.AppLovinCustomEventBanner.CreateAdView` | AdMob/Android/AppLovinCustomEventBanner.java:139-158 | construction gives a fresh view of the requested size and context, built with the version's context parameter; failure reports one internal error and gives no view |
| `BannerAdapter.AppLovinCustomEventBanner.RequestBannerAdAsWritten` | AdMob/Android/AppLovinCustomEventBanner.java:47-115 | the request as written ends in a null dereference exactly when the context is accepted, the size maps and the view cannot be built; the internal error is reported first; on every other path it has the same new state as the corrected request (rejected context or unmappable size: one internal error, nothing else changes; otherwise the fresh view is stored, registered and loaded) |
| `BannerAdapter.AppLovinCustomEventBanner.RequestBannerAd` | AdMob/Android/AppLovinCustomEventBanner.java:47-115 | rejected context or unmappable size: one internal error, no view stored, no vendor call; failed construction: one internal error and no view; otherwise the fresh view is stored, its three listeners are registered and one load is started |
| `BannerAdapter.AppLovinCustomEventBanner.AdReceived` | AdMob/Android/AppLovinCustomEventBanner.java:70-74 | one OnAdLoaded carrying the view the adapter holds when the callback arrives |
| `BannerAdapter.AppLovinCustomEventBanner.FailedToReceiveAd` | AdMob/Android/AppLovinCustomEventBanner.java:77-81 | one OnAdFailedToLoad with the code translated by the shared table, which is never invalid-request |
| `BannerAdapter.AppLovinCustomEventBanner.AdDisplayed` | AdMob/Android/AppLovinCustomEventBanner.java:86-89 | no host call, no vendor call |
| `BannerAdapter.AppLovinCustomEventBanner.AdHidden` | AdMob/Android/AppLovinCustomEventBanner.java:92-95 | no host call, no vendor call |
| `BannerAdapter.AppLovinCustomEventBanner.AdClicked` | AdMob/Android/AppLovinCustomEventBanner.java:100-106 | OnAdOpened followed by OnAdLeftApplication |
| `BannerAdapter.AppLovinCustomEventBanner.OnDestroy` | AdMob/Android/AppLovinCustomEventBanner.java:118-121 | destroy is forwarded to the held view, and nothing happens without one; a held view is always one whose load was started |
| `BannerAdapter.AppLovinCustomEventBanner.OnPause` | AdMob/Android/AppLovinCustomEventBanner.java:124-127 | pause is forwarded to the held view, and nothing happens without one; a held view is always one whose load was started |
| `BannerAdapter.AppLovinCustomEventBanner.OnResume` | AdMob/Android/AppLovinCustomEventBanner.java:130-133 | resume is forwarded to the held view, and nothing happens without one; a held view is always one whose load was started |
| `BannerAdapter.ConstructionFailureAsWritten` | AdMob/Android/AppLovinCustomEventBanner.java:66-67 | counterexample: SDK 710, a generic context, size BANNER and a failing constructor lead to one internal error and then a null dereference |
| `BannerAdapter.ConstructionFailureCorrected` | AdMob/Android/AppLovinCustomEventBanner.java:151-157 | with the corrected request, the same input gives one internal error, no view, and no later lifecycle forwarding |
| `BannerAdapter.LoadThenClick` | AdMob/Android/AppLovinCustomEventBanner.java:66-108 | a built view that loads and is then clicked yields OnAdLoaded(view), OnAdOpened, OnAdLeftApplication in that order |

## Left out

- Threading: `runOnUiThread` and the main-looper handler are not modelled. Every callback is delivered at once, in call order.
- Reflection is not modelled. Looking up and invoking `show`, and looking up and invoking the view constructor, each become a boolean argument. The model records which parameter type (Activity or Context) the SDK version selects.
- Vendor SDK internals are not modelled: SDK initialisation, plugin version, unit creation, preload, show, load and the view's listeners, pause, resume and destroy. Each appears only as a marker in `vendorCalls`.
- Logging (`log`, `Log.println`, `LOGGING_ENABLED`) is not modelled. The parameters no logic reads are dropped: the ad request, user id, server parameters, network extras, the banner's server string and bundle, and `percentViewed`.
- RewardedVideo.ApplovinAdapter.UserRewardVerified: takes the amount as an already truncated integer. Parsing the payload's decimal string and truncating it are floating point. A missing or malformed payload entry is not modelled.
- The rewarded adapter's `onPause`, `onResume` and `onDestroy` have empty bodies and are not modelled.
- RewardedVideo.ApplovinAdapter.LoadAd: requires an initialised adapter, because the source dereferences the rewarded unit created only by a successful initialise. The host calls it only after success was reported.
- RewardedVideo.ApplovinAdapter.ShowVideo: requires an initialised adapter, for the same reason as LoadAd.
- The rewarded adapter's vendor callbacks require an initialised adapter. The vendor calls back only an adapter that registered itself through preload or show, so a listener is always stored by then.
- The banner listeners' `sink` argument stands for the host listener captured when the listeners were registered. The view that delivers each callback is not tracked.
- The adapter reference passed with every rewarded-listener call is not recorded.
- An AdMob size is modelled by its width and height. The format string that `AdSize.equals` also compares is left out.

## Findings

| source | as written | input that shows it | evidently intended | confidence | as-written member | corrected member |
|---|---|---|---|---|---|---|
| AdMob/Android/AppLovinCustomEventBanner.java:66-67 | `createAdView` reports an internal error and returns null when the view cannot be built. The caller stores that null and immediately calls `setAdLoadListener` on it. | SDK version 710 or later, any context, size BANNER, a view constructor that is missing or throws (`BannerAdapter.ConstructionFailureAsWritten`) | report the internal error once and end the request with no view | high; not executed | `BannerAdapter.AppLovinCustomEventBanner.RequestBannerAdAsWritten` | `BannerAdapter.AppLovinCustomEventBanner.RequestBannerAd` |
