/** The app's entry route: it reads the persisted onboarding flag once and
    redirects to onboarding or to the home screen, rendering nothing until the
    read has finished. */
module Launch {
  import opened Js
  import Device
  import Onboarding

  const ONBOARDING_ROUTE := "/(routes)/onboarding"
  const HOME_ROUTE := "/(routes)/home"

  /** The `Redirect` target for the `isOnboarding` state. */
  function RedirectTarget(isOnboarding: bool): (route: string)
    ensures route == ONBOARDING_ROUTE <==> isOnboarding
    ensures route == HOME_ROUTE <==> !isOnboarding
  {
    if isOnboarding then ONBOARDING_ROUTE else HOME_ROUTE
  }

  /** The route a fresh launch ends on when the stored flag is `stored`. */
  function LaunchRoute(stored: Option<string>): (route: string)
    ensures route == HOME_ROUTE <==> Truthy(stored)
    ensures route == ONBOARDING_ROUTE <==> !Truthy(stored)
  {
    RedirectTarget(!Truthy(stored))
  }

  class LaunchScreen {
    var isOnboarding: bool
    var loading: bool

    constructor ()
      ensures isOnboarding && loading && Rendered() == None
    {
      isOnboarding := true;
      loading := true;
    }

    /** What the component renders: nothing while loading, then the redirect. */
    function Rendered(): (shown: Option<string>)
      reads this
      ensures shown == None <==> loading
      ensures shown == Some(HOME_ROUTE) <==> !loading && !isOnboarding
    {
      if loading then None else Some(RedirectTarget(isOnboarding))
    }

    /** The `checkOnboarding` effect. `readSucceeds` says whether
        `AsyncStorage.getItem` resolved; when it rejects, the unawaited effect
        stops and `loading` stays true. */
    method CheckOnboarding(host: Device.Host, readSucceeds: bool)
      modifies this
      ensures !readSucceeds ==> isOnboarding == old(isOnboarding) && loading == old(loading)
      ensures !readSucceeds && old(loading) ==> Rendered() == None
      ensures readSucceeds ==>
        !loading && isOnboarding == (old(isOnboarding) && !Truthy(host.GetItem(Device.ONBOARDING_KEY)))
      ensures readSucceeds && old(isOnboarding) ==>
        Rendered() == Some(LaunchRoute(host.GetItem(Device.ONBOARDING_KEY)))
    {
      if !readSucceeds {
        return;
      }
      var value := host.GetItem(Device.ONBOARDING_KEY);
      if Truthy(value) {
        isOnboarding := false;
      }
      loading := false;
    }
  }

  /** The value onboarding persists routes every later launch to home. */
  lemma FinishedFlagRoutesHome(storage: map<string, string>)
    ensures var stored := storage[Device.ONBOARDING_KEY := Onboarding.FINISHED_VALUE];
      LaunchRoute(if Device.ONBOARDING_KEY in stored then Some(stored[Device.ONBOARDING_KEY]) else None)
        == HOME_ROUTE
  {
  }

  /** A first launch on an empty store goes to onboarding; three skips finish
      it; the next launch goes to home. */
  method FirstLaunchThenRelaunch() returns (first: Option<string>, second: Option<string>, pushed: seq<string>)
    ensures first == Some(ONBOARDING_ROUTE)
    ensures second == Some(HOME_ROUTE)
    ensures pushed == [Onboarding.HOME_INDEX_ROUTE]
  {
    var host := new Device.Host(map[]);
    var launch := new LaunchScreen();
    launch.CheckOnboarding(host, true);
    first := launch.Rendered();

    var pager := new Onboarding.OnboardingScreen();
    pager.HandleSkip(host, true);
    pager.HandleSkip(host, true);
    assert host.storage == map[];
    pager.HandleSkip(host, true);

    var relaunch := new LaunchScreen();
    relaunch.CheckOnboarding(host, true);
    second := relaunch.Rendered();
    pushed := host.navigation;
  }
}
