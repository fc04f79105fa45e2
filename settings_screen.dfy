/**
 * The hidden developer-options switch of the settings screen: tapping the
 * version number ten times, each tap within three seconds of the one
 * before, turns developer options on and stores the choice; only the
 * "disable" action of the developer section turns them off again.
 * Times are milliseconds since the epoch, passed in by the caller.
 */
module SettingsScreen {

  /** A tap more than this long after the previous one starts a new series. */
  const TapWindowMillis: int := 3000

  /** Taps in one series that turn developer options on. */
  const TapsToActivate: int := 10

  /** The screen's counter, the time of the last tap, whether developer
      options are on, and the value last stored in the user repository. */
  datatype DeveloperState = DeveloperState(tapCount: int, lastTapTime: int, enabled: bool, stored: bool)

  /** A freshly composed screen: no taps yet, the last tap at time 0, and
      developer options as loaded from the repository. */
  function InitialState(loaded: bool): (s: DeveloperState)
    ensures s.tapCount == 0 && s.lastTapTime == 0
    ensures s.enabled == loaded && s.stored == loaded
  {
    DeveloperState(0, 0, loaded, loaded)
  }

  /** One tap on the version number at time `now`. */
  function Tap(s: DeveloperState, now: int): (r: DeveloperState)
    ensures r.lastTapTime == now
    ensures s.enabled ==> r.enabled && r.stored == s.stored
    ensures !s.enabled && r.enabled ==> r.tapCount == 0 && r.stored
    ensures !s.enabled ==>
      (r.enabled <==> (if now - s.lastTapTime > TapWindowMillis then 1 else s.tapCount + 1) >= TapsToActivate)
    ensures !r.enabled ==> r.stored == s.stored && r.tapCount < TapsToActivate
    ensures now - s.lastTapTime > TapWindowMillis ==> r.tapCount == 1 || (r.tapCount == 0 && !s.enabled && r.enabled)
    ensures now - s.lastTapTime <= TapWindowMillis && (s.enabled || s.tapCount + 1 < TapsToActivate) ==>
      r.tapCount == s.tapCount + 1 && r.enabled == s.enabled
  {
    var count := if now - s.lastTapTime > TapWindowMillis then 1 else s.tapCount + 1;
    if count >= TapsToActivate && !s.enabled then DeveloperState(0, now, true, true)
    else DeveloperState(count, now, s.enabled, s.stored)
  }

  /** `onDisableDeveloperOptions`: off, and stored as off. */
  function Disable(s: DeveloperState): (r: DeveloperState)
    ensures !r.enabled && !r.stored
    ensures r.tapCount == s.tapCount && r.lastTapTime == s.lastTapTime
  {
    s.(enabled := false, stored := false)
  }

  /** A series of taps at the given times, oldest first. */
  function Taps(s: DeveloperState, times: seq<int>): DeveloperState
    decreases |times|
  {
    if times == [] then s else Tap(Taps(s, times[..|times| - 1]), times[|times| - 1])
  }

  /** One quick series: the first tap comes more than three seconds after
      the last recorded tap, every later one within three seconds of its
      predecessor. */
  predicate QuickSeries(lastTapTime: int, times: seq<int>) {
    |times| >= 1 && times[0] - lastTapTime > TapWindowMillis
    && forall k :: 0 < k < |times| ==> times[k] - times[k - 1] <= TapWindowMillis
  }

  /** Taps never turn developer options off, nor change what is stored
      while they are on. */
  lemma {:induction false} TapsNeverDisable(s: DeveloperState, times: seq<int>)
    requires s.enabled
    ensures Taps(s, times).enabled && Taps(s, times).stored == s.stored
    decreases |times|
  {
    if times != [] {
      TapsNeverDisable(s, times[..|times| - 1]);
    }
  }

  /** Within one quick series the n-th tap (n < 10) leaves the counter at n
      and developer options off. */
  lemma {:induction false} QuickSeriesCounts(s: DeveloperState, times: seq<int>, n: nat)
    requires !s.enabled && QuickSeries(s.lastTapTime, times)
    requires 1 <= n <= |times| && n < TapsToActivate
    ensures Taps(s, times[..n]) == DeveloperState(n, times[n - 1], false, s.stored)
    decreases n
  {
    var prefix := times[..n];
    assert prefix[..n - 1] == times[..n - 1];
    if n > 1 {
      QuickSeriesCounts(s, times, n - 1);
      assert times[n - 1] - times[n - 2] <= TapWindowMillis;
    } else {
      assert times[..0] == [];
    }
  }

  /** The tenth tap of a quick series turns developer options on, stores
      that, and resets the counter to 0. */
  lemma TenthQuickTapActivates(s: DeveloperState, times: seq<int>)
    requires !s.enabled && QuickSeries(s.lastTapTime, times) && |times| == TapsToActivate
    ensures Taps(s, times) == DeveloperState(0, times[9], true, true)
  {
    QuickSeriesCounts(s, times, 9);
    assert times[..10][..9] == times[..9];
    assert times[..10] == times;
    assert times[9] - times[8] <= TapWindowMillis;
  }

  /** Disabling keeps the counter, and taps made while the options are on
      keep counting; so after nine or more quick taps while on, a disable
      followed by a single quick tap turns the options straight back on. */
  lemma ReenableAfterDisable(s: DeveloperState, now: int)
    requires s.enabled && s.tapCount >= TapsToActivate - 1
    requires now - s.lastTapTime <= TapWindowMillis
    ensures Tap(Disable(s), now) == DeveloperState(0, now, true, true)
  {
  }

  /** An example of the above: nine taps counted while on, then a disable
      and one tap a second later. */
  lemma OneTapReenables()
    ensures Tap(Disable(DeveloperState(9, 1000, true, true)), 2000).enabled
  {
  }

  /** Fewer than ten taps since the counter was last at `tapCount` can never
      turn developer options on: each tap adds at most one. */
  lemma {:induction false} FewTapsNeverEnable(s: DeveloperState, times: seq<int>)
    requires !s.enabled && 0 <= s.tapCount && s.tapCount + |times| < TapsToActivate
    ensures !Taps(s, times).enabled && Taps(s, times).stored == s.stored
    ensures 0 <= Taps(s, times).tapCount <= s.tapCount + |times|
    decreases |times|
  {
    if times != [] {
      FewTapsNeverEnable(s, times[..|times| - 1]);
    }
  }

  /** The screen's developer-options state. */
  class DeveloperOptions {
    var tapCount: int
    var lastTapTime: int
    var developerOptionsEnabled: bool
    var storedEnabled: bool

    function State(): DeveloperState
      reads this
    {
      DeveloperState(tapCount, lastTapTime, developerOptionsEnabled, storedEnabled)
    }

    constructor(loaded: bool)
      ensures State() == InitialState(loaded)
    {
      tapCount := 0;
      lastTapTime := 0;
      developerOptionsEnabled := loaded;
      storedEnabled := loaded;
    }

    /** `onVersionTap` at `currentTime`; `activated` says whether this tap
        turned developer options on. */
    method OnVersionTap(currentTime: int) returns (activated: bool)
      modifies this
      ensures State() == Tap(old(State()), currentTime)
      ensures activated <==> !old(developerOptionsEnabled) && developerOptionsEnabled
    {
      if currentTime - lastTapTime > TapWindowMillis {
        tapCount := 1;
      } else {
        tapCount := tapCount + 1;
      }
      lastTapTime := currentTime;
      activated := false;
      if tapCount >= TapsToActivate && !developerOptionsEnabled {
        developerOptionsEnabled := true;
        storedEnabled := true;
        tapCount := 0;
        activated := true;
      }
    }

    method OnDisableDeveloperOptions()
      modifies this
      ensures State() == Disable(old(State()))
    {
      developerOptionsEnabled := false;
      storedEnabled := false;
    }
  }
}
