/**
 * The sticky navigation bar: it hides on a downward scroll past the fold,
 * has a mobile menu, and a "Resume" button that asks the MetaKeep wallet SDK
 * for the visitor's Solana address before sending them to the resume. The
 * SDK's script may load late, so the bar polls for it until it appears.
 */
module Navbar {
  import opened Common

  /** Scroll movements smaller than this (in px) are ignored. */
  const ScrollDeadBand: real := 5.0
  /** The bar only hides below this scroll offset (in px). */
  const HideAfterY: real := 120.0
  /** From this viewport width on (in px) the mobile menu is closed. */
  const DesktopWidth: real := 768.0
  /** RESUME_PATH, the location each download navigates to. */
  const ResumePath: string := "/Resume.pdf"

  /** JavaScript truthiness of a `string | null`: present and not empty. */
  predicate Truthy(s: Option<string>) {
    s.Some? && s.value != ""
  }

  // ---------------------------------------------------------------------
  // Scroll hiding
  // ---------------------------------------------------------------------

  /** The `lastScrollY` ref and the `isHidden` state. */
  datatype ScrollState = ScrollState(lastScrollY: real, isHidden: bool)

  const InitialScroll: ScrollState := ScrollState(0.0, false)

  /**
   * `handleScroll` for a scroll to `currentY`. Inside the dead band nothing
   * changes, not even the recorded offset; otherwise the offset is recorded
   * and the bar is hidden exactly when it moved down past the fold.
   */
  function OnScroll(s: ScrollState, currentY: real): (r: ScrollState)
    ensures Abs(currentY - s.lastScrollY) < ScrollDeadBand ==> r == s
    ensures ScrollDeadBand <= Abs(currentY - s.lastScrollY) ==>
              && r.lastScrollY == currentY
              && (r.isHidden <==> HideAfterY < currentY && s.lastScrollY < currentY)
    ensures currentY <= s.lastScrollY - ScrollDeadBand ==> !r.isHidden
  {
    var delta := currentY - s.lastScrollY;
    if Abs(delta) < ScrollDeadBand then s
    else ScrollState(currentY, currentY > HideAfterY && delta > 0.0)
  }

  /** The bar is only ever hidden while the recorded offset is past the fold. */
  predicate HiddenPastFold(s: ScrollState) {
    s.isHidden ==> HideAfterY < s.lastScrollY
  }

  lemma OnScrollKeepsFold(s: ScrollState, currentY: real)
    requires HiddenPastFold(s)
    ensures HiddenPastFold(OnScroll(s, currentY))
  {
  }

  /** Delivering the same scroll offset twice is the same as delivering it once. */
  lemma OnScrollIdempotent(s: ScrollState, currentY: real)
    ensures OnScroll(OnScroll(s, currentY), currentY) == OnScroll(s, currentY)
  {
  }

  /** The scroll state after a sequence of scroll events. */
  function ScrollTrace(s: ScrollState, ys: seq<real>): ScrollState
    decreases |ys|
  {
    if ys == [] then s else ScrollTrace(OnScroll(s, ys[0]), ys[1..])
  }

  /**
   * However the page is scrolled, starting from the top the bar is hidden
   * only while the last recorded offset is past the fold, and the recorded
   * offset is always one of the offsets seen (or the initial 0).
   */
  lemma {:induction false} ScrollTraceKeepsFold(s: ScrollState, ys: seq<real>)
    requires HiddenPastFold(s)
    ensures HiddenPastFold(ScrollTrace(s, ys))
    ensures ScrollTrace(s, ys).lastScrollY == s.lastScrollY || ScrollTrace(s, ys).lastScrollY in ys
    decreases |ys|
  {
    if ys != [] {
      OnScrollKeepsFold(s, ys[0]);
      ScrollTraceKeepsFold(OnScroll(s, ys[0]), ys[1..]);
    }
  }

  // ---------------------------------------------------------------------
  // The mobile menu
  // ---------------------------------------------------------------------

  /** The events that change `isMenuOpen`. */
  datatype MenuEvent = Toggle | Close | KeyDown(key: string) | Resize(innerWidth: real)

  /** The keydown listener is registered only while the menu is open. */
  predicate EscapeListenerAttached(isMenuOpen: bool) {
    isMenuOpen
  }

  /**
   * `isMenuOpen` after an event. Only the toggle ever opens the menu; it
   * flips the state; closing, Escape while open and a desktop-wide resize
   * close it; any other key or a narrow resize leaves it alone.
   */
  function NextMenuOpen(isMenuOpen: bool, e: MenuEvent): (r: bool)
    ensures r && !isMenuOpen ==> e.Toggle?
    ensures e.Toggle? ==> r == !isMenuOpen
    ensures e.Close? ==> !r
    ensures e == KeyDown("Escape") ==> !r
    ensures e.KeyDown? && e.key != "Escape" ==> r == isMenuOpen
    ensures e.Resize? ==> r == (isMenuOpen && e.innerWidth < DesktopWidth)
  {
    match e
    case Toggle => !isMenuOpen
    case Close => false
    case KeyDown(key) =>
      if EscapeListenerAttached(isMenuOpen) && key == "Escape" then false else isMenuOpen
    case Resize(innerWidth) =>
      if innerWidth >= DesktopWidth then false else isMenuOpen
  }

  /** Toggling twice restores the menu. */
  lemma ToggleTwice(isMenuOpen: bool)
    ensures NextMenuOpen(NextMenuOpen(isMenuOpen, Toggle), Toggle) == isMenuOpen
  {
  }

  /** `document.body.style.overflow` while the menu effect is in place: scrolling is locked exactly while the menu is open. */
  function BodyOverflow(isMenuOpen: bool): (r: string)
    ensures r == "hidden" <==> isMenuOpen
    ensures !isMenuOpen ==> r == ""
  {
    if isMenuOpen then "hidden" else ""
  }

  // ---------------------------------------------------------------------
  // Connecting the wallet
  // ---------------------------------------------------------------------

  datatype WalletStatus = Success | Failure

  /** How `sdk.getWallet()` settles: resolved with a status and maybe a Solana address, or rejected. */
  datatype WalletOutcome = Resolved(status: WalletStatus, solAddress: Option<string>) | Rejected

  /** The outside effects of the bar, in the order they happen. */
  datatype Effect =
    | Navigate(path: string)  // window.location.assign(path)
    | GetWalletCall    // sdk.getWallet()
    | WarnSdkNotReady  // console.warn before the fallback download
    | LogConnectError  // console.error after a rejection

  /** `handleResumeDownload`: navigate to the resume. */
  const ResumeDownload: Effect := Navigate(ResumePath)

  /** The address a response verifies: a successful status with a non-empty Solana address. */
  function AcceptedAddress(o: WalletOutcome): (r: Option<string>)
    ensures r.Some? <==> o.Resolved? && o.status == Success && Truthy(o.solAddress)
    ensures r.Some? ==> r == o.solAddress && Truthy(r)
  {
    if o.Resolved? && o.status == Success && Truthy(o.solAddress) then o.solAddress else None
  }

  /** Whether `handleConnect` reaches the `await`: no wallet yet and an SDK instance. */
  predicate AwaitsWallet(wallet: Option<string>, sdkReady: bool) {
    !Truthy(wallet) && sdkReady
  }

  /** The effects of `handleConnect` up to the `await` (or to its return). */
  function BeginEffects(wallet: Option<string>, sdkReady: bool): seq<Effect> {
    if Truthy(wallet) then [ResumeDownload]
    else if !sdkReady then [WarnSdkNotReady, ResumeDownload]
    else [GetWalletCall]
  }

  /** The effects of `handleConnect` after the `await` settles. */
  function FinishEffects(o: WalletOutcome): seq<Effect> {
    if o.Rejected? then [LogConnectError]
    else if AcceptedAddress(o).Some? then [ResumeDownload]
    else []
  }

  /**
   * All effects of one `handleConnect`. With a wallet already verified, or
   * without an SDK, it downloads exactly once and never asks for the
   * wallet; otherwise it asks exactly once, first, and downloads once if
   * and only if the response verifies an address.
   */
  function ConnectEffects(wallet: Option<string>, sdkReady: bool, o: WalletOutcome): (r: seq<Effect>)
    ensures !AwaitsWallet(wallet, sdkReady) ==>
              multiset(r)[ResumeDownload] == 1 && multiset(r)[GetWalletCall] == 0
    ensures AwaitsWallet(wallet, sdkReady) ==>
              && |r| > 0 && r[0] == GetWalletCall
              && multiset(r)[GetWalletCall] == 1
              && multiset(r)[ResumeDownload] == (if AcceptedAddress(o).Some? then 1 else 0)
    ensures multiset(r)[ResumeDownload] <= 1
    ensures forall e :: e in r && e.Navigate? ==> e == ResumeDownload
  {
    BeginEffects(wallet, sdkReady) + (if AwaitsWallet(wallet, sdkReady) then FinishEffects(o) else [])
  }

  /**
   * `wallet` after one `handleConnect`: set to the verified address when
   * the request verifies one, and otherwise unchanged (a failure, a missing
   * address and a rejection all keep the old value).
   */
  function WalletAfterConnect(wallet: Option<string>, sdkReady: bool, o: WalletOutcome): (w: Option<string>)
    ensures AwaitsWallet(wallet, sdkReady) && AcceptedAddress(o).Some? ==> w == AcceptedAddress(o) && Truthy(w)
    ensures !(AwaitsWallet(wallet, sdkReady) && AcceptedAddress(o).Some?) ==> w == wallet
  {
    if AwaitsWallet(wallet, sdkReady) && AcceptedAddress(o).Some? then AcceptedAddress(o) else wallet
  }

  /**
   * A click downloads the resume exactly when, afterwards, a wallet is
   * verified or there was no SDK to ask: no verified visitor is left
   * without the resume, and no failed verification leads to it.
   */
  lemma DownloadIffVerifiedOrFallback(wallet: Option<string>, sdkReady: bool, o: WalletOutcome)
    ensures multiset(ConnectEffects(wallet, sdkReady, o))[ResumeDownload] == 1
            <==> Truthy(WalletAfterConnect(wallet, sdkReady, o)) || !sdkReady
  {
  }

  // ---------------------------------------------------------------------
  // Display
  // ---------------------------------------------------------------------

  /** `s.slice(0, n)`: the first min(n, |s|) characters. */
  function SliceFirst(s: string, n: nat): (r: string)
    ensures |r| == (if n <= |s| then n else |s|)
    ensures r == s[..|r|]
  {
    if n <= |s| then s[..n] else s
  }

  /**
   * `s.slice(-n)`: for n > 0 the last min(n, |s|) characters. `-0` is
   * `0`, so `s.slice(-0)` is the whole string.
   */
  function SliceLast(s: string, n: nat): (r: string)
    ensures n > 0 ==> |r| == (if n <= |s| then n else |s|)
    ensures n == 0 ==> r == s
    ensures r == s[|s| - |r|..]
  {
    if n == 0 || |s| < n then s else s[|s| - n..]
  }

  const Ellipsis: char := '\U{2026}'

  /**
   * `formattedRecruiterWallet`: null without a (non-empty) wallet,
   * otherwise its first six characters, an ellipsis and its last four
   * (for a wallet shorter than six or four characters, all of it).
   */
  function FormattedWallet(wallet: Option<string>): (r: Option<string>)
    ensures r.None? <==> !Truthy(wallet)
    ensures r.Some? ==>
              var w, a, b := wallet.value, if |wallet.value| < 6 then |wallet.value| else 6,
                             if |wallet.value| < 4 then |wallet.value| else 4;
              && |r.value| == a + 1 + b
              && r.value[..a] == w[..a]
              && r.value[a] == Ellipsis
              && r.value[a + 1..] == w[|w| - b..]
    ensures r.Some? && |wallet.value| >= 10 ==>
              && |r.value| == 11
              && r.value[..6] == wallet.value[..6]
              && r.value[6] == Ellipsis
              && r.value[7..] == wallet.value[|wallet.value| - 4..]
  {
    if Truthy(wallet) then Some(SliceFirst(wallet.value, 6) + [Ellipsis] + SliceLast(wallet.value, 4))
    else None
  }

  /** `buttonLabel`: it reads "Connecting…" exactly while connecting. */
  function ButtonLabel(isConnecting: bool): (r: string)
    ensures r == "Connecting\U{2026}" <==> isConnecting
    ensures !isConnecting ==> r == "Resume"
  {
    if isConnecting then "Connecting\U{2026}" else "Resume"
  }

  // ---------------------------------------------------------------------
  // The component's state
  // ---------------------------------------------------------------------

  /**
   * The Navbar's state and refs. `sdkReady` says the `sdk` state holds an
   * instance, `awaitingWallet` that a getWallet request is in flight, and
   * `effects` is the history of outside effects.
   */
  class NavbarState {
    var lastScrollY: real
    var isHidden: bool
    var isMenuOpen: bool
    var isConnecting: bool
    var wallet: Option<string>
    var sdkReady: bool
    var awaitingWallet: bool
    var effects: seq<Effect>

    /**
     * The label shows "Connecting…" exactly while a request is in flight,
     * the bar hides only past the fold, and a stored wallet is never empty.
     */
    ghost predicate Valid()
      reads this
    {
      && (isConnecting <==> awaitingWallet)
      && HiddenPastFold(ScrollState(lastScrollY, isHidden))
      && (wallet.None? || Truthy(wallet))
    }

    constructor ()
      ensures Valid()
      ensures ScrollState(lastScrollY, isHidden) == InitialScroll
      ensures !isMenuOpen && !isConnecting && wallet == None && !sdkReady && !awaitingWallet && effects == []
    {
      lastScrollY := 0.0;
      isHidden := false;
      isMenuOpen := false;
      isConnecting := false;
      wallet := None;
      sdkReady := false;
      awaitingWallet := false;
      effects := [];
    }

    /** `handleScroll` for the current `window.scrollY`. */
    method HandleScroll(currentY: real)
      requires Valid()
      modifies this`lastScrollY, this`isHidden
      ensures Valid()
      ensures ScrollState(lastScrollY, isHidden) == OnScroll(old(ScrollState(lastScrollY, isHidden)), currentY)
    {
      var delta := currentY - lastScrollY;
      if Abs(delta) < ScrollDeadBand {
        return;
      }
      if currentY > HideAfterY && delta > 0.0 {
        isHidden := true;
      } else {
        isHidden := false;
      }
      lastScrollY := currentY;
    }

    /** Every menu handler: `toggleMenu`, `closeMenu`, the Escape listener and the resize listener. */
    method HandleMenuEvent(e: MenuEvent)
      requires Valid()
      modifies this`isMenuOpen
      ensures Valid()
      ensures isMenuOpen == NextMenuOpen(old(isMenuOpen), e)
    {
      match e
      case Toggle =>
        isMenuOpen := !isMenuOpen;
      case Close =>
        isMenuOpen := false;
      case KeyDown(key) =>
        if EscapeListenerAttached(isMenuOpen) && key == "Escape" {
          isMenuOpen := false;
        }
      case Resize(innerWidth) =>
        if innerWidth >= DesktopWidth {
          isMenuOpen := false;
        }
    }

    /** `setSdk(instance)`, called by the SDK poll. */
    method SetSdk()
      requires Valid()
      modifies this`sdkReady
      ensures Valid() && sdkReady
    {
      sdkReady := true;
    }

    /**
     * `handleConnect` up to its `await`. Both buttons are disabled while
     * connecting, so it is never entered then. `awaiting` tells whether a
     * getWallet request is now in flight.
     */
    method BeginConnect() returns (awaiting: bool)
      requires Valid() && !isConnecting
      modifies this`isConnecting, this`awaitingWallet, this`effects
      ensures Valid()
      ensures awaiting == AwaitsWallet(wallet, sdkReady)
      ensures isConnecting == awaiting
      ensures effects == old(effects) + BeginEffects(wallet, sdkReady)
    {
      if Truthy(wallet) {
        effects := effects + [ResumeDownload];
        return false;
      }
      if !sdkReady {
        effects := effects + [WarnSdkNotReady];
        effects := effects + [ResumeDownload];
        return false;
      }
      isConnecting := true;
      awaitingWallet := true;
      effects := effects + [GetWalletCall];
      awaiting := true;
    }

    /** The rest of `handleConnect`, once the getWallet request settles with `o`. */
    method FinishConnect(o: WalletOutcome)
      requires Valid() && awaitingWallet
      modifies this`isConnecting, this`awaitingWallet, this`effects, this`wallet
      ensures Valid()
      ensures !isConnecting && !awaitingWallet
      ensures wallet == (if AcceptedAddress(o).Some? then AcceptedAddress(o) else old(wallet))
      ensures effects == old(effects) + FinishEffects(o)
    {
      awaitingWallet := false;
      match o {
        case Rejected =>
          effects := effects + [LogConnectError];
        case Resolved(status, solAddress) =>
          if status == Success && Truthy(solAddress) {
            wallet := solAddress;
            effects := effects + [ResumeDownload];
          }
      }
      isConnecting := false;
    }

    /** A click on "Resume" followed, when needed, by the settling of the request. */
    method Connect(o: WalletOutcome)
      requires Valid() && !isConnecting
      modifies this`isConnecting, this`awaitingWallet, this`effects, this`wallet
      ensures Valid() && !isConnecting
      ensures effects == old(effects) + ConnectEffects(old(wallet), old(sdkReady), o)
      ensures wallet == WalletAfterConnect(old(wallet), old(sdkReady), o)
    {
      ghost var before := effects;
      var awaiting := BeginConnect();
      ghost var begun := effects;
      assert begun == before + BeginEffects(old(wallet), old(sdkReady));
      if awaiting {
        FinishConnect(o);
        assert effects == begun + FinishEffects(o);
        assert effects == before + (BeginEffects(old(wallet), old(sdkReady)) + FinishEffects(o));
      } else {
        assert BeginEffects(old(wallet), old(sdkReady)) + [] == BeginEffects(old(wallet), old(sdkReady));
      }
    }
  }

  // ---------------------------------------------------------------------
  // Polling for the SDK script
  // ---------------------------------------------------------------------

  /** The outside effects of the SDK effect. */
  datatype PollEffect = WarnAppIdMissing | WarnWaiting | SdkSet | IntervalStarted | IntervalCleared

  function CountPoll(log: seq<PollEffect>, e: PollEffect): nat {
    multiset(log)[e]
  }

  /**
   * The locals of the effect that waits for `window.MetaKeep`:
   * `hasLoggedWaiting`, `pollTimer` (here `timerActive`) and `isUnmounted`,
   * plus `configured` (the app id was set, so the effect ran past its first
   * return), `found` (an attempt saw the SDK) and the history `log`.
   * `unmountedAt` records how long the log was at unmount.
   */
  class SdkPoll {
    const nav: NavbarState
    var configured: bool
    var hasLoggedWaiting: bool
    var timerActive: bool
    var isUnmounted: bool
    var found: bool
    var log: seq<PollEffect>
    ghost var unmountedAt: nat

    /**
     * The waiting warning is logged at most once, the SDK is stored at most
     * once, the interval only runs while the SDK has not been found and the
     * component is mounted, and nothing is stored after unmount.
     */
    ghost predicate Valid()
      reads this
    {
      && LogValid()
      && (timerActive ==> configured && hasLoggedWaiting && !found && !isUnmounted)
    }

    /** The part of Valid() that also holds in the middle of a tick. */
    ghost predicate LogValid()
      reads this
    {
      && CountPoll(log, WarnWaiting) == (if hasLoggedWaiting then 1 else 0)
      && CountPoll(log, SdkSet) <= 1
      && (CountPoll(log, SdkSet) == 1 ==> found)
      && (isUnmounted ==> unmountedAt <= |log| && SdkSet !in log[unmountedAt..])
    }

    /**
     * `attemptInit`: true exactly when the SDK constructor is present. A
     * missing SDK logs the waiting warning only the first time; a present
     * one is stored unless the component has unmounted.
     */
    method AttemptInit(available: bool) returns (ok: bool)
      requires LogValid() && configured && !found && nav.Valid()
      modifies this`hasLoggedWaiting, this`found, this`log, nav`sdkReady
      ensures LogValid() && nav.Valid()
      ensures ok == available && found == available
      ensures hasLoggedWaiting == (old(hasLoggedWaiting) || !available)
      ensures !available ==>
                log == old(log) + (if old(hasLoggedWaiting) then [] else [WarnWaiting]) && nav.sdkReady == old(nav.sdkReady)
      ensures available ==>
                log == old(log) + (if isUnmounted then [] else [SdkSet])
                && nav.sdkReady == (old(nav.sdkReady) || !isUnmounted)
    {
      if !available {
        if !hasLoggedWaiting {
          log := log + [WarnWaiting];
          hasLoggedWaiting := true;
        }
        return false;
      }
      found := true;
      if !isUnmounted {
        log := log + [SdkSet];
        nav.SetSdk();
      }
      if isUnmounted {
        assert log[unmountedAt..] == old(log)[unmountedAt..];
      }
      return true;
    }

    /**
     * The effect body on mount: without an app id it warns and stops;
     * otherwise it tries once and starts the 200 ms interval if that fails.
     */
    constructor (nav: NavbarState, appIdSet: bool, available: bool)
      requires nav.Valid()
      modifies nav`sdkReady
      ensures Valid() && nav.Valid() && this.nav == nav
      ensures !isUnmounted && configured == appIdSet
      ensures !appIdSet ==> log == [WarnAppIdMissing] && !timerActive && nav.sdkReady == old(nav.sdkReady) && !found
      ensures appIdSet ==> found == available && timerActive == !available
      ensures appIdSet && available ==> log == [SdkSet] && nav.sdkReady
      ensures appIdSet && !available ==> log == [WarnWaiting, IntervalStarted] && nav.sdkReady == old(nav.sdkReady)
    {
      this.nav := nav;
      configured := appIdSet;
      hasLoggedWaiting := false;
      timerActive := false;
      isUnmounted := false;
      found := false;
      log := [];
      unmountedAt := 0;
      new;
      Mount(appIdSet, available);
    }

    /** The effect body, run once from the constructor on a fresh instance. */
    method Mount(appIdSet: bool, available: bool)
      requires nav.Valid() && configured == appIdSet
      requires !hasLoggedWaiting && !timerActive && !isUnmounted && !found && log == []
      modifies this`hasLoggedWaiting, this`found, this`log, this`timerActive, nav`sdkReady
      ensures Valid() && nav.Valid()
      ensures !appIdSet ==> log == [WarnAppIdMissing] && !timerActive && nav.sdkReady == old(nav.sdkReady) && !found
      ensures appIdSet ==> found == available && timerActive == !available
      ensures appIdSet && available ==> log == [SdkSet] && nav.sdkReady
      ensures appIdSet && !available ==> log == [WarnWaiting, IntervalStarted] && nav.sdkReady == old(nav.sdkReady)
    {
      if !appIdSet {
        log := [WarnAppIdMissing];
        return;
      }
      var ok := AttemptInit(available);
      if ok {
        return;
      }
      timerActive := true;
      log := log + [IntervalStarted];
      assert log == [WarnWaiting] + [IntervalStarted];
    }

    /** One interval tick: try again, and clear the interval after the first success. */
    method Tick(available: bool)
      requires Valid() && nav.Valid() && timerActive
      modifies this`hasLoggedWaiting, this`found, this`log, this`timerActive, nav`sdkReady
      ensures Valid() && nav.Valid()
      ensures timerActive == !available
      ensures available ==> log == old(log) + [SdkSet, IntervalCleared] && nav.sdkReady
      ensures !available ==> log == old(log) && nav.sdkReady == old(nav.sdkReady)
    {
      var ok := AttemptInit(available);
      if ok && timerActive {
        timerActive := false;
        log := log + [IntervalCleared];
      }
    }

    /** The effect's cleanup: mark the component unmounted and clear a running interval. */
    method Unmount()
      requires Valid() && configured && !isUnmounted
      modifies this`isUnmounted, this`timerActive, this`log, this`unmountedAt
      ensures Valid() && isUnmounted && !timerActive
      ensures log == old(log) + (if old(timerActive) then [IntervalCleared] else [])
    {
      unmountedAt := |log|;
      isUnmounted := true;
      if timerActive {
        log := log + [IntervalCleared];
        timerActive := false;
      }
    }
  }
}
