/**
 * The project web page's script (docs/assets/js/main.js): the guided
 * tutorial's step machine, the mobile menu toggles and the navbar scroll
 * effect. The DOM is abstracted: for each step, `hasTarget` says whether
 * the element it points at (or the fallback for the hamburger step) exists.
 */
module Site {
  import opened Wrappers

  /** The number of tutorial steps. */
  const StepCount: int := 7

  /** The tutorial's mutable state. */
  datatype TutorialState = TutorialState(
    index: int,            // currentStepIndex
    playing: bool,         // isPlaying
    overlay: bool,         // the overlay's `active` class
    controls: bool,        // the controls' `active` class
    highlight: bool,       // the highlight box is visible (opacity 1)
    caption: Option<int>)  // the step whose text the controls show

  /** The state when the page has loaded. */
  const Initial: TutorialState := TutorialState(0, false, false, false, false, None)

  /** Steps left before the end, the measure that makes skipping terminate. */
  function Remaining(i: int): nat
  {
    if i < StepCount then StepCount - i else 0
  }

  /** `stopAutoPlay`. */
  function StopSpec(s: TutorialState): TutorialState
  {
    s.(playing := false)
  }

  /** `endTutorial`. */
  function EndSpec(s: TutorialState): TutorialState
  {
    StopSpec(s).(overlay := false, controls := false, highlight := false)
  }

  /** The tutorial is over: not playing, overlay and controls hidden. */
  predicate Ended(s: TutorialState)
  {
    !s.playing && !s.overlay && !s.controls
  }

  /**
   * `showStep(k)`: a negative `k` is treated as 0, a `k` past the last
   * step ends the tutorial, a step whose target is missing is skipped with
   * `nextStep`, and otherwise the step's text and highlight are shown.
   */
  function ShowSpec(s: TutorialState, k: int, hasTarget: int -> bool): TutorialState
    decreases Remaining(s.index), 1
  {
    var i := if k < 0 then 0 else k;
    if i >= StepCount then EndSpec(s)
    else if !hasTarget(i) then NextSpec(s, hasTarget)
    else s.(caption := Some(i), highlight := true)
  }

  /** `nextStep`: one step on; reaching `StepCount` ends the tutorial. */
  function NextSpec(s: TutorialState, hasTarget: int -> bool): TutorialState
    decreases Remaining(s.index), 0
  {
    var i := s.index + 1;
    if i >= StepCount then EndSpec(s.(index := i))
    else ShowSpec(s.(index := i), i, hasTarget)
  }

  /** `startTutorial`. */
  function StartSpec(s: TutorialState, hasTarget: int -> bool): TutorialState
  {
    ShowSpec(s.(overlay := true, controls := true, index := 0, playing := true), 0, hasTarget)
  }

  /** `prevStep`: stops autoplay, steps back but not below 0, shows the step. */
  function PrevSpec(s: TutorialState, hasTarget: int -> bool): TutorialState
  {
    var i := if s.index - 1 < 0 then 0 else s.index - 1;
    ShowSpec(StopSpec(s).(index := i), i, hasTarget)
  }

  /** The autoplay interval's callback. */
  function TickSpec(s: TutorialState, hasTarget: int -> bool): TutorialState
  {
    if s.playing then NextSpec(s, hasTarget) else s
  }

  /** The resize handler: re-shows the current step while the overlay is active. */
  function ResizeSpec(s: TutorialState, hasTarget: int -> bool): TutorialState
  {
    if s.overlay then ShowSpec(s, s.index, hasTarget) else s
  }

  /** The first step from `k` on whose target exists, or `StepCount` if none. */
  function FirstTarget(hasTarget: int -> bool, k: int): (r: int)
    requires 0 <= k <= StepCount
    ensures k <= r <= StepCount
    ensures r < StepCount ==> hasTarget(r)
    ensures forall j :: k <= j < r ==> !hasTarget(j)
    decreases StepCount - k
  {
    if k == StepCount then StepCount
    else if hasTarget(k) then k
    else FirstTarget(hasTarget, k + 1)
  }

  /**
   * Showing the current step skips every step whose target is missing and
   * lands on the first present one; when there is none the tutorial ends
   * with the index at `StepCount`.
   */
  lemma {:induction false} ShowFindsTarget(s: TutorialState, hasTarget: int -> bool)
    requires 0 <= s.index < StepCount
    ensures var r := ShowSpec(s, s.index, hasTarget);
            var j := FirstTarget(hasTarget, s.index);
            && r.index == j
            && (j < StepCount ==> r == s.(index := j, caption := Some(j), highlight := true))
            && (j == StepCount ==> r == EndSpec(s.(index := StepCount)))
    decreases StepCount - s.index
  {
    if !hasTarget(s.index) {
      var i := s.index + 1;
      if i < StepCount {
        ShowFindsTarget(s.(index := i), hasTarget);
      }
    }
  }

  /** What a state change may and may not do to the tutorial's state. */
  predicate Progress(s: TutorialState, r: TutorialState)
  {
    && r.index >= s.index
    && (!s.playing ==> !r.playing)
    && (!s.overlay ==> !r.overlay)
    && (!s.controls ==> !r.controls)
  }

  /**
   * `showStep` never moves the index back and never turns autoplay, the
   * overlay or the controls on; a negative index shows step 0, and an
   * index past the last step ends the tutorial without writing the index.
   */
  lemma {:induction false} ShowProgress(s: TutorialState, k: int, hasTarget: int -> bool)
    ensures Progress(s, ShowSpec(s, k, hasTarget))
    ensures k < 0 ==> ShowSpec(s, k, hasTarget) == ShowSpec(s, 0, hasTarget)
    ensures k >= StepCount ==> ShowSpec(s, k, hasTarget) == EndSpec(s)
    ensures k >= StepCount ==> ShowSpec(s, k, hasTarget).index == s.index && Ended(ShowSpec(s, k, hasTarget))
    decreases Remaining(s.index), 1
  {
    var i := if k < 0 then 0 else k;
    if i < StepCount && !hasTarget(i) {
      NextProgress(s, hasTarget);
    }
  }

  /** `nextStep` moves the index forward and turns nothing on. */
  lemma {:induction false} NextProgress(s: TutorialState, hasTarget: int -> bool)
    ensures Progress(s, NextSpec(s, hasTarget))
    ensures NextSpec(s, hasTarget).index > s.index
    decreases Remaining(s.index), 0
  {
    var i := s.index + 1;
    if i < StepCount {
      ShowProgress(s.(index := i), i, hasTarget);
    }
  }

  /**
   * `nextStep` before the last step: the index goes up by one when the
   * next step's target exists, else on to the next present step.
   */
  lemma NextStepAdvances(s: TutorialState, hasTarget: int -> bool)
    requires 0 <= s.index < StepCount - 1
    ensures NextSpec(s, hasTarget).index == FirstTarget(hasTarget, s.index + 1)
    ensures hasTarget(s.index + 1) ==>
              NextSpec(s, hasTarget) == s.(index := s.index + 1, caption := Some(s.index + 1), highlight := true)
  {
    var t := s.(index := s.index + 1);
    assert NextSpec(s, hasTarget) == ShowSpec(t, t.index, hasTarget);
    ShowFindsTarget(t, hasTarget);
  }

  /**
   * `nextStep` from a step: reaching `StepCount` ends the tutorial, as does
   * any step from the last one.
   */
  lemma NextStepEnds(s: TutorialState, hasTarget: int -> bool)
    requires 0 <= s.index < StepCount
    ensures NextSpec(s, hasTarget).index >= StepCount ==> Ended(NextSpec(s, hasTarget))
    ensures s.index == StepCount - 1 ==> NextSpec(s, hasTarget) == EndSpec(s.(index := StepCount))
  {
    if s.index < StepCount - 1 {
      var t := s.(index := s.index + 1);
      assert NextSpec(s, hasTarget) == ShowSpec(t, t.index, hasTarget);
      ShowFindsTarget(t, hasTarget);
    }
  }

  /**
   * `startTutorial` plays from the first step whose target exists, with
   * overlay and controls shown; if no target exists it ends at once.
   */
  lemma StartFacts(s: TutorialState, hasTarget: int -> bool)
    ensures var r := StartSpec(s, hasTarget);
            var j := FirstTarget(hasTarget, 0);
            && r.index == j
            && (j < StepCount ==> r.playing && r.overlay && r.controls && r.caption == Some(j))
            && (j == StepCount ==> Ended(r))
  {
    ShowFindsTarget(s.(overlay := true, controls := true, index := 0, playing := true), hasTarget);
  }

  /**
   * `prevStep` stops autoplay for good (later ticks change nothing), never
   * leaves the index below 0, and steps back by one onto a present target.
   */
  lemma PrevFacts(s: TutorialState, hasTarget: int -> bool)
    ensures var r := PrevSpec(s, hasTarget);
            && !r.playing
            && r.index >= 0
            && TickSpec(r, hasTarget) == r
            && (1 <= s.index <= StepCount && hasTarget(s.index - 1) ==> r.index == s.index - 1)
  {
    var i := if s.index - 1 < 0 then 0 else s.index - 1;
    ShowProgress(StopSpec(s).(index := i), i, hasTarget);
  }

  /** The autoplay tick does nothing once autoplay is stopped. */
  lemma TickGated(s: TutorialState, hasTarget: int -> bool)
    ensures !s.playing ==> TickSpec(s, hasTarget) == s
    ensures s.playing ==> TickSpec(s, hasTarget) == NextSpec(s, hasTarget)
    ensures !StopSpec(s).playing && TickSpec(StopSpec(s), hasTarget) == StopSpec(s)
  {
  }

  /**
   * Every state the tutorial can reach keeps a non-negative index, and
   * one that is not playing stays so under any of its operations but
   * `startTutorial`.
   */
  lemma ReachableIndex(s: TutorialState, hasTarget: int -> bool)
    requires s.index >= 0
    ensures NextSpec(s, hasTarget).index >= 0 && PrevSpec(s, hasTarget).index >= 0
    ensures TickSpec(s, hasTarget).index >= 0 && ResizeSpec(s, hasTarget).index >= 0
    ensures StartSpec(s, hasTarget).index >= 0
    ensures !s.playing ==> !NextSpec(s, hasTarget).playing && !ResizeSpec(s, hasTarget).playing
    ensures !s.playing ==> !TickSpec(s, hasTarget).playing
    ensures !PrevSpec(s, hasTarget).playing
  {
    NextProgress(s, hasTarget);
    ShowProgress(s, s.index, hasTarget);
    PrevFacts(s, hasTarget);
    StartFacts(s, hasTarget);
  }

  /** The tutorial's closure state. */
  class Tutorial {
    const hasTarget: int -> bool
    var index: int
    var playing: bool
    var overlay: bool
    var controls: bool
    var highlight: bool
    var caption: Option<int>

    function State(): TutorialState
      reads this
    {
      TutorialState(index, playing, overlay, controls, highlight, caption)
    }

    constructor (hasTarget: int -> bool)
      ensures this.hasTarget == hasTarget
      ensures State() == Initial
    {
      this.hasTarget := hasTarget;
      index := 0;
      playing := false;
      overlay := false;
      controls := false;
      highlight := false;
      caption := None;
    }

    method Start()
      modifies this
      ensures State() == StartSpec(old(State()), hasTarget)
    {
      overlay := true;
      controls := true;
      index := 0;
      playing := true;
      ShowStep(index);
    }

    method StopAutoPlay()
      modifies this
      ensures State() == StopSpec(old(State()))
    {
      playing := false;
    }

    method EndTutorial()
      modifies this
      ensures State() == EndSpec(old(State()))
    {
      StopAutoPlay();
      overlay := false;
      controls := false;
      highlight := false;
    }

    method ShowStep(k: int)
      modifies this
      ensures State() == ShowSpec(old(State()), k, hasTarget)
      decreases Remaining(index), 1
    {
      var i := k;
      if i < 0 {
        i := 0;
      }
      if i >= StepCount {
        EndTutorial();
        return;
      }
      if !hasTarget(i) {
        NextStep();
        return;
      }
      caption := Some(i);
      highlight := true;
    }

    method NextStep()
      modifies this
      ensures State() == NextSpec(old(State()), hasTarget)
      decreases Remaining(index), 0
    {
      index := index + 1;
      if index >= StepCount {
        EndTutorial();
      } else {
        ShowStep(index);
      }
    }

    method PrevStep()
      modifies this
      ensures State() == PrevSpec(old(State()), hasTarget)
    {
      StopAutoPlay();
      index := index - 1;
      if index < 0 {
        index := 0;
      }
      ShowStep(index);
    }

    /** One firing of the autoplay interval. */
    method Tick()
      modifies this
      ensures State() == TickSpec(old(State()), hasTarget)
    {
      if playing {
        NextStep();
      }
    }

    method Resize()
      modifies this
      ensures State() == ResizeSpec(old(State()), hasTarget)
    {
      if overlay {
        ShowStep(index);
      }
    }
  }

  /** The `active` classes of the hamburger button and the mobile menu. */
  datatype Menu = Menu(hamburger: bool, mobileMenu: bool)

  datatype MenuEvent = HamburgerClick | MobileLinkClick

  /** A hamburger click toggles both classes; a mobile-link click removes both. */
  function MenuStep(m: Menu, e: MenuEvent): Menu
  {
    match e
    case HamburgerClick => Menu(!m.hamburger, !m.mobileMenu)
    case MobileLinkClick => Menu(false, false)
  }

  /** The classes after a sequence of clicks. */
  function MenuAfter(m: Menu, events: seq<MenuEvent>): Menu
  {
    if events == [] then m
    else MenuStep(MenuAfter(m, events[..|events| - 1]), events[|events| - 1])
  }

  /** Hamburger clicks since the last mobile-link click. */
  function ClicksSinceLink(events: seq<MenuEvent>): nat
  {
    if events == [] then 0
    else if events[|events| - 1] == MobileLinkClick then 0
    else ClicksSinceLink(events[..|events| - 1]) + 1
  }

  /** Two classes that start equal stay equal whatever is clicked. */
  lemma {:induction false} MenuFlagsTogether(m: Menu, events: seq<MenuEvent>)
    requires m.hamburger == m.mobileMenu
    ensures MenuAfter(m, events).hamburger == MenuAfter(m, events).mobileMenu
  {
    if events != [] {
      MenuFlagsTogether(m, events[..|events| - 1]);
    }
  }

  /**
   * From the closed menu of a fresh page, the menu is open exactly when an
   * odd number of hamburger clicks followed the last mobile-link click.
   */
  lemma {:induction false} MenuOpenParity(events: seq<MenuEvent>)
    ensures MenuAfter(Menu(false, false), events).mobileMenu <==> ClicksSinceLink(events) % 2 == 1
  {
    if events != [] {
      MenuOpenParity(events[..|events| - 1]);
    }
  }

  /** The navbar's inline background and backdrop blur (in px). */
  datatype NavbarStyle = NavbarStyle(background: string, blur: nat)

  const OpaqueNavbar: NavbarStyle := NavbarStyle("rgba(5, 5, 5, 0.8)", 20)
  const TransparentNavbar: NavbarStyle := NavbarStyle("transparent", 10)

  /** The style the scroll handler sets for a scroll offset. */
  function NavbarFor(scrollY: real): (r: NavbarStyle)
    ensures r == OpaqueNavbar <==> scrollY > 50.0
    ensures r == TransparentNavbar <==> scrollY <= 50.0
  {
    if scrollY > 50.0 then OpaqueNavbar else TransparentNavbar
  }

  /** Scrolling further down never turns an opaque navbar transparent. */
  lemma NavbarMonotone(y1: real, y2: real)
    requires y1 <= y2
    ensures NavbarFor(y1) == OpaqueNavbar ==> NavbarFor(y2) == OpaqueNavbar
    ensures NavbarFor(y2) == TransparentNavbar ==> NavbarFor(y1) == TransparentNavbar
  {
  }

  /** The page chrome: the menu classes and the navbar's inline style. */
  class PageChrome {
    /** Whether both the hamburger and the mobile menu exist, so the click handlers are attached. */
    const menuWired: bool
    var hamburgerActive: bool
    var mobileMenuActive: bool
    /** `None` while no scroll event has set an inline style. */
    var navbar: Option<NavbarStyle>

    function MenuState(): Menu
      reads this
    {
      Menu(hamburgerActive, mobileMenuActive)
    }

    constructor (menuWired: bool)
      ensures this.menuWired == menuWired
      ensures MenuState() == Menu(false, false) && navbar == None
    {
      this.menuWired := menuWired;
      hamburgerActive := false;
      mobileMenuActive := false;
      navbar := None;
    }

    method ClickHamburger()
      modifies this
      ensures MenuState() == if menuWired then MenuStep(old(MenuState()), HamburgerClick) else old(MenuState())
      ensures navbar == old(navbar)
    {
      if menuWired {
        hamburgerActive := !hamburgerActive;
        mobileMenuActive := !mobileMenuActive;
      }
    }

    method ClickMobileLink()
      modifies this
      ensures MenuState() == if menuWired then MenuStep(old(MenuState()), MobileLinkClick) else old(MenuState())
      ensures navbar == old(navbar)
    {
      if menuWired {
        hamburgerActive := false;
        mobileMenuActive := false;
      }
    }

    method Scroll(scrollY: real)
      modifies this
      ensures navbar == Some(NavbarFor(scrollY))
      ensures MenuState() == old(MenuState())
    {
      if scrollY > 50.0 {
        navbar := Some(OpaqueNavbar);
      } else {
        navbar := Some(TransparentNavbar);
      }
    }
  }
}
