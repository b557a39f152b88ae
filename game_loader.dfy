/** The state of the game embed (`GameController`) as a value, with one
    function per handler. The class in module GameEmbed runs these handlers
    in place; the lemmas here are about the handlers and about event traces.

    Timers are abstract: `armed` is the set of `setTimeout` handles that are
    scheduled and neither fired nor cancelled, `nextTimer` the next handle the
    platform hands out (browser handles are positive and never reused). */
module GameLoader {
  import opened Wrappers

  /** `maxRetries` and `loadTimeout`, hard-coded in the controller. */
  const MaxRetries: nat := 3
  const LoadTimeout: nat := 30000

  const WrapperMissing := "Game wrapper not found"
  const FrameMissing := "Game iframe not found"
  const ErrorPanelMissing := "Error message element not found"
  const CoverMissing := "Game cover not found"
  const StartButtonMissing := "Start button not found"

  /** The `.game-frame` iframe: its `data-src`, `src` and `style.visibility`. */
  datatype Frame = Frame(dataSrc: string, src: string, visibility: string)

  /** The `.error-message` panel: its `style.display`, and whether it holds a
      retry `button`. */
  datatype ErrorPanel = ErrorPanel(display: string, hasRetryButton: bool)

  /** The `.game-wrapper` element, inside which the iframe and the error panel
      are looked up. */
  datatype Wrapper = Wrapper(frame: Option<Frame>, errorPanel: Option<ErrorPanel>)

  /** The `.game-cover` element and its `data-visible` attribute. */
  datatype Cover = Cover(visible: string)

  /** What `document.querySelector` finds on the page. */
  datatype Page = Page(wrapper: Option<Wrapper>, cover: Option<Cover>, hasStartButton: bool)

  datatype Anchors = Anchors(frame: Frame, errorPanel: ErrorPanel, cover: Cover)

  /** `init`: the five elements, looked up in source order; the first one
      missing makes construction throw with its own message. */
  function LocateAnchors(p: Page): (r: Result<Anchors, string>)
    ensures r.Ok? <==>
      p.wrapper.Some? && p.wrapper.value.frame.Some? && p.wrapper.value.errorPanel.Some?
      && p.cover.Some? && p.hasStartButton
    ensures r.Ok? ==>
      r.value == Anchors(p.wrapper.value.frame.value, p.wrapper.value.errorPanel.value, p.cover.value)
    ensures p.wrapper.None? ==> r == Err(WrapperMissing)
    ensures p.wrapper.Some? && p.wrapper.value.frame.None? ==> r == Err(FrameMissing)
    ensures p.wrapper.Some? && p.wrapper.value.frame.Some? && p.wrapper.value.errorPanel.None?
      ==> r == Err(ErrorPanelMissing)
    ensures (p.wrapper.Some? && p.wrapper.value.frame.Some? && p.wrapper.value.errorPanel.Some?
             && p.cover.None?) ==> r == Err(CoverMissing)
    ensures (p.wrapper.Some? && p.wrapper.value.frame.Some? && p.wrapper.value.errorPanel.Some?
             && p.cover.Some? && !p.hasStartButton) ==> r == Err(StartButtonMissing)
  {
    match p.wrapper
    case None => Err(WrapperMissing)
    case Some(w) =>
      match w.frame
      case None => Err(FrameMissing)
      case Some(f) =>
        match w.errorPanel
        case None => Err(ErrorPanelMissing)
        case Some(e) =>
          match p.cover
          case None => Err(CoverMissing)
          case Some(c) =>
            if !p.hasStartButton then Err(StartButtonMissing) else Ok(Anchors(f, e, c))
  }

  datatype Loader = Loader(
    dataSrc: string,          // iframe.dataset.src ("" when absent)
    coverVisible: string,     // cover.dataset.visible
    frameVisibility: string,  // iframe.style.visibility
    frameSrc: string,         // iframe.src
    errorDisplay: string,     // error.style.display
    retryCount: nat,
    timeoutId: Option<nat>,   // null or the last handle stored
    armed: set<nat>,
    nextTimer: nat,
    hasRetryButton: bool)    // a retry button was found in the error panel

  /** Handles are positive, and every handle stored or armed was handed out. */
  ghost predicate Valid(l: Loader) {
    && l.nextTimer >= 1
    && (forall id | id in l.armed :: 0 < id < l.nextTimer)
    && (l.timeoutId.Some? ==> 0 < l.timeoutId.value < l.nextTimer)
  }

  /** Right after construction: `retryCount` is 0, no handle stored, nothing armed. */
  function Initial(a: Anchors): (l: Loader)
    ensures Valid(l)
    ensures l.retryCount == 0 && l.timeoutId == None && l.armed == {}
  {
    Loader(a.frame.dataSrc, a.cover.visible, a.frame.visibility, a.frame.src,
           a.errorPanel.display, 0, None, {}, 1, a.errorPanel.hasRetryButton)
  }

  /** `if (iframe.dataset.src) iframe.src = iframe.dataset.src` */
  function ReloadedSrc(l: Loader): string {
    if l.dataSrc != "" then l.dataSrc else l.frameSrc
  }

  /** `timeoutId = window.setTimeout(() => handleTimeout(), loadTimeout)` */
  function ArmTimeout(l: Loader): Loader {
    l.(timeoutId := Some(l.nextTimer), armed := l.armed + {l.nextTimer}, nextTimer := l.nextTimer + 1)
  }

  /** The armed set after `clearTimeout(timeoutId)` when a handle is stored. */
  function CancelStored(l: Loader): set<nat> {
    if l.timeoutId.Some? then l.armed - {l.timeoutId.value} else l.armed
  }

  /** `startGame`: hide the cover, show the iframe, load `data-src` when
      present, and arm exactly one new timeout. */
  function StartGame(l: Loader): (r: Loader)
    requires Valid(l)
    ensures Valid(r)
    ensures r.coverVisible == "false" && r.frameVisibility == "visible"
    ensures r.frameSrc == (if l.dataSrc != "" then l.dataSrc else l.frameSrc)
    ensures r.timeoutId.Some? && r.timeoutId.value !in l.armed
    ensures r.armed == l.armed + {r.timeoutId.value} && |r.armed| == |l.armed| + 1
    ensures r.retryCount == l.retryCount && r.errorDisplay == l.errorDisplay
    ensures r.dataSrc == l.dataSrc && r.hasRetryButton == l.hasRetryButton
  {
    ArmTimeout(l.(coverVisible := "false", frameVisibility := "visible", frameSrc := ReloadedSrc(l)))
  }

  /** `handleIframeLoad`: cancel the stored timeout and forget it; the retry
      count and what is shown do not change. */
  function HandleIframeLoad(l: Loader): (r: Loader)
    requires Valid(l)
    ensures Valid(r)
    ensures r.timeoutId == None && r.armed == CancelStored(l)
    ensures l.timeoutId.Some? ==> l.timeoutId.value !in r.armed
    ensures r.retryCount == l.retryCount && r.errorDisplay == l.errorDisplay
    ensures r.frameVisibility == l.frameVisibility && r.coverVisible == l.coverVisible
    ensures r.frameSrc == l.frameSrc && r.nextTimer == l.nextTimer
    ensures r.dataSrc == l.dataSrc && r.hasRetryButton == l.hasRetryButton
  {
    if l.timeoutId.Some? then l.(armed := l.armed - {l.timeoutId.value}, timeoutId := None) else l
  }

  /** `showError`: display the error panel and hide the iframe. */
  function ShowError(l: Loader): (r: Loader)
    requires Valid(l)
    ensures Valid(r)
    ensures r.errorDisplay == "block" && r.frameVisibility == "hidden"
    ensures r.armed == l.armed && r.timeoutId == l.timeoutId && r.retryCount == l.retryCount
    ensures r.frameSrc == l.frameSrc && r.coverVisible == l.coverVisible && r.nextTimer == l.nextTimer
    ensures r.dataSrc == l.dataSrc && r.hasRetryButton == l.hasRetryButton
  {
    l.(errorDisplay := "block", frameVisibility := "hidden")
  }

  /** `retry`: hide the error panel, show the iframe, reload `data-src` and
      arm a fresh timeout, at once (no delay, no use of a retry interval). */
  function Retry(l: Loader): (r: Loader)
    requires Valid(l)
    ensures Valid(r)
    ensures r.errorDisplay == "none" && r.frameVisibility == "visible"
    ensures r.frameSrc == ReloadedSrc(l)
    ensures r.timeoutId.Some? && r.timeoutId.value !in l.armed
    ensures r.armed == l.armed + {r.timeoutId.value}
    ensures r.retryCount == l.retryCount && r.coverVisible == l.coverVisible
    ensures r.dataSrc == l.dataSrc && r.hasRetryButton == l.hasRetryButton
  {
    ArmTimeout(l.(errorDisplay := "none", frameVisibility := "visible", frameSrc := ReloadedSrc(l)))
  }

  /** `handleError`: cancel the stored timeout (the handle itself stays
      stored), count the failure, then retry while the count is below
      `maxRetries` and show the error panel otherwise. */
  function HandleError(l: Loader): (r: Loader)
    requires Valid(l)
    ensures Valid(r)
    ensures r.retryCount == l.retryCount + 1
    ensures r.retryCount < MaxRetries ==>
      r.errorDisplay == "none" && r.frameVisibility == "visible"
      && r.timeoutId.Some? && r.armed == CancelStored(l) + {r.timeoutId.value}
      && r.timeoutId.value !in l.armed
      && r.frameSrc == ReloadedSrc(l) && r.coverVisible == l.coverVisible
      && r.nextTimer == l.nextTimer + 1
    ensures r.retryCount >= MaxRetries ==>
      r.errorDisplay == "block" && r.frameVisibility == "hidden"
      && r.armed == CancelStored(l) && r.nextTimer == l.nextTimer
      && r.timeoutId == l.timeoutId && r.frameSrc == l.frameSrc && r.coverVisible == l.coverVisible
    ensures r.dataSrc == l.dataSrc && r.hasRetryButton == l.hasRetryButton
  {
    var counted := l.(armed := CancelStored(l), retryCount := l.retryCount + 1);
    if counted.retryCount < MaxRetries then Retry(counted) else ShowError(counted)
  }

  /** `handleTimeout`: show the error panel directly; no retry is scheduled
      and the retry count does not change. */
  function HandleTimeout(l: Loader): (r: Loader)
    requires Valid(l)
    ensures Valid(r)
    ensures r.errorDisplay == "block" && r.frameVisibility == "hidden"
    ensures r.retryCount == l.retryCount && r.armed == l.armed && r.nextTimer == l.nextTimer
    ensures r.timeoutId == l.timeoutId && r.frameSrc == l.frameSrc && r.coverVisible == l.coverVisible
    ensures r.dataSrc == l.dataSrc && r.hasRetryButton == l.hasRetryButton
  {
    ShowError(l)
  }

  /** What reaches the controller: a click on the start button, the iframe's
      `load` and `error` events, a click on the panel's retry button (only
      possible when the panel has one), and a scheduled timeout firing. */
  datatype Event = StartClicked | FrameLoaded | FrameFailed | RetryClicked | TimerFired(id: nat)

  /** One event. A retry click reaches the controller only when the panel
      has a retry button, since only then is the listener attached. A timer
      fires only while armed; firing disarms it. */
  function Step(l: Loader, e: Event): (r: Loader)
    requires Valid(l)
    ensures Valid(r)
  {
    match e
    case StartClicked => StartGame(l)
    case FrameLoaded => HandleIframeLoad(l)
    case FrameFailed => HandleError(l)
    case RetryClicked => if l.hasRetryButton then Retry(l) else l
    case TimerFired(id) => if id in l.armed then HandleTimeout(l.(armed := l.armed - {id})) else l
  }

  function Run(l: Loader, es: seq<Event>): (r: Loader)
    requires Valid(l)
    ensures Valid(r)
    decreases |es|
  {
    if es == [] then l else Run(Step(l, es[0]), es[1..])
  }

  /** How many `error` events a trace holds. */
  function Failures(es: seq<Event>): nat
    decreases |es|
  {
    if es == [] then 0 else (if es[0] == FrameFailed then 1 else 0) + Failures(es[1..])
  }

  /** Only an `error` event changes the retry count, by exactly one: no
      handler resets it, not a successful load and not a manual retry. */
  lemma StepRetryCount(l: Loader, e: Event)
    requires Valid(l)
    ensures Step(l, e).retryCount == l.retryCount + (if e == FrameFailed then 1 else 0)
  {
  }

  lemma {:induction false} RunRetryCount(l: Loader, es: seq<Event>)
    requires Valid(l)
    ensures Run(l, es).retryCount == l.retryCount + Failures(es)
    decreases |es|
  {
    if es != [] {
      StepRetryCount(l, es[0]);
      RunRetryCount(Step(l, es[0]), es[1..]);
    }
  }

  /** The retry count never decreases along any trace. */
  lemma RetryCountNeverDecreases(l: Loader, es: seq<Event>)
    requires Valid(l)
    ensures Run(l, es).retryCount >= l.retryCount
  {
    RunRetryCount(l, es);
  }

  /** From a fresh controller, the first two `error` events retry without
      showing the panel and the third shows it. */
  lemma ThirdFailureShowsPanel(a: Anchors)
    ensures var l1 := Run(Initial(a), [StartClicked, FrameFailed]);
            l1.errorDisplay == "none" && l1.frameVisibility == "visible" && l1.retryCount == 1
    ensures var l2 := Run(Initial(a), [StartClicked, FrameFailed, FrameFailed]);
            l2.errorDisplay == "none" && l2.frameVisibility == "visible" && l2.retryCount == 2
    ensures var l3 := Run(Initial(a), [StartClicked, FrameFailed, FrameFailed, FrameFailed]);
            l3.errorDisplay == "block" && l3.frameVisibility == "hidden" && l3.retryCount == 3
  {
    var l0 := StartGame(Initial(a));
    assert Run(Initial(a), [StartClicked, FrameFailed]) == HandleError(l0);
    assert Run(Initial(a), [StartClicked, FrameFailed, FrameFailed]) == HandleError(HandleError(l0));
    assert Run(Initial(a), [StartClicked, FrameFailed, FrameFailed, FrameFailed])
      == HandleError(HandleError(HandleError(l0)));
  }

  lemma {:induction false} RunAppend(l: Loader, es: seq<Event>, e: Event)
    requires Valid(l)
    ensures Run(l, es + [e]) == Step(Run(l, es), e)
    decreases |es|
  {
    if es != [] {
      assert (es + [e])[1..] == es[1..] + [e];
      RunAppend(Step(l, es[0]), es[1..], e);
    } else {
      assert [e][1..] == [];
    }
  }

  /** Once two failures have been counted, every later `error` event shows
      the panel at once, whatever happened in between (loads, manual
      retries, timeouts): the automatic retries are used up for good. */
  lemma RetriesStayExhausted(l: Loader, es: seq<Event>)
    requires Valid(l) && l.retryCount >= MaxRetries - 1
    ensures Run(l, es + [FrameFailed]).errorDisplay == "block"
    ensures Run(l, es + [FrameFailed]).frameVisibility == "hidden"
  {
    RunAppend(l, es, FrameFailed);
    RunRetryCount(l, es);
  }

  /** The stored handle is the only one that can be armed. */
  ghost predicate SingleTimer(l: Loader) {
    l.armed <= (if l.timeoutId.Some? then {l.timeoutId.value} else {})
  }

  lemma SingleTimerAtMostOne(l: Loader)
    requires SingleTimer(l)
    ensures |l.armed| <= 1
  {
    if l.timeoutId.Some? {
      assert l.armed <= {l.timeoutId.value};
      SubsetSize(l.armed, {l.timeoutId.value});
    }
  }

  lemma SubsetSize(a: set<nat>, b: set<nat>)
    requires a <= b
    ensures |a| <= |b|
  {
    assert b == a + (b - a);
  }

  /** Loads, errors and timeouts keep at most one timer armed; a start click
      and a manual retry do so when no timer is armed at that moment, since
      neither cancels the stored one before arming another. */
  lemma StepKeepsSingleTimer(l: Loader, e: Event)
    requires Valid(l) && SingleTimer(l)
    requires e == StartClicked || e == RetryClicked ==> l.armed == {}
    ensures SingleTimer(Step(l, e))
  {
    match e
    case TimerFired(id) =>
      if id in l.armed {
        assert l.armed - {id} == {};
      }
    case _ =>
  }

  /** When the panel is shown by an `error` event or by a timeout, no timer
      is left armed: nothing will fire afterwards. */
  lemma PanelShownLeavesNoTimer(l: Loader, e: Event)
    requires Valid(l) && SingleTimer(l)
    requires e == FrameFailed || e.TimerFired?
    requires Step(l, e).errorDisplay == "block" && l.errorDisplay != "block"
    ensures Step(l, e).armed == {}
  {
    if e.TimerFired? {
      assert e.id in l.armed;
      assert l.armed - {e.id} == {};
    }
  }

  /** Two clicks on the start button leave two timers armed: the "at most one
      outstanding timeout" rule is kept by the page hiding the start button,
      not by the controller. */
  lemma DoubleStartArmsTwoTimers(a: Anchors)
    ensures |Run(Initial(a), [StartClicked, StartClicked]).armed| == 2
  {
    var l := Run(Initial(a), [StartClicked, StartClicked]);
    assert l == StartGame(StartGame(Initial(a)));
    assert l.armed == {1, 2};
  }

  /** A timeout shows the panel without counting a failure: after a timeout,
      manual retry and second timeout the count is still 0. */
  lemma TimeoutsAreNotCounted(a: Anchors)
    ensures Run(Initial(a), [StartClicked, TimerFired(1), RetryClicked, TimerFired(2)]).retryCount == 0
    ensures Run(Initial(a), [StartClicked, TimerFired(1), RetryClicked, TimerFired(2)]).errorDisplay == "block"
  {
    var l1 := StartGame(Initial(a));
    assert 1 in l1.armed;
    var l2 := HandleTimeout(l1.(armed := l1.armed - {1}));
    var l3 := Step(l2, RetryClicked);
    if l2.hasRetryButton {
      assert 2 in l3.armed;
    } else {
      assert l3.armed == {};
    }
    assert Run(Initial(a), [StartClicked, TimerFired(1), RetryClicked, TimerFired(2)])
      == Step(l3, TimerFired(2));
  }
}
