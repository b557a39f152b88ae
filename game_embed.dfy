/** `GameController` as a class: the fields its handlers update in place. Each
    handler is proved to act as the matching function of GameLoader, where the
    properties of the handlers and of event traces are proved. */
module GameEmbed {
  import opened Wrappers
  import opened GameLoader

  class GameController {
    const maxRetries: nat
    const loadTimeout: nat
    /** `iframe.dataset.src`; the controller never writes it. */
    const dataSrc: string
    /** Whether a retry `button` was found inside the error panel. */
    const hasRetryButton: bool

    var coverVisible: string
    var frameVisibility: string
    var frameSrc: string
    var errorDisplay: string
    var retryCount: nat
    var timeoutId: Option<nat>
    /** The platform's scheduled, not yet fired or cleared, timeouts. */
    var armed: set<nat>
    var nextTimer: nat

    function Snapshot(): Loader
      reads this
    {
      Loader(dataSrc, coverVisible, frameVisibility, frameSrc, errorDisplay,
             retryCount, timeoutId, armed, nextTimer, hasRetryButton)
    }

    ghost predicate Valid()
      reads this
    {
      GameLoader.Valid(Snapshot()) && maxRetries == MaxRetries && loadTimeout == LoadTimeout
    }

    /** The controller over the elements `init` found. */
    constructor (a: Anchors)
      ensures Valid() && Snapshot() == Initial(a)
      ensures hasRetryButton == a.errorPanel.hasRetryButton
    {
      maxRetries := MaxRetries;
      loadTimeout := LoadTimeout;
      dataSrc := a.frame.dataSrc;
      hasRetryButton := a.errorPanel.hasRetryButton;
      coverVisible := a.cover.visible;
      frameVisibility := a.frame.visibility;
      frameSrc := a.frame.src;
      errorDisplay := a.errorPanel.display;
      retryCount := 0;
      timeoutId := None;
      armed := {};
      nextTimer := 1;
    }

    /** `new GameController()`: throws with the first missing element's message. */
    static method Create(p: Page) returns (r: Result<GameController, string>)
      ensures LocateAnchors(p).Err? ==> r.Err? && r.error == LocateAnchors(p).error
      ensures LocateAnchors(p).Ok? ==>
        r.Ok? && fresh(r.value) && r.value.Valid() && r.value.Snapshot() == Initial(LocateAnchors(p).value)
    {
      var anchors := LocateAnchors(p);
      if anchors.Err? {
        return Err(anchors.error);
      }
      var c := new GameController(anchors.value);
      return Ok(c);
    }

    method ArmTimeout()
      requires Valid()
      modifies this
      ensures Valid() && Snapshot() == GameLoader.ArmTimeout(old(Snapshot()))
    {
      timeoutId := Some(nextTimer);
      armed := armed + {nextTimer};
      nextTimer := nextTimer + 1;
    }

    method StartGame()
      requires Valid()
      modifies this
      ensures Valid() && Snapshot() == GameLoader.StartGame(old(Snapshot()))
    {
      coverVisible := "false";
      frameVisibility := "visible";
      if dataSrc != "" {
        frameSrc := dataSrc;
      }
      ArmTimeout();
    }

    method HandleIframeLoad()
      requires Valid()
      modifies this
      ensures Valid() && Snapshot() == GameLoader.HandleIframeLoad(old(Snapshot()))
    {
      if timeoutId.Some? {
        armed := armed - {timeoutId.value};
        timeoutId := None;
      }
    }

    method HandleError()
      requires Valid()
      modifies this
      ensures Valid() && Snapshot() == GameLoader.HandleError(old(Snapshot()))
    {
      if timeoutId.Some? {
        armed := armed - {timeoutId.value};
      }
      retryCount := retryCount + 1;
      if retryCount < maxRetries {
        Retry();
      } else {
        ShowError();
      }
    }

    method HandleTimeout()
      requires Valid()
      modifies this
      ensures Valid() && Snapshot() == GameLoader.HandleTimeout(old(Snapshot()))
    {
      ShowError();
    }

    method Retry()
      requires Valid()
      modifies this
      ensures Valid() && Snapshot() == GameLoader.Retry(old(Snapshot()))
    {
      errorDisplay := "none";
      frameVisibility := "visible";
      if dataSrc != "" {
        frameSrc := dataSrc;
      }
      ArmTimeout();
    }

    method ShowError()
      requires Valid()
      modifies this
      ensures Valid() && Snapshot() == GameLoader.ShowError(old(Snapshot()))
    {
      errorDisplay := "block";
      frameVisibility := "hidden";
    }

    /** The platform runs the callback of timeout `id`, if it is still armed. */
    method TimerFires(id: nat)
      requires Valid()
      modifies this
      ensures Valid() && Snapshot() == Step(old(Snapshot()), TimerFired(id))
    {
      if id in armed {
        armed := armed - {id};
        HandleTimeout();
      }
    }
  }
}
