/** The keyboard and pointer state machine of
    `src/components/ui/LanguageSelectorClient.tsx`: whether the menu is open
    and which option is active (-1 for none). Rendering, focus moves and the
    browser's navigation are not modelled; a navigation is returned as the
    path the component assigns to `window.location.href`. */
module LanguageSelector {
  import opened Wrappers

  /** One entry of `languageOptions`, in the order `Object.entries` gives. */
  datatype LanguageOption = LanguageOption(langCode: string, name: string, locale: string)

  /** `languageOptions`: the `languages` record's entries as options. The
      record is given as its entries, key and value. */
  function LanguageOptions(languages: seq<(string, (string, string))>): (r: seq<LanguageOption>)
    ensures |r| == |languages|
    ensures forall i | 0 <= i < |r| :: r[i].langCode == languages[i].0 && r[i].name == languages[i].1.0
                                        && r[i].locale == languages[i].1.1
  {
    seq(|languages|, i requires 0 <= i < |languages| =>
      LanguageOption(languages[i].0, languages[i].1.0, languages[i].1.1))
  }

  datatype State = State(isOpen: bool, activeIndex: int)

  /** The state after mounting: closed, nothing active. */
  const Initial: State := State(false, -1)

  /** The closed state Escape, an outside click and a closing toggle leave. */
  const Closed: State := State(false, -1)

  /** The active index is -1 or an option's index, and a closed menu has no
      active option. */
  predicate Valid(s: State, n: nat) {
    -1 <= s.activeIndex <= n - 1 && (!s.isOpen ==> s.activeIndex == -1)
  }

  /** The effect of a key press on the button or the menu: the new state,
      whether `preventDefault` was called, and the path navigated to, if any. */
  datatype KeyResult = KeyResult(state: State, prevented: bool, navigate: Option<string>)

  predicate IsActivation(key: string) {
    key == "Enter" || key == " "
  }

  /** ArrowDown's update: the next index, wrapping from the last to 0. */
  function Next(i: int, n: nat): int {
    if i < n - 1 then i + 1 else 0
  }

  /** ArrowUp's update: the previous index, wrapping from 0 (or -1) to the
      last. */
  function Previous(i: int, n: nat): int {
    if i > 0 then i - 1 else n - 1
  }

  /** Where activating option `i` leads: the option's path, when the index
      is an option's and its language code is not empty. */
  function Destination(i: int, options: seq<LanguageOption>, paths: string -> string): (r: Option<string>)
    ensures r.Some? <==> 0 <= i < |options| && options[i].langCode != ""
    ensures r.Some? ==> r.value == paths(options[i].langCode)
  {
    if 0 <= i < |options| && options[i].langCode != "" then Some(paths(options[i].langCode)) else None
  }

  /** `handleKeyDown`, read over the current state. */
  function KeyDown(s: State, key: string, options: seq<LanguageOption>, paths: string -> string): (r: KeyResult)
    ensures r.navigate.Some? ==> s.isOpen && IsActivation(key)
    ensures !s.isOpen ==> r.navigate == None && (r.prevented <==> IsActivation(key))
    ensures s.isOpen ==> r.state.isOpen
    ensures |options| >= 1 && Valid(s, |options|) ==> Valid(r.state, |options|)
  {
    var n := |options|;
    if !s.isOpen && IsActivation(key) then KeyResult(State(true, 0), true, None)
    else if !s.isOpen then KeyResult(s, false, None)
    else if key == "ArrowDown" then KeyResult(s.(activeIndex := Next(s.activeIndex, n)), true, None)
    else if key == "ArrowUp" then KeyResult(s.(activeIndex := Previous(s.activeIndex, n)), true, None)
    else if key == "Home" then KeyResult(s.(activeIndex := 0), true, None)
    else if key == "End" then KeyResult(s.(activeIndex := n - 1), true, None)
    else if IsActivation(key) then KeyResult(s, true, Destination(s.activeIndex, options, paths))
    else KeyResult(s, false, None)
  }

  /** `handleEscKey`, which listens on the document only while the menu is
      open. */
  function EscKey(s: State, key: string): (r: State)
    ensures !s.isOpen || key != "Escape" ==> r == s
    ensures s.isOpen && key == "Escape" ==> !r.isOpen && r.activeIndex == -1
  {
    if s.isOpen && key == "Escape" then Closed else s
  }

  /** `handleClickOutside`, which listens only while the menu is open; a
      click inside the container changes nothing. */
  function ClickOutside(s: State, inside: bool): (r: State)
    ensures !s.isOpen || inside ==> r == s
    ensures s.isOpen && !inside ==> !r.isOpen && r.activeIndex == -1
  {
    if s.isOpen && !inside then Closed else s
  }

  /** `toggleMenu` */
  function ToggleMenu(s: State): (r: State)
    ensures r.isOpen == !s.isOpen && r.activeIndex == -1
  {
    State(!s.isOpen, -1)
  }

  /** On a closed menu, Enter or Space opens it on the first option; any
      other key does nothing and leaves the default alone. */
  lemma ClosedKeys(s: State, key: string, options: seq<LanguageOption>, paths: string -> string)
    requires !s.isOpen
    ensures IsActivation(key) ==> KeyDown(s, key, options, paths) == KeyResult(State(true, 0), true, None)
    ensures !IsActivation(key) ==> KeyDown(s, key, options, paths) == KeyResult(s, false, None)
  {
  }

  /** The arrows wrap around and are each other's inverse on an option's
      index. */
  lemma ArrowsWrap(i: int, n: nat)
    requires 0 <= i < n
    ensures Next(n - 1, n) == 0 && Previous(0, n) == n - 1 && Previous(-1, n) == n - 1
    ensures Previous(Next(i, n), n) == i
    ensures Next(Previous(i, n), n) == i
  {
  }

  /** Open-menu activation navigates exactly when the active index is an
      option's (with a non-empty code), and to that option's path. */
  lemma ActivationNavigates(s: State, key: string, options: seq<LanguageOption>, paths: string -> string)
    requires s.isOpen && IsActivation(key)
    ensures KeyDown(s, key, options, paths).prevented
    ensures KeyDown(s, key, options, paths).state == s
    ensures KeyDown(s, key, options, paths).navigate.Some?
        <==> 0 <= s.activeIndex < |options| && options[s.activeIndex].langCode != ""
    ensures KeyDown(s, key, options, paths).navigate.Some?
        ==> KeyDown(s, key, options, paths).navigate.value == paths(options[s.activeIndex].langCode)
  {
  }

  /** Only an activation key navigates. */
  lemma OnlyActivationNavigates(s: State, key: string, options: seq<LanguageOption>, paths: string -> string)
    requires KeyDown(s, key, options, paths).navigate.Some?
    ensures s.isOpen && IsActivation(key)
  {
  }

  /** Escape, an outside click and `toggleMenu` all clear the active option;
      the first two close an open menu, the toggle flips it. */
  lemma ClosingResets(s: State, key: string, inside: bool)
    requires s.isOpen
    ensures EscKey(s, "Escape") == Closed
    ensures !inside ==> ClickOutside(s, inside) == Closed
    ensures inside ==> ClickOutside(s, inside) == s
    ensures ToggleMenu(s) == Closed && ToggleMenu(ToggleMenu(s)) == State(true, -1)
  {
  }

  /** With at least one option every handler keeps the active index within
      -1 and the last index, and a closed menu without an active option. */
  lemma HandlersKeepValid(s: State, key: string, inside: bool, options: seq<LanguageOption>, paths: string -> string)
    requires |options| >= 1 && Valid(s, |options|)
    ensures Valid(KeyDown(s, key, options, paths).state, |options|)
    ensures Valid(EscKey(s, key), |options|)
    ensures Valid(ClickOutside(s, inside), |options|)
    ensures Valid(ToggleMenu(s), |options|)
  {
  }

  /** Without options the invariant does not hold: ArrowDown on an open menu
      makes index 0 active although there is no option 0. */
  lemma NoOptionsBreaksRange(paths: string -> string)
    ensures KeyDown(State(true, -1), "ArrowDown", [], paths).state.activeIndex == 0
    ensures !Valid(KeyDown(State(true, -1), "ArrowDown", [], paths).state, 0)
  {
  }

  // ---------------------------------------------------------------------
  // The handler as written

  /** `handleKeyDown` is memoised on `isOpen`, `languageOptions` and `paths`
      only, so the `activeIndex` it reads in its Enter/Space branch is the
      one of the render at which `isOpen` last changed (`captured`); its
      arrow updates go through the state setter and see the current index. */
  function KeyDownAsWritten(s: State, captured: int, key: string, options: seq<LanguageOption>, paths: string -> string): (r: KeyResult)
    ensures !(s.isOpen && IsActivation(key)) ==> r == KeyDown(s, key, options, paths)
    ensures s.isOpen && IsActivation(key) ==> r == KeyResult(s, true, Destination(captured, options, paths))
  {
    if s.isOpen && IsActivation(key) then KeyResult(s, true, Destination(captured, options, paths))
    else KeyDown(s, key, options, paths)
  }

  /** Opening the menu with a click and choosing the first option with
      ArrowDown and Enter navigates nowhere as written, since the handler
      still sees the index -1 that `toggleMenu` set; read over the current
      state the same keys lead to the first option's path. */
  lemma StaleIndexIgnoresArrows(options: seq<LanguageOption>, paths: string -> string)
    requires |options| >= 1 && options[0].langCode != ""
    ensures var shown := ToggleMenu(Initial);
            var moved := KeyDown(shown, "ArrowDown", options, paths).state;
            moved.activeIndex == 0
            && KeyDownAsWritten(moved, shown.activeIndex, "Enter", options, paths).navigate == None
            && KeyDown(moved, "Enter", options, paths).navigate == Some(paths(options[0].langCode))
  {
  }

  // ---------------------------------------------------------------------
  // The component

  class Selector {
    var isOpen: bool
    var activeIndex: int
    const options: seq<LanguageOption>
    const paths: string -> string

    function Snapshot(): State
      reads this
    {
      State(isOpen, activeIndex)
    }

    constructor(languages: seq<(string, (string, string))>, paths: string -> string)
      ensures Snapshot() == Initial
      ensures options == LanguageOptions(languages) && this.paths == paths
    {
      isOpen, activeIndex := false, -1;
      options := LanguageOptions(languages);
      this.paths := paths;
    }

    method HandleKeyDown(key: string) returns (prevented: bool, navigate: Option<string>)
      modifies this
      ensures KeyResult(Snapshot(), prevented, navigate) == KeyDown(old(Snapshot()), key, options, paths)
    {
      prevented, navigate := false, None;
      if !isOpen && (key == "Enter" || key == " ") {
        prevented := true;
        isOpen, activeIndex := true, 0;
        return;
      }
      if !isOpen {
        return;
      }
      if key == "ArrowDown" {
        prevented := true;
        activeIndex := if activeIndex < |options| - 1 then activeIndex + 1 else 0;
      } else if key == "ArrowUp" {
        prevented := true;
        activeIndex := if activeIndex > 0 then activeIndex - 1 else |options| - 1;
      } else if key == "Home" {
        prevented := true;
        activeIndex := 0;
      } else if key == "End" {
        prevented := true;
        activeIndex := |options| - 1;
      } else if key == "Enter" || key == " " {
        prevented := true;
        if activeIndex >= 0 && activeIndex < |options| {
          var option := options[activeIndex];
          if option.langCode != "" {
            navigate := Some(paths(option.langCode));
          }
        }
      }
    }

    method HandleEscKey(key: string)
      modifies this
      ensures Snapshot() == EscKey(old(Snapshot()), key)
    {
      if isOpen && key == "Escape" {
        isOpen, activeIndex := false, -1;
      }
    }

    method HandleClickOutside(inside: bool)
      modifies this
      ensures Snapshot() == ClickOutside(old(Snapshot()), inside)
    {
      if isOpen && !inside {
        isOpen, activeIndex := false, -1;
      }
    }

    method Toggle()
      modifies this
      ensures Snapshot() == ToggleMenu(old(Snapshot()))
    {
      isOpen := !isOpen;
      activeIndex := -1;
    }
  }
}
