/** The visibility and preference logic of
    `src/components/ui/orientation/OrientationNoticeClient.tsx`. Local
    storage is a map from key to value; the device orientation is given at
    each update ("portrait" or "landscape", as `getDeviceOrientation`
    reports it). The screen lock's outcome does not matter to the notice and
    is not modelled. */
module OrientationNotice {
  import opened Wrappers

  const PreferenceKey: string := "game-orientation-preference"
  const RememberKey: string := "remember-orientation-choice"

  type Storage = map<string, string>

  /** `isVisible`, `rememberChoice`, local storage, and whether the mount
      effect found a remembered "continue" (its `shouldRemember &&
      savedPreference === "continue"`, which the orientation listener keeps
      seeing). */
  datatype NoticeState = NoticeState(isVisible: bool, rememberChoice: bool, storage: Storage, suppressed: bool)

  predicate StoredIs(st: Storage, key: string, value: string) {
    key in st && st[key] == value
  }

  /** The first render: visible, nothing remembered. */
  function Initial(st: Storage): (r: NoticeState)
    ensures r.isVisible && !r.rememberChoice && r.storage == st
  {
    NoticeState(true, false, st, false)
  }

  /** `updateOrientation` */
  function Update(s: NoticeState, orientation: string): (r: NoticeState)
    ensures s.suppressed ==> r == s
    ensures !s.suppressed ==> (Rendered(r) <==> orientation == "portrait")
    ensures r.storage == s.storage && r.rememberChoice == s.rememberChoice && r.suppressed == s.suppressed
  {
    if s.suppressed then s else s.(isVisible := orientation == "portrait")
  }

  /** The mount effect: read the stored preference, hide the notice if the
      user chose to continue and asked to have that remembered, then run the
      first orientation update. */
  function Mount(s: NoticeState, orientation: string): (r: NoticeState)
    ensures r.suppressed <==> StoredIs(s.storage, RememberKey, "true") && StoredIs(s.storage, PreferenceKey, "continue")
    ensures r.suppressed ==> !Rendered(r)
    ensures !r.suppressed ==> (Rendered(r) <==> orientation == "portrait")
    ensures r.storage == s.storage && r.rememberChoice == s.rememberChoice
  {
    var suppressed := StoredIs(s.storage, RememberKey, "true") && StoredIs(s.storage, PreferenceKey, "continue");
    var t := s.(suppressed := suppressed, isVisible := if suppressed then false else s.isVisible);
    Update(t, orientation)
  }

  /** Storage after a choice: the preference and the remember flag when
      `rememberChoice` is set, unchanged otherwise. */
  function Remembered(s: NoticeState, preference: string): Storage {
    if s.rememberChoice then s.storage[PreferenceKey := preference][RememberKey := "true"] else s.storage
  }

  /** `handleContinue` */
  function Continue(s: NoticeState): (r: NoticeState)
    ensures !Rendered(r) && r.rememberChoice == s.rememberChoice && r.suppressed == s.suppressed
    ensures s.rememberChoice ==> StoredIs(r.storage, PreferenceKey, "continue") && StoredIs(r.storage, RememberKey, "true")
    ensures !s.rememberChoice ==> r.storage == s.storage
    ensures forall k | k != PreferenceKey && k != RememberKey :: (k in r.storage <==> k in s.storage)
    ensures forall k | k != PreferenceKey && k != RememberKey && k in s.storage :: r.storage[k] == s.storage[k]
  {
    s.(storage := Remembered(s, "continue"), isVisible := false)
  }

  /** `handleRotate`, after the screen lock has settled either way. */
  function Rotate(s: NoticeState): (r: NoticeState)
    ensures !Rendered(r) && r.rememberChoice == s.rememberChoice && r.suppressed == s.suppressed
    ensures s.rememberChoice ==> StoredIs(r.storage, PreferenceKey, "rotate") && StoredIs(r.storage, RememberKey, "true")
    ensures !s.rememberChoice ==> r.storage == s.storage
    ensures forall k | k != PreferenceKey && k != RememberKey :: (k in r.storage <==> k in s.storage)
    ensures forall k | k != PreferenceKey && k != RememberKey && k in s.storage :: r.storage[k] == s.storage[k]
  {
    s.(storage := Remembered(s, "rotate"), isVisible := false)
  }

  /** `handleRememberChange` */
  function RememberChange(s: NoticeState, checked: bool): NoticeState {
    s.(rememberChoice := checked)
  }

  /** The orientation updates of a session. */
  function UpdateAll(s: NoticeState, orientations: seq<string>): NoticeState
    decreases |orientations|
  {
    if orientations == [] then s else UpdateAll(Update(s, orientations[0]), orientations[1..])
  }

  /** The component renders only while visible. */
  predicate Rendered(s: NoticeState) {
    s.isVisible
  }

  /** A remembered "continue" hides the notice at mount, and it stays hidden
      through every later orientation change. */
  lemma RememberedContinueStaysHidden(st: Storage, orientation: string, later: seq<string>)
    requires StoredIs(st, RememberKey, "true") && StoredIs(st, PreferenceKey, "continue")
    ensures !Rendered(UpdateAll(Mount(Initial(st), orientation), later))
  {
    var m := Mount(Initial(st), orientation);
    assert m.suppressed && !m.isVisible;
    SuppressedUpdates(m, later);
  }

  lemma {:induction false} SuppressedUpdates(s: NoticeState, later: seq<string>)
    requires s.suppressed
    ensures UpdateAll(s, later) == s
    decreases |later|
  {
    if later != [] {
      SuppressedUpdates(Update(s, later[0]), later[1..]);
    }
  }

  /** Without a remembered "continue" (a remembered "rotate" included), each
      update shows the notice exactly in portrait. */
  lemma VisibleFollowsOrientation(st: Storage, orientation: string, next: string)
    requires !(StoredIs(st, RememberKey, "true") && StoredIs(st, PreferenceKey, "continue"))
    ensures Rendered(Mount(Initial(st), orientation)) <==> orientation == "portrait"
    ensures Rendered(Update(Mount(Initial(st), orientation), next)) <==> next == "portrait"
  {
  }

  /** Both choices hide the notice; with `rememberChoice` set they store the
      preference and the remember flag, and otherwise storage is untouched. */
  lemma ChoicesHideAndStore(s: NoticeState)
    ensures !Rendered(Continue(s)) && !Rendered(Rotate(s))
    ensures s.rememberChoice ==> StoredIs(Continue(s).storage, PreferenceKey, "continue")
                                 && StoredIs(Continue(s).storage, RememberKey, "true")
                                 && StoredIs(Rotate(s).storage, PreferenceKey, "rotate")
                                 && StoredIs(Rotate(s).storage, RememberKey, "true")
    ensures !s.rememberChoice ==> Continue(s).storage == s.storage && Rotate(s).storage == s.storage
    ensures forall k | k != PreferenceKey && k != RememberKey && k in s.storage ::
      k in Continue(s).storage && Continue(s).storage[k] == s.storage[k]
  {
  }

  /** The preference survives to the next visit: after a remembered
      "continue" the next mount keeps the notice hidden whatever the
      orientation; after a remembered "rotate" it shows in portrait again. */
  lemma NextVisit(s: NoticeState, orientation: string)
    requires s.rememberChoice
    ensures !Rendered(Mount(Initial(Continue(s).storage), orientation))
    ensures Rendered(Mount(Initial(Rotate(s).storage), orientation)) <==> orientation == "portrait"
  {
    assert StoredIs(Rotate(s).storage, PreferenceKey, "rotate");
  }

  /** The mounted component. */
  class Notice {
    var isVisible: bool
    var rememberChoice: bool
    var storage: Storage
    var suppressed: bool

    function Snapshot(): NoticeState
      reads this
    {
      NoticeState(isVisible, rememberChoice, storage, suppressed)
    }

    constructor(st: Storage)
      ensures Snapshot() == Initial(st)
    {
      isVisible, rememberChoice, storage, suppressed := true, false, st, false;
    }

    method UpdateOrientation(orientation: string)
      modifies this
      ensures Snapshot() == Update(old(Snapshot()), orientation)
    {
      if !suppressed {
        isVisible := orientation == "portrait";
      }
    }

    method OnMount(orientation: string)
      modifies this
      ensures Snapshot() == Mount(old(Snapshot()), orientation)
    {
      var savedPreference: Option<string> := if PreferenceKey in storage then Some(storage[PreferenceKey]) else None;
      var shouldRemember := RememberKey in storage && storage[RememberKey] == "true";
      suppressed := shouldRemember && savedPreference == Some("continue");
      if suppressed {
        isVisible := false;
      }
      UpdateOrientation(orientation);
    }

    method StoreChoice(preference: string)
      modifies this
      ensures Snapshot() == old(Snapshot()).(storage := Remembered(old(Snapshot()), preference))
    {
      if rememberChoice {
        storage := storage[PreferenceKey := preference];
        storage := storage[RememberKey := "true"];
      }
    }

    method HandleContinue()
      modifies this
      ensures Snapshot() == Continue(old(Snapshot()))
    {
      StoreChoice("continue");
      isVisible := false;
    }

    method HandleRotate()
      modifies this
      ensures Snapshot() == Rotate(old(Snapshot()))
    {
      StoreChoice("rotate");
      isVisible := false;
    }

    method HandleRememberChange(checked: bool)
      modifies this
      ensures Snapshot() == RememberChange(old(Snapshot()), checked)
    {
      rememberChoice := checked;
    }
  }
}
