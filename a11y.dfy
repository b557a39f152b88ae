/** The accessibility helpers of `src/utils/a11y.ts`. An element is its
    attribute map, its `style.display` and its `textContent` (the class
    `Element`, described by the value `ElementState`); the closures that the
    `manage*` factories return are methods of `Element`, each proved to
    change the element as a function on `ElementState` says. Focus is the
    document's active element, given and returned as a value. */
module A11y {
  import opened Wrappers

  // ---------------------------------------------------------------------
  // The element as a value

  datatype ElementState = ElementState(attributes: map<string, string>, display: string, text: string)

  /** `getAttribute(name) === value` */
  predicate AttrIs(s: ElementState, name: string, value: string) {
    name in s.attributes && s.attributes[name] == value
  }

  function SetAttr(s: ElementState, name: string, value: string): (r: ElementState)
    ensures AttrIs(r, name, value)
    ensures forall k :: k != name ==> (k in r.attributes <==> k in s.attributes)
    ensures forall k | k != name && k in s.attributes :: r.attributes[k] == s.attributes[k]
    ensures r.display == s.display && r.text == s.text
  {
    s.(attributes := s.attributes[name := value])
  }

  function RemoveAttr(s: ElementState, name: string): (r: ElementState)
    ensures name !in r.attributes
    ensures forall k :: k != name ==> (k in r.attributes <==> k in s.attributes)
    ensures forall k | k != name && k in s.attributes :: r.attributes[k] == s.attributes[k]
    ensures r.display == s.display && r.text == s.text
  {
    s.(attributes := s.attributes - {name})
  }

  /** `true.toString()` and `false.toString()` */
  function BoolString(b: bool): string {
    if b then "true" else "false"
  }

  // ---------------------------------------------------------------------
  // validateElement

  const NullElement: string := "元素不能为空"

  // ---------------------------------------------------------------------
  // manageVisibility

  const AriaHidden: string := "aria-hidden"

  /** `isHidden` */
  predicate IsHidden(s: ElementState) {
    AttrIs(s, AriaHidden, "true")
  }

  /** `hide` */
  function Hidden(s: ElementState): (r: ElementState)
    ensures IsHidden(r) && r.display == "none"
    ensures forall k :: k != AriaHidden ==> (k in r.attributes <==> k in s.attributes)
    ensures forall k | k != AriaHidden && k in s.attributes :: r.attributes[k] == s.attributes[k]
    ensures r.text == s.text
  {
    SetAttr(s, AriaHidden, "true").(display := "none")
  }

  /** `show` */
  function Shown(s: ElementState): (r: ElementState)
    ensures !IsHidden(r) && AttrIs(r, AriaHidden, "false") && r.display == ""
    ensures forall k :: k != AriaHidden ==> (k in r.attributes <==> k in s.attributes)
    ensures forall k | k != AriaHidden && k in s.attributes :: r.attributes[k] == s.attributes[k]
    ensures r.text == s.text
  {
    SetAttr(s, AriaHidden, "false").(display := "")
  }

  /** `toggle` */
  function Toggled(s: ElementState): (r: ElementState)
    ensures IsHidden(r) == !IsHidden(s)
    ensures Consistent(r)
    ensures forall k :: k != AriaHidden ==> (k in r.attributes <==> k in s.attributes)
    ensures forall k | k != AriaHidden && k in s.attributes :: r.attributes[k] == s.attributes[k]
    ensures r.text == s.text
  {
    if IsHidden(s) then Shown(s) else Hidden(s)
  }

  /** An element whose `aria-hidden` and display agree, as `hide` and `show`
      leave it. */
  predicate Consistent(s: ElementState) {
    (AttrIs(s, AriaHidden, "true") && s.display == "none")
    || (AttrIs(s, AriaHidden, "false") && s.display == "")
  }

  /** `hide` makes `isHidden` hold and hides the element; `show` makes it
      fail and clears the display; both leave a consistent element and touch
      no other attribute. */
  lemma HideShow(s: ElementState)
    ensures IsHidden(Hidden(s)) && Hidden(s).display == "none" && Consistent(Hidden(s))
    ensures !IsHidden(Shown(s)) && Shown(s).display == "" && Consistent(Shown(s))
    ensures forall k | k != AriaHidden && k in s.attributes ::
      k in Hidden(s).attributes && Hidden(s).attributes[k] == s.attributes[k]
  {
  }

  /** `toggle` negates `isHidden`, so toggling twice restores it; on a
      consistent element toggling twice restores the element itself. */
  lemma ToggleTwice(s: ElementState)
    ensures IsHidden(Toggled(s)) == !IsHidden(s)
    ensures IsHidden(Toggled(Toggled(s))) == IsHidden(s)
    ensures Consistent(s) ==> Toggled(Toggled(s)) == s
  {
    if Consistent(s) {
      if IsHidden(s) {
        assert Hidden(Shown(s)).attributes == s.attributes;
      } else {
        assert Shown(Hidden(s)).attributes == s.attributes;
      }
    }
  }

  // ---------------------------------------------------------------------
  // manageLiveRegion

  datatype Priority = Polite | Assertive

  function PriorityName(p: Priority): string {
    match p
    case Polite => "polite"
    case Assertive => "assertive"
  }

  const EmptyMessage: string := "通知消息不能为空"

  /** `announce(message, priority)` (the priority defaults to Polite):
      refuses an empty message; otherwise sets `aria-live` to the priority and
      the text to the message. */
  function Announced(s: ElementState, message: string, p: Priority): (r: Result<ElementState, string>)
    ensures message == "" ==> r == Err(EmptyMessage)
    ensures message != "" ==> r.Ok? && r.value.text == message && AttrIs(r.value, "aria-live", PriorityName(p))
  {
    if message == "" then Err(EmptyMessage)
    else Ok(SetAttr(s, "aria-live", PriorityName(p)).(text := message))
  }

  /** `clear` */
  function Cleared(s: ElementState): ElementState {
    s.(text := "")
  }

  /** After an announcement, `clear` empties the text but keeps the
      priority. */
  lemma AnnounceThenClear(s: ElementState, message: string, p: Priority)
    requires message != ""
    ensures Cleared(Announced(s, message, p).value).text == ""
    ensures AttrIs(Cleared(Announced(s, message, p).value), "aria-live", PriorityName(p))
  {
  }

  // ---------------------------------------------------------------------
  // manageLabels

  const EmptyLabel: string := "标签文本不能为空"
  const EmptyLabelId: string := "标签 ID 不能为空"
  const EmptyDescription: string := "描述文本不能为空"
  const EmptyDescriptionId: string := "描述 ID 不能为空"

  /** A label setter: refuses an empty value with `error`, otherwise sets the
      attribute. */
  function SetNonEmpty(s: ElementState, name: string, value: string, error: string): (r: Result<ElementState, string>)
    ensures value == "" ==> r == Err(error)
    ensures value != "" ==> r == Ok(SetAttr(s, name, value))
  {
    if value == "" then Err(error) else Ok(SetAttr(s, name, value))
  }

  /** `setLabel`, `setLabelledBy`, `setDescription`, `setDescribedBy` */
  function SetLabel(s: ElementState, labelText: string): (r: Result<ElementState, string>)
    ensures r.Err? <==> labelText == ""
    ensures r.Ok? ==> AttrIs(r.value, "aria-label", labelText) && r.value.display == s.display && r.value.text == s.text
  {
    SetNonEmpty(s, "aria-label", labelText, EmptyLabel)
  }

  function SetLabelledBy(s: ElementState, id: string): (r: Result<ElementState, string>)
    ensures r.Err? <==> id == ""
    ensures r.Ok? ==> AttrIs(r.value, "aria-labelledby", id) && r.value.display == s.display && r.value.text == s.text
  {
    SetNonEmpty(s, "aria-labelledby", id, EmptyLabelId)
  }

  function SetDescription(s: ElementState, description: string): (r: Result<ElementState, string>)
    ensures r.Err? <==> description == ""
    ensures r.Ok? ==> AttrIs(r.value, "aria-description", description) && r.value.display == s.display && r.value.text == s.text
  {
    SetNonEmpty(s, "aria-description", description, EmptyDescription)
  }

  function SetDescribedBy(s: ElementState, id: string): (r: Result<ElementState, string>)
    ensures r.Err? <==> id == ""
    ensures r.Ok? ==> AttrIs(r.value, "aria-describedby", id) && r.value.display == s.display && r.value.text == s.text
  {
    SetNonEmpty(s, "aria-describedby", id, EmptyDescriptionId)
  }

  /** `removeLabel` */
  function LabelRemoved(s: ElementState): (r: ElementState)
    ensures "aria-label" !in r.attributes && "aria-labelledby" !in r.attributes
    ensures forall k :: k != "aria-label" && k != "aria-labelledby" ==> (k in r.attributes <==> k in s.attributes)
    ensures forall k | k != "aria-label" && k != "aria-labelledby" && k in s.attributes :: r.attributes[k] == s.attributes[k]
    ensures r.display == s.display && r.text == s.text
  {
    RemoveAttr(RemoveAttr(s, "aria-label"), "aria-labelledby")
  }

  /** `removeDescription` */
  function DescriptionRemoved(s: ElementState): (r: ElementState)
    ensures "aria-description" !in r.attributes && "aria-describedby" !in r.attributes
    ensures forall k :: k != "aria-description" && k != "aria-describedby" ==> (k in r.attributes <==> k in s.attributes)
    ensures forall k | k != "aria-description" && k != "aria-describedby" && k in s.attributes :: r.attributes[k] == s.attributes[k]
    ensures r.display == s.display && r.text == s.text
  {
    RemoveAttr(RemoveAttr(s, "aria-description"), "aria-describedby")
  }

  /** After a label is set, `removeLabel` takes away both the label and the
      label reference and nothing else; `removeDescription` does the same for
      the two description attributes. */
  lemma RemoveLabelAndDescription(s: ElementState, labelText: string)
    requires labelText != ""
    ensures "aria-label" !in LabelRemoved(SetLabel(s, labelText).value).attributes
    ensures "aria-labelledby" !in LabelRemoved(s).attributes
    ensures forall k | k != "aria-label" && k != "aria-labelledby" ::
      (k in LabelRemoved(s).attributes <==> k in s.attributes)
    ensures "aria-description" !in DescriptionRemoved(s).attributes
    ensures "aria-describedby" !in DescriptionRemoved(s).attributes
    ensures forall k | k != "aria-description" && k != "aria-describedby" ::
      (k in DescriptionRemoved(s).attributes <==> k in s.attributes)
  {
  }

  // ---------------------------------------------------------------------
  // manageState

  /** `setExpanded`, `setSelected`, `setChecked`, `setBusy` set their
      attribute to "true" or "false". */
  function SetFlag(s: ElementState, name: string, b: bool): (r: ElementState)
    ensures AttrIs(r, name, "true") <==> b
    ensures AttrIs(r, name, "false") <==> !b
    ensures forall k | k != name && k in s.attributes :: k in r.attributes && r.attributes[k] == s.attributes[k]
  {
    SetAttr(s, name, BoolString(b))
  }

  /** `isExpanded`, `isSelected`, `isChecked`, `isDisabled`, `isBusy` */
  predicate Flag(s: ElementState, name: string) {
    AttrIs(s, name, "true")
  }

  /** `setDisabled(b)`: sets `aria-disabled`; a disabled element leaves the
      tab order with `tabindex="-1"`, an enabled one loses its `tabindex`. */
  function SetDisabled(s: ElementState, b: bool): (r: ElementState)
    ensures AttrIs(r, "aria-disabled", "true") <==> b
    ensures b ==> AttrIs(r, "tabindex", "-1")
    ensures !b ==> "tabindex" !in r.attributes
    ensures r.display == s.display && r.text == s.text
  {
    var t := SetFlag(s, "aria-disabled", b);
    if b then SetAttr(t, "tabindex", "-1") else RemoveAttr(t, "tabindex")
  }

  /** Each getter reads back what its setter wrote. */
  lemma FlagRoundTrip(s: ElementState, name: string, b: bool)
    ensures Flag(SetFlag(s, name, b), name) == b
    ensures AttrIs(SetFlag(s, name, b), name, if b then "true" else "false")
  {
  }

  lemma DisabledRoundTrip(s: ElementState, b: bool)
    ensures Flag(SetDisabled(s, b), "aria-disabled") == b
    ensures b ==> AttrIs(SetDisabled(s, b), "tabindex", "-1")
    ensures !b ==> "tabindex" !in SetDisabled(s, b).attributes
    ensures AttrIs(SetDisabled(s, b), "aria-disabled", BoolString(b))
  {
  }

  // ---------------------------------------------------------------------
  // The element itself

  class Element {
    var attributes: map<string, string>
    var display: string
    var text: string

    constructor(attributes: map<string, string>, display: string, text: string)
      ensures Snapshot() == ElementState(attributes, display, text)
    {
      this.attributes := attributes;
      this.display := display;
      this.text := text;
    }

    function Snapshot(): ElementState
      reads this
    {
      ElementState(attributes, display, text)
    }

    method Restore(s: ElementState)
      modifies this
      ensures Snapshot() == s
    {
      attributes, display, text := s.attributes, s.display, s.text;
    }

    method Hide()
      modifies this
      ensures Snapshot() == Hidden(old(Snapshot()))
    {
      attributes := attributes[AriaHidden := "true"];
      display := "none";
    }

    method Show()
      modifies this
      ensures Snapshot() == Shown(old(Snapshot()))
    {
      attributes := attributes[AriaHidden := "false"];
      display := "";
    }

    method Toggle()
      modifies this
      ensures Snapshot() == Toggled(old(Snapshot()))
    {
      var isHidden := AriaHidden in attributes && attributes[AriaHidden] == "true";
      if isHidden {
        attributes := attributes[AriaHidden := "false"];
        display := "";
      } else {
        attributes := attributes[AriaHidden := "true"];
        display := "none";
      }
    }

    method Announce(message: string, p: Priority) returns (r: Outcome<string>)
      modifies this
      ensures message == "" ==> r == Fail(EmptyMessage) && Snapshot() == old(Snapshot())
      ensures message != "" ==> r == Pass && Snapshot() == Announced(old(Snapshot()), message, p).value
    {
      if message == "" {
        return Fail(EmptyMessage);
      }
      attributes := attributes["aria-live" := PriorityName(p)];
      text := message;
      r := Pass;
    }

    method Clear()
      modifies this
      ensures Snapshot() == Cleared(old(Snapshot()))
    {
      text := "";
    }

    /** `setPriority` */
    method SetPriority(p: Priority)
      modifies this
      ensures Snapshot() == SetAttr(old(Snapshot()), "aria-live", PriorityName(p))
    {
      attributes := attributes["aria-live" := PriorityName(p)];
    }

    /** A label setter: `name` is one of `aria-label`, `aria-labelledby`,
        `aria-description`, `aria-describedby` and `error` its message. */
    method SetLabelAttribute(name: string, value: string, error: string) returns (r: Outcome<string>)
      modifies this
      ensures value == "" ==> r == Fail(error) && Snapshot() == old(Snapshot())
      ensures value != "" ==> r == Pass && Snapshot() == SetNonEmpty(old(Snapshot()), name, value, error).value
    {
      if value == "" {
        return Fail(error);
      }
      attributes := attributes[name := value];
      r := Pass;
    }

    method RemoveLabel()
      modifies this
      ensures Snapshot() == LabelRemoved(old(Snapshot()))
    {
      attributes := attributes - {"aria-label"};
      attributes := attributes - {"aria-labelledby"};
    }

    method RemoveDescription()
      modifies this
      ensures Snapshot() == DescriptionRemoved(old(Snapshot()))
    {
      attributes := attributes - {"aria-description"};
      attributes := attributes - {"aria-describedby"};
    }

    /** `setExpanded`, `setSelected`, `setChecked`, `setBusy` */
    method SetStateFlag(name: string, b: bool)
      modifies this
      ensures Snapshot() == SetFlag(old(Snapshot()), name, b)
    {
      attributes := attributes[name := BoolString(b)];
    }

    method SetDisabledState(b: bool)
      modifies this
      ensures Snapshot() == SetDisabled(old(Snapshot()), b)
    {
      attributes := attributes["aria-disabled" := BoolString(b)];
      if b {
        attributes := attributes["tabindex" := "-1"];
      } else {
        attributes := attributes - {"tabindex"};
      }
    }
  }

  /** `validateElement`, with which every `manage*` factory begins: a null
      element is refused. */
  function ValidateElement(e: Element?): (r: Outcome<string>)
    ensures r == Pass <==> e != null
    ensures r.Fail? ==> r.error == NullElement
  {
    if e == null then Fail(NullElement) else Pass
  }

  // ---------------------------------------------------------------------
  // manageFocus

  const NoFocusable: string := "容器内没有可聚焦的元素"

  /** The first and last focusable elements of a container, by identity. */
  datatype FocusTrap = FocusTrap(first: nat, last: nat)

  /** `manageFocus(container)`, over the identities of the container's
      focusable elements in document order: refuses a null container, then a
      container with nothing focusable. */
  function ManageFocus(e: Element?, focusable: seq<nat>): (r: Result<FocusTrap, string>)
    ensures e == null ==> r == Err(NullElement)
    ensures e != null && focusable == [] ==> r == Err(NoFocusable)
    ensures r.Ok? <==> e != null && focusable != []
    ensures r.Ok? ==> r.value.first == focusable[0] && r.value.last == focusable[|focusable| - 1]
  {
    if e == null then Err(NullElement)
    else if focusable == [] then Err(NoFocusable)
    else Ok(FocusTrap(focusable[0], focusable[|focusable| - 1]))
  }

  /** The effect of a key event: the element focused afterwards and whether
      the default action was prevented. */
  datatype KeyEffect = KeyEffect(active: nat, prevented: bool)

  /** `trapFocus(e)` with `active` the currently focused element. */
  function TrapFocus(t: FocusTrap, key: string, shift: bool, active: nat): (r: KeyEffect)
    ensures key != "Tab" ==> r == KeyEffect(active, false)
    ensures key == "Tab" && shift && active == t.first ==> r == KeyEffect(t.last, true)
    ensures key == "Tab" && !shift && active == t.last ==> r == KeyEffect(t.first, true)
    ensures r.prevented <==> key == "Tab" && active == (if shift then t.first else t.last)
    ensures !r.prevented ==> r.active == active
  {
    if key != "Tab" then KeyEffect(active, false)
    else if shift then
      if active == t.first then KeyEffect(t.last, true) else KeyEffect(active, false)
    else
      if active == t.last then KeyEffect(t.first, true) else KeyEffect(active, false)
  }

  /** Focus stays inside the trap: Tab from the last element and then
      Shift+Tab from the first lead back to the last. */
  lemma TrapCycles(t: FocusTrap)
    ensures TrapFocus(t, "Tab", true, TrapFocus(t, "Tab", false, t.last).active).active == t.last
  {
  }

  // ---------------------------------------------------------------------
  // manageShortcuts

  const EmptyShortcuts: string := "快捷键配置不能为空"

  /** The effect of the shortcut handler on a key: whether the default was
      prevented and which handler, if any, ran. */
  datatype Dispatch<H> = Dispatch(prevented: bool, called: Option<H>)

  /** `manageShortcuts(shortcuts)`: refuses an empty configuration; the
      handler it returns calls exactly the handler mapped to the event's key,
      after preventing the default, and does nothing for an unmapped key. */
  function ManageShortcuts<H>(shortcuts: map<string, H>): (r: Result<string -> Dispatch<H>, string>)
    ensures shortcuts == map[] ==> r == Err(EmptyShortcuts)
    ensures r.Ok? <==> shortcuts != map[]
    ensures r.Ok? ==> forall key :: r.value(key) == (if key in shortcuts then Dispatch(true, Some(shortcuts[key])) else Dispatch(false, None))
  {
    if shortcuts == map[] then Err(EmptyShortcuts)
    else Ok((key: string) => if key in shortcuts then Dispatch(true, Some(shortcuts[key])) else Dispatch(false, None))
  }

  /** A handler runs only with its default prevented, and only the one
      mapped to the key. */
  lemma ShortcutCallsOnlyMapped<H>(shortcuts: map<string, H>, key: string)
    requires shortcuts != map[]
    ensures ManageShortcuts(shortcuts).value(key).called.Some?
        ==> key in shortcuts && ManageShortcuts(shortcuts).value(key).called.value == shortcuts[key]
            && ManageShortcuts(shortcuts).value(key).prevented
  {
  }
}
