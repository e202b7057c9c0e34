/** The element wrapper of the test utilities (src/dom-wrapper.ts): read-side queries over one DOM
    element (classes, attributes, exists, find, findAll) and the interactions that change the
    element and dispatch events on it or on its owning select (setChecked, setValue, setSelected,
    trigger). Event dispatch is recorded in the document's event log; the interactions run to
    completion synchronously, the framework's update flush being out of scope. */
module DomWrapper {
  import opened Optional
  import JsObject

  // Tag names as the DOM reports them for HTML elements.
  const INPUT := "INPUT"
  const TEXTAREA := "TEXTAREA"
  const SELECT := "SELECT"
  const OPTION := "OPTION"
  const OPTGROUP := "OPTGROUP"

  // Values of the `type` attribute that make an input a toggle.
  const CHECKBOX := "checkbox"
  const RADIO := "radio"

  // Event types the wrapper dispatches on its own.
  const CHANGE := "change"
  const INPUT_EVENT := "input"

  /** One entry of an element's attribute list. */
  datatype Attr = Attr(localName: string, value: string)

  /** A rendered DOM element, as far as the wrapper reads and writes it. */
  class Element {
    var tagName: string
    var attributes: seq<Attr>
    var classList: seq<string>
    var checked: bool
    var selected: bool
    var value: string
    var parent: Element?

    constructor (tagName: string, attributes: seq<Attr>, classList: seq<string>, parent: Element?)
      ensures this.tagName == tagName && this.attributes == attributes
      ensures this.classList == classList && this.parent == parent
      ensures !checked && !selected && value == ""
    {
      this.tagName := tagName;
      this.attributes := attributes;
      this.classList := classList;
      this.parent := parent;
      checked, selected, value := false, false, "";
    }
  }

  /** One dispatched event: the node it was dispatched on and its type. */
  datatype Event = Event(target: Element, eventType: string)

  /** The global `document`, reduced to the log of the events dispatched through it. */
  class Document {
    ghost var dispatched: seq<Event>

    constructor ()
      ensures dispatched == []
    {
      dispatched := [];
    }
  }

  // ---------------------------------------------------------------------------------------------
  // Attributes

  function LocalNames(attrs: seq<Attr>): set<string>
  {
    set i | 0 <= i < |attrs| :: attrs[i].localName
  }

  /** The map `attributes()` builds by walking the attribute list from the first entry to the last,
      storing each value under its localName (so a later entry overwrites an earlier one). */
  function AttrMap(attrs: seq<Attr>): (m: map<string, string>)
    ensures m.Keys == LocalNames(attrs)
  {
    if attrs == [] then map[]
    else
      var init, last := attrs[..|attrs| - 1], attrs[|attrs| - 1];
      assert LocalNames(attrs) == LocalNames(init) + {last.localName} by {
        assert forall i :: 0 <= i < |init| ==> init[i] == attrs[i];
      }
      AttrMap(init)[last.localName := last.value]
  }

  /** An independent reference: the position of the last attribute named `k`, or -1. */
  function LastIndexNamed(attrs: seq<Attr>, k: string): (i: int)
    ensures -1 <= i < |attrs|
    ensures i >= 0 ==> attrs[i].localName == k
    ensures forall j :: i < j < |attrs| ==> attrs[j].localName != k
  {
    if attrs == [] then -1
    else if attrs[|attrs| - 1].localName == k then |attrs| - 1
    else LastIndexNamed(attrs[..|attrs| - 1], k)
  }

  /** Every key of the attribute map is a localName of the list, and it holds the value of the LAST
      attribute with that localName. */
  lemma {:induction false} AttrMapIsLastValue(attrs: seq<Attr>, k: string)
    ensures k in AttrMap(attrs) <==> LastIndexNamed(attrs, k) >= 0
    ensures k in AttrMap(attrs) ==> AttrMap(attrs)[k] == attrs[LastIndexNamed(attrs, k)].value
  {
    if attrs != [] && attrs[|attrs| - 1].localName != k {
      var init := attrs[..|attrs| - 1];
      AttrMapIsLastValue(init, k);
      var i := LastIndexNamed(init, k);
      assert i >= 0 ==> attrs[i] == init[i];
    }
  }

  /** What the source's `attributeMap[key]` reads: an own property, a member inherited from
      `Object.prototype`, or `undefined`. */
  datatype JsValue = Own(s: string) | Inherited(name: string) | Undefined

  /** `attributes(key)` for a non-empty key AS WRITTEN: the map is a plain `{}`, so a key that no
      attribute defines but `Object.prototype` does answers with the inherited member; and
      assigning a string to `__proto__` stores nothing, so that attribute is never an own property. */
  function AttributeLookupAsWritten(attrs: seq<Attr>, key: string): (v: JsValue)
    ensures v.Own? <==> key in AttrMap(attrs) && key != "__proto__"
    ensures v.Own? ==> v.s == AttrMap(attrs)[key]
    ensures v.Inherited? ==> key in JsObject.ObjectPrototypeKeys
    ensures !v.Own? && key in JsObject.ObjectPrototypeKeys ==> v == Inherited(key)
    ensures v.Undefined? <==> !v.Own? && key !in JsObject.ObjectPrototypeKeys
  {
    var own := AttrMap(attrs);
    if key in own && key != "__proto__" then Own(own[key])
    else if key in JsObject.ObjectPrototypeKeys then Inherited(key)
    else Undefined
  }

  /** The discrepancy: on an element with no attributes, `attributes('toString')` is a function,
      although no attribute of that name exists (the corrected lookup answers `None`). */
  lemma InheritedAttributeShowsThrough()
    ensures AttributeLookupAsWritten([], "toString") == Inherited("toString")
    ensures Lookup(AttrMap([]), "toString") == None
  {
  }

  /** Outside the inherited names the source's lookup and the corrected one agree. */
  lemma AttributeLookupAgrees(attrs: seq<Attr>, key: string)
    requires key !in JsObject.ObjectPrototypeKeys
    ensures match Lookup(AttrMap(attrs), key)
            case Some(s) => AttributeLookupAsWritten(attrs, key) == Own(s)
            case None => AttributeLookupAsWritten(attrs, key) == Undefined
  {
  }

  // ---------------------------------------------------------------------------------------------
  // Query results

  /** JavaScript truthiness of an optional string argument: absent and "" are both falsy. */
  predicate Truthy(s: Option<string>)
  {
    s.Some? && s.value != ""
  }

  datatype ClassesResult = HasClass(contains: bool) | ClassNames(names: seq<string>)

  datatype AttributesResult = AttributeValue(value: Option<string>) | AllAttributes(all: map<string, string>)

  /** The not-found wrapper, carrying the selector that matched nothing. */
  datatype ErrorWrapper = ErrorWrapper(selector: string)

  datatype FindResult = Found(wrapper: DOMWrapper) | NotFound(error: ErrorWrapper)

  /** The selector engine: `querySelectorAll(root, selector)`, every matching descendant of `root`
      in document order. `querySelector` is its first element. */
  type SelectorOracle = (Element, string) -> seq<Element>

  function WrapAll(nodes: seq<Element>): (r: seq<DOMWrapper>)
    ensures |r| == |nodes|
    ensures forall i :: 0 <= i < |r| ==> r[i].element == nodes[i]
  {
    if nodes == [] then [] else [DOMWrapper(nodes[0])] + WrapAll(nodes[1..])
  }

  // ---------------------------------------------------------------------------------------------
  // The interaction state machine, on a snapshot of the fields the interactions read and write

  /** The fields of an element the interactions look at: its tag, its `type` attribute (if any) and
      the three properties they may change. */
  datatype Control = Control(tag: string, inputType: Option<string>, checked: bool, selected: bool, value: string)

  function ControlOf(e: Element): Control
    reads e
  {
    Control(e.tagName, Lookup(AttrMap(e.attributes), "type"), e.checked, e.selected, e.value)
  }

  /** The errors the interactions throw. */
  datatype UsageError =
    | NotAnInput(tagName: string)  // setChecked on an element other than an input
    | RadioUncheck                 // setChecked(false) on a radio input
    | ValueNotSupported            // setValue on an element it does not handle
    | SelectedOnSelect             // setSelected on the select itself
    | SelectedNotSupported         // setSelected on anything but an option or a select
    | MissingParent                // reading the tag of the null parent of a detached option

  datatype Outcome = Done | Failed(error: UsageError)

  /** The result of one interaction: whether it threw, the element afterwards and the types of the
      events it dispatched, in order. */
  datatype Step = Step(outcome: Outcome, after: Control, fired: seq<string>)

  predicate IsToggle(c: Control)
  {
    c.tag == INPUT && (c.inputType == Some(CHECKBOX) || c.inputType == Some(RADIO))
  }

  predicate IsTextEntry(c: Control)
  {
    !IsToggle(c) && (c.tag == INPUT || c.tag == TEXTAREA || c.tag == SELECT)
  }

  /** setChecked(checked): only an input may be checked, a radio may not be unchecked, setting the
      current state again does nothing, and a real change fires exactly one `change`. */
  function SetCheckedStep(c: Control, checked: bool): (s: Step)
    ensures s.outcome.Failed? <==> c.tag != INPUT || (c.inputType == Some(RADIO) && !checked)
    ensures c.tag != INPUT ==> s.outcome == Failed(NotAnInput(c.tag))
    ensures c.tag == INPUT && s.outcome.Failed? ==> s.outcome == Failed(RadioUncheck)
    ensures s.outcome.Failed? ==> s.after == c && s.fired == []
    ensures s.outcome.Done? ==> s.after == c.(checked := checked)
    ensures s.fired == if s.after != c then [CHANGE] else []
  {
    if c.tag != INPUT then Step(Failed(NotAnInput(c.tag)), c, [])
    else if c.inputType == Some(RADIO) && !checked then Step(Failed(RadioUncheck), c, [])
    else if checked == c.checked then Step(Done, c, [])
    else Step(Done, c.(checked := checked), [CHANGE])
  }

  /** setSelected(): refused on a select and on anything but an option; an already selected option
      is left alone; otherwise the option becomes selected and one `change` goes to its owner. A
      detached option (no parent) is marked selected before the source fails on its parent. */
  function SetSelectedStep(c: Control, hasParent: bool): (s: Step)
    ensures c.tag == SELECT ==> s == Step(Failed(SelectedOnSelect), c, [])
    ensures c.tag != SELECT && c.tag != OPTION ==> s == Step(Failed(SelectedNotSupported), c, [])
    ensures c.tag == OPTION ==> s.after == c.(selected := true)
    ensures c.tag == OPTION ==> (s.outcome.Failed? <==> !c.selected && !hasParent)
    ensures c.tag == OPTION && s.outcome.Failed? ==> s.outcome.error == MissingParent
    ensures s.fired == if c.tag == OPTION && !c.selected && hasParent then [CHANGE] else []
  {
    if c.tag == SELECT then Step(Failed(SelectedOnSelect), c, [])
    else if c.tag == OPTION then
      if c.selected then Step(Done, c, [])
      else if !hasParent then Step(Failed(MissingParent), c.(selected := true), [])
      else Step(Done, c.(selected := true), [CHANGE])
    else Step(Failed(SelectedNotSupported), c, [])
  }

  /** setValue(value): an option is selected, a checkbox or radio is checked (never unchecked,
      whatever `value` is), an input, textarea or select takes the value and fires one event
      (`change` for a select, `input` otherwise), and every other element is refused. */
  function SetValueStep(c: Control, value: string, hasParent: bool): (s: Step)
    ensures c.tag == OPTION ==> s == SetSelectedStep(c, hasParent)
    ensures IsToggle(c) ==> s == SetCheckedStep(c, true) && s.outcome == Done && s.after.checked
    ensures IsTextEntry(c) ==> s.outcome == Done && s.after == c.(value := value)
    ensures IsTextEntry(c) ==> s.fired == [if c.tag == SELECT then CHANGE else INPUT_EVENT]
    ensures c.tag != OPTION && !IsToggle(c) && !IsTextEntry(c) ==> s == Step(Failed(ValueNotSupported), c, [])
  {
    if c.tag == OPTION then SetSelectedStep(c, hasParent)
    else if c.tag == INPUT && c.inputType == Some(CHECKBOX) then SetCheckedStep(c, true)
    else if c.tag == INPUT && c.inputType == Some(RADIO) then SetCheckedStep(c, true)
    else if c.tag == INPUT || c.tag == TEXTAREA || c.tag == SELECT then
      Step(Done, c.(value := value), [if c.tag == SELECT then CHANGE else INPUT_EVENT])
    else Step(Failed(ValueNotSupported), c, [])
  }

  /** Asking for the state an input already has is a silent no-op: a second identical setChecked
      changes nothing and fires nothing. */
  lemma SetCheckedIdempotent(c: Control, checked: bool)
    requires SetCheckedStep(c, checked).outcome.Done?
    ensures var s := SetCheckedStep(SetCheckedStep(c, checked).after, checked);
            s.outcome.Done? && s.after == SetCheckedStep(c, checked).after && s.fired == []
  {
  }

  /** Selecting an option twice fires at most one `change`. */
  lemma SetSelectedIdempotent(c: Control, hasParent: bool)
    requires c.tag == OPTION
    ensures var s := SetSelectedStep(SetSelectedStep(c, hasParent).after, hasParent);
            s == Step(Done, SetSelectedStep(c, hasParent).after, [])
  {
  }

  /** Every refusal of the interactions leaves the element as it was and fires nothing, except the
      detached option, which is marked selected before the source fails. */
  lemma FailedInteractionsChangeNothing(c: Control, checked: bool, value: string, hasParent: bool)
    ensures SetCheckedStep(c, checked).outcome.Failed? ==> SetCheckedStep(c, checked) == Step(SetCheckedStep(c, checked).outcome, c, [])
    ensures var s := SetValueStep(c, value, hasParent);
            s.outcome.Failed? && s.outcome.error != MissingParent ==> s.after == c && s.fired == []
    ensures var s := SetSelectedStep(c, hasParent);
            s.outcome.Failed? ==> s.fired == [] && (s.outcome.error != MissingParent ==> s.after == c)
  {
  }

  /** The node a `change` for a newly selected option goes to: its parent, or the parent's parent
      when the parent is an option group (null when there is no such node). */
  function ChangeOwner(option: Element): Element?
    reads option, option.parent
  {
    if option.parent == null then null
    else if option.parent.tagName == OPTGROUP then option.parent.parent
    else option.parent
  }

  /** The log entries for dispatching `types` in order on `target`; dispatching on a null node does
      nothing (the `if (this.element)` guard of trigger). */
  function DispatchTo(target: Element?, types: seq<string>): seq<Event>
  {
    if target == null || types == [] then [] else [Event(target, types[0])] + DispatchTo(target, types[1..])
  }

  // ---------------------------------------------------------------------------------------------
  // The wrapper

  /** A wrapper around one element. It holds a reference, so later changes to the element are seen
      through it. */
  datatype DOMWrapper = DOMWrapper(element: Element) {

    /** classes(className): with a non-empty name, whether the element has that class; otherwise
        its class list in order. */
    function Classes(className: Option<string>): (r: ClassesResult)
      reads element
      ensures r.HasClass? <==> Truthy(className)
      ensures r.HasClass? ==> (r.contains <==> exists i :: 0 <= i < |element.classList| && element.classList[i] == className.value)
      ensures r.ClassNames? ==> r.names == element.classList
    {
      if Truthy(className) then HasClass(className.value in element.classList)
      else ClassNames(element.classList)
    }

    /** attributes(key): builds the attribute map with an index loop, then answers the value under
        a non-empty key (None when no attribute has it) or, otherwise, the whole map. */
    method Attributes(key: Option<string>) returns (r: AttributesResult)
      ensures Truthy(key) ==> r == AttributeValue(Lookup(AttrMap(element.attributes), key.value))
      ensures !Truthy(key) ==> r == AllAttributes(AttrMap(element.attributes))
    {
      var attributes := element.attributes;
      var attributeMap: map<string, string> := map[];
      for i := 0 to |attributes|
        invariant attributeMap == AttrMap(attributes[..i])
      {
        assert attributes[..i + 1][..i] == attributes[..i];
        attributeMap := attributeMap[attributes[i].localName := attributes[i].value];
      }
      assert attributes[..|attributes|] == attributes;
      if Truthy(key) {
        r := AttributeValue(Lookup(attributeMap, key.value));
      } else {
        r := AllAttributes(attributeMap);
      }
    }

    /** An element wrapper always exists. */
    function Exists(): (r: bool)
      ensures r
    {
      true
    }

    /** find(selector): a wrapper around the first match, or the not-found wrapper for `selector`. */
    function Find(querySelectorAll: SelectorOracle, selector: string): (r: FindResult)
      ensures r.Found? <==> |querySelectorAll(element, selector)| > 0
      ensures r.Found? ==> r.wrapper.element == querySelectorAll(element, selector)[0]
      ensures r.NotFound? ==> r.error == ErrorWrapper(selector)
    {
      var matches := querySelectorAll(element, selector);
      if |matches| > 0 then Found(DOMWrapper(matches[0])) else NotFound(ErrorWrapper(selector))
    }

    /** findAll(selector): one wrapper per match, in the same order. */
    function FindAll(querySelectorAll: SelectorOracle, selector: string): (r: seq<DOMWrapper>)
      ensures |r| == |querySelectorAll(element, selector)|
      ensures forall i :: 0 <= i < |r| ==> r[i].element == querySelectorAll(element, selector)[i]
    {
      WrapAll(querySelectorAll(element, selector))
    }

    /** trigger(eventString): dispatches one event of that type on the element and changes no field
        of any element. */
    method Trigger(doc: Document, eventString: string)
      modifies doc`dispatched
      ensures doc.dispatched == old(doc.dispatched) + [Event(element, eventString)]
    {
      doc.dispatched := doc.dispatched + [Event(element, eventString)];
    }

    method SetChecked(doc: Document, checked: bool) returns (r: Outcome)
      modifies element`checked, doc`dispatched
      ensures var s := SetCheckedStep(old(ControlOf(element)), checked);
              r == s.outcome && ControlOf(element) == s.after
              && doc.dispatched == old(doc.dispatched) + DispatchTo(element, s.fired)
    {
      var attributes := Attributes(None);
      var inputType := Lookup(attributes.all, "type");
      if element.tagName != INPUT {
        return Failed(NotAnInput(element.tagName));
      }
      if inputType == Some(RADIO) && !checked {
        return Failed(RadioUncheck);
      }
      if checked == element.checked {
        return Done;
      }
      element.checked := checked;
      Trigger(doc, CHANGE);
      r := Done;
    }

    method SetValue(doc: Document, value: string) returns (r: Outcome)
      modifies element`checked, element`selected, element`value, doc`dispatched
      ensures var s := SetValueStep(old(ControlOf(element)), value, element.parent != null);
              r == s.outcome && ControlOf(element) == s.after
              && doc.dispatched == old(doc.dispatched)
                 + DispatchTo(if element.tagName == OPTION then ChangeOwner(element) else element, s.fired)
    {
      var tagName := element.tagName;
      var attributes := Attributes(None);
      var inputType := Lookup(attributes.all, "type");
      if tagName == OPTION {
        r := SetSelected(doc);
      } else if tagName == INPUT && inputType == Some(CHECKBOX) {
        r := SetChecked(doc, true);
      } else if tagName == INPUT && inputType == Some(RADIO) {
        r := SetChecked(doc, true);
      } else if tagName == INPUT || tagName == TEXTAREA || tagName == SELECT {
        element.value := value;
        if tagName == SELECT {
          Trigger(doc, CHANGE);
          return Done;
        }
        Trigger(doc, INPUT_EVENT);
        r := Done;
      } else {
        r := Failed(ValueNotSupported);
      }
    }

    method SetSelected(doc: Document) returns (r: Outcome)
      modifies element`selected, doc`dispatched
      ensures var s := SetSelectedStep(old(ControlOf(element)), element.parent != null);
              r == s.outcome && ControlOf(element) == s.after
              && doc.dispatched == old(doc.dispatched) + DispatchTo(ChangeOwner(element), s.fired)
    {
      var tagName := element.tagName;
      if tagName == SELECT {
        return Failed(SelectedOnSelect);
      }
      if tagName == OPTION {
        if element.selected {
          return Done;
        }
        element.selected := true;
        var parentElement := element.parent;
        if parentElement == null {
          return Failed(MissingParent);
        }
        if parentElement.tagName == OPTGROUP {
          parentElement := parentElement.parent;
        }
        if parentElement != null {
          DOMWrapper(parentElement).Trigger(doc, CHANGE);
        }
        return Done;
      }
      r := Failed(SelectedNotSupported);
    }
  }

  /** find is the first of findAll: both see the same matches. */
  lemma FindIsFirstOfFindAll(w: DOMWrapper, querySelectorAll: SelectorOracle, selector: string)
    ensures w.Find(querySelectorAll, selector).Found? <==> |w.FindAll(querySelectorAll, selector)| > 0
    ensures w.Find(querySelectorAll, selector).Found? ==>
              w.Find(querySelectorAll, selector).wrapper == w.FindAll(querySelectorAll, selector)[0]
  {
  }
}
