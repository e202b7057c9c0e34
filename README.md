# Element wrapper and emission recorder of vue-test-utils-next, in Dafny

This project models two pieces of a testing library for Vue 3 components and proves properties of
them.

**The element wrapper** (`DOMWrapper`, src/dom-wrapper.ts) wraps one rendered DOM element. Its read
side is modelled as functions: `classes`, `attributes`, `exists`, `find` and `findAll`. Its
interactions (`setChecked`, `setValue`, `setSelected`, `trigger`) are methods that change the
element's `checked`, `selected` and `value` fields and dispatch events. The element is a class
(`DomWrapper.Element`) with a tag name, an ordered attribute list, a class list, the three mutable
properties and an optional parent. The wrapper is a datatype holding a reference to it, because
the wrapper's own field never changes. Dispatching an event appends `(target, type)` to a ghost log
on the global `document` (`DomWrapper.Document`).

Each interaction is specified by a pure step function over a snapshot of the element
(`DomWrapper.Control`: tag, `type` attribute, checked, selected, value). The step function gives
the outcome (done, or the usage error thrown), the element afterwards and the event types fired.
The method's postcondition ties the new element state and the event log to that step. The step
functions carry the rules the source implements:
- which tags and types are rejected, and with which error;
- which calls are silent no-ops;
- which field changes;
- which node receives the event, including the hop past an `OPTGROUP` to the owning `SELECT`.

**The emission recorder** (src/emitMixin.ts) installs a devtools hook. For every
`component:emit` notification, the hook appends the event's argument list to a per-mount log,
keyed by event name (`EmitMixin.Events`). The global devtools hook and the global `console.warn`
are modelled as single mutable slots (`EmitMixin.HookSlot`, `EmitMixin.Console`), passed in as
parameters. Recording is specified by the pure function `Record`. The lemmas about `RecordAll`
state what a whole run of emissions leaves in the log.

The model follows the code, which does the following:
- `setValue` on a `SELECT` fires only `change`, not `input` as well.
- `setValue` on a checkbox or radio ignores its argument and always asks for the checked state
  `true`.
- `classes('')` and `attributes('')` return the whole collection, because the source tests the
  argument for truthiness.
- `wrapperWarn` puts the saved handler back before any warning can reach the filter. So the
  filter never sees a message, and the method's net effect is the identity.

The selector engine is a parameter: a function from a root element and a selector to the matching
descendants in document order (`querySelectorAll`). `querySelector` is taken to be its first
element.

## Model

| member | source | states |
|---|---|---|
| `DomWrapper.AttrMap` | src/dom-wrapper.ts:22-27 | the keys of the attribute map are exactly the localNames in the element's attribute list |
| `DomWrapper.AttrMapIsLastValue` | src/dom-wrapper.ts:24-27 | a name is a key exactly when some attribute has it, and the key holds the value of the last attribute with that name |
| `DomWrapper.WrapAll` | src/dom-wrapper.ts:54-56 | mapping the wrapper over a node list gives one wrapper per node, same length and same order |
| `DomWrapper.DOMWrapper.Classes` | src/dom-wrapper.ts:13-19 | a non-empty name gives a membership answer that is true iff the class list contains it; an absent or empty name gives the class list itself, in order |
| `DomWrapper.DOMWrapper.Attributes` | src/dom-wrapper.ts:21-30 | the index loop builds exactly the attribute map; a non-empty key gives that map's entry or none, and an absent or empty key gives the whole map |
| `DomWrapper.DOMWrapper.Exists` | src/dom-wrapper.ts:32-34 | an element wrapper always exists |
| `DomWrapper.DOMWrapper.Find` | src/dom-wrapper.ts:44-51 | a wrapper is found iff the selector has a match, and it wraps the first match; otherwise the result is the not-found wrapper carrying the selector |
| `DomWrapper.DOMWrapper.FindAll` | src/dom-wrapper.ts:53-57 | one wrapper per match, same length and order, each wrapping the corresponding element |
| `DomWrapper.FindIsFirstOfFindAll` | src/dom-wrapper.ts:44-57 | find succeeds iff findAll is non-empty, and then it returns findAll's first wrapper |
| `DomWrapper.SetCheckedStep` | src/dom-wrapper.ts:59-86 | the call fails iff the tag is not INPUT or a radio is asked to uncheck, with those two errors; a failure changes nothing; on success checked equals the request; exactly one `change` fires iff the state changed |
| `DomWrapper.SetSelectedStep` | src/dom-wrapper.ts:124-150 | SELECT and every non-OPTION tag fail and change nothing; an OPTION ends selected; it fires one `change` iff it was unselected and has a parent; a detached unselected option fails after being selected |
| `DomWrapper.SetValueStep` | src/dom-wrapper.ts:88-122 | OPTION behaves as setSelected; checkbox and radio behave as setChecked(true) and never fail; INPUT, TEXTAREA and SELECT assign the `value` field and fire one event (`change` for SELECT, `input` otherwise); any other tag fails with nothing changed |
| `DomWrapper.SetCheckedIdempotent` | src/dom-wrapper.ts:76-82 | repeating a successful setChecked with the same value changes nothing and fires nothing |
| `DomWrapper.SetSelectedIdempotent` | src/dom-wrapper.ts:134-137 | selecting an option a second time changes nothing and fires nothing |
| `DomWrapper.FailedInteractionsChangeNothing` | src/dom-wrapper.ts:59-150 | every thrown usage error leaves the element unchanged and fires no event; the detached option is the one exception to "unchanged" |
| `DomWrapper.DOMWrapper.Trigger` | src/dom-wrapper.ts:152-160 | appends exactly one event of the given type, targeted at the wrapped element; no element field is in its frame |
| `DomWrapper.DOMWrapper.SetChecked` | src/dom-wrapper.ts:59-86 | returns the step's outcome; the element ends in the step's state; the log gains the step's events, on the element itself |
| `DomWrapper.DOMWrapper.SetValue` | src/dom-wrapper.ts:88-122 | returns the step's outcome; the element ends in the step's state; the log gains the step's events, on the option's owner for an OPTION and on the element otherwise |
| `DomWrapper.DOMWrapper.SetSelected` | src/dom-wrapper.ts:124-150 | returns the step's outcome; the element ends in the step's state; the log gains the step's events on the parent, or on the grandparent past an OPTGROUP, and none when that node is null |
| `DomWrapper.AttributeLookupAsWritten` | src/dom-wrapper.ts:23-29 | the source's lookup on a plain object: an own value iff an attribute defines the key (never `__proto__`); otherwise the inherited member exactly when `Object.prototype` defines the name, and `undefined` exactly when it does not |
| `DomWrapper.InheritedAttributeShowsThrough` | src/dom-wrapper.ts:29 | on an element without attributes, the source's `attributes('toString')` is an inherited member, while the corrected lookup gives none |
| `DomWrapper.AttributeLookupAgrees` | src/dom-wrapper.ts:29 | for a key that `Object.prototype` does not define, the source's lookup and the corrected one agree |
| `EmitMixin.Record` | src/emitMixin.ts:31-35 | the list under the event gains one entry equal to the arguments, after the old entries (empty if the key was absent); a first emission creates a one-entry list; every other key is untouched |
| `EmitMixin.RecordAllGroupsByName` | src/emitMixin.ts:31-35 | after a run of emissions, the list under each name is its old list followed by the arguments of the emissions with that name, in emission order |
| `EmitMixin.RecordAllKeys` | src/emitMixin.ts:31-35 | after a run of emissions, the log's names are its old names plus the emitted ones |
| `EmitMixin.EmitABA` | src/emitMixin.ts:31-35 | emitting `a`, `b`, `a` gives two entries under `a`, in order, and one under `b` |
| `EmitMixin.Events.RecordEvent` | src/emitMixin.ts:31-35 | the shared log becomes `Record` of the old log, the event and the arguments |
| `EmitMixin.Events.constructor` | src/emitMixin.ts:8 | a new events object starts with an empty log |
| `EmitMixin.HookEmission` | src/emitMixin.ts:16-24 | a hook call reports no emission iff its type is not `component:emit`; otherwise the name is the third payload entry and the arguments are the fourth |
| `EmitMixin.DevTools.Emit` | src/emitMixin.ts:16-25 | any other hook type leaves the log unchanged; `component:emit` records exactly the reported pair; the warn handler ends as it began |
| `EmitMixin.WrapperWarn` | src/emitMixin.ts:43-53 | once wrapperWarn returns, the global warn handler is the one it found |
| `EmitMixin.AttachEmitListener` | src/emitMixin.ts:7-12 | the instance gets a fresh, empty log, and the global hook is replaced by a fresh hook that records into that same log |
| `EmitMixin.SecondMountTakesOverHook` | src/emitMixin.ts:7-12 | after a second mount, an emission lands in the second mount's log only, and the first mount's log stays empty |
| `EmitMixin.RecordEventAsWritten` | src/emitMixin.ts:31-35 | the source's recordEvent on a plain object throws exactly when the name is not yet recorded and `Object.prototype` defines it |
| `EmitMixin.ConstructorEventIsNotRecorded` | src/emitMixin.ts:31-35 | the source's first emission of `constructor` throws, while `Record` creates a one-entry list |
| `EmitMixin.RecordEventAsWrittenAgrees` | src/emitMixin.ts:31-35 | for a name that `Object.prototype` does not define, the source's recordEvent and `Record` agree |

## Left out

- `text()` and `html()` (src/dom-wrapper.ts:36-42) read `textContent` and `outerHTML`. These are DOM serialization, so they are not modelled.
- CSS selector matching: `find` and `findAll` take the `querySelectorAll` result as a total function parameter. The model does not check that matches are descendants of the root.
- `nextTick` and the promises that `setChecked`, `setValue`, `setSelected` and `trigger` return: each interaction is a synchronous state transition. A thrown error is an `Outcome` value.
- DomWrapper.DOMWrapper.Trigger: event listeners do not run. In the browser, a listener for the dispatched event (for example a `v-model` binding) may change other state. The model records only the dispatch.
- DomWrapper.DOMWrapper.Trigger: the `if (this.element)` guard is reachable only for the null parent of an option group. It is modelled where that null arises, in `SetSelected`, because a wrapper here always holds an element.
- DomWrapper.DOMWrapper.SetValue: the argument is a string. The source accepts any value and lets the DOM convert it.
- DomWrapper.Element: `checked`, `selected` and `value` are plain fields. In the source they are DOM properties, and their setters do more than store a value. The model does not capture these setter effects:
  - assigning a select's `value` selects the matching option, and the property reads back `""` when no option matches;
  - checking a radio unchecks the other radios of its group;
  - selecting an option in a single-choice select deselects the other options;
  - input values are sanitised according to the input's type;
  - a non-empty value assigned to `<input type="file">` throws, where the model returns `Done`.
- EmitMixin.DevTools.Emit: a `component:emit` call is required to carry a name as its third payload entry and an argument list as its fourth, as the framework always passes them. The model omits the path where the fourth entry is missing and the spread `[...args]` throws a TypeError. EmitMixin.HookEmission has the same requirement.
- DomWrapper.DOMWrapper.SetChecked: the source's default argument `checked = true` is not modelled; callers pass the boolean explicitly. `SetValue` passes `true`, as the source's argument-less call does.
- Tag names are compared exactly, as the source compares them. The model does not derive their upper-case form from the markup.
- DomWrapper.DOMWrapper.Attributes and EmitMixin.Events.RecordEvent: these model the corrected behaviour of a map with no inherited keys (see Findings). The source's behaviour is modelled beside them, by `AttributeLookupAsWritten` and `RecordEventAsWritten`.
- DomWrapper.DOMWrapper.Attributes: an attribute named `__proto__` is an own key of the model's map. The source's map drops it.
- The not-found wrapper (`ErrorWrapper`, src/error-wrapper) is not part of this model. It is represented only by a value carrying the selector.
- The warning filter's message matching: `EmitMixin.WrapperWarn` restores the saved handler before anything can call the filter. So the model only records what the filter would forward to. Vue's warning pipeline and `setDevtoolsHook`'s own buffering are external.
- The arguments of an emission are copied into a new array (`[...args]`). The model treats them as a value sequence, so a copy equals the original element-wise.
- src/utils.ts (`pascalCase`) is a composition of lodash functions, whose word splitting is not part of this model.
- The stub resolver, the mount entry point and rollup.config.js are outside the modelled files.

## Findings

| source | as written | input that shows it | evidently intended | confidence | as-written member | corrected member |
|---|---|---|---|---|---|---|
| src/emitMixin.ts:31-35 | `events` is a plain `{}`, so `events[event]` is truthy for a name inherited from `Object.prototype`, and spreading the inherited member throws a TypeError | a component emits an event named `constructor` (or `toString`, `valueOf`, ...) | the first emission of any name creates a one-entry list under that name | medium, not executed | `EmitMixin.ConstructorEventIsNotRecorded` | `EmitMixin.Record` |
| src/dom-wrapper.ts:23-29 | `attributeMap` is a plain `{}`, so `attributes(key)` for an undefined attribute named like an `Object.prototype` member returns that inherited function instead of `undefined` | `attributes('toString')` on an element with no attributes | the value of the attribute with that name, or `undefined` when no attribute has it | medium, not executed | `DomWrapper.InheritedAttributeShowsThrough` | `DomWrapper.DOMWrapper.Attributes` |
