/** The emission recorder (src/emitMixin.ts): a devtools hook that records every event a component
    emits into a per-mount log, keyed by event name, and the wrapper around the global warning
    output that is installed and restored around each recording. The framework's devtools hook and
    `console.warn` are single global slots, modelled as objects passed in. */
module EmitMixin {
  import opened Optional
  import JsObject

  /** The devtools hook type under which the framework reports an emitted event. */
  const COMPONENT_EMIT := "component:emit"

  /** The warning the filter installed by wrapperWarn swallows. */
  const EMITTED_WARNING := "[Vue warn]: Component emitted event"

  /** The recorded emissions: for each event name, the argument list of every emission, oldest first. */
  type EmittedLog<A> = map<string, seq<seq<A>>>

  /** The emissions recorded under `event` (none when the name was never emitted). */
  function Emitted<A>(log: EmittedLog<A>, event: string): seq<seq<A>>
  {
    if event in log then log[event] else []
  }

  /** recordEvent(events, event, args) on the log: one more argument list under `event`. */
  function Record<A>(log: EmittedLog<A>, event: string, args: seq<A>): (r: EmittedLog<A>)
    ensures r.Keys == log.Keys + {event}
    ensures Emitted(r, event) == Emitted(log, event) + [args]
    ensures event !in log ==> r[event] == [args]
    ensures forall k :: k != event ==> Emitted(r, k) == Emitted(log, k)
    ensures forall k :: k != event && k in log ==> r[k] == log[k]
  {
    log[event := Emitted(log, event) + [args]]
  }

  /** One emission as the hook sees it. */
  datatype Emission<A> = Emission(event: string, args: seq<A>)

  /** The log after recording `emissions` in order. */
  function RecordAll<A>(log: EmittedLog<A>, emissions: seq<Emission<A>>): EmittedLog<A>
    decreases |emissions|
  {
    if emissions == [] then log
    else RecordAll(Record(log, emissions[0].event, emissions[0].args), emissions[1..])
  }

  /** The argument lists of the emissions named `event`, in emission order. */
  function ArgsNamed<A>(emissions: seq<Emission<A>>, event: string): seq<seq<A>>
  {
    if emissions == [] then []
    else (if emissions[0].event == event then [emissions[0].args] else []) + ArgsNamed(emissions[1..], event)
  }

  /** Recording a run of emissions leaves under each name exactly the emissions with that name, in
      the order they happened, after whatever was there before. */
  lemma {:induction false} RecordAllGroupsByName<A>(log: EmittedLog<A>, emissions: seq<Emission<A>>, event: string)
    ensures Emitted(RecordAll(log, emissions), event) == Emitted(log, event) + ArgsNamed(emissions, event)
    decreases |emissions|
  {
    if emissions != [] {
      var e := emissions[0];
      RecordAllGroupsByName(Record(log, e.event, e.args), emissions[1..], event);
    }
  }

  /** The names in the log after a run of emissions are the names it had plus those emitted. */
  lemma {:induction false} RecordAllKeys<A>(log: EmittedLog<A>, emissions: seq<Emission<A>>)
    ensures RecordAll(log, emissions).Keys == log.Keys + set i | 0 <= i < |emissions| :: emissions[i].event
    decreases |emissions|
  {
    if emissions != [] {
      var e := emissions[0];
      RecordAllKeys(Record(log, e.event, e.args), emissions[1..]);
      assert forall i :: 0 <= i < |emissions[1..]| ==> emissions[1..][i] == emissions[i + 1];
      assert (set i | 0 <= i < |emissions| :: emissions[i].event)
          == {e.event} + set i | 0 <= i < |emissions[1..]| :: emissions[1..][i].event;
    }
  }

  /** Emitting `a`, then `b`, then `a` again records two emissions under `a` and one under `b`. */
  lemma EmitABA<A>(x: A, y: A, z: A)
    ensures var log := RecordAll(map[], [Emission("a", [x]), Emission("b", [y]), Emission("a", [z])]);
            Emitted(log, "a") == [[x], [z]] && Emitted(log, "b") == [[y]]
  {
    var es := [Emission("a", [x]), Emission("b", [y]), Emission("a", [z])];
    assert es[1..] == [Emission("b", [y]), Emission("a", [z])] && es[1..][1..] == [Emission("a", [z])];
    assert ArgsNamed(es[1..][1..], "a") == [[z]] && ArgsNamed(es[1..][1..], "b") == [];
    assert ArgsNamed(es[1..], "a") == [[z]] && ArgsNamed(es[1..], "b") == [[y]];
    RecordAllGroupsByName(map[], es, "a");
    RecordAllGroupsByName(map[], es, "b");
  }

  /** recordEvent AS WRITTEN: `events` is a plain `{}`, so for a name inherited from
      `Object.prototype` the truthiness test succeeds on the inherited member, and spreading that
      member throws because it is not iterable. */
  datatype RecordOutcome<A> = Recorded(log: EmittedLog<A>) | NotIterable(event: string)

  function RecordEventAsWritten<A>(log: EmittedLog<A>, event: string, args: seq<A>): (r: RecordOutcome<A>)
    ensures r.NotIterable? <==> event !in log && event in JsObject.ObjectPrototypeKeys
  {
    if event in log then Recorded(log[event := log[event] + [args]])
    else if event in JsObject.ObjectPrototypeKeys then NotIterable(event)
    else Recorded(log[event := [args]])
  }

  /** The discrepancy: the first emission of an event named `constructor` throws instead of being
      recorded, while the corrected Record creates a one-entry list. */
  lemma ConstructorEventIsNotRecorded<A>(args: seq<A>)
    ensures RecordEventAsWritten(map[], "constructor", args) == NotIterable("constructor")
    ensures Emitted(Record(map[], "constructor", args), "constructor") == [args]
  {
  }

  /** For every other name the source's recordEvent and Record agree. */
  lemma RecordEventAsWrittenAgrees<A>(log: EmittedLog<A>, event: string, args: seq<A>)
    requires event !in JsObject.ObjectPrototypeKeys
    ensures RecordEventAsWritten(log, event, args) == Recorded(Record(log, event, args))
  {
  }

  /** One argument of a devtools hook call: a name, an argument list or any other value (the root
      component and the emitting instance). */
  datatype HookArg<A> = Name(name: string) | ArgList(args: seq<A>) | Opaque(value: A)

  /** The shape the framework gives a `component:emit` call: root, instance, event name, arguments. */
  predicate IsEmitPayload<A>(payload: seq<HookArg<A>>)
  {
    |payload| >= 4 && payload[2].Name? && payload[3].ArgList?
  }

  /** The emission a hook call reports: none unless its type is `component:emit`, and then the
      third payload entry as the name and the fourth as the arguments. */
  function HookEmission<A>(hookType: string, payload: seq<HookArg<A>>): (r: Option<Emission<A>>)
    requires hookType == COMPONENT_EMIT ==> IsEmitPayload(payload)
    ensures r.None? <==> hookType != COMPONENT_EMIT
    ensures r.Some? ==> r.value.event == payload[2].name && r.value.args == payload[3].args
  {
    if hookType != COMPONENT_EMIT then None else Some(Emission(payload[2].name, payload[3].args))
  }

  /** A value of the global `console.warn` slot: some function installed by someone else, or the
      filter wrapperWarn builds, which drops messages containing `substring` and hands every other
      message to `fallback`. */
  datatype WarnHandler = Handler(id: nat) | Filter(substring: string, fallback: WarnHandler)

  /** The global `console`. */
  class Console {
    var warn: WarnHandler

    constructor (warn: WarnHandler)
      ensures this.warn == warn
    {
      this.warn := warn;
    }
  }

  /** wrapperWarn(): saves `console.warn`, installs the filter in its place, and puts the saved
      handler back. */
  method WrapperWarn(console: Console)
    modifies console`warn
    ensures console.warn == old(console.warn)
  {
    var consoleWarnSave := console.warn;
    console.warn := Filter(EMITTED_WARNING, consoleWarnSave);
    console.warn := consoleWarnSave;
  }

  /** The `events` object of one mount, shared by `vm.__emitted` and the hook that records into it. */
  class Events<A> {
    var log: EmittedLog<A>

    constructor ()
      ensures log == map[]
    {
      log := map[];
    }

    /** recordEvent(events, event, args): replaces the list under `event` by a copy extended with
        the arguments, or starts it with them. */
    method RecordEvent(event: string, args: seq<A>)
      modifies this`log
      ensures log == Record(old(log), event, args)
    {
      if event in log {
        log := log[event := log[event] + [args]];
      } else {
        log := log[event := [args]];
      }
    }
  }

  /** The hook createDevTools(events) returns. */
  class DevTools<A> {
    const events: Events<A>

    constructor (events: Events<A>)
      ensures this.events == events
    {
      this.events := events;
    }

    /** emit(type, ...payload): ignores every hook type but `component:emit`; for that one records
        the reported emission and runs wrapperWarn, which leaves `console.warn` as it found it. */
    method Emit(console: Console, hookType: string, payload: seq<HookArg<A>>)
      requires hookType == COMPONENT_EMIT ==> IsEmitPayload(payload)
      modifies events`log, console`warn
      ensures match HookEmission(hookType, payload)
              case None => events.log == old(events.log)
              case Some(e) => events.log == Record(old(events.log), e.event, e.args)
      ensures console.warn == old(console.warn)
    {
      if hookType != COMPONENT_EMIT {
        return;
      }
      events.RecordEvent(payload[2].name, payload[3].args);
      WrapperWarn(console);
    }
  }

  /** A mounted component instance, as far as the recorder touches it: its `__emitted` slot. */
  class ComponentInstance<A> {
    var emitted: Events?<A>

    constructor ()
      ensures emitted == null
    {
      emitted := null;
    }
  }

  /** The framework's single global devtools hook, set by `setDevtoolsHook`. */
  class HookSlot<A> {
    var hook: DevTools?<A>

    constructor ()
      ensures hook == null
    {
      hook := null;
    }
  }

  /** attachEmitListener(vm): gives the instance a fresh, empty log and replaces the global hook by
      a new one that records into that same log. */
  method AttachEmitListener<A>(vm: ComponentInstance<A>, slot: HookSlot<A>)
    modifies vm`emitted, slot`hook
    ensures vm.emitted != null && fresh(vm.emitted) && vm.emitted.log == map[]
    ensures slot.hook != null && fresh(slot.hook) && slot.hook.events == vm.emitted
  {
    var events := new Events<A>();
    vm.emitted := events;
    slot.hook := new DevTools(events);
  }

  /** Mounting a second component detaches the first one's recorder: an emission reported after
      the second mount lands in the second log only. */
  method SecondMountTakesOverHook<A>(first: ComponentInstance<A>, second: ComponentInstance<A>,
                                     slot: HookSlot<A>, console: Console, payload: seq<HookArg<A>>)
    requires first != second && IsEmitPayload(payload)
    modifies first`emitted, second`emitted, slot`hook, console`warn
    ensures first.emitted != null && first.emitted.log == map[]
    ensures second.emitted != null && second.emitted.log == map[payload[2].name := [payload[3].args]]
    ensures console.warn == old(console.warn)
  {
    AttachEmitListener(first, slot);
    AttachEmitListener(second, slot);
    slot.hook.Emit(console, COMPONENT_EMIT, payload);
  }
}
