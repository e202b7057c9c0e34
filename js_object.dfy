/** What a plain JavaScript object literal `{}` brings with it before anything is stored in it. */
module JsObject {

  /** The property names every `{}` inherits from `Object.prototype`. Reading one of them from an
      object that has no own property of that name yields the inherited member (a function, or the
      prototype object itself for `__proto__`): a truthy value, never `undefined`, and not iterable. */
  const ObjectPrototypeKeys: set<string> := {
    "constructor", "hasOwnProperty", "isPrototypeOf", "propertyIsEnumerable",
    "toLocaleString", "toString", "valueOf",
    "__defineGetter__", "__defineSetter__", "__lookupGetter__", "__lookupSetter__",
    "__proto__"
  }
}
