// Handler registration (`on`): one handler per event name, no unregistration.

module SwiperEvents {
  import opened SwiperTypes

  /**
   * The property names every plain object inherits from Object.prototype.
   * Looking one of them up on an empty object yields a truthy value.
   */
  const InheritedNames: set<string> := {
    "constructor", "hasOwnProperty", "isPrototypeOf", "propertyIsEnumerable",
    "toLocaleString", "toString", "valueOf", "__proto__",
    "__defineGetter__", "__defineSetter__", "__lookupGetter__", "__lookupSetter__"
  }

  /**
   * Registration as evidently intended: fail when this instance already has a
   * handler for `event`, or when `callback` is not a function; otherwise add
   * exactly one entry.
   */
  function Register(handlers: map<string, Callback>, event: string, callback: JsValue): (r: Result<map<string, Callback>>)
    ensures r.Err? <==> event in handlers || !callback.Callable?
    ensures event in handlers ==> r == Err(AlreadyRegistered(event))
    ensures event !in handlers && !callback.Callable? ==> r == Err(NotAFunction)
    ensures r.Ok? ==> r.value.Keys == handlers.Keys + {event} && r.value[event] == callback.f
    ensures r.Ok? ==> forall e :: e in handlers ==> r.value[e] == handlers[e]
  {
    if event in handlers then Err(AlreadyRegistered(event))
    else if !callback.Callable? then Err(NotAFunction)
    else Ok(handlers[event := callback.f])
  }

  /**
   * Registration as written: the duplicate test reads `handlers[event]` on a
   * plain object, so an inherited property name counts as registered.
   */
  function RegisterAsWritten(handlers: map<string, Callback>, event: string, callback: JsValue): (r: Result<map<string, Callback>>)
    ensures event in InheritedNames ==> r == Err(AlreadyRegistered(event))
    ensures event !in InheritedNames ==> r == Register(handlers, event, callback)
  {
    if event in handlers || event in InheritedNames then Err(AlreadyRegistered(event))
    else if !callback.Callable? then Err(NotAFunction)
    else Ok(handlers[event := callback.f])
  }

  /** The discrepancy: a first registration for "toString" is refused as a duplicate. */
  lemma InheritedNameRefused(f: Callback)
    ensures RegisterAsWritten(map[], "toString", Callable(f)) == Err(AlreadyRegistered("toString"))
    ensures Register(map[], "toString", Callable(f)) == Ok(map["toString" := f])
  {
  }
}
