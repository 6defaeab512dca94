/** The add_flags and core decorators: they record boolean flags in the
    `_mindspore_flags` dict attribute of a function or cell object, for the
    graph compiler to read. */
module Flags {
  import opened Errors

  /** A Python dict of flags. It is an object of its own: several function
      objects can reach the same dict, for instance through a class
      attribute, and an update in place is seen by all of them. */
  class FlagDict {
    var m: map<string, bool>

    constructor (m: map<string, bool>)
      ensures this.m == m
    {
      this.m := m;
    }
  }

  /** A function or cell object as the decorators see it: the dict that the
      attribute lookup of `_mindspore_flags` finds (the object's own or one
      inherited from its class), null when there is none. */
  class FunctionObject {
    var mindsporeFlags: FlagDict?

    constructor ()
      ensures mindsporeFlags == null
    {
      mindsporeFlags := null;
    }
  }

  /** The flags dict after add_flags: created empty when missing, then
      updated with `flags`, so new keys win and untouched keys stay. */
  function MergedFlags(current: Option<map<string, bool>>, flags: map<string, bool>): (r: map<string, bool>)
    ensures current.None? ==> r.Keys == flags.Keys
    ensures current.Some? ==> r.Keys == current.value.Keys + flags.Keys
    ensures forall k :: k in flags ==> r[k] == flags[k]
    ensures current.Some? ==> forall k :: k in current.value && k !in flags ==> r[k] == current.value[k]
  {
    var existing := if current.Some? then current.value else map[];
    existing + flags
  }

  /** The flags dict after core: a new dict holding core=True and `flags`,
      an explicit `core` flag overriding the default; earlier flags are
      dropped. */
  function CoreFlags(flags: map<string, bool>): (r: map<string, bool>)
    ensures r.Keys == flags.Keys + {"core"}
    ensures r["core"] == ("core" !in flags || flags["core"])
    ensures forall k :: k in flags ==> r[k] == flags[k]
  {
    map["core" := true] + flags
  }

  /** What a decorator call without a function returns: the decorator,
      waiting for the function. */
  datatype Decorator = AddFlagsDecorator(flags: map<string, bool>) | CoreDecorator(flags: map<string, bool>)

  /** The value of add_flags(fn, **flags) or core(fn, **flags): the
      decorator when `fn` is None, otherwise `fn` itself, decorated. */
  datatype Decorated = Pending(deco: Decorator) | Done(fn: FunctionObject)

  /** deco(fn): applies a decorator to a function object and returns it.
      add_flags creates an empty dict when the lookup finds none and then
      updates the dict it finds in place; core binds a fresh dict and leaves
      the one found before untouched. */
  method Apply(deco: Decorator, fn: FunctionObject) returns (r: FunctionObject)
    modifies fn, fn.mindsporeFlags
    ensures r == fn && fn.mindsporeFlags != null
    ensures deco.AddFlagsDecorator? && old(fn.mindsporeFlags) != null ==>
      && fn.mindsporeFlags == old(fn.mindsporeFlags)
      && fn.mindsporeFlags.m == MergedFlags(Some(old(fn.mindsporeFlags.m)), deco.flags)
    ensures deco.AddFlagsDecorator? && old(fn.mindsporeFlags) == null ==>
      fresh(fn.mindsporeFlags) && fn.mindsporeFlags.m == MergedFlags(None, deco.flags)
    ensures deco.CoreDecorator? ==>
      fresh(fn.mindsporeFlags) && fn.mindsporeFlags.m == CoreFlags(deco.flags)
    ensures deco.CoreDecorator? && old(fn.mindsporeFlags) != null ==> unchanged(old(fn.mindsporeFlags))
  {
    match deco {
      case AddFlagsDecorator(flags) =>
        if fn.mindsporeFlags == null {
          fn.mindsporeFlags := new FlagDict(map[]);
        }
        fn.mindsporeFlags.m := fn.mindsporeFlags.m + flags;
      case CoreDecorator(flags) =>
        fn.mindsporeFlags := new FlagDict(map["core" := true] + flags);
    }
    r := fn;
  }

  /** add_flags(fn=None, **flags). */
  method AddFlags(fn: FunctionObject?, flags: map<string, bool>) returns (r: Decorated)
    modifies fn, if fn != null then fn.mindsporeFlags else null
    ensures fn == null ==> r == Pending(AddFlagsDecorator(flags))
    ensures fn != null ==> r == Done(fn) && fn.mindsporeFlags != null
    ensures fn != null && old(fn.mindsporeFlags) != null ==>
      && fn.mindsporeFlags == old(fn.mindsporeFlags)
      && fn.mindsporeFlags.m == MergedFlags(Some(old(fn.mindsporeFlags.m)), flags)
    ensures fn != null && old(fn.mindsporeFlags) == null ==>
      fresh(fn.mindsporeFlags) && fn.mindsporeFlags.m == MergedFlags(None, flags)
  {
    var deco := AddFlagsDecorator(flags);
    r := Pending(deco);
    if fn != null {
      var decorated := Apply(deco, fn);
      r := Done(decorated);
    }
  }

  /** core(fn=None, **flags). */
  method Core(fn: FunctionObject?, flags: map<string, bool>) returns (r: Decorated)
    modifies fn, if fn != null then fn.mindsporeFlags else null
    ensures fn == null ==> r == Pending(CoreDecorator(flags))
    ensures fn != null ==> r == Done(fn) && fn.mindsporeFlags != null
    ensures fn != null ==> fresh(fn.mindsporeFlags) && fn.mindsporeFlags.m == CoreFlags(flags)
    ensures fn != null && old(fn.mindsporeFlags) != null ==> unchanged(old(fn.mindsporeFlags))
  {
    var deco := CoreDecorator(flags);
    if fn != null {
      var decorated := Apply(deco, fn);
      r := Done(decorated);
    } else {
      r := Pending(deco);
    }
  }

  /** Adding the same flags twice leaves the dict as adding them once. */
  lemma AddFlagsIdempotent(current: Option<map<string, bool>>, flags: map<string, bool>)
    ensures MergedFlags(Some(MergedFlags(current, flags)), flags) == MergedFlags(current, flags)
  {
  }

  /** add_flags after core keeps the core mark unless it sets `core` itself. */
  lemma AddFlagsAfterCoreKeepsCore(coreFlags: map<string, bool>, flags: map<string, bool>)
    requires "core" !in flags
    ensures MergedFlags(Some(CoreFlags(coreFlags)), flags)["core"] == CoreFlags(coreFlags)["core"]
  {
  }
}
