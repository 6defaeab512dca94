/** MultitypeFuncGraph: a named table of (signature, implementation) entries
    that resolves each call to the earliest entry whose signature accepts the
    runtime types of the arguments. */
module Registry {
  import opened Errors
  import opened Dtype

  /** One registered overload: the normalised signature and the implementation. */
  datatype Entry<T, F> = Entry(sigs: seq<T>, fn: F)

  /** An entry accepts a call when it has one descriptor per argument and
      every argument's type is a subtype of the matching descriptor. */
  predicate Accepts<T>(sigs: seq<T>, types: seq<T>, isSubclass: (T, T) -> bool) {
    |sigs| == |types| && forall k :: 0 <= k < |sigs| ==> isSubclass(types[k], sigs[k])
  }

  /** The scan of the entries from index `from` on: the first accepting index. */
  function FirstAccepting<T, F>(entries: seq<Entry<T, F>>, types: seq<T>, isSubclass: (T, T) -> bool, from: nat): (r: Option<nat>)
    requires from <= |entries|
    ensures r.Some? ==> from <= r.value < |entries|
    decreases |entries| - from
  {
    if from == |entries| then None
    else if Accepts(entries[from].sigs, types, isSubclass) then Some(from)
    else FirstAccepting(entries, types, isSubclass, from + 1)
  }

  /** The entry a call with argument types `types` resolves to, when the
      table does not take the single-entry fast path. */
  function Select<T, F>(entries: seq<Entry<T, F>>, types: seq<T>, isSubclass: (T, T) -> bool): (r: Option<nat>) {
    FirstAccepting(entries, types, isSubclass, 0)
  }

  /** The entry a call is dispatched to, fast path included: the only entry
      of a one-entry table whatever the types, otherwise the scan's choice. */
  function Dispatch<T, F>(entries: seq<Entry<T, F>>, types: seq<T>, isSubclass: (T, T) -> bool): (r: Option<nat>)
    ensures r.Some? ==> r.value < |entries|
  {
    if |entries| == 1 then Some(0) else Select(entries, types, isSubclass)
  }

  /** `i` is the earliest accepting entry. */
  predicate IsFirstMatch<T, F>(entries: seq<Entry<T, F>>, types: seq<T>, isSubclass: (T, T) -> bool, i: nat) {
    && i < |entries|
    && Accepts(entries[i].sigs, types, isSubclass)
    && forall j :: 0 <= j < i ==> !Accepts(entries[j].sigs, types, isSubclass)
  }

  lemma {:induction false} FirstAcceptingSpec<T, F>(entries: seq<Entry<T, F>>, types: seq<T>, isSubclass: (T, T) -> bool, from: nat)
    requires from <= |entries|
    requires forall j :: 0 <= j < from ==> !Accepts(entries[j].sigs, types, isSubclass)
    ensures match FirstAccepting(entries, types, isSubclass, from)
      case Some(i) => IsFirstMatch(entries, types, isSubclass, i)
      case None => forall j :: 0 <= j < |entries| ==> !Accepts(entries[j].sigs, types, isSubclass)
    decreases |entries| - from
  {
    if from < |entries| && !Accepts(entries[from].sigs, types, isSubclass) {
      FirstAcceptingSpec(entries, types, isSubclass, from + 1);
    }
  }

  /** Resolution is first-match in registration order: it picks entry `i`
      exactly when `i` accepts and no earlier entry does, and it finds
      nothing exactly when no entry accepts. */
  lemma SelectIsFirstMatch<T, F>(entries: seq<Entry<T, F>>, types: seq<T>, isSubclass: (T, T) -> bool)
    ensures forall i: nat :: Select(entries, types, isSubclass) == Some(i) <==> IsFirstMatch(entries, types, isSubclass, i)
    ensures Select(entries, types, isSubclass).None? <==>
      forall j :: 0 <= j < |entries| ==> !Accepts(entries[j].sigs, types, isSubclass)
  {
    FirstAcceptingSpec(entries, types, isSubclass, 0);
  }

  /** An entry whose signature length differs from the argument count is
      never chosen by the scan, nor by the dispatch unless the table has
      exactly one entry. */
  lemma ArityMismatchNeverSelected<T, F>(entries: seq<Entry<T, F>>, types: seq<T>, isSubclass: (T, T) -> bool, i: nat)
    requires i < |entries| && |entries[i].sigs| != |types|
    ensures Select(entries, types, isSubclass) != Some(i)
    ensures |entries| != 1 ==> Dispatch(entries, types, isSubclass) != Some(i)
  {
    SelectIsFirstMatch(entries, types, isSubclass);
  }

  /** Shadowing: an entry that accepts the call is never reached when an
      earlier entry accepts it too. */
  lemma ShadowedEntryNeverSelected<T, F>(entries: seq<Entry<T, F>>, types: seq<T>, isSubclass: (T, T) -> bool, i: nat, j: nat)
    requires i < j < |entries|
    requires Accepts(entries[i].sigs, types, isSubclass)
    ensures Select(entries, types, isSubclass) != Some(j)
    ensures Select(entries, types, isSubclass).Some?
  {
    SelectIsFirstMatch(entries, types, isSubclass);
  }

  /** On the scan alone, appending an entry never changes a resolution the
      earlier entries already decide; the new entry is reached only when none
      of them accepts the call and it does. */
  lemma {:induction false} SelectAfterAppend<T, F>(entries: seq<Entry<T, F>>, e: Entry<T, F>, types: seq<T>, isSubclass: (T, T) -> bool)
    ensures Select(entries + [e], types, isSubclass) ==
      if Select(entries, types, isSubclass).Some? then Select(entries, types, isSubclass)
      else if Accepts(e.sigs, types, isSubclass) then Some(|entries|)
      else None
  {
    SelectIsFirstMatch(entries, types, isSubclass);
    SelectIsFirstMatch(entries + [e], types, isSubclass);
    var grown := entries + [e];
    assert forall j :: 0 <= j < |entries| ==> grown[j] == entries[j];
    assert grown[|entries|] == e;
  }

  /** How registering one more entry changes dispatch. The first entry of
      an empty table is reached whatever the argument types. The second
      entry ends the fast path: the first entry is then reached only when it
      accepts the types, so a call it used to take without checking may now
      go to the new entry or raise ValueError. From two entries on, the
      earlier entries keep every call they decide. */
  lemma DispatchAfterAppend<T, F>(entries: seq<Entry<T, F>>, e: Entry<T, F>, types: seq<T>, isSubclass: (T, T) -> bool)
    ensures |entries| == 0 ==> Dispatch(entries + [e], types, isSubclass) == Some(0)
    ensures |entries| == 1 ==> Dispatch(entries, types, isSubclass) == Some(0)
    ensures |entries| == 1 ==>
      Dispatch(entries + [e], types, isSubclass) ==
        if Accepts(entries[0].sigs, types, isSubclass) then Some(0)
        else if Accepts(e.sigs, types, isSubclass) then Some(1)
        else None
    ensures |entries| >= 2 ==>
      Dispatch(entries + [e], types, isSubclass) ==
        if Dispatch(entries, types, isSubclass).Some? then Dispatch(entries, types, isSubclass)
        else if Accepts(e.sigs, types, isSubclass) then Some(|entries|)
        else None
  {
    SelectAfterAppend(entries, e, types, isSubclass);
    if |entries| == 1 {
      SelectIsFirstMatch(entries, types, isSubclass);
    }
  }

  class MultitypeFuncGraph<T, F> {
    const name: string
    var entries: seq<Entry<T, F>>

    /** A fresh, empty table. */
    constructor (name: string)
      ensures this.name == name && entries == []
    {
      this.name := name;
      entries := [];
    }

    /** register(*type_names)(fn): normalises the descriptors and, when all
        of them convert, appends one entry at the end and hands back `fn`.
        There is no duplicate check. A failed conversion leaves the table as
        it was. */
    method Register<V>(typeNames: seq<Descriptor<T>>, fn: F, oracle: TypeOracle<V, T>) returns (r: Result<F>)
      modifies this
      ensures ConvertTypes(typeNames, oracle.strToType).Ok? ==>
        && r == Ok(fn)
        && entries == old(entries) + [Entry(ConvertTypes(typeNames, oracle.strToType).value, fn)]
      ensures ConvertTypes(typeNames, oracle.strToType).Err? ==>
        && r == Err(ConvertTypes(typeNames, oracle.strToType).error)
        && entries == old(entries)
    {
      var converted := ConvertTypes(typeNames, oracle.strToType);
      if converted.Err? {
        return Err(converted.error);
      }
      entries := entries + [Entry(converted.value, fn)];
      r := Ok(fn);
    }

    /** __call__(*args): with exactly one entry, that entry is invoked
        without looking at the argument types; otherwise the entries are
        scanned in registration order and the first one that accepts the
        argument types is invoked; with none, ValueError. */
    method Call<V>(args: seq<V>, oracle: TypeOracle<V, T>, invoke: (F, seq<V>) -> Result<V>) returns (r: Result<V>)
      ensures r == match Dispatch(entries, DtypesOf(args, oracle.dtypeOf), oracle.isSubclass)
                   case Some(i) => invoke(entries[i].fn, args)
                   case None => Err(NoMatchingFn)
      ensures |entries| == 1 ==> r == invoke(entries[0].fn, args)
      ensures |entries| != 1 ==>
        var types := DtypesOf(args, oracle.dtypeOf);
        forall i: nat :: IsFirstMatch(entries, types, oracle.isSubclass, i) ==> r == invoke(entries[i].fn, args)
      ensures |entries| != 1 ==>
        var types := DtypesOf(args, oracle.dtypeOf);
        (forall j :: 0 <= j < |entries| ==> !Accepts(entries[j].sigs, types, oracle.isSubclass)) ==> r == Err(NoMatchingFn)
    {
      if |entries| == 1 {
        r := invoke(entries[0].fn, args);
        return;
      }
      var types := DtypesOf(args, oracle.dtypeOf);
      var i := 0;
      while i < |entries|
        invariant 0 <= i <= |entries|
        invariant forall j :: 0 <= j < i ==> !Accepts(entries[j].sigs, types, oracle.isSubclass)
      {
        var sigs := entries[i].sigs;
        if |sigs| != |types| {
          i := i + 1;
          continue;
        }
        if exists k :: 0 <= k < |sigs| && !oracle.isSubclass(types[k], sigs[k]) {
          i := i + 1;
          continue;
        }
        r := invoke(entries[i].fn, args);
        assert IsFirstMatch(entries, types, oracle.isSubclass, i);
        SelectIsFirstMatch(entries, types, oracle.isSubclass);
        return;
      }
      r := Err(NoMatchingFn);
      SelectIsFirstMatch(entries, types, oracle.isSubclass);
    }
  }
}
