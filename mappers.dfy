/** Map and HyperMap: apply an operation across aligned sequences, one level
    deep (Map) or down the nesting of the first data argument (HyperMap). */
module Mappers {
  import opened Errors

  /** The Python values the mappers look at: a tuple or list of values, or
      anything else (a leaf), including the callables themselves. */
  datatype SeqKind = Tuple | List
  datatype Value<A> = Leaf(a: A) | Seq(kind: SeqKind, items: seq<Value<A>>)

  /** Calling a Python object with positional arguments. A leaf is called
      through `apply`, which stands for whatever the object does when
      called (a registry, a primitive, a Python function); a tuple or list
      is not callable. */
  function Invoke<A>(func: Value<A>, args: seq<Value<A>>, apply: (A, seq<Value<A>>) -> Result<Value<A>>): (r: Result<Value<A>>) {
    match func
    case Leaf(a) => apply(a, args)
    case Seq(_, _) => Err(NotCallable)
  }

  /** Every data argument is a tuple or a list, so map() can iterate it. */
  predicate AllIterable<A>(data: seq<Value<A>>) {
    forall k :: 0 <= k < |data| ==> data[k].Seq?
  }

  /** The length map() stops at: the shortest data argument. */
  function MinLen<A>(data: seq<Value<A>>): (n: nat)
    requires |data| >= 1 && AllIterable(data)
    ensures forall k :: 0 <= k < |data| ==> n <= |data[k].items|
    ensures exists k :: 0 <= k < |data| && n == |data[k].items|
  {
    if |data| == 1 then |data[0].items|
    else
      var rest := MinLen(data[1..]);
      assert forall k :: 1 <= k < |data| ==> data[1..][k - 1] == data[k];
      if |data[0].items| <= rest then |data[0].items| else rest
  }

  /** Row `i`: element `i` of every data argument, in argument order. */
  function Row<A>(data: seq<Value<A>>, i: nat): (row: seq<Value<A>>)
    requires |data| >= 1 && AllIterable(data) && i < MinLen(data)
    ensures |row| == |data| && forall k :: 0 <= k < |data| ==> row[k] == data[k].items[i]
  {
    seq(|data|, k requires 0 <= k < |data| => data[k].items[i])
  }

  /** The results of a run of calls made one after another, gathered until
      the first exception. Every call is pure here, so computing all of them
      and reporting the first failure gives what stopping at it gives. */
  function Collect<T>(rs: seq<Result<T>>): (r: Result<seq<T>>)
    ensures r.Ok? <==> forall j :: 0 <= j < |rs| ==> rs[j].Ok?
    ensures r.Ok? ==> |r.value| == |rs| && forall j :: 0 <= j < |rs| ==> rs[j] == Ok(r.value[j])
    ensures r.Err? ==> exists j :: 0 <= j < |rs| && rs[j] == Err(r.error) && forall l :: 0 <= l < j ==> rs[l].Ok?
  {
    if |rs| == 0 then Ok([])
    else if rs[0].Err? then Err(rs[0].error)
    else
      match Collect(rs[1..])
      case Err(e) =>
        ghost var j :| 0 <= j < |rs[1..]| && rs[1..][j] == Err(e) && forall l :: 0 <= l < j ==> rs[1..][l].Ok?;
        assert rs[j + 1] == Err(e) && forall l :: 0 <= l < j + 1 ==> rs[l].Ok?;
        Err(e)
      case Ok(xs) => Ok([rs[0].value] + xs)
  }

  /** The calls map() makes: `func` on each row, up to the shortest argument. */
  function MapCalls<A>(func: Value<A>, data: seq<Value<A>>, apply: (A, seq<Value<A>>) -> Result<Value<A>>): (rs: seq<Result<Value<A>>>)
    requires |data| >= 1 && AllIterable(data)
    ensures |rs| == MinLen(data) && forall j :: 0 <= j < |rs| ==> rs[j] == Invoke(func, Row(data, j), apply)
  {
    seq(MinLen(data), j requires 0 <= j < MinLen(data) => Invoke(func, Row(data, j), apply))
  }

  /** tuple(map(func, *data)): map() first takes an iterator of every data
      argument, then calls `func` on row after row until the shortest
      argument runs out; the rows' results become a tuple. */
  function ZipMap<A>(func: Value<A>, data: seq<Value<A>>, apply: (A, seq<Value<A>>) -> Result<Value<A>>): (r: Result<Value<A>>)
    ensures |data| == 0 ==> r == Err(MapWithoutIterable)
    ensures |data| > 0 && !AllIterable(data) ==> r == Err(NotIterable)
    ensures |data| > 0 && AllIterable(data) ==>
      (r.Ok? <==> forall j :: 0 <= j < MinLen(data) ==> Invoke(func, Row(data, j), apply).Ok?)
    ensures r.Ok? ==> |data| > 0 && AllIterable(data) && r.value.Seq? && r.value.kind == Tuple
    ensures r.Ok? ==> |data| > 0 && AllIterable(data) && |r.value.items| == MinLen(data)
    ensures r.Ok? ==> (|data| > 0 && AllIterable(data) &&
                       forall j :: 0 <= j < MinLen(data) ==> Invoke(func, Row(data, j), apply) == Ok(r.value.items[j]))
    ensures r.Err? && |data| > 0 && AllIterable(data) ==>
      exists j :: 0 <= j < MinLen(data) && Invoke(func, Row(data, j), apply) == Err(r.error) &&
                  forall l :: 0 <= l < j ==> Invoke(func, Row(data, l), apply).Ok?
  {
    if |data| == 0 then Err(MapWithoutIterable)
    else if !AllIterable(data) then Err(NotIterable)
    else
      match Collect(MapCalls(func, data, apply))
      case Err(e) => Err(e)
      case Ok(xs) => Ok(Seq(Tuple, xs))
  }

  /** Map(ops): `ops` is the bound operation, or None when every call
      brings its operation as its first argument. */
  datatype Map<A> = Map(ops: Option<Value<A>>) {
    function Call(args: seq<Value<A>>, apply: (A, seq<Value<A>>) -> Result<Value<A>>): (r: Result<Value<A>>)
      ensures ops.None? && |args| == 0 ==> r == Err(MissingArgument)
      ensures ops.Some? && |args| == 0 ==> r == Err(MapWithoutIterable)
      ensures r.Ok? ==> r.value.Seq? && r.value.kind == Tuple
    {
      match ops
      case Some(func) => ZipMap(func, args, apply)
      case None => if |args| == 0 then Err(MissingArgument) else ZipMap(args[0], args[1..], apply)
    }
  }

  /** A Map built without an operation behaves, on a call whose first
      argument is `func`, as one bound to `func` does on the remaining
      arguments. */
  lemma MapUnboundTakesFirstArgument<A>(func: Value<A>, data: seq<Value<A>>, apply: (A, seq<Value<A>>) -> Result<Value<A>>)
    ensures Map(None).Call([func] + data, apply) == Map(Some(func)).Call(data, apply)
  {
    assert ([func] + data)[1..] == data;
  }

  /** HyperMap on the data arguments `data` with operation `func`: a leaf
      first argument means one call of `func`; a tuple or list means one
      recursive call per row, handing the same `func` down. */
  function HyperApply<A>(func: Value<A>, data: seq<Value<A>>, apply: (A, seq<Value<A>>) -> Result<Value<A>>): (r: Result<Value<A>>)
    requires |data| >= 1
    decreases data[0], 1
  {
    if !data[0].Seq? then Invoke(func, data, apply)
    else if !AllIterable(data) then Err(NotIterable)
    else
      match Collect(HyperCalls(func, data, apply))
      case Err(e) => Err(e)
      case Ok(xs) => Ok(Seq(Tuple, xs))
  }

  /** The recursive calls HyperMap makes, one per row up to the shortest
      argument. */
  function HyperCalls<A>(func: Value<A>, data: seq<Value<A>>, apply: (A, seq<Value<A>>) -> Result<Value<A>>)
    : (rs: seq<Result<Value<A>>>)
    requires |data| >= 1 && data[0].Seq? && AllIterable(data)
    decreases data[0], 0
  {
    seq(MinLen(data), j requires 0 <= j < MinLen(data) =>
      var row := Row(data, j);
      assert row[0] == data[0].items[j];
      HyperApply(func, row, apply))
  }

  /** One level of HyperMap: when the first data argument is not a tuple or
      list, the operation is called on all the data arguments; otherwise
      every data argument must be iterable, and the result is a tuple (never
      a list) of the recursive results row by row, as long as the shortest
      argument, raising what the first failing row raises. */
  lemma HyperApplyOutcome<A>(func: Value<A>, data: seq<Value<A>>, apply: (A, seq<Value<A>>) -> Result<Value<A>>)
    requires |data| >= 1
    ensures !data[0].Seq? ==> HyperApply(func, data, apply) == Invoke(func, data, apply)
    ensures data[0].Seq? && !AllIterable(data) ==> HyperApply(func, data, apply) == Err(NotIterable)
    ensures data[0].Seq? && AllIterable(data) ==>
      (HyperApply(func, data, apply).Ok? <==> forall j :: 0 <= j < MinLen(data) ==> HyperApply(func, Row(data, j), apply).Ok?)
    ensures data[0].Seq? && HyperApply(func, data, apply).Ok? ==>
      && AllIterable(data)
      && HyperApply(func, data, apply).value.Seq?
      && HyperApply(func, data, apply).value.kind == Tuple
      && |HyperApply(func, data, apply).value.items| == MinLen(data)
      && forall j :: 0 <= j < MinLen(data) ==>
           HyperApply(func, Row(data, j), apply) == Ok(HyperApply(func, data, apply).value.items[j])
    ensures data[0].Seq? && AllIterable(data) && HyperApply(func, data, apply).Err? ==>
      exists j :: 0 <= j < MinLen(data) && HyperApply(func, Row(data, j), apply) == Err(HyperApply(func, data, apply).error) &&
                  forall l :: 0 <= l < j ==> HyperApply(func, Row(data, l), apply).Ok?
  {
    if data[0].Seq? && AllIterable(data) {
      var rs := HyperCalls(func, data, apply);
      assert |rs| == MinLen(data);
      forall j | 0 <= j < MinLen(data)
        ensures rs[j] == HyperApply(func, Row(data, j), apply)
      {
      }
    }
  }

  /** `v` has the nesting of `ref` wherever `ref` is a tuple or list: the
      same kind of node with as many elements (what a data argument must
      look like for HyperMap not to truncate or raise). */
  predicate Conforms<A>(v: Value<A>, ref: Value<A>)
    decreases ref
  {
    ref.Seq? ==>
      && v.Seq?
      && |v.items| == |ref.items|
      && forall j :: 0 <= j < |ref.items| ==> Conforms(v.items[j], ref.items[j])
  }

  /** Every data argument has the nesting of the first one. */
  predicate Aligned<A>(data: seq<Value<A>>)
    requires |data| >= 1
  {
    forall k :: 0 <= k < |data| ==> Conforms(data[k], data[0])
  }

  /** `out` follows the nesting of `ref`: a tuple wherever `ref` has a tuple
      or list, holding at most (or, when `exact`, exactly) as many elements. */
  predicate Mirrors<A>(out: Value<A>, ref: Value<A>, exact: bool)
    decreases ref
  {
    ref.Seq? ==>
      && out.Seq?
      && out.kind == Tuple
      && (if exact then |out.items| == |ref.items| else |out.items| <= |ref.items|)
      && forall j :: 0 <= j < |out.items| ==> Mirrors(out.items[j], ref.items[j], exact)
  }

  /** With aligned arguments every data argument is as long as the first,
      and each row is aligned again. */
  lemma AlignedRows<A>(data: seq<Value<A>>)
    requires |data| >= 1 && data[0].Seq? && Aligned(data)
    ensures AllIterable(data) && MinLen(data) == |data[0].items|
    ensures forall j :: 0 <= j < MinLen(data) ==> Aligned(Row(data, j))
  {
    assert Conforms(data[0], data[0]);
    forall j | 0 <= j < MinLen(data)
      ensures Aligned(Row(data, j))
    {
      var row := Row(data, j);
      forall k | 0 <= k < |row|
        ensures Conforms(row[k], row[0])
      {
        assert Conforms(data[k], data[0]);
      }
    }
  }

  /** The output of HyperMap mirrors the nesting of the first data argument,
      with tuples in place of lists; aligned arguments lose no element on
      the way. */
  lemma {:induction false} HyperMapMirrorsFirst<A>(func: Value<A>, data: seq<Value<A>>, apply: (A, seq<Value<A>>) -> Result<Value<A>>)
    requires |data| >= 1 && HyperApply(func, data, apply).Ok?
    ensures Mirrors(HyperApply(func, data, apply).value, data[0], false)
    ensures Aligned(data) ==> Mirrors(HyperApply(func, data, apply).value, data[0], true)
    decreases data[0]
  {
    HyperApplyOutcome(func, data, apply);
    if data[0].Seq? {
      var out := HyperApply(func, data, apply).value;
      if Aligned(data) {
        AlignedRows(data);
      }
      forall j | 0 <= j < |out.items|
        ensures Mirrors(out.items[j], data[0].items[j], false)
        ensures Aligned(data) ==> Mirrors(out.items[j], data[0].items[j], true)
      {
        var row := Row(data, j);
        assert row[0] == data[0].items[j];
        HyperMapMirrorsFirst(func, row, apply);
      }
    }
  }

  /** HyperMap raises no shape error on aligned arguments: with an
      operation that never raises, it always returns. */
  lemma {:induction false} HyperMapAlignedSucceeds<A>(func: Value<A>, data: seq<Value<A>>, apply: (A, seq<Value<A>>) -> Result<Value<A>>)
    requires |data| >= 1 && Aligned(data)
    requires func.Leaf? && forall xs :: apply(func.a, xs).Ok?
    ensures HyperApply(func, data, apply).Ok?
    decreases data[0]
  {
    HyperApplyOutcome(func, data, apply);
    if data[0].Seq? {
      AlignedRows(data);
      forall j | 0 <= j < MinLen(data)
        ensures HyperApply(func, Row(data, j), apply).Ok?
      {
        var row := Row(data, j);
        assert row[0] == data[0].items[j];
        HyperMapAlignedSucceeds(func, row, apply);
      }
    }
  }

  /** On a first argument whose elements are all leaves, HyperMap does what
      Map does. */
  lemma HyperMapOnFlatIsMap<A>(func: Value<A>, data: seq<Value<A>>, apply: (A, seq<Value<A>>) -> Result<Value<A>>)
    requires |data| >= 1 && data[0].Seq?
    requires forall j :: 0 <= j < |data[0].items| ==> data[0].items[j].Leaf?
    ensures HyperApply(func, data, apply) == ZipMap(func, data, apply)
  {
    if AllIterable(data) {
      var hs := HyperCalls(func, data, apply);
      var ms := MapCalls(func, data, apply);
      forall j | 0 <= j < MinLen(data)
        ensures hs[j] == ms[j]
      {
        var row := Row(data, j);
        assert row[0] == data[0].items[j];
        HyperApplyOutcome(func, row, apply);
      }
      assert hs == ms;
    }
  }

  /** HyperMap(ops): `ops` is the bound operation, or None when every call
      brings its operation as its first argument. Either way the same
      operation is handed down to every level. */
  datatype HyperMap<A> = HyperMap(ops: Option<Value<A>>) {
    function Call(args: seq<Value<A>>, apply: (A, seq<Value<A>>) -> Result<Value<A>>): (r: Result<Value<A>>)
      ensures ops.Some? && |args| == 0 ==> r == Err(MissingArgument)
      ensures ops.None? && |args| <= 1 ==> r == Err(MissingArgument)
    {
      match ops
      case Some(func) => if |args| == 0 then Err(MissingArgument) else HyperApply(func, args, apply)
      case None => if |args| <= 1 then Err(MissingArgument) else HyperApply(args[0], args[1..], apply)
    }
  }

  /** A HyperMap built without an operation behaves, on a call whose first
      argument is `func`, as one bound to `func` does on the remaining
      arguments. */
  lemma HyperMapUnboundTakesFirstArgument<A>(func: Value<A>, data: seq<Value<A>>, apply: (A, seq<Value<A>>) -> Result<Value<A>>)
    ensures HyperMap(None).Call([func] + data, apply) == HyperMap(Some(func)).Call(data, apply)
  {
    assert ([func] + data)[1..] == data;
  }
}
