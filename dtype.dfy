/** The part of the type system that overload resolution relies on. The
    classifier of runtime values, the subtype test and the lookup of a type by
    its name come from MindSpore's dtype module, which is defined outside
    base.py; they are given here as an oracle of function values over an
    abstract type `T`. */
module Dtype {
  import opened Errors

  /** `dtypeOf` classifies a runtime value (get_py_obj_dtype), `isSubclass(t, d)`
      says whether type `t` satisfies descriptor `d` (issubclass_), and
      `strToType` looks a type up by its name (str_to_type), which may fail. */
  datatype TypeOracle<!V, !T> = TypeOracle(
    dtypeOf: V -> T,
    isSubclass: (T, T) -> bool,
    strToType: string -> Result<T>)

  /** What a caller may pass to `register`: a type name, a type object, or
      any other Python object. */
  datatype Descriptor<T> =
    | TypeName(name: string)
    | TypeHandle(t: T)
    | NotAType

  /** Normalises one descriptor (convert_type). */
  function ConvertType<T>(d: Descriptor<T>, strToType: string -> Result<T>): (r: Result<T>)
    ensures d.TypeName? ==> r == strToType(d.name)
    ensures d.TypeHandle? ==> r == Ok(d.t)
    ensures d.NotAType? ==> r == Err(BadTypeDescriptor)
  {
    match d
    case TypeName(s) => strToType(s)
    case TypeHandle(t) => Ok(t)
    case NotAType => Err(BadTypeDescriptor)
  }

  /** Descriptor `k` is the first one that fails to convert, and it fails with `e`. */
  predicate FirstFailure<T>(ds: seq<Descriptor<T>>, strToType: string -> Result<T>, k: int, e: Error) {
    && 0 <= k < |ds|
    && ConvertType(ds[k], strToType) == Err(e)
    && forall j :: 0 <= j < k ==> ConvertType(ds[j], strToType).Ok?
  }

  /** Normalises a whole signature, in order; the first descriptor that fails
      decides the error. */
  function ConvertTypes<T>(ds: seq<Descriptor<T>>, strToType: string -> Result<T>): (r: Result<seq<T>>)
    ensures r.Ok? <==> forall k :: 0 <= k < |ds| ==> ConvertType(ds[k], strToType).Ok?
    ensures r.Ok? ==> |r.value| == |ds|
    ensures r.Ok? ==> forall k :: 0 <= k < |ds| ==> ConvertType(ds[k], strToType) == Ok(r.value[k])
    ensures r.Err? ==> exists k :: FirstFailure(ds, strToType, k, r.error)
  {
    if |ds| == 0 then Ok([])
    else
      match ConvertType(ds[0], strToType)
      case Err(e) =>
        assert FirstFailure(ds, strToType, 0, e);
        Err(e)
      case Ok(t) =>
        match ConvertTypes(ds[1..], strToType)
        case Err(e) =>
          ghost var k :| FirstFailure(ds[1..], strToType, k, e);
          assert FirstFailure(ds, strToType, k + 1, e);
          Err(e)
        case Ok(ts) => Ok([t] + ts)
  }

  /** The runtime types of a call's arguments. */
  function DtypesOf<V, T>(args: seq<V>, dtypeOf: V -> T): (r: seq<T>)
    ensures |r| == |args| && forall k :: 0 <= k < |args| ==> r[k] == dtypeOf(args[k])
  {
    seq(|args|, k requires 0 <= k < |args| => dtypeOf(args[k]))
  }
}
