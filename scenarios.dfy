/** Worked examples on concrete values: first-match dispatch and shadowing,
    element-wise Map with truncation, nested HyperMap, the error raised when
    HyperMap meets a leaf where it expects a sequence, and the decorators on
    a flag dict shared by two function objects. */
module Scenarios {
  import opened Errors
  import opened Dtype
  import opened Registry
  import opened Mappers
  import opened Flags

  /** A small type lattice: Number covers Int and Float. */
  datatype Kind = Number | Int | Float | Tensor | Sequence

  predicate IsSubclass(t: Kind, d: Kind) {
    t == d || (d == Number && (t == Int || t == Float))
  }

  /** Negative payloads stand for tensors, the others for Python ints. */
  function KindOf(v: Value<int>): Kind {
    if v.Seq? then Sequence else if v.a < 0 then Tensor else Int
  }

  function KindNamed(s: string): Result<Kind> {
    if s == "Number" then Ok(Number)
    else if s == "Int" then Ok(Int)
    else if s == "Tensor" then Ok(Tensor)
    else Err(UnknownTypeName)
  }

  /** Implementation `f` called on `args` answers `f`, so a result tells
      which entry ran. */
  function Which(f: int, args: seq<Value<int>>): Result<Value<int>> {
    Ok(Leaf(f))
  }

  /** How the three signatures of the scenario below normalise. */
  lemma ScenarioSignatures()
    ensures ConvertTypes([TypeName("Number"), TypeName("Number")], KindNamed) == Ok([Number, Number])
    ensures ConvertTypes([TypeName("Int"), TypeHandle(Int)], KindNamed) == Ok([Int, Int])
    ensures ConvertTypes([TypeName("Int"), NotAType], KindNamed) == Err(BadTypeDescriptor)
  {
    var numNum: seq<Descriptor<Kind>> := [TypeName("Number"), TypeName("Number")];
    assert ConvertType(numNum[0], KindNamed) == Ok(Number);
    assert ConvertType(numNum[1], KindNamed) == Ok(Number);
    var r1 := ConvertTypes(numNum, KindNamed);
    assert r1.Ok? && |r1.value| == 2 && r1.value[0] == Number && r1.value[1] == Number;
    assert r1.value == [Number, Number];
    var intInt: seq<Descriptor<Kind>> := [TypeName("Int"), TypeHandle(Int)];
    assert ConvertType(intInt[0], KindNamed) == Ok(Int);
    assert ConvertType(intInt[1], KindNamed) == Ok(Int);
    var r2 := ConvertTypes(intInt, KindNamed);
    assert r2.Ok? && |r2.value| == 2 && r2.value[0] == Int && r2.value[1] == Int;
    assert r2.value == [Int, Int];
    var bad: seq<Descriptor<Kind>> := [TypeName("Int"), NotAType];
    assert ConvertType(bad[0], KindNamed) == Ok(Int);
    assert ConvertType(bad[1], KindNamed) == Err(BadTypeDescriptor);
  }

  /** Registering ("Number", "Number") before ("Int", "Int") makes the
      second entry unreachable for two integers; a bad descriptor leaves the
      table alone. */
  method ShadowingScenario() {
    var oracle := TypeOracle(KindOf, IsSubclass, KindNamed);
    var add := new MultitypeFuncGraph<Kind, int>("add");
    ScenarioSignatures();
    var r := add.Register([TypeName("Number"), TypeName("Number")], 1, oracle);
    assert r == Ok(1);
    r := add.Register([TypeName("Int"), TypeHandle(Int)], 2, oracle);
    assert add.entries == [Entry([Number, Number], 1), Entry([Int, Int], 2)];
    r := add.Register([TypeName("Int"), NotAType], 3, oracle);
    assert r == Err(BadTypeDescriptor) && |add.entries| == 2;

    var args := [Leaf(1), Leaf(2)];
    assert DtypesOf(args, KindOf) == [Int, Int];
    assert IsFirstMatch(add.entries, [Int, Int], IsSubclass, 0);
    var out := add.Call(args, oracle, Which);
    assert out == Ok(Leaf(1));
  }

  /** A call that no entry of a two-entry table accepts raises ValueError. */
  method NoMatchScenario() {
    var oracle := TypeOracle(KindOf, IsSubclass, KindNamed);
    var add := new MultitypeFuncGraph<Kind, int>("add");
    ScenarioSignatures();
    var r := add.Register([TypeName("Number"), TypeName("Number")], 1, oracle);
    r := add.Register([TypeName("Int"), TypeHandle(Int)], 2, oracle);
    assert add.entries == [Entry([Number, Number], 1), Entry([Int, Int], 2)];
    var tensorAndInt: seq<Value<int>> := [Leaf(-1), Leaf(2)];
    assert DtypesOf(tensorAndInt, KindOf) == [Tensor, Int];
    assert !Accepts(add.entries[0].sigs, [Tensor, Int], IsSubclass);
    assert !Accepts(add.entries[1].sigs, [Tensor, Int], IsSubclass);
    var out := add.Call(tensorAndInt, oracle, Which);
    assert out == Err(NoMatchingFn);
  }

  /** With one entry the table calls it whatever the arguments. */
  method SingleEntryScenario() {
    var oracle := TypeOracle(KindOf, IsSubclass, KindNamed);
    var square := new MultitypeFuncGraph<Kind, int>("square");
    var r := square.Register([TypeName("Tensor")], 7, oracle);
    var out := square.Call([Leaf(1), Leaf(2), Leaf(3)], oracle, Which);
    assert out == Ok(Leaf(7));
  }

  /** Operation 0 multiplies two leaves, operation 1 squares one. */
  function Arith(op: int, xs: seq<Value<int>>): Result<Value<int>> {
    if op == 0 && |xs| == 2 && xs[0].Leaf? && xs[1].Leaf? then Ok(Leaf(xs[0].a * xs[1].a))
    else if op == 1 && |xs| == 1 && xs[0].Leaf? then Ok(Leaf(xs[0].a * xs[0].a))
    else Err(Raised(0))
  }

  function Ints(xs: seq<int>): (r: Value<int>)
    ensures r.Seq? && r.kind == Tuple && |r.items| == |xs|
    ensures forall j :: 0 <= j < |xs| ==> r.items[j] == Leaf(xs[j])
  {
    Seq(Tuple, seq(|xs|, j requires 0 <= j < |xs| => Leaf(xs[j])))
  }

  lemma MapMultipliesElementwise()
    ensures Map(Some(Leaf(0))).Call([Ints([2, 3, 4]), Ints([10, 10, 10])], Arith) == Ok(Ints([20, 30, 40]))
  {
    var data := [Ints([2, 3, 4]), Ints([10, 10, 10])];
    assert MinLen(data) == 3;
    var r := ZipMap(Leaf(0), data, Arith);
    forall j | 0 <= j < 3
      ensures Invoke(Leaf(0), Row(data, j), Arith) == Ok(Ints([20, 30, 40]).items[j])
    {
      assert Row(data, j) == [Leaf([2, 3, 4][j]), Leaf(10)];
    }
    assert r.value.items == Ints([20, 30, 40]).items;
  }

  lemma MapTruncatesToShortest()
    ensures Map(None).Call([Leaf(0), Ints([1, 2, 3]), Ints([1, 2])], Arith) == Ok(Ints([1, 4]))
  {
    var data := [Ints([1, 2, 3]), Ints([1, 2])];
    assert [Leaf(0), Ints([1, 2, 3]), Ints([1, 2])][1..] == data;
    assert MinLen(data) == 2;
    forall j | 0 <= j < 2
      ensures Invoke(Leaf(0), Row(data, j), Arith) == Ok(Ints([1, 4]).items[j])
    {
      assert Row(data, j) == [Leaf([1, 2, 3][j]), Leaf([1, 2][j])];
    }
    assert ZipMap(Leaf(0), data, Arith).value.items == Ints([1, 4]).items;
  }

  function Squares(xs: seq<int>): (r: seq<int>)
    ensures |r| == |xs| && forall j :: 0 <= j < |xs| ==> r[j] == xs[j] * xs[j]
  {
    seq(|xs|, j requires 0 <= j < |xs| => xs[j] * xs[j])
  }

  lemma HyperMapSquaresFlat(xs: seq<int>)
    ensures HyperApply(Leaf(1), [Ints(xs)], Arith) == Ok(Ints(Squares(xs)))
  {
    var data := [Ints(xs)];
    HyperMapOnFlatIsMap(Leaf(1), data, Arith);
    assert MinLen(data) == |xs|;
    forall j | 0 <= j < |xs|
      ensures Invoke(Leaf(1), Row(data, j), Arith) == Ok(Ints(Squares(xs)).items[j])
    {
      assert Row(data, j) == [Leaf(xs[j])];
    }
    assert ZipMap(Leaf(1), data, Arith).value.items == Ints(Squares(xs)).items;
  }

  lemma HyperMapSquaresNested()
    ensures HyperMap(Some(Leaf(1))).Call([Seq(Tuple, [Ints([1, 2]), Ints([3, 4])])], Arith)
         == Ok(Seq(Tuple, [Ints([1, 4]), Ints([9, 16])]))
  {
    var nested := Seq(Tuple, [Ints([1, 2]), Ints([3, 4])]);
    var expected := [Ints([1, 4]), Ints([9, 16])];
    HyperApplyOutcome(Leaf(1), [nested], Arith);
    assert MinLen([nested]) == 2;
    assert Row([nested], 0) == [Ints([1, 2])];
    assert Row([nested], 1) == [Ints([3, 4])];
    HyperMapSquaresFlat([1, 2]);
    HyperMapSquaresFlat([3, 4]);
    assert Squares([1, 2]) == [1, 4];
    assert Squares([3, 4]) == [9, 16];
    assert HyperApply(Leaf(1), [nested], Arith).value.items == expected;
  }

  /** ((1, 2), 3) against (1, 2, 3): the first row pairs the tuple (1, 2)
      with the leaf 1, and map() cannot iterate the leaf. */
  lemma HyperMapLeafAgainstTupleRaises()
    ensures HyperMap(None).Call([Leaf(0), Seq(Tuple, [Ints([1, 2]), Leaf(3)]), Ints([1, 2, 3])], Arith) == Err(NotIterable)
  {
    var data := [Seq(Tuple, [Ints([1, 2]), Leaf(3)]), Ints([1, 2, 3])];
    assert [Leaf(0), Seq(Tuple, [Ints([1, 2]), Leaf(3)]), Ints([1, 2, 3])][1..] == data;
    HyperApplyOutcome(Leaf(0), data, Arith);
    assert MinLen(data) == 2;
    var row0 := Row(data, 0);
    assert row0 == [Ints([1, 2]), Leaf(1)];
    HyperApplyOutcome(Leaf(0), row0, Arith);
    assert HyperApply(Leaf(0), row0, Arith) == Err(NotIterable);
  }

  /** Two function objects that reach one flag dict (as instances do through
      a class attribute): add_flags on one is seen by the other, while core
      gives the first a dict of its own and leaves the shared one alone. */
  method SharedFlagsScenario() {
    var shared := new FlagDict(map["a" := true]);
    var f := new FunctionObject();
    var g := new FunctionObject();
    f.mindsporeFlags := shared;
    g.mindsporeFlags := shared;
    var r := AddFlags(f, map["b" := false]);
    assert g.mindsporeFlags.m == map["a" := true, "b" := false];
    r := Core(f, map[]);
    assert f.mindsporeFlags != g.mindsporeFlags;
    assert f.mindsporeFlags.m.Keys == {"core"} && f.mindsporeFlags.m["core"];
    assert g.mindsporeFlags.m == map["a" := true, "b" := false];
  }
}
