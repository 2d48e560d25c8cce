/** The scenarios of the repository's test suite, stated about the model. */
module Examples {
  import opened Maybe
  import opened Values
  import opened Types
  import opened Constraint
  import opened Coercions
  import opened Fn
  import opened Sifted
  import ParseInt

  /** JavaScript `a % b`: the remainder takes the sign of the dividend. */
  function JsRem(a: int, b: int): int
    requires b > 0
  {
    if a >= 0 then a % b else -((-a) % b)
  }

  /** `x => x % 2 === 0` on numbers. */
  predicate Even(v: Value)
  {
    v.Num? && JsRem(v.n, 2) == 0
  }

  /** `x => x % 2 === 1` on numbers: negative odd numbers are not odd. */
  predicate Odd(v: Value)
  {
    v.Num? && JsRem(v.n, 2) == 1
  }

  function IsEven(): Processor<Value>
  {
    Check(Even, "is not even")
  }

  function IsOdd(): Processor<Value>
  {
    Check(Odd, "is not odd")
  }

  function IsPositive(): Processor<Value>
  {
    Check((v: Value) => v.Num? && v.n > 0, "is not positive")
  }

  // ---------------------------------------------------------------------
  // Contexts

  /** `{a: {b: [1, 2, 3]}}`. */
  function Nested(): Value
  {
    Obj(map["a" := Obj(map["b" := Arr([Num(1), Num(2), Num(3)])])])
  }

  /** The context of `a`, `b`, then index 1 under `Nested()`. */
  function NestedContext(): Context
  {
    Derive(Derive(Derive(RootOf(Nested()), Field("a")), Field("b")), Index(1))
  }

  lemma DeriveNestedValue()
    ensures NestedContext().value == Some(Num(2))
  {
    var c1 := Derive(RootOf(Nested()), Field("a"));
    assert c1.value == Some(Obj(map["b" := Arr([Num(1), Num(2), Num(3)])]));
    var c2 := Derive(c1, Field("b"));
    assert c2.value == Some(Arr([Num(1), Num(2), Num(3)]));
  }

  lemma DeriveNestedPath()
    ensures PathList(NestedContext()) == [Field("a"), Field("b"), Index(1)]
  {
    PathListThree(RootOf(Nested()), Field("a"), Field("b"), Index(1));
  }

  /** Three derive steps from a root list exactly those steps. */
  lemma PathListThree(c: Context, p: Path, q: Path, r: Path)
    requires c.Root?
    ensures PathList(Derive(Derive(Derive(c, p), q), r)) == [p, q, r]
  {
    PathListDerive(c, p);
    PathListDerive(Derive(c, p), q);
    PathListDerive(Derive(Derive(c, p), q), r);
  }

  /** The location of that context renders as `["a"]["b"][1]`. */
  lemma DeriveNestedText()
    ensures RenderPaths([Field("a"), Field("b"), Index(1)]) == "[\"a\"][\"b\"][1]"
  {
    RenderThree(Field("a"), Field("b"), Index(1));
    NestedTexts();
  }

  /** Three steps render as their texts, in order. */
  lemma RenderThree(p: Path, q: Path, r: Path)
    ensures RenderPaths([p, q, r]) == PathText(p) + PathText(q) + PathText(r)
  {
    var ps := [p, q, r];
    assert ps[..2] == [p, q];
    assert [p, q][..1] == [p];
    assert [p][..0] == [];
    assert RenderPaths([p]) == "" + PathText(p) == PathText(p);
    assert RenderPaths([p, q]) == PathText(p) + PathText(q);
  }

  /** The texts of the three steps. */
  lemma NestedTexts()
    ensures PathText(Field("a")) == "[\"a\"]"
    ensures PathText(Field("b")) == "[\"b\"]"
    ensures PathText(Index(1)) == "[1]"
  {
    assert ToRadixOne() == "1";
  }

  function ToRadixOne(): string
  {
    Numerals.ToRadix(1, 10)
  }

  /** A reason at that context is located at `["a"]["b"][1]`. */
  lemma NestedLocation(msg: string)
    ensures Location(Reason(NestedContext(), msg)) == "[\"a\"][\"b\"][1]"
  {
    DeriveNestedPath();
    DeriveNestedText();
  }

  /** `{a: [{b: {c: [3, 4]}}]}`. */
  function Deep(): Value
  {
    Obj(map["a" := Arr([Obj(map["b" := Obj(map["c" := Arr([Num(3), Num(4)])])])])])
  }

  /** The context of `a`, index 0, `b`, `c`, then index 1 under `Deep()`. */
  function DeepContext(): Context
  {
    Derive(Derive(Derive(Derive(Derive(RootOf(Deep()), Field("a")), Index(0)), Field("b")), Field("c")), Index(1))
  }

  /** Five steps down `Deep()` reach 4. */
  lemma DeriveDeepValue()
    ensures DeepContext().value == Some(Num(4))
  {
    var c1 := Derive(RootOf(Deep()), Field("a"));
    assert c1.value == Some(Arr([Obj(map["b" := Obj(map["c" := Arr([Num(3), Num(4)])])])]));
    var c2 := Derive(c1, Index(0));
    assert c2.value == Some(Obj(map["b" := Obj(map["c" := Arr([Num(3), Num(4)])])]));
    var c3 := Derive(c2, Field("b"));
    assert c3.value == Some(Obj(map["c" := Arr([Num(3), Num(4)])]));
    var c4 := Derive(c3, Field("c"));
    assert c4.value == Some(Arr([Num(3), Num(4)]));
  }

  /** Nothing is found under the number 4. */
  lemma NothingUnderNumber()
    ensures Derive(DeepContext(), Index(0)).value.None?
  {
    DeriveDeepValue();
  }

  /** `identity` on `Root(1)` is `Success(Just(1))`. */
  lemma IdentityOnRoot()
    ensures Run(Identity(), Num(1)) == Success(Some(Num(1)))
  {
  }

  /** `identity.asks(Property('a'))` on `{a: 1}` is `Success(Just(1))`. */
  lemma IdentityAsksField()
    ensures Run(Asks(Identity(), Field("a")), Obj(map["a" := Num(1)])) == Success(Some(Num(1)))
  {
  }

  // ---------------------------------------------------------------------
  // Constraints

  lemma ExistsCases()
    ensures Run(Exists(), Num(5)) == Success(Num(5))
    ensures Run(Exists(), Null) == Failure([Reason(Root(None), NotDefined)])
    ensures Run(Anything(), Null) == Success(None)
  {
  }

  lemma CheckCases()
    ensures Run(IsEven(), Num(2)) == Success(Num(2))
    ensures Run(IsEven(), Num(3)) == Failure([Reason(Root(Some(Num(3))), "is not even")])
  {
  }

  function EvenThenPositive(): (ps: seq<Processor<Value>>)
    ensures |ps| == 2
  {
    [IsEven(), IsPositive()]
  }

  /** `last([isEven, isPos])` on 2 is the final value. */
  lemma LastPasses()
    ensures Run(Last(EvenThenPositive()), Num(2)) == Success(Num(2))
  {
    var ps := EvenThenPositive();
    var c := RootOf(Num(2));
    assert ps[0].run(c).Success? && ps[1].run(c) == Success(Num(2));
    LastRun(ps, c);
  }

  /** `last([isEven, isPos])` on -1 gives both reasons, in order. */
  lemma LastAccumulates()
    ensures FailuresOf(Run(Last(EvenThenPositive()), Num(-1)))
      == [Reason(Root(Some(Num(-1))), "is not even"), Reason(Root(Some(Num(-1))), "is not positive")]
  {
    var c := RootOf(Num(-1));
    MinusOneFailsBoth(c);
    LastRun(EvenThenPositive(), c);
    AllFailuresTwo(EvenThenPositive(), c);
  }

  /** -1 is neither even nor positive. */
  lemma MinusOneFailsBoth(c: Context)
    requires c == RootOf(Num(-1))
    ensures c == Root(Some(Num(-1)))
    ensures FailuresOf(EvenThenPositive()[0].run(c)) == [Reason(c, "is not even")]
    ensures FailuresOf(EvenThenPositive()[1].run(c)) == [Reason(c, "is not positive")]
  {
    assert c.value == Some(Num(-1));
  }

  /** The reasons of two processors, in order. */
  lemma AllFailuresTwo<T>(fs: seq<Processor<T>>, c: Context)
    requires |fs| == 2
    ensures AllFailures(fs, c) == FailuresOf(fs[0].run(c)) + FailuresOf(fs[1].run(c))
  {
    assert fs[1..][1..] == [];
    assert AllFailures(fs[1..], c) == FailuresOf(fs[1].run(c)) + AllFailures(fs[1..][1..], c);
  }

  lemma PropertyPresent()
    ensures Run(Property(IsEven(), "a"), Obj(map["a" := Num(2)])) == Success(Pair("a", Num(2)))
  {
    var d := Derive(RootOf(Obj(map["a" := Num(2)])), Field("a"));
    assert d.value == Some(Num(2));
    assert IsEven().run(d) == Success(Num(2));
  }

  lemma PropertyInvalid()
    ensures Run(Property(IsEven(), "a"), Obj(map["a" := Num(1)])).Failure?
  {
    var d := Derive(RootOf(Obj(map["a" := Num(1)])), Field("a"));
    assert d.value == Some(Num(1));
    assert IsEven().run(d).Failure?;
  }

  lemma PropertyAbsent()
    ensures Run(Property(IsEven(), "a"), Obj(map["b" := Num(1)])).Failure?
  {
    var d := Derive(RootOf(Obj(map["b" := Num(1)])), Field("a"));
    assert d.value == None;
  }

  /** With options `{}`, a present field is checked as by `property`. */
  lemma OptionalPropertyPresent()
    ensures Run(OptionalProperty(IsEven(), ConfiguredDefault(map[]), "a"), Obj(map["a" := Num(2)]))
      == Success(Pair("a", Num(2)))
    ensures Run(OptionalProperty(IsEven(), ConfiguredDefault(map[]), "a"), Obj(map["a" := Num(1)])).Failure?
  {
    assert Derive(RootOf(Obj(map["a" := Num(2)])), Field("a")).value == Some(Num(2));
    assert Derive(RootOf(Obj(map["a" := Num(1)])), Field("a")).value == Some(Num(1));
    PropertyPresent();
    PropertyInvalid();
  }

  lemma OptionalPropertyNoDefault()
    ensures Run(OptionalProperty(IsEven(), None, "a"), Obj(map["b" := Num(1)])) == Success(Empty)
  {
    var d := Derive(RootOf(Obj(map["b" := Num(1)])), Field("a"));
    assert d.value == None;
  }

  lemma OptionalPropertyDefault()
    ensures Run(OptionalProperty(IsEven(), ConfiguredDefault(map["default" := Num(4)]), "a"), Obj(map["b" := Num(1)]))
      == Success(Pair("a", Num(4)))
  {
    var d := Derive(RootOf(Obj(map["b" := Num(1)])), Field("a"));
    assert d.value == None;
    assert ConfiguredDefault(map["default" := Num(4)]) == Some(Num(4));
  }

  lemma OptionalPropertyInvalid()
    ensures Run(OptionalProperty(IsEven(), ConfiguredDefault(map["default" := Num(4)]), "a"), Obj(map["a" := Num(1)])).Failure?
  {
    var d := Derive(RootOf(Obj(map["a" := Num(1)])), Field("a"));
    assert d.value == Some(Num(1));
    PropertyInvalid();
  }

  lemma RejectPropertyCases()
    ensures Run(RejectProperty<Value>("a"), Obj(map["b" := Num(1)])) == Success(Empty)
    ensures Run(RejectProperty<Value>("a"), Obj(map["a" := Num(1)])).Failure?
  {
    assert Derive(RootOf(Obj(map["b" := Num(1)])), Field("a")).value == None;
    assert Derive(RootOf(Obj(map["a" := Num(1)])), Field("a")).value == Some(Num(1));
  }

  /** Even `a`, odd `b`, even `c`. */
  function EvenOddEven(): (fs: seq<Processor<Entry<Value>>>)
    ensures |fs| == 3
  {
    [Property(IsEven(), "a"), Property(IsOdd(), "b"), Property(IsEven(), "c")]
  }

  /** `{a: 2, b: 2}`. */
  function TwoTwo(): Value
  {
    Obj(map["a" := Num(2), "b" := Num(2)])
  }

  /** `{a: 2, b: 1, c: 4}`. */
  function TwoOneFour(): Value
  {
    Obj(map["a" := Num(2), "b" := Num(1), "c" := Num(4)])
  }

  /** An even field passes `property(isEven, name)`. */
  lemma EvenField(c: Context, name: string, n: int)
    requires Derive(c, Field(name)).value == Some(Num(n)) && JsRem(n, 2) == 0
    ensures Property(IsEven(), name).run(c) == Success(Pair(name, Num(n)))
  {
    assert IsEven().run(Derive(c, Field(name))) == Success(Num(n));
  }

  /** An odd field passes `property(isOdd, name)`. */
  lemma OddField(c: Context, name: string, n: int)
    requires Derive(c, Field(name)).value == Some(Num(n)) && JsRem(n, 2) == 1
    ensures Property(IsOdd(), name).run(c) == Success(Pair(name, Num(n)))
  {
    assert IsOdd().run(Derive(c, Field(name))) == Success(Num(n));
  }

  /** The reasons of three processors, in order. */
  lemma AllFailuresThree<T>(fs: seq<Processor<T>>, c: Context)
    requires |fs| == 3
    ensures AllFailures(fs, c) == FailuresOf(fs[0].run(c)) + FailuresOf(fs[1].run(c)) + FailuresOf(fs[2].run(c))
  {
    var t := fs[1..][1..];
    assert t[1..] == [];
    assert AllFailures(t, c) == FailuresOf(fs[2].run(c)) + AllFailures(t[1..], c);
    assert AllFailures(fs[1..], c) == FailuresOf(fs[1].run(c)) + AllFailures(t, c);
  }

  /** The reasons of four processors, in order. */
  lemma AllFailuresFour<T>(fs: seq<Processor<T>>, c: Context)
    requires |fs| == 4
    ensures AllFailures(fs, c)
      == FailuresOf(fs[0].run(c)) + FailuresOf(fs[1].run(c)) + FailuresOf(fs[2].run(c)) + FailuresOf(fs[3].run(c))
  {
    AllFailuresThree(fs[1..], c);
  }

  /** In `{a: 2, b: 2}`, `a` is even. */
  lemma TwoTwoA(c: Context)
    requires c == RootOf(TwoTwo())
    ensures FailuresOf(EvenOddEven()[0].run(c)) == []
  {
    assert Derive(c, Field("a")).value == Some(Num(2));
    EvenField(c, "a", 2);
  }

  /** In `{a: 2, b: 2}`, `b` is not odd. */
  lemma TwoTwoB(c: Context)
    requires c == RootOf(TwoTwo())
    ensures FailuresOf(EvenOddEven()[1].run(c)) == [Reason(Derive(c, Field("b")), "is not odd")]
  {
    var d := Derive(c, Field("b"));
    assert d.value == Some(Num(2));
    assert IsOdd().run(d).reasons == [Reason(d, "is not odd")];
  }

  /** In `{a: 2, b: 2}`, `c` is missing. */
  lemma TwoTwoC(c: Context)
    requires c == RootOf(TwoTwo())
    ensures FailuresOf(EvenOddEven()[2].run(c)) == [Reason(Derive(c, Field("c")), NotDefined)]
  {
    assert Derive(c, Field("c")).value == None;
  }

  /** The first of three passes and the other two fail once each. */
  lemma LaterTwoFail<T>(fs: seq<Processor<T>>, c: Context, r1: Reason, r2: Reason)
    requires |fs| == 3
    requires FailuresOf(fs[0].run(c)) == []
    requires FailuresOf(fs[1].run(c)) == [r1] && FailuresOf(fs[2].run(c)) == [r2]
    ensures AllFailures(fs, c) == [r1, r2]
  {
    AllFailuresThree(fs, c);
  }

  /** `{a: 2, b: 2}` against even `a`, odd `b`, even `c`: exactly two
      reasons, `b`'s first. */
  lemma AssocAccumulates()
    ensures
      var c := RootOf(TwoTwo());
      FailuresOf(Run(Assoc(EvenOddEven()), TwoTwo()))
        == [Reason(Derive(c, Field("b")), "is not odd"), Reason(Derive(c, Field("c")), NotDefined)]
  {
    var c := RootOf(TwoTwo());
    TwoTwoA(c);
    TwoTwoB(c);
    TwoTwoC(c);
    LaterTwoFail(EvenOddEven(), c, Reason(Derive(c, Field("b")), "is not odd"), Reason(Derive(c, Field("c")), NotDefined));
    AssocRun(EvenOddEven(), c);
  }

  /** The fields of `{a: 2, b: 1, c: 4}`. */
  lemma TwoOneFourFields(c: Context)
    requires c == RootOf(TwoOneFour())
    ensures Derive(c, Field("a")).value == Some(Num(2))
    ensures Derive(c, Field("b")).value == Some(Num(1))
    ensures Derive(c, Field("c")).value == Some(Num(4))
  {
  }

  /** Even `a`, odd `b` and even `c` all pass. */
  lemma EvenOddEvenPass(c: Context, a: int, b: int, x: int)
    requires Derive(c, Field("a")).value == Some(Num(a)) && JsRem(a, 2) == 0
    requires Derive(c, Field("b")).value == Some(Num(b)) && JsRem(b, 2) == 1
    requires Derive(c, Field("c")).value == Some(Num(x)) && JsRem(x, 2) == 0
    ensures EvenOddEven()[0].run(c) == Success(Pair("a", Num(a)))
    ensures EvenOddEven()[1].run(c) == Success(Pair("b", Num(b)))
    ensures EvenOddEven()[2].run(c) == Success(Pair("c", Num(x)))
  {
    EvenField(c, "a", a);
    OddField(c, "b", b);
    EvenField(c, "c", x);
  }

  /** Three successes commute into the sequence of their values. */
  lemma CommuteThree<T>(fs: seq<Processor<T>>, c: Context, a: T, b: T, x: T)
    requires |fs| == 3
    requires fs[0].run(c) == Success(a) && fs[1].run(c) == Success(b) && fs[2].run(c) == Success(x)
    ensures Commute(fs).run(c) == Success([a, b, x])
  {
    CommuteSucceeds(fs, c, [a, b, x]);
  }

  /** Three pairs with distinct keys make the object of those three. */
  lemma FromThreePairs()
    ensures FromPairs([Pair("a", Num(2)), Pair("b", Num(1)), Pair("c", Num(4))])
      == map["a" := Num(2), "b" := Num(1), "c" := Num(4)]
  {
    var es := [Pair("a", Num(2)), Pair("b", Num(1)), Pair("c", Num(4))];
    assert es[..2] == [Pair("a", Num(2)), Pair("b", Num(1))];
    assert es[..2][..1] == [Pair("a", Num(2))];
    assert es[..2][..1][..0] == [];
    assert FromPairs(es[..2][..1]) == map["a" := Num(2)];
    assert FromPairs(es[..2]) == map["a" := Num(2), "b" := Num(1)];
  }

  /** `{a: 2, b: 1, c: 4}` passes and becomes an object with the same
      fields. */
  lemma AssocBuildsObject()
    ensures Run(Assoc(EvenOddEven()), TwoOneFour()) == Success(map["a" := Num(2), "b" := Num(1), "c" := Num(4)])
  {
    var c := RootOf(TwoOneFour());
    TwoOneFourFields(c);
    EvenOddEvenPass(c, 2, 1, 4);
    CommuteThree(EvenOddEven(), c, Pair("a", Num(2)), Pair("b", Num(1)), Pair("c", Num(4)));
    FromThreePairs();
  }

  /** `[2, 4, 6, 8]`. */
  function Evens(): Value
  {
    Arr([Num(2), Num(4), Num(6), Num(8)])
  }

  /** `[2, 5, 8, 9]`. */
  function Mixed(): Value
  {
    Arr([Num(2), Num(5), Num(8), Num(9)])
  }

  /** An even item passes `isEven` at its index. */
  lemma EvenItem(c: Context, i: nat)
    requires c.value.Some? && c.value.value.Arr? && i < |c.value.value.items|
    requires Even(c.value.value.items[i])
    ensures IsEven().run(Derive(c, Index(i))) == Success(c.value.value.items[i])
  {
    assert Derive(c, Index(i)).value == Some(c.value.value.items[i]);
  }

  /** An odd item fails `isEven` with one reason at its index. */
  lemma OddItem(c: Context, i: nat)
    requires c.value.Some? && c.value.value.Arr? && i < |c.value.value.items|
    requires c.value.value.items[i].Num? && !Even(c.value.value.items[i])
    ensures FailuresOf(IsEven().run(Derive(c, Index(i)))) == [Reason(Derive(c, Index(i)), "is not even")]
  {
    assert Derive(c, Index(i)).value == Some(c.value.value.items[i]);
  }

  /** `array(exists, onItem)` on four items reports the reasons of exactly
      those four. */
  lemma ArrayOfFour<T>(onItem: Processor<T>, c: Context)
    requires c.value.Some? && c.value.value.Arr? && |c.value.value.items| == 4
    ensures FailuresOf(Array(Exists(), onItem).run(c)) == AllFailures(ItemProcessors(onItem, 4), c)
  {
    assert Derive(c, Field("length")).value == Some(Num(4));
    ArrayFailuresAreItems(Exists(), onItem, c);
  }

  /** A successful `array(exists, onItem)` on four items holds their four
      values. */
  lemma ArrayOfFourValues<T>(onItem: Processor<T>, c: Context)
    requires c.value.Some? && c.value.value.Arr? && |c.value.value.items| == 4
    requires Array(Exists(), onItem).run(c).Success?
    ensures |Array(Exists(), onItem).run(c).value| == 4
    ensures forall i: nat :: i < 4 ==>
      onItem.run(Derive(c, Index(i))).Success? && Array(Exists(), onItem).run(c).value[i] == onItem.run(Derive(c, Index(i))).value
  {
    assert Derive(c, Field("length")).value == Some(Num(4));
    ArrayValuesAreItems(Exists(), onItem, c);
  }

  /** A result without reasons is a success. */
  lemma FailuresOfEmpty<T>(r: Result<T>)
    requires FailuresOf(r) == []
    ensures r.Success?
  {
  }

  /** A success holding four known values. */
  lemma SuccessFour<T>(r: Result<seq<T>>, a: T, b: T, x: T, y: T)
    requires r.Success? && |r.value| == 4
    requires r.value[0] == a && r.value[1] == b && r.value[2] == x && r.value[3] == y
    ensures r == Success([a, b, x, y])
  {
    assert r.value == [a, b, x, y];
  }

  /** Four items that all pass leave no reason. */
  lemma ItemsOfFourPass<T>(onItem: Processor<T>, c: Context)
    requires forall i: nat :: i < 4 ==> onItem.run(Derive(c, Index(i))).Success?
    ensures AllFailures(ItemProcessors(onItem, 4), c) == []
  {
    var ps := ItemProcessors(onItem, 4);
    AllFailuresFour(ps, c);
    assert ps[0].run(c).Success? && ps[1].run(c).Success?;
    assert ps[2].run(c).Success? && ps[3].run(c).Success?;
  }

  /** Four items that all pass make `array(exists, onItem)` succeed. */
  lemma ArrayOfFourSucceeds<T>(onItem: Processor<T>, c: Context)
    requires c.value.Some? && c.value.value.Arr? && |c.value.value.items| == 4
    requires forall i: nat :: i < 4 ==> onItem.run(Derive(c, Index(i))).Success?
    ensures Array(Exists(), onItem).run(c).Success?
  {
    ItemsOfFourPass(onItem, c);
    ArrayOfFour(onItem, c);
    FailuresOfEmpty(Array(Exists(), onItem).run(c));
  }

  /** Four items that all pass give the array of their values. */
  lemma ArrayOfFourPasses<T>(onItem: Processor<T>, c: Context, a: T, b: T, x: T, y: T)
    requires c.value.Some? && c.value.value.Arr? && |c.value.value.items| == 4
    requires onItem.run(Derive(c, Index(0))) == Success(a) && onItem.run(Derive(c, Index(1))) == Success(b)
    requires onItem.run(Derive(c, Index(2))) == Success(x) && onItem.run(Derive(c, Index(3))) == Success(y)
    ensures Array(Exists(), onItem).run(c) == Success([a, b, x, y])
  {
    ArrayOfFourSucceeds(onItem, c);
    ArrayOfFourValues(onItem, c);
    SuccessFour(Array(Exists(), onItem).run(c), a, b, x, y);
  }

  /** `array(exists, isEven)` passes `[2, 4, 6, 8]` unchanged. */
  lemma ArrayPasses()
    ensures Run(Array(Exists(), IsEven()), Evens()) == Success([Num(2), Num(4), Num(6), Num(8)])
  {
    var c := RootOf(Evens());
    EvensPass(c);
    ArrayOfFourPasses(IsEven(), c, Num(2), Num(4), Num(6), Num(8));
  }

  /** Each item of `[2, 4, 6, 8]` passes `isEven` at its index. */
  lemma EvensPass(c: Context)
    requires c == RootOf(Evens())
    ensures c.value.Some? && c.value.value.Arr? && |c.value.value.items| == 4
    ensures IsEven().run(Derive(c, Index(0))) == Success(Num(2))
    ensures IsEven().run(Derive(c, Index(1))) == Success(Num(4))
    ensures IsEven().run(Derive(c, Index(2))) == Success(Num(6))
    ensures IsEven().run(Derive(c, Index(3))) == Success(Num(8))
  {
    assert c.value == Some(Arr([Num(2), Num(4), Num(6), Num(8)]));
    EvenItem(c, 0);
    EvenItem(c, 1);
    EvenItem(c, 2);
    EvenItem(c, 3);
  }

  /** The items of `[2, 5, 8, 9]`: 1 and 3 are not even. */
  lemma MixedItems(c: Context)
    requires c == RootOf(Mixed())
    ensures AllFailures(ItemProcessors(IsEven(), 4), c)
      == [Reason(Derive(c, Index(1)), "is not even"), Reason(Derive(c, Index(3)), "is not even")]
  {
    var ps := ItemProcessors(IsEven(), 4);
    EvenItem(c, 0);
    OddItem(c, 1);
    EvenItem(c, 2);
    OddItem(c, 3);
    AllFailuresFour(ps, c);
  }

  /** `array(exists, isEven)` on `[2, 5, 8, 9]`: one reason at index 1 and
      one at index 3. */
  lemma ArrayAccumulates()
    ensures
      var c := RootOf(Mixed());
      FailuresOf(Run(Array(Exists(), IsEven()), Mixed()))
        == [Reason(Derive(c, Index(1)), "is not even"), Reason(Derive(c, Index(3)), "is not even")]
  {
    var c := RootOf(Mixed());
    ArrayOfFour(IsEven(), c);
    MixedItems(c);
  }

  lemma ArrayRejectsObject()
    ensures Run(Array(Exists(), IsEven()), Obj(map[])) == Failure([Reason(Root(Some(Obj(map[]))), KindMessage(ArrayKind))])
  {
    ArrayRejectsNonArray(Exists(), IsEven(), RootOf(Obj(map[])));
  }

  lemma ComparisonCases()
    ensures Run(IsEq(Num(1)), Num(1)) == Success(Num(1))
    ensures Run(IsEq(Num(1)), Num(2)).Failure?
    ensures Run(IsString(), Str("hi")) == Success(Str("hi"))
    ensures Run(IsString(), Num(1)).Failure?
  {
  }

  // ---------------------------------------------------------------------
  // Coercions

  lemma IdCases()
    ensures Run(Id(NumberKind), Num(1)) == Success(Num(1))
    ensures Run(Id(NumberKind), Str("1")).Failure?
  {
  }

  lemma ParseOne()
    ensures ParseInt.ParseInt("1", 10) == Some(1)
  {
    ParseInt.ParseIntReadsDigits(1, "", 10);
    assert ToRadixOne() + "" == "1";
  }

  lemma ParseFoo()
    ensures ParseInt.ParseInt("foo", 10) == None
  {
    ParseInt.ParseIntNoLeadingDigit("foo", 10);
  }

  lemma IntegerCoercionCases()
    ensures Run(IntegerCoercion(10), Str("1")) == Success(Num(1))
    ensures Run(IntegerCoercion(10), Str("foo")).Failure?
  {
    ParseOne();
    ParseFoo();
  }

  /** `coercer(Number, [integerCoercion(10)])` parses a string. */
  lemma CoercerParses()
    ensures Run(Coercer(NumberKind, [IntegerCoercion(10)]), Str("1")) == Success(Num(1))
  {
    IntegerCoercionCases();
    CoercerFirstSuccess(NumberKind, [IntegerCoercion(10)], RootOf(Str("1")), 0);
  }

  /** A number passes the same coercer without its candidate. */
  lemma CoercerKeepsNumber()
    ensures Run(Coercer(NumberKind, [IntegerCoercion(10)]), Num(1)) == Success(Num(1))
  {
    CoercerKeepsKind(NumberKind, [IntegerCoercion(10)], RootOf(Num(1)));
  }

  /** An unparsable string gets only the summary reason. */
  lemma CoercerSummarises()
    ensures Run(Coercer(NumberKind, [IntegerCoercion(10)]), Str("foo"))
      == Failure([Reason(Root(Some(Str("foo"))), NoneSucceeded)])
  {
    IntegerCoercionCases();
    CoercerAllFail(NumberKind, [IntegerCoercion(10)], RootOf(Str("foo")));
  }

  // ---------------------------------------------------------------------
  // Helpers

  lemma FlowCases()
    ensures FlowRight(Success(1), Success(2)) == Success(2)
    ensures FlowRight<int, int>(Failure([Reason(Root(None), "a")]), Success(2)).Failure?
    ensures FlowRight<int, int>(Success(1), Failure([Reason(Root(None), "b")])).Failure?
  {
  }

  // ---------------------------------------------------------------------
  // Entry point

  /** `run(isNumber, 1)` succeeds with 1. */
  lemma RunIsNumber()
    ensures Run(IsNumber(), Num(1)) == Success(Num(1))
  {
  }
}
